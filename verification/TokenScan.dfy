/** Finding the token in the output of the shell command: the last line that is not blank. */
module TokenScan {

  /** unicode.IsSpace */
  predicate IsSpace(c: char) {
    || '\t' <= c <= '\r'
    || c == ' '
    || c == '\U{85}'
    || c == '\U{A0}'
    || c == '\U{1680}'
    || '\U{2000}' <= c <= '\U{200A}'
    || c == '\U{2028}'
    || c == '\U{2029}'
    || c == '\U{202F}'
    || c == '\U{205F}'
    || c == '\U{3000}'
  }

  predicate Blank(s: string) {
    forall c | c in s :: IsSpace(c)
  }

  /** The number of white space characters at the start. */
  function Leading(s: string): (n: nat)
    ensures n <= |s| && Blank(s[..n]) && (n < |s| ==> !IsSpace(s[n]))
  {
    if s != "" && IsSpace(s[0]) then
      var n := 1 + Leading(s[1..]);
      assert s[..n] == [s[0]] + s[1..][..n - 1];
      n
    else 0
  }

  /** The length that is left when white space at the end is cut. */
  function Kept(s: string): (n: nat)
    ensures n <= |s| && Blank(s[n..]) && (n > 0 ==> !IsSpace(s[n - 1]))
  {
    if s != "" && IsSpace(s[|s| - 1]) then
      var n := Kept(s[..|s| - 1]);
      assert s[n..] == s[..|s| - 1][n..] + [s[|s| - 1]];
      n
    else |s|
  }

  /** strings.TrimSpace */
  function TrimSpace(s: string): string {
    var t := s[Leading(s)..];
    t[..Kept(t)]
  }

  /** Not empty, and neither starts nor ends with white space. */
  predicate Trimmed(t: string) {
    t != "" && !IsSpace(t[0]) && !IsSpace(t[|t| - 1])
  }

  /** `s` is `t` between two stretches of white space. */
  ghost predicate Padded(s: string, t: string) {
    exists i, j :: 0 <= i <= j <= |s| && s[i..j] == t && Blank(s[..i]) && Blank(s[j..])
  }

  /** Trimming cuts white space only, and all of it at both ends. */
  lemma {:induction false} TrimSpaceCuts(s: string)
    ensures Padded(s, TrimSpace(s))
    ensures TrimSpace(s) == "" || Trimmed(TrimSpace(s))
    ensures TrimSpace(s) == "" <==> Blank(s)
  {
    hide IsSpace, Leading, Kept;
    var i := Leading(s);
    var t := s[i..];
    var j := Kept(t);
    assert s[i..i + j] == t[..j] && s[i + j..] == t[j..];
    if j > 0 {
      assert t[0] == s[i] && s[i] in s;
    } else {
      assert s == s[..i] + s[i..];
    }
  }

  // ---------------------------------------------------------------- lines

  /** The lines of a text that has one more character. */
  function Extend(lines: seq<string>, c: char): (r: seq<string>)
    requires lines != []
    ensures r != []
  {
    if c == '\n' then lines + [""]
    else lines[..|lines| - 1] + [lines[|lines| - 1] + [c]]
  }

  /** strings.Split(s, "\n") */
  function SplitLines(s: string): (r: seq<string>)
    ensures r != []
  {
    if s == "" then [""] else Extend(SplitLines(s[..|s| - 1]), s[|s| - 1])
  }

  lemma SplitLast(s: string, c: char)
    ensures SplitLines(s + [c]) == Extend(SplitLines(s), c)
  {
    assert (s + [c])[..|s|] == s;
  }

  lemma ExtendConcat(a: seq<string>, b: seq<string>, c: char)
    requires b != []
    ensures Extend(a + b, c) == a + Extend(b, c)
  {
    assert (a + b)[..|a + b| - 1] == a + b[..|b| - 1];
  }

  lemma SplitEmpty()
    ensures SplitLines("") == [""]
  {
  }

  lemma {:induction false} SplitAtBreak(a: string, b: string)
    ensures SplitLines(a + "\n" + b) == SplitLines(a) + SplitLines(b)
  {
    hide SplitLines, Extend;
    if b == "" {
      SplitEmpty();
      SplitLast(a, '\n');
      ExtendAtBreak(SplitLines(a));
      assert a + "\n" + b == a + ['\n'];
    } else {
      var front, c := b[..|b| - 1], b[|b| - 1];
      SplitAtBreak(a, front);
      SplitLast(a + "\n" + front, c);
      SplitLast(front, c);
      ExtendConcat(SplitLines(a), SplitLines(front), c);
      assert front + [c] == b && a + "\n" + b == (a + "\n" + front) + [c];
    }
  }

  lemma ExtendAtBreak(lines: seq<string>)
    requires lines != []
    ensures Extend(lines, '\n') == lines + [""]
  {
  }

  // ---------------------------------------------------------------- the scan

  /** The last line that is not blank, trimmed; empty when there is none. */
  function LastToken(lines: seq<string>): string {
    if lines == [] then ""
    else
      var line := TrimSpace(lines[|lines| - 1]);
      if line != "" then line else LastToken(lines[..|lines| - 1])
  }

  function TokenLine(output: string): string {
    LastToken(SplitLines(output))
  }

  method ScanOutput(output: string) returns (tokenKey: string)
    ensures tokenKey == TokenLine(output)
  {
    var lines := SplitLines(output);
    tokenKey := "";
    var i := |lines| - 1;
    assert lines[..|lines|] == lines;
    while i >= 0
      invariant -1 <= i < |lines|
      invariant LastToken(lines[..i + 1]) == LastToken(lines)
      decreases i
    {
      assert lines[..i + 1][..i] == lines[..i];
      var line := TrimSpace(lines[i]);
      if line != "" {
        tokenKey := line;
        return;
      }
      i := i - 1;
    }
  }

  ghost predicate AllBlank(lines: seq<string>) {
    forall l | l in lines :: Blank(l)
  }

  lemma {:induction false} LastTokenOfConcat(a: seq<string>, b: seq<string>)
    ensures LastToken(a + b) == if LastToken(b) != "" then LastToken(b) else LastToken(a)
  {
    if b == [] {
      assert a + b == a;
    } else {
      LastTokenOfConcat(a, b[..|b| - 1]);
      assert (a + b)[..|a + b| - 1] == a + b[..|b| - 1];
    }
  }

  /** `lines[i]` is the last line that is not blank. */
  ghost predicate LastNonBlank(lines: seq<string>, i: int) {
    0 <= i < |lines| && !Blank(lines[i]) && forall j :: i < j < |lines| ==> Blank(lines[j])
  }

  /** The result is the trimmed last line that is not blank; it is empty exactly when all lines are blank. */
  lemma {:induction false} LastTokenIs(lines: seq<string>)
    ensures LastToken(lines) == "" <==> AllBlank(lines)
    ensures LastToken(lines) != "" ==> exists i :: LastNonBlank(lines, i) && LastToken(lines) == TrimSpace(lines[i])
  {
    hide IsSpace, TrimSpace, Trimmed, Padded, Blank;
    if lines != [] {
      var n := |lines| - 1;
      var front := lines[..n];
      TrimSpaceCuts(lines[n]);
      LastTokenIs(front);
      assert lines == front + [lines[n]];
      if !Blank(lines[n]) {
        assert LastNonBlank(lines, n);
        assert lines[n] in lines;
      } else if LastToken(front) != "" {
        var i :| LastNonBlank(front, i) && LastToken(front) == TrimSpace(front[i]);
        assert LastNonBlank(lines, i);
      }
    }
  }

  /** Empty, or made of whole lines. */
  predicate LineTerminated(s: string) {
    s == "" || s[|s| - 1] == '\n'
  }

  /** A banner of whole lines before the output, and blank lines after it, change nothing. */
  lemma {:induction false} BannerAndBlanksAreIgnored(banner: string, output: string, blanks: string)
    requires LineTerminated(banner) && TokenLine(output) != "" && Blank(blanks)
    ensures TokenLine(banner + output + "\n" + blanks) == TokenLine(output)
  {
    hide IsSpace, TrimSpace, SplitLines, LastToken, LastNonBlank;
    SplitAtBreak(banner + output, blanks);
    BlankLinesIff(blanks);
    LastTokenIs(SplitLines(blanks));
    LastTokenOfConcat(SplitLines(banner + output), SplitLines(blanks));
    if banner == "" {
      assert banner + output == output;
    } else {
      var head := banner[..|banner| - 1];
      assert banner + output == head + "\n" + output;
      SplitAtBreak(head, output);
      LastTokenOfConcat(SplitLines(head), SplitLines(output));
    }
  }

  // ---------------------------------------------------------------- a printed key

  /** What stands after the last line break. */
  function LastLine(s: string): string {
    var lines := SplitLines(s);
    lines[|lines| - 1]
  }

  /** No line break, not empty, and no white space at either end. */
  predicate TokenLike(key: string) {
    Trimmed(key) && '\n' !in key
  }

  lemma TokenLikeIsNotEmpty(key: string)
    requires TokenLike(key)
    ensures key != ""
  {
  }

  lemma {:induction false} LinesHaveNoBreak(s: string)
    ensures forall l | l in SplitLines(s) :: '\n' !in l
  {
    hide IsSpace;
    if s != "" { LinesHaveNoBreak(s[..|s| - 1]); }
  }

  lemma {:induction false} SplitAppend(a: string, b: string)
    requires '\n' !in b
    ensures var front := SplitLines(a)[..|SplitLines(a)| - 1];
            SplitLines(a + b) == front + [LastLine(a) + b]
  {
    hide SplitLines, Extend;
    var lines := SplitLines(a);
    var front := lines[..|lines| - 1];
    if b == "" {
      assert a + b == a && LastLine(a) + b == LastLine(a);
    } else {
      var rest, c := b[..|b| - 1], b[|b| - 1];
      SplitAppend(a, rest);
      SplitLast(a + rest, c);
      ExtendLast(front, LastLine(a) + rest, c);
      assert (a + rest) + [c] == a + b && (LastLine(a) + rest) + [c] == LastLine(a) + b;
    }
  }

  lemma ExtendLast(front: seq<string>, line: string, c: char)
    requires c != '\n'
    ensures Extend(front + [line], c) == front + [line + [c]]
  {
  }

  lemma {:induction false} ScannedIsTokenLike(lines: seq<string>)
    requires forall l | l in lines :: '\n' !in l
    ensures LastToken(lines) == "" || TokenLike(LastToken(lines))
  {
    hide IsSpace, TrimSpace, Padded;
    if lines != [] {
      var line := lines[|lines| - 1];
      TrimSpaceCuts(line);
      PaddedHasNoBreak(line, TrimSpace(line));
      ScannedIsTokenLike(lines[..|lines| - 1]);
    }
  }

  lemma PaddedHasNoBreak(s: string, t: string)
    requires Padded(s, t) && '\n' !in s
    ensures '\n' !in t
  {
  }

  lemma {:induction false} TrimPrefixedIff(tail: string, key: string)
    requires Trimmed(key)
    ensures TrimSpace(tail + key) != ""
    ensures TrimSpace(tail + key) == key <==> Blank(tail)
  {
    hide IsSpace, Leading, Kept;
    var s := tail + key;
    TrimSpaceCuts(s);
    assert s[|tail|] == key[0] && s[|tail|] in s;
    LeadingIs(tail, key);
    var i := Leading(s);
    assert s[i..][|s[i..]| - 1] == key[|key| - 1];
    assert TrimSpace(s) == s[i..];
    if Blank(tail) {
      assert s[|tail|..] == key;
    }
  }

  lemma {:induction false} LeadingIs(tail: string, key: string)
    requires Trimmed(key)
    ensures if Blank(tail) then Leading(tail + key) == |tail| else Leading(tail + key) < |tail|
  {
    hide IsSpace;
    if tail == "" {
      assert tail + key == key;
    } else {
      LeadingIs(tail[1..], key);
      assert (tail + key)[1..] == tail[1..] + key;
      assert tail == [tail[0]] + tail[1..];
    }
  }

  /** A printed key comes back exactly when it is token-like and no text stands before it on its line. */
  lemma {:induction false} PrintedKeyIsFoundIff(banner: string, key: string)
    requires key != ""
    ensures TokenLine(banner + key + "\n") == key <==> TokenLike(key) && Blank(LastLine(banner))
    ensures TokenLike(key) ==> TokenLine(banner + key + "\n") != ""
  {
    hide IsSpace, TrimSpace, Blank, SplitLines, LastToken, Trimmed;
    var text := banner + key;
    SplitAtBreak(text, "");
    assert text + "\n" + "" == text + "\n";
    LastTokenOfConcat(SplitLines(text), SplitLines(""));
    NothingToScan();
    LinesHaveNoBreak(text);
    ScannedIsTokenLike(SplitLines(text));
    if TokenLike(key) {
      SplitAppend(banner, key);
      TrimPrefixedIff(LastLine(banner), key);
      var front := SplitLines(banner)[..|SplitLines(banner)| - 1];
      LastTokenEndsWith(front, LastLine(banner) + key);
    }
  }

  lemma NothingToScan()
    ensures LastToken(SplitLines("")) == ""
  {
    assert SplitLines("") == [""];
    assert LastToken([""]) == LastToken([""][..0]);
  }

  lemma LastTokenEndsWith(front: seq<string>, line: string)
    requires TrimSpace(line) != ""
    ensures LastToken(front + [line]) == TrimSpace(line)
  {
  }

  lemma {:induction false} BlankLinesIff(s: string)
    ensures AllBlank(SplitLines(s)) <==> Blank(s)
  {
    hide IsSpace, SplitLines, Extend;
    if s == "" {
      SplitEmpty();
      assert "" in SplitLines("");
    } else {
      var front, c := s[..|s| - 1], s[|s| - 1];
      BlankLinesIff(front);
      SplitLast(front, c);
      assert front + [c] == s;
      BlankExtendIff(SplitLines(front), c);
      assert Blank(s) <==> Blank(front) && IsSpace(c);
    }
  }

  lemma BlankExtendIff(lines: seq<string>, c: char)
    requires lines != []
    ensures AllBlank(Extend(lines, c)) <==> AllBlank(lines) && IsSpace(c)
  {
    var n := |lines| - 1;
    var front, last := lines[..n], lines[n];
    assert lines == front + [last];
    if c == '\n' {
      assert IsSpace('\n');
      var more := Extend(lines, c);
      assert more == lines + [""];
    } else {
      var more := Extend(lines, c);
      assert more == front + [last + [c]];
      BlankEndIff(last, c);
      assert AllBlank(more) <==> AllBlank(front) && Blank(last + [c]);
      assert AllBlank(lines) <==> AllBlank(front) && Blank(last);
    }
  }

  lemma BlankEndIff(s: string, c: char)
    ensures Blank(s + [c]) <==> Blank(s) && IsSpace(c)
  {
    hide IsSpace;
    assert forall x | x in s :: x in s + [c];
    assert c in s + [c];
  }

  /** Output yields no key exactly when it is all white space. */
  lemma {:induction false} NothingScannedIff(output: string)
    ensures TokenLine(output) == "" <==> Blank(output)
  {
    hide IsSpace, SplitLines, LastToken, LastNonBlank;
    LastTokenIs(SplitLines(output));
    BlankLinesIff(output);
  }
}
