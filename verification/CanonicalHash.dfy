/**
 The canonical hash of a secret's data: collect the keys, sort them, print every entry as
 a line `key=value`, and digest the text.  The digest is a parameter, so that what is
 proved here is about the printed form.
 */
module CanonicalHash {
  import opened Text
  import opened Wrappers

  // ---------------------------------------------------------------- sorted keys

  ghost predicate Increasing(ks: seq<string>) {
    forall i, j :: 0 <= i < j < |ks| ==> Before(ks[i], ks[j])
  }

  lemma {:induction false} LeastExists(ks: set<string>) returns (k: string)
    requires ks != {}
    ensures k in ks && forall x | x in ks && x != k :: Before(k, x)
  {
    k :| k in ks;
    if ks != {k} {
      var l := LeastExists(ks - {k});
      BeforeIsTotal(k, l);
      if Before(k, l) {
        forall x | x in ks && x != k ensures Before(k, x) {
          if x != l { BeforeIsTransitive(k, l, x); }
        }
      } else {
        k := l;
      }
    }
  }

  ghost predicate IsLeast(k: string, ks: set<string>) {
    k in ks && forall x | x in ks && x != k :: Before(k, x)
  }

  ghost function SortedKeys(ks: set<string>): (r: seq<string>)
    ensures Increasing(r)
    ensures forall k :: k in r <==> k in ks
    ensures |r| == |ks|
  {
    if ks == {} then []
    else
      assert exists k :: IsLeast(k, ks) by {
        var k := LeastExists(ks);
        assert IsLeast(k, ks);
      }
      var k :| IsLeast(k, ks);
      [k] + SortedKeys(ks - {k})
  }

  /** There is one increasing enumeration of a set. */
  lemma {:induction false} IncreasingIsUnique(a: seq<string>, b: seq<string>)
    requires Increasing(a) && Increasing(b)
    requires forall k :: k in a <==> k in b
    ensures a == b
  {
    assert b != [] ==> b[0] in a;
    if a != [] {
      assert a[0] in b;
      if a[0] != b[0] {
        BeforeIsStrict(a[0], b[0]);
      }
      forall k ensures k in a[1..] <==> k in b[1..] {
        BeforeIsStrict(a[0], a[0]);
        assert a == [a[0]] + a[1..] && b == [b[0]] + b[1..];
        if k in a[1..] { assert k != a[0]; assert k in b; }
        if k in b[1..] { assert k != b[0]; assert k in a; }
      }
      IncreasingIsUnique(a[1..], b[1..]);
      assert a == [a[0]] + a[1..] && b == [b[0]] + b[1..];
    }
  }

  // ---------------------------------------------------------------- printed form

  function Line(k: string, v: string): string {
    k + "=" + v + "\n"
  }

  function Print(ks: seq<string>, m: Data): string
    requires forall k | k in ks :: k in m
  {
    if ks == [] then "" else Line(ks[0], m[ks[0]]) + Print(ks[1..], m)
  }

  lemma PrintNone(m: Data)
    ensures Print([], m) == ""
  {
  }

  lemma PrintStep(b: string, ks: seq<string>, i: nat, m: Data)
    requires i < |ks| && forall k | k in ks :: k in m
    ensures (b + Line(ks[i], m[ks[i]])) + Print(ks[i + 1..], m) == b + Print(ks[i..], m)
  {
  }

  ghost function Printed(m: Data): string {
    Print(SortedKeys(m.Keys), m)
  }

  ghost function Hash(m: Data, digest: string -> string): string {
    "sha256:" + digest(Printed(m))
  }

  // ---------------------------------------------------------------- the program

  /** A key put in its place, before the first greater one. */
  lemma PutInPlace(r: seq<string>, i: nat, key: string)
    requires Increasing(r) && i <= |r| && key !in r
    requires forall j :: 0 <= j < i ==> Before(r[j], key)
    requires i < |r| ==> !Before(r[i], key)
    ensures Increasing(r[..i] + [key] + r[i..])
    ensures forall k :: k in r[..i] + [key] + r[i..] <==> k in r || k == key
  {
    hide Before;
    assert r == r[..i] + r[i..];
    forall j | i <= j < |r| ensures Before(key, r[j]) {
      BeforeIsTotal(r[i], key);
      if j > i { BeforeIsTransitive(key, r[i], r[j]); }
    }
  }

  lemma NothingIsIncreasing()
    ensures Increasing([])
  {
  }

  /** sort.Strings on a list of distinct keys. */
  method SortStrings(keys: seq<string>) returns (r: seq<string>)
    requires forall i, j :: 0 <= i < j < |keys| ==> keys[i] != keys[j]
    ensures Increasing(r)
    ensures forall k :: k in r <==> k in keys
  {
    hide Before, Increasing;
    r := [];
    NothingIsIncreasing();
    for n := 0 to |keys|
      invariant Increasing(r)
      invariant forall k :: k in r <==> k in keys[..n]
    {
      var key := keys[n];
      var i := 0;
      while i < |r| && Before(r[i], key)
        invariant 0 <= i <= |r|
        invariant forall j :: 0 <= j < i ==> Before(r[j], key)
      {
        i := i + 1;
      }
      assert keys[..n + 1] == keys[..n] + [key];
      PutInPlace(r, i, key);
      r := r[..i] + [key] + r[i..];
    }
    assert keys[..|keys|] == keys;
  }

  /** Ranging over a map yields every key once, in an arbitrary order. */
  method CollectKeys(data: Data) returns (keys: seq<string>)
    ensures forall k :: k in keys <==> k in data
    ensures forall i, j :: 0 <= i < j < |keys| ==> keys[i] != keys[j]
  {
    keys := [];
    var unseen := data.Keys;
    while unseen != {}
      invariant unseen <= data.Keys
      invariant forall k :: k in keys <==> k in data && k !in unseen
      invariant forall i, j :: 0 <= i < j < |keys| ==> keys[i] != keys[j]
    {
      var k :| k in unseen;
      assert k !in keys;
      keys := keys + [k];
      unseen := unseen - {k};
    }
  }

  /** Whatever order the keys arrive in, the result is a function of the map alone. */
  method ComputeSecretHash(data: Data, digest: string -> string) returns (h: string)
    ensures h == Hash(data, digest)
    ensures "sha256:" <= h
  {
    hide Print, Line, Before, SortedKeys;
    var keys := CollectKeys(data);
    keys := SortStrings(keys);
    IncreasingIsUnique(keys, SortedKeys(data.Keys));

    var b := "";
    assert keys[0..] == keys;
    PrintNone(data);
    for i := 0 to |keys|
      invariant b + Print(keys[i..], data) == Print(keys, data)
    {
      PrintStep(b, keys, i, data);
      b := b + Line(keys[i], data[keys[i]]);
    }
    assert keys[|keys|..] == [];
    assert b == Printed(data);
    h := "sha256:" + digest(b);
  }

  // ---------------------------------------------------------------- when printing is injective

  /** Neither '=' nor a line break: true of every key that Kubernetes accepts in a secret. */
  predicate CleanKey(k: string) {
    '=' !in k && '\n' !in k
  }

  ghost predicate CleanKeys(m: Data) {
    forall k | k in m :: CleanKey(k)
  }

  /** No value of `m` has a line that starts like an entry of `other`. */
  ghost predicate Separated(m: Data, other: Data) {
    forall k, q | k in m && q in other :: !Contains(m[k], "\n" + q + "=")
  }

  /** Two maps that the hash is able to tell apart. */
  ghost predicate Comparable(m1: Data, m2: Data) {
    && CleanKeys(m1) && CleanKeys(m2)
    && Separated(m1, m2) && Separated(m2, m1)
  }

  ghost predicate Injective(digest: string -> string) {
    forall x, y :: digest(x) == digest(y) ==> x == y
  }

  /** Every line of the text but the first starts with a space; so does a text of one line. */
  predicate Indented(v: string) {
    forall i :: 0 <= i < |v| - 1 && v[i] == '\n' ==> v[i + 1] == ' '
  }

  predicate SingleLine(v: string) {
    '\n' !in v
  }

  /** A clean key that does not start with a space. */
  predicate PlainKey(k: string) {
    CleanKey(k) && (k == "" || k[0] != ' ')
  }

  /** No line of `v` but the first starts like an entry of `other`. */
  ghost predicate HidesNoEntry(v: string, other: Data) {
    forall q | q in other :: !Contains(v, "\n" + q + "=")
  }

  /** Every value of `m` is indented, or hides no entry of `other`. */
  ghost predicate TidyAgainst(m: Data, other: Data) {
    forall k | k in m :: PlainKey(k) && (Indented(m[k]) || HidesNoEntry(m[k], other))
  }

  lemma IndentedHidesNoEntry(v: string, q: string)
    requires Indented(v) && (q == "" || q[0] != ' ')
    ensures !Contains(v, "\n" + q + "=")
  {
    var sub := "\n" + q + "=";
    forall i ensures !OccursAt(v, sub, i) {
      if 0 <= i <= |v| - |sub| {
        assert v[i..i + |sub|][0] == v[i] && v[i..i + |sub|][1] == v[i + 1];
        assert sub[0] == '\n' && sub[1] == if q == "" then '=' else q[0];
      }
    }
  }

  lemma TidyIsSeparated(m: Data, other: Data)
    requires TidyAgainst(m, other) && forall q | q in other :: PlainKey(q)
    ensures Separated(m, other)
  {
    hide Contains, Indented;
    forall k, q | k in m && q in other ensures !Contains(m[k], "\n" + q + "=") {
      if Indented(m[k]) { IndentedHidesNoEntry(m[k], q); }
    }
  }

  /** Single-line values, indented files, and whatever hides no entry of the other map: always told apart. */
  lemma {:induction false} TidyMapsAreComparable(m1: Data, m2: Data)
    requires TidyAgainst(m1, m2) && TidyAgainst(m2, m1)
    ensures Comparable(m1, m2)
  {
    hide Separated, Indented, HidesNoEntry;
    TidyIsSeparated(m1, m2);
    TidyIsSeparated(m2, m1);
  }

  /** A clean key is what stands before the first '='. */
  lemma {:induction false} KeyIsDetermined(k1: string, k2: string, t1: string, t2: string)
    requires CleanKey(k1) && CleanKey(k2)
    requires k1 + "=" + t1 == k2 + "=" + t2
    ensures k1 == k2 && t1 == t2
  {
    var s1, s2 := k1 + "=" + t1, k2 + "=" + t2;
    assert s1[|k1|] == '=' && s2[|k2|] == '=';
    assert forall i :: 0 <= i < |k1| ==> s1[i] == k1[i] && k1[i] in k1;
    assert forall i :: 0 <= i < |k2| ==> s2[i] == k2[i] && k2[i] in k2;
    assert |k1| == |k2|;
    assert k1 == s1[..|k1|] && k2 == s2[..|k2|];
    assert t1 == s1[|k1| + 1..] && t2 == s2[|k2| + 1..];
  }

  /** A value cannot run past its own line: the next line would show inside it. */
  lemma {:induction false} ValueStopsAtItsLine(v1: string, v2: string, q: string, w: string, t2: string)
    requires |v1| < |v2| && CleanKey(q)
    requires v1 + "\n" + (q + "=" + w) == v2 + "\n" + t2
    ensures OccursAt(v2, "\n" + q + "=", |v1|)
  {
    var sub := "\n" + q + "=";
    var s := v1 + "\n" + (q + "=" + w);
    var s2 := v2 + "\n" + t2;
    assert s[|v1|..|v1| + |sub|] == sub;
    assert s2[|v2|] == '\n';
    assert forall i :: 0 < i < |sub| ==> sub[i] == (if i <= |q| then q[i - 1] else '=') && sub[i] != '\n';
    assert forall j :: |v1| < j < |v1| + |sub| ==> s[j] == sub[j - |v1|];
    assert |v2| >= |v1| + |sub|;
    assert v2[|v1|..|v1| + |sub|] == s2[|v1|..|v1| + |sub|];
  }

  /** The print of at least one entry, split at its first '=' and at the end of its value. */
  lemma PrintHead(ks: seq<string>, m: Data)
    requires ks != [] && forall k | k in ks :: k in m
    ensures Print(ks, m) == ks[0] + "=" + (m[ks[0]] + "\n" + Print(ks[1..], m))
  {
  }

  lemma {:induction false} ValuesAgree(v1: string, ks1: seq<string>, m1: Data, v2: string, ks2: seq<string>, m2: Data)
    requires forall k | k in ks1 :: k in m1 && CleanKey(k)
    requires forall k | k in ks2 :: k in m2 && CleanKey(k)
    requires forall k | k in ks1 :: !Contains(v2, "\n" + k + "=")
    requires forall k | k in ks2 :: !Contains(v1, "\n" + k + "=")
    requires v1 + "\n" + Print(ks1, m1) == v2 + "\n" + Print(ks2, m2)
    ensures v1 == v2 && Print(ks1, m1) == Print(ks2, m2)
  {
    if |v1| < |v2| {
      assert ks1 != [];
      PrintHead(ks1, m1);
      ValueStopsAtItsLine(v1, v2, ks1[0], m1[ks1[0]] + "\n" + Print(ks1[1..], m1), Print(ks2, m2));
      assert Contains(v2, "\n" + ks1[0] + "=");
    } else if |v2| < |v1| {
      assert ks2 != [];
      PrintHead(ks2, m2);
      ValueStopsAtItsLine(v2, v1, ks2[0], m2[ks2[0]] + "\n" + Print(ks2[1..], m2), Print(ks1, m1));
      assert Contains(v1, "\n" + ks2[0] + "=");
    }
    var s1, s2 := v1 + "\n" + Print(ks1, m1), v2 + "\n" + Print(ks2, m2);
    assert v1 == s1[..|v1|] && v2 == s2[..|v2|];
    assert Print(ks1, m1) == s1[|v1| + 1..] && Print(ks2, m2) == s2[|v2| + 1..];
  }

  lemma {:induction false} EntriesAreDetermined(ks1: seq<string>, m1: Data, ks2: seq<string>, m2: Data)
    requires Comparable(m1, m2)
    requires forall k | k in ks1 :: k in m1
    requires forall k | k in ks2 :: k in m2
    requires Print(ks1, m1) == Print(ks2, m2)
    ensures ks1 == ks2 && forall k | k in ks1 :: m1[k] == m2[k]
  {
    if ks1 != [] && ks2 != [] {
      PrintHead(ks1, m1);
      PrintHead(ks2, m2);
      var v1, v2 := m1[ks1[0]], m2[ks2[0]];
      KeyIsDetermined(ks1[0], ks2[0], v1 + "\n" + Print(ks1[1..], m1), v2 + "\n" + Print(ks2[1..], m2));
      ValuesAgree(v1, ks1[1..], m1, v2, ks2[1..], m2);
      EntriesAreDetermined(ks1[1..], m1, ks2[1..], m2);
      assert ks1 == [ks1[0]] + ks1[1..] && ks2 == [ks2[0]] + ks2[1..];
    } else if ks1 != [] {
      PrintHead(ks1, m1);
    } else if ks2 != [] {
      PrintHead(ks2, m2);
    }
  }

  /** Equal printed forms mean equal maps, for comparable maps. */
  lemma {:induction false} PrintedIsInjective(m1: Data, m2: Data)
    requires Comparable(m1, m2)
    requires Printed(m1) == Printed(m2)
    ensures m1 == m2
  {
    hide Print, Before, Comparable, Increasing;
    EntriesAreDetermined(SortedKeys(m1.Keys), m1, SortedKeys(m2.Keys), m2);
    forall k ensures k in m1 <==> k in m2 {
      assert k in m1 <==> k in SortedKeys(m1.Keys);
      assert k in m2 <==> k in SortedKeys(m2.Keys);
    }
    forall k | k in m1 ensures m1[k] == m2[k] {
      assert k in SortedKeys(m1.Keys);
    }
  }

  lemma {:induction false} HashIsInjective(m1: Data, m2: Data, digest: string -> string)
    requires Injective(digest) && Comparable(m1, m2)
    ensures Hash(m1, digest) == Hash(m2, digest) <==> m1 == m2
  {
    if Hash(m1, digest) == Hash(m2, digest) {
      var h1, h2 := Hash(m1, digest), Hash(m2, digest);
      assert digest(Printed(m1)) == h1[|"sha256:"|..];
      assert digest(Printed(m2)) == h2[|"sha256:"|..];
      PrintedIsInjective(m1, m2);
    }
  }

  // ---------------------------------------------------------------- when printing is not injective

  /** Some other map with clean keys has the same printed form. */
  ghost predicate Ambiguous(m: Data) {
    exists other :: other != m && CleanKeys(other) && Printed(other) == Printed(m)
  }

  /** `v` holds a line that starts like an entry for the key `q`, at index `i`. */
  ghost predicate SplitsAt(v: string, q: string, i: int) {
    CleanKey(q) && OccursAt(v, "\n" + q + "=", i)
  }

  ghost predicate Splittable(m: Data) {
    exists k, q, i :: k in m && Before(k, q) && SplitsAt(m[k], q, i)
  }

  lemma {:induction false} PrintEndsLine(ks: seq<string>, m: Data)
    requires ks != [] && forall k | k in ks :: k in m
    ensures var p := Print(ks, m); p != "" && p[|p| - 1] == '\n'
  {
    if |ks| > 1 { PrintEndsLine(ks[1..], m); }
  }

  lemma PrintedSingle(k: string, v: string)
    ensures Printed(map[k := v]) == k + "=" + v + "\n"
    ensures SortedKeys(map[k := v].Keys) == [k]
  {
    IncreasingIsUnique([k], SortedKeys(map[k := v].Keys));
    assert Print([k], map[k := v]) == Line(k, v) + Print([], map[k := v]);
  }

  lemma PrintedPair(k: string, v: string, q: string, w: string)
    requires Before(k, q)
    ensures Printed(map[k := v, q := w]) == Line(k, v) + Line(q, w)
  {
    var m := map[k := v, q := w];
    BeforeIsStrict(k, k);
    IncreasingIsUnique([k, q], SortedKeys(m.Keys));
    assert [k, q][1..] == [q];
    assert Print([q], m) == Line(q, w) + Print([], m);
  }

  /** Two or more entries print like one entry that holds all of them in its value. */
  lemma {:induction false} SeveralEntriesMerge(m: Data)
    requires CleanKeys(m) && |m| >= 2
    ensures Ambiguous(m)
  {
    hide Before;
    var ks := SortedKeys(m.Keys);
    assert |ks| == |m.Keys| == |m|;
    assert ks[0] in m;
    PrintHead(ks, m);
    PrintEndsLine(ks[1..], m);
    var rest := Print(ks[1..], m);
    var v := m[ks[0]] + "\n" + rest[..|rest| - 1];
    var other := map[ks[0] := v];
    PrintedSingle(ks[0], v);
    assert v + "\n" == m[ks[0]] + "\n" + rest;
    assert Printed(other) == Printed(m);
    assert ks[1] in m && ks[1] !in other by { BeforeIsStrict(ks[0], ks[0]); }
  }

  lemma TwoLinesInOne(k: string, v: string, q: string, w: string)
    ensures Line(k, v + ("\n" + q + "=") + w) == Line(k, v) + Line(q, w)
  {
  }

  lemma CutAt(v: string, sub: string, i: int)
    requires OccursAt(v, sub, i)
    ensures v == v[..i] + sub + v[i + |sub|..]
  {
  }

  /** A value with an entry-like line prints like the two entries it imitates. */
  lemma {:induction false} SingleEntrySplits(k: string, v: string, q: string, i: int)
    requires CleanKey(k) && Before(k, q) && SplitsAt(v, q, i)
    ensures Ambiguous(map[k := v])
  {
    var sub := "\n" + q + "=";
    var v1, w := v[..i], v[i + |sub|..];
    var other := map[k := v1, q := w];
    CutAt(v, sub, i);
    TwoLinesInOne(k, v1, q, w);
    PrintedSingle(k, v);
    PrintedPair(k, v1, q, w);
    BeforeIsStrict(k, k);
    assert q in other && q !in map[k := v];
  }

  lemma OneKeyIsAll(k: string, other: Data)
    requires SortedKeys(other.Keys) == [k]
    ensures k in other && other == map[k := other[k]]
  {
    assert forall q | q in other :: q in [k];
    assert k in [k];
    assert other.Keys == {k};
  }

  lemma SecondLineSplits(k: string, v: string, v1: string, q: string, w: string)
    requires CleanKey(q) && Before(k, q)
    requires v1 + "\n" + (q + "=" + w) == v + "\n"
    ensures Splittable(map[k := v])
  {
    hide Before;
    assert v + "\n" + "" == v + "\n";
    ValueStopsAtItsLine(v1, v, q, w, "");
    assert k in map[k := v] && SplitsAt(v, q, |v1|);
  }

  lemma {:induction false} SingleEntryOrSplit(k: string, v: string, other: Data)
    requires CleanKey(k) && CleanKeys(other)
    requires Printed(other) == Printed(map[k := v])
    ensures other == map[k := v] || Splittable(map[k := v])
  {
    hide Before, OccursAt, Splittable;
    PrintedSingle(k, v);
    var ks := SortedKeys(other.Keys);
    assert ks != [];
    assert ks[0] in other;
    PrintHead(ks, other);
    var v1, rest := other[ks[0]], Print(ks[1..], other);
    assert Line(k, v) == k + "=" + (v + "\n");
    KeyIsDetermined(k, ks[0], v + "\n", v1 + "\n" + rest);
    if |ks| == 1 {
      assert v == (v + "\n")[..|v|] && v1 == (v1 + "\n" + rest)[..|v1|];
      OneKeyIsAll(k, other);
    } else {
      assert ks[1] in other && Before(k, ks[1]);
      PrintHead(ks[1..], other);
      SecondLineSplits(k, v, v1, ks[1], other[ks[1]] + "\n" + Print(ks[1..][1..], other));
    }
  }

  /**
   The printed form identifies a map exactly when the map has at most one entry and that
   entry's value has no line that starts like an entry for a later key.
   */
  lemma {:induction false} PrintIsAmbiguousIff(m: Data)
    requires CleanKeys(m)
    ensures Ambiguous(m) <==> |m| >= 2 || Splittable(m)
  {
    if |m| >= 2 {
      SeveralEntriesMerge(m);
    } else if |m| == 1 {
      var k :| k in m;
      assert |m.Keys - {k}| == 0;
      assert m.Keys == {k};
      assert m == map[k := m[k]];
      if Splittable(m) {
        var k', q, i :| k' in m && Before(k', q) && SplitsAt(m[k'], q, i);
        SingleEntrySplits(k, m[k], q, i);
      }
      if Ambiguous(m) {
        var other :| other != m && CleanKeys(other) && Printed(other) == Printed(m);
        SingleEntryOrSplit(k, m[k], other);
      }
    } else {
      assert m == map[];
      forall other | CleanKeys(other) && Printed(other) == Printed(m) ensures other == m {
        var ks := SortedKeys(other.Keys);
        if ks != [] { PrintHead(ks, other); }
        assert forall q | q in other :: q in ks;
      }
    }
  }
}
