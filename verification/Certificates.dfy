/**
 Certificates given as PEM, base64 or DER, normalised to PEM.  The PEM, base64 and X.509
 libraries are a parameter with the laws that the module needs.
 */
module Certificates {
  import opened Wrappers

  type Byte = n: nat | n < 256

  type Bytes = seq<Byte>

  datatype Block = Block(kind: string, headers: map<string, string>, bytes: Bytes)

  /** The label of section 5.1 of RFC 7468. */
  const CERTIFICATE := "CERTIFICATE"

  datatype Codec<!Cert> = Codec(
    decode: Bytes -> Option<(Block, Bytes)>,      // the first PEM block and what follows it
    encode: Block -> Bytes,
    parse: Bytes -> Option<Cert>,
    parseAll: Bytes -> Option<seq<Cert>>,
    raw: Cert -> Bytes,
    base64: Bytes -> Option<Bytes>,
    digest: Bytes -> Bytes)

  ghost predicate Lawful<Cert(!new)>(c: Codec<Cert>) {
    && (forall d: Bytes :: c.decode(d).Some? ==> |c.decode(d).value.1| < |d|)
    && (forall b: Block, r: Bytes :: c.decode(c.encode(b) + r) == Some((b, r)))
    && (forall x: Cert :: c.parse(c.raw(x)) == Some(x))
  }

  function CertBlock(der: Bytes): Block {
    Block(CERTIFICATE, map[], der)
  }

  predicate IsCertificate<Cert>(c: Codec<Cert>, b: Block) {
    b.kind == CERTIFICATE && c.parse(b.bytes).Some?
  }

  /** Every PEM block of a text, in order. */
  ghost function DecodeAll<Cert(!new)>(c: Codec<Cert>, data: Bytes): seq<Block>
    requires Lawful(c)
    decreases |data|
  {
    var first := c.decode(data);
    if first.None? then [] else [first.value.0] + DecodeAll(c, first.value.1)
  }

  /** The certificate blocks that parse, in order. */
  function Kept<Cert>(c: Codec<Cert>, blocks: seq<Block>): (r: seq<Block>)
    ensures forall i :: 0 <= i < |r| ==> IsCertificate(c, r[i])
  {
    if blocks == [] then []
    else
      var last := blocks[|blocks| - 1];
      Kept(c, blocks[..|blocks| - 1]) + (if IsCertificate(c, last) then [last] else [])
  }

  function CertIn<Cert>(c: Codec<Cert>, b: Block): Cert
    requires IsCertificate(c, b)
  {
    c.parse(b.bytes).value
  }

  function CertsOf<Cert>(c: Codec<Cert>, blocks: seq<Block>): (r: seq<Cert>)
    requires forall i :: 0 <= i < |blocks| ==> IsCertificate(c, blocks[i])
    ensures |r| == |blocks|
  {
    seq(|blocks|, i requires 0 <= i < |blocks| => CertIn(c, blocks[i]))
  }

  function EncodeAll<Cert>(c: Codec<Cert>, blocks: seq<Block>): Bytes {
    if blocks == [] then [] else c.encode(blocks[0]) + EncodeAll(c, blocks[1..])
  }

  function RawBlocks<Cert>(c: Codec<Cert>, certs: seq<Cert>): (r: seq<Block>)
    ensures |r| == |certs|
  {
    seq(|certs|, i requires 0 <= i < |certs| => CertBlock(c.raw(certs[i])))
  }

  datatype Parsed<Cert> = Parsed(certs: seq<Cert>, pem: Bytes)

  ghost function PemResult<Cert(!new)>(c: Codec<Cert>, data: Bytes): Option<Parsed<Cert>>
    requires Lawful(c)
  {
    var kept := Kept(c, DecodeAll(c, data));
    if kept == [] then None else Some(Parsed(CertsOf(c, kept), EncodeAll(c, kept)))
  }

  function DerResult<Cert>(c: Codec<Cert>, data: Bytes): Option<Parsed<Cert>> {
    var certs := c.parseAll(data);
    if certs.Some? && |certs.value| > 0
    then Some(Parsed(certs.value, EncodeAll(c, RawBlocks(c, certs.value))))
    else None
  }

  /** PEM first, then base64 of DER, then DER. */
  ghost function Result<Cert(!new)>(c: Codec<Cert>, data: Bytes): Option<Parsed<Cert>>
    requires Lawful(c)
  {
    var pem := PemResult(c, data);
    if pem.Some? then pem
    else
      var decoded := c.base64(data);
      var der := if decoded.Some? then DerResult(c, decoded.value) else None;
      if der.Some? then der else DerResult(c, data)
  }

  // ---------------------------------------------------------------- the program

  lemma EncodeConcat<Cert>(c: Codec<Cert>, a: seq<Block>, b: Block)
    ensures EncodeAll(c, a + [b]) == EncodeAll(c, a) + c.encode(b)
  {
    if a != [] {
      assert (a + [b])[1..] == a[1..] + [b];
      EncodeConcat(c, a[1..], b);
    }
  }

  lemma KeepOne<Cert>(c: Codec<Cert>, seen: seq<Block>, b: Block)
    ensures Kept(c, seen + [b]) == Kept(c, seen) + if IsCertificate(c, b) then [b] else []
    ensures IsCertificate(c, b) ==>
              && CertsOf(c, Kept(c, seen + [b])) == CertsOf(c, Kept(c, seen)) + [c.parse(b.bytes).value]
              && EncodeAll(c, Kept(c, seen + [b])) == EncodeAll(c, Kept(c, seen)) + c.encode(b)
    ensures !IsCertificate(c, b) ==> Kept(c, seen + [b]) == Kept(c, seen)
  {
    hide IsCertificate;
    assert (seen + [b])[..|seen|] == seen;
    EncodeConcat(c, Kept(c, seen), b);
  }

  lemma KeptNone<Cert>(c: Codec<Cert>)
    ensures Kept(c, []) == [] && CertsOf(c, []) == [] && EncodeAll(c, []) == []
  {
  }

  lemma DecodeNext<Cert(!new)>(c: Codec<Cert>, rest: Bytes)
    requires Lawful(c)
    ensures var next := c.decode(rest);
            if next.None? then DecodeAll(c, rest) == []
            else |next.value.1| < |rest| && DecodeAll(c, rest) == [next.value.0] + DecodeAll(c, next.value.1)
  {
  }

  /** Each decoding leaves less to decode. */
  method ParsePem<Cert(!new)>(c: Codec<Cert>, data: Bytes) returns (result: Option<Parsed<Cert>>)
    requires Lawful(c)
    ensures result == PemResult(c, data)
  {
    hide Kept, CertsOf, EncodeAll, DecodeAll, Lawful;
    var certs: seq<Cert> := [];
    var pemOut: Bytes := [];
    var rest := data;
    ghost var seen: seq<Block> := [];
    KeptNone(c);
    while true
      invariant seen + DecodeAll(c, rest) == DecodeAll(c, data)
      invariant certs == CertsOf(c, Kept(c, seen))
      invariant pemOut == EncodeAll(c, Kept(c, seen))
      decreases |rest|
    {
      var next := c.decode(rest);
      DecodeNext(c, rest);
      if next.None? {
        break;
      }
      var block := next.value.0;
      KeepOne(c, seen, block);
      assert seen + DecodeAll(c, rest) == (seen + [block]) + DecodeAll(c, next.value.1);
      rest := next.value.1;
      seen := seen + [block];
      if block.kind != CERTIFICATE {
        continue;
      }
      var cert := c.parse(block.bytes);
      if cert.None? {
        continue;
      }
      certs := certs + [cert.value];
      pemOut := pemOut + c.encode(block);
    }
    assert seen == DecodeAll(c, data);
    if |certs| == 0 {
      return None;
    }
    return Some(Parsed(certs, pemOut));
  }

  method CertsToAllPem<Cert>(c: Codec<Cert>, certs: seq<Cert>) returns (pemOut: Bytes)
    ensures pemOut == EncodeAll(c, RawBlocks(c, certs))
  {
    pemOut := [];
    for i := 0 to |certs|
      invariant pemOut == EncodeAll(c, RawBlocks(c, certs[..i]))
    {
      assert certs[..i + 1] == certs[..i] + [certs[i]];
      assert RawBlocks(c, certs[..i + 1]) == RawBlocks(c, certs[..i]) + [CertBlock(c.raw(certs[i]))];
      EncodeConcat(c, RawBlocks(c, certs[..i]), CertBlock(c.raw(certs[i])));
      pemOut := pemOut + c.encode(CertBlock(c.raw(certs[i])));
    }
    assert certs[..|certs|] == certs;
  }

  method ParseCertificates<Cert(!new)>(c: Codec<Cert>, data: Bytes) returns (result: Option<Parsed<Cert>>)
    requires Lawful(c)
    ensures result == Result(c, data)
  {
    result := ParsePem(c, data);
    if result.Some? {
      return;
    }
    var decoded := c.base64(data);
    if decoded.Some? {
      var certs := c.parseAll(decoded.value);
      if certs.Some? && |certs.value| > 0 {
        var pemOut := CertsToAllPem(c, certs.value);
        return Some(Parsed(certs.value, pemOut));
      }
    }
    var certs := c.parseAll(data);
    if certs.Some? && |certs.value| > 0 {
      var pemOut := CertsToAllPem(c, certs.value);
      return Some(Parsed(certs.value, pemOut));
    }
  }

  // ---------------------------------------------------------------- normalisation

  lemma {:induction false} DecodeEncoded<Cert(!new)>(c: Codec<Cert>, blocks: seq<Block>)
    requires Lawful(c) && c.decode([]) == None
    ensures DecodeAll(c, EncodeAll(c, blocks)) == blocks
  {
    if blocks != [] {
      DecodeEncoded(c, blocks[1..]);
      var text := EncodeAll(c, blocks);
      assert c.decode(text) == Some((blocks[0], EncodeAll(c, blocks[1..])));
    }
  }

  lemma EmptyHasNoBlock<Cert(!new)>(c: Codec<Cert>)
    requires Lawful(c)
    ensures c.decode([]) == None
  {
  }

  lemma {:induction false} KeptIsFixed<Cert>(c: Codec<Cert>, blocks: seq<Block>)
    requires forall i :: 0 <= i < |blocks| ==> IsCertificate(c, blocks[i])
    ensures Kept(c, blocks) == blocks
  {
    if blocks != [] {
      KeptIsFixed(c, blocks[..|blocks| - 1]);
    }
  }

  lemma RawBlocksParse<Cert(!new)>(c: Codec<Cert>, certs: seq<Cert>)
    requires Lawful(c)
    ensures var blocks := RawBlocks(c, certs);
            && (forall i :: 0 <= i < |blocks| ==> IsCertificate(c, blocks[i]))
            && CertsOf(c, blocks) == certs
  {
  }

  lemma {:induction false} PemOfBlocks<Cert(!new)>(c: Codec<Cert>, blocks: seq<Block>)
    requires Lawful(c) && blocks != []
    requires forall i :: 0 <= i < |blocks| ==> IsCertificate(c, blocks[i])
    ensures Result(c, EncodeAll(c, blocks)) == Some(Parsed(CertsOf(c, blocks), EncodeAll(c, blocks)))
  {
    EmptyHasNoBlock(c);
    DecodeEncoded(c, blocks);
    KeptIsFixed(c, blocks);
  }

  /** Parsing the PEM that a successful parse returns gives the same certificates and the same PEM. */
  lemma {:induction false} NormalFormIsFixed<Cert(!new)>(c: Codec<Cert>, data: Bytes)
    requires Lawful(c) && Result(c, data).Some?
    ensures Result(c, Result(c, data).value.pem) == Result(c, data)
  {
    var pem := PemResult(c, data);
    if pem.Some? {
      PemOfBlocks(c, Kept(c, DecodeAll(c, data)));
    } else {
      var certs := Result(c, data).value.certs;
      RawBlocksParse(c, certs);
      PemOfBlocks(c, RawBlocks(c, certs));
    }
  }

  // ---------------------------------------------------------------- what is parsed

  /** Exactly the certificate blocks that parse are kept, and in order. */
  lemma {:induction false} KeptIs<Cert>(c: Codec<Cert>, blocks: seq<Block>, more: seq<Block>, b: Block)
    ensures b in Kept(c, blocks) <==> b in blocks && b.kind == "CERTIFICATE" && c.parse(b.bytes).Some?
    ensures Kept(c, blocks + more) == Kept(c, blocks) + Kept(c, more)
  {
    KeptHas(c, blocks, b);
    KeptConcat(c, blocks, more);
  }

  lemma {:induction false} KeptHas<Cert>(c: Codec<Cert>, blocks: seq<Block>, b: Block)
    ensures b in Kept(c, blocks) <==> b in blocks && IsCertificate(c, b)
  {
    hide IsCertificate;
    if blocks != [] {
      var front, last := blocks[..|blocks| - 1], blocks[|blocks| - 1];
      KeptHas(c, front, b);
      assert blocks == front + [last];
    }
  }

  lemma {:induction false} KeptConcat<Cert>(c: Codec<Cert>, a: seq<Block>, b: seq<Block>)
    ensures Kept(c, a + b) == Kept(c, a) + Kept(c, b)
  {
    hide IsCertificate;
    if b == [] {
      assert a + b == a;
    } else {
      var front := b[..|b| - 1];
      KeptConcat(c, a, front);
      assert (a + b)[..|a + b| - 1] == a + front;
    }
  }

  /** A block of the text is a certificate that parses. */
  ghost predicate HasPem<Cert(!new)>(c: Codec<Cert>, data: Bytes)
    requires Lawful(c)
  {
    exists b :: b in DecodeAll(c, data) && b.kind == "CERTIFICATE" && c.parse(b.bytes).Some?
  }

  predicate HasDer<Cert>(c: Codec<Cert>, data: Bytes) {
    c.parseAll(data).Some? && c.parseAll(data).value != []
  }

  predicate HasBase64<Cert>(c: Codec<Cert>, data: Bytes) {
    c.base64(data).Some? && HasDer(c, c.base64(data).value)
  }

  /**
   Parsing succeeds exactly when one of the three forms is there, and gives the certificates of
   the first that is: of the PEM blocks, of the decoded base64, or of the data itself.
   */
  lemma {:induction false} ParsesIff<Cert(!new)>(c: Codec<Cert>, data: Bytes)
    requires Lawful(c)
    ensures Result(c, data).Some? <==> HasPem(c, data) || HasBase64(c, data) || HasDer(c, data)
    ensures HasPem(c, data) ==> Result(c, data).value.certs == CertsOf(c, Kept(c, DecodeAll(c, data)))
    ensures !HasPem(c, data) && HasBase64(c, data) ==>
              Result(c, data).value.certs == c.parseAll(c.base64(data).value).value
    ensures !HasPem(c, data) && !HasBase64(c, data) && HasDer(c, data) ==>
              Result(c, data).value.certs == c.parseAll(data).value
  {
    hide Kept, DecodeAll, CertsOf, EncodeAll, RawBlocks, Lawful;
    var blocks := DecodeAll(c, data);
    if Kept(c, blocks) != [] {
      KeptHas(c, blocks, Kept(c, blocks)[0]);
    } else {
      forall b | b in blocks ensures !IsCertificate(c, b) {
        KeptHas(c, blocks, b);
      }
    }
  }

  /** What the returned PEM consists of: the kept blocks, or else a bare certificate block for each certificate. */
  lemma {:induction false} NormalFormBlocks<Cert(!new)>(c: Codec<Cert>, data: Bytes)
    requires Lawful(c) && Result(c, data).Some?
    ensures var r := Result(c, data).value;
            var blocks := DecodeAll(c, r.pem);
            if HasPem(c, data) then blocks == Kept(c, DecodeAll(c, data))
            else
              && |blocks| == |r.certs|
              && forall i :: 0 <= i < |blocks| ==> blocks[i] == Block("CERTIFICATE", map[], c.raw(r.certs[i]))
  {
    EmptyHasNoBlock(c);
    ParsesIff(c, data);
    hide DecodeAll, EncodeAll, Lawful;
    var kept := Kept(c, DecodeAll(c, data));
    if kept == [] {
      forall b | b in DecodeAll(c, data) ensures !IsCertificate(c, b) { KeptHas(c, DecodeAll(c, data), b); }
      DecodeEncoded(c, RawBlocks(c, Result(c, data).value.certs));
    } else {
      KeptHas(c, DecodeAll(c, data), kept[0]);
      DecodeEncoded(c, kept);
    }
  }

  // ---------------------------------------------------------------- fingerprints

  const HEX := "0123456789ABCDEF"

  function HexPair(b: Byte): (r: string)
    ensures |r| == 2
  {
    [HEX[b / 16], HEX[b % 16]]
  }

  /** strings.Join of the pairs with colons. */
  function Joined(sum: Bytes): (r: string)
    ensures |r| == if sum == [] then 0 else 3 * |sum| - 1
  {
    if sum == [] then ""
    else if |sum| == 1 then HexPair(sum[0])
    else HexPair(sum[0]) + ":" + Joined(sum[1..])
  }

  function Fingerprint<Cert>(c: Codec<Cert>, cert: Cert): string {
    Joined(c.digest(c.raw(cert)))
  }

  /** The first block's certificate, whatever the block's label. */
  function PemToFingerprint<Cert>(c: Codec<Cert>, pem: Bytes): Option<string> {
    var first := c.decode(pem);
    if first.None? then None
    else
      var cert := c.parse(first.value.0.bytes);
      if cert.None? then None else Some(Fingerprint(c, cert.value))
  }

  lemma HexIsInjective(i: nat, j: nat)
    requires i < 16 && j < 16 && HEX[i] == HEX[j]
    ensures i == j
  {
  }

  lemma {:induction false} HexPairIsInjective(a: Byte, b: Byte)
    requires HexPair(a) == HexPair(b)
    ensures a == b
  {
    assert HexPair(a)[0] == HexPair(b)[0] && HexPair(a)[1] == HexPair(b)[1];
    HexIsInjective(a / 16, b / 16);
    HexIsInjective(a % 16, b % 16);
  }

  /** Different digests have different fingerprints. */
  lemma {:induction false} JoinedIsInjective(s: Bytes, t: Bytes)
    requires Joined(s) == Joined(t)
    ensures s == t
  {
    if s != [] && t != [] {
      assert Joined(s)[..2] == HexPair(s[0]) && Joined(t)[..2] == HexPair(t[0]);
      HexPairIsInjective(s[0], t[0]);
      if |s| > 1 && |t| > 1 {
        assert Joined(s)[3..] == Joined(s[1..]) && Joined(t)[3..] == Joined(t[1..]);
        JoinedIsInjective(s[1..], t[1..]);
      }
      assert s == [s[0]] + s[1..] && t == [t[0]] + t[1..];
    }
  }

  /** A fingerprint is read from the first block whatever its label; nothing after that block matters. */
  lemma {:induction false} FingerprintIgnoresLabel<Cert(!new)>(c: Codec<Cert>, block: Block, rest: Bytes)
    requires Lawful(c)
    ensures PemToFingerprint(c, c.encode(block) + rest)
         == if c.parse(block.bytes).Some? then Some(Joined(c.digest(c.raw(c.parse(block.bytes).value)))) else None
  {
    assert c.decode(c.encode(block) + rest) == Some((block, rest));
  }

  /** The value of an upper-case hexadecimal digit. */
  function DigitValue(d: char): int {
    if '0' <= d <= '9' then d as int - '0' as int
    else if 'A' <= d <= 'F' then d as int - 'A' as int + 10
    else -1
  }

  lemma {:induction false} HexReadsBack(b: Byte)
    ensures var r := HexPair(b);
            && DigitValue(r[0]) >= 0 && DigitValue(r[1]) >= 0 && 16 * DigitValue(r[0]) + DigitValue(r[1]) == b
  {
    DigitOf(b / 16);
    DigitOf(b % 16);
  }

  lemma DigitOf(i: nat)
    requires i < 16
    ensures DigitValue(HEX[i]) == i
  {
  }

  /** Each byte of the digest is two upper-case digits, high one first, with colons between the bytes. */
  lemma {:induction false} FingerprintReads(sum: Bytes, i: nat)
    requires i < |sum|
    ensures var r := Joined(sum);
            && |r| == 3 * |sum| - 1
            && 16 * DigitValue(r[3 * i]) + DigitValue(r[3 * i + 1]) == sum[i]
            && DigitValue(r[3 * i]) >= 0 && DigitValue(r[3 * i + 1]) >= 0
            && (i + 1 < |sum| ==> r[3 * i + 2] == ':')
  {
    hide DigitValue, HexPair;
    HexReadsBack(sum[0]);
    if i > 0 {
      FingerprintReads(sum[1..], i - 1);
      assert Joined(sum)[3..] == Joined(sum[1..]);
    }
  }

  /** The fingerprint read from normalised PEM is the first certificate's. */
  lemma {:induction false} FingerprintOfNormalForm<Cert(!new)>(c: Codec<Cert>, data: Bytes)
    requires Lawful(c) && Result(c, data).Some?
    ensures PemToFingerprint(c, Result(c, data).value.pem) == Some(Fingerprint(c, Result(c, data).value.certs[0]))
  {
  }
}
