/** UTF-8 (section 3 of RFC 3629) and the truncation of captured output: `encode()`, a
    byte-prefix, and `decode(errors="replace")`. */
module Utf8 {

  type Byte = b: int | 0 <= b < 256

  /** A Unicode scalar value. */
  type Scalar = c: int | 0 <= c < 0xD800 || 0xE000 <= c < 0x11_0000

  type Text = seq<Scalar>

  const REPLACEMENT: Scalar := 0xFFFD

  function EncodeOne(c: Scalar): (bs: seq<Byte>)
    ensures 1 <= |bs| <= 4
  {
    if c < 0x80 then [c]
    else if c < 0x800 then [0xC0 + c / 0x40, 0x80 + c % 0x40]
    else if c < 0x1_0000 then [0xE0 + c / 0x1000, 0x80 + c / 0x40 % 0x40, 0x80 + c % 0x40]
    else [0xF0 + c / 0x4_0000, 0x80 + c / 0x1000 % 0x40, 0x80 + c / 0x40 % 0x40, 0x80 + c % 0x40]
  }

  function Encode(t: Text): seq<Byte> {
    if t == [] then [] else EncodeOne(t[0]) + Encode(t[1..])
  }

  /** `a` comes before `b` in the order of byte strings: they differ first at `k`. */
  ghost predicate Precedes(a: seq<Byte>, b: seq<Byte>, k: nat) {
    k < |a| && k < |b| && (forall i :: 0 <= i < k ==> a[i] == b[i]) && a[k] < b[k]
  }

  lemma LastDigit(x: nat, y: nat, base: nat)
    requires x < y && (base == 0x40 || base == 0x100)
    ensures x / base < y / base || (x / base == y / base && x % base < y % base)
  {
  }

  lemma Digits64(c: nat)
    ensures c / 0x40 / 0x40 == c / 0x1000 && c / 0x1000 / 0x40 == c / 0x4_0000
  {
  }

  lemma OrderOfThree(c: Scalar, d: Scalar) returns (k: nat)
    requires 0x800 <= c < d < 0x1_0000
    ensures Precedes(EncodeOne(c), EncodeOne(d), k)
  {
    Digits64(c);
    Digits64(d);
    LastDigit(c, d, 0x40);
    k := 2;
    if c / 0x40 < d / 0x40 {
      LastDigit(c / 0x40, d / 0x40, 0x40);
      k := if c / 0x1000 < d / 0x1000 then 0 else 1;
    }
  }

  lemma OrderOfFour(c: Scalar, d: Scalar) returns (k: nat)
    requires 0x1_0000 <= c < d
    ensures Precedes(EncodeOne(c), EncodeOne(d), k)
  {
    Digits64(c);
    Digits64(d);
    LastDigit(c, d, 0x40);
    k := 3;
    if c / 0x40 < d / 0x40 {
      LastDigit(c / 0x40, d / 0x40, 0x40);
      k := 2;
      if c / 0x1000 < d / 0x1000 {
        LastDigit(c / 0x1000, d / 0x1000, 0x40);
        k := if c / 0x4_0000 < d / 0x4_0000 then 0 else 1;
      }
    }
  }

  /** The byte order of encoded characters is the order of the characters, as section 1 of RFC 3629
      says. */
  lemma EncodingKeepsOrder(c: Scalar, d: Scalar) returns (k: nat)
    requires c < d
    ensures Precedes(EncodeOne(c), EncodeOne(d), k)
  {
    if c >= 0x1_0000 {
      k := OrderOfFour(c, d);
    } else if 0x800 <= c && d < 0x1_0000 {
      k := OrderOfThree(c, d);
    } else {
      LastDigit(c, d, 0x40);
      k := if 0x80 <= c && d < 0x800 && c / 0x40 == d / 0x40 then 1 else 0;
    }
  }

  /** How many bytes the sequence opened by lead byte `b` has; 0 when `b` opens none. */
  function Need(b: Byte): nat {
    if b < 0x80 then 1
    else if 0xC2 <= b < 0xE0 then 2
    else if 0xE0 <= b < 0xF0 then 3
    else if 0xF0 <= b < 0xF5 then 4
    else 0
  }

  /** Whether `b` may be the byte at position `i >= 1` of a sequence opened by `lead`: overlong
      forms, surrogates and values beyond the last plane are cut off at the second byte. */
  predicate Continues(lead: Byte, i: nat, b: Byte) {
    if i == 1 && lead == 0xE0 then 0xA0 <= b < 0xC0
    else if i == 1 && lead == 0xED then 0x80 <= b < 0xA0
    else if i == 1 && lead == 0xF0 then 0x90 <= b < 0xC0
    else if i == 1 && lead == 0xF4 then 0x80 <= b < 0x90
    else 0x80 <= b < 0xC0
  }

  /** The length of the longest prefix of `bs` that could open a well-formed sequence, at most
      `need` bytes and at least `i`. */
  function Extent(bs: seq<Byte>, need: nat, i: nat): (n: nat)
    requires 1 <= i <= |bs|
    ensures i <= n <= |bs| && (i <= need ==> n <= need)
    decreases need - i
  {
    if i < need && i < |bs| && Continues(bs[0], i, bs[i]) then Extent(bs, need, i + 1) else i
  }

  predicate WellFormed(bs: seq<Byte>) {
    bs != [] && Need(bs[0]) == |bs| && forall i :: 1 <= i < |bs| ==> Continues(bs[0], i, bs[i])
  }

  function Value(bs: seq<Byte>): Scalar
    requires WellFormed(bs)
  {
    var lead: int := bs[0];
    if |bs| == 1 then lead
    else
      var b1: int := bs[1];
      if |bs| == 2 then 0x40 * (lead - 0xC0) + (b1 - 0x80)
      else
        var b2: int := bs[2];
        if |bs| == 3 then 0x1000 * (lead - 0xE0) + 0x40 * (b1 - 0x80) + (b2 - 0x80)
        else
          var b3: int := bs[3];
          0x4_0000 * (lead - 0xF0) + 0x1000 * (b1 - 0x80) + 0x40 * (b2 - 0x80) + (b3 - 0x80)
  }

  /** The first character a replacing decoder reads and how many bytes it takes. */
  function DecodeOne(bs: seq<Byte>): (r: (Scalar, nat))
    requires bs != []
    ensures 1 <= r.1 <= |bs|
  {
    var need := Need(bs[0]);
    var n := Extent(bs, need, 1);
    if n == need && WellFormed(bs[..n]) then (Value(bs[..n]), n) else (REPLACEMENT, n)
  }

  /** `bytes.decode(errors="replace")`: each maximal ill-formed part becomes one U+FFFD. */
  function Decode(bs: seq<Byte>): Text
    decreases |bs|
  {
    if bs == [] then [] else var (c, n) := DecodeOne(bs); [c] + Decode(bs[n..])
  }

  /** The encoding of a character is well formed and has its value. */
  lemma EncodeOneWellFormed(c: Scalar)
    ensures WellFormed(EncodeOne(c)) && Value(EncodeOne(c)) == c
  {
    if c < 0x1_0000 {
      ShortWellFormed(c);
    } else {
      LongWellFormed(c);
    }
  }

  lemma ShortWellFormed(c: Scalar)
    requires c < 0x1_0000
    ensures WellFormed(EncodeOne(c)) && Value(EncodeOne(c)) == c
  {
    if c >= 0x800 {
      var q: int, r: int := c / 0x1000, c / 0x40;
      assert r / 0x40 == q && r % 0x40 == r - 0x40 * q && c % 0x40 == c - 0x40 * r;
      assert EncodeOne(c) == [0xE0 + q, 0x80 + r % 0x40, 0x80 + c % 0x40];
    }
  }

  lemma LongWellFormed(c: Scalar)
    requires c >= 0x1_0000
    ensures WellFormed(EncodeOne(c)) && Value(EncodeOne(c)) == c
  {
    var p: int, q: int, r: int := c / 0x4_0000, c / 0x1000, c / 0x40;
    assert q / 0x40 == p && q % 0x40 == q - 0x40 * p;
    assert r / 0x40 == q && r % 0x40 == r - 0x40 * q && c % 0x40 == c - 0x40 * r;
    assert EncodeOne(c) == [0xF0 + p, 0x80 + q % 0x40, 0x80 + r % 0x40, 0x80 + c % 0x40];
  }

  /** A decoder that has seen only continuation bytes so far goes on to the end of the sequence
      or of the input. */
  lemma {:induction false} ExtentRuns(bs: seq<Byte>, need: nat, i: nat)
    requires 1 <= i <= |bs| && i <= need
    requires forall j :: i <= j < |bs| && j < need ==> Continues(bs[0], j, bs[j])
    ensures Extent(bs, need, i) == if |bs| < need then |bs| else need
    decreases need - i
  {
    if i < need && i < |bs| {
      ExtentRuns(bs, need, i + 1);
    }
  }

  lemma DecodeOneWhole(c: Scalar, rest: seq<Byte>)
    ensures DecodeOne(EncodeOne(c) + rest) == (c, |EncodeOne(c)|)
  {
    var e := EncodeOne(c);
    var bs := e + rest;
    EncodeOneWellFormed(c);
    ExtentRuns(bs, |e|, 1);
    assert bs[..|e|] == e;
  }

  /** A character cut off at the end of the input becomes a single U+FFFD. */
  lemma DecodeOneCut(c: Scalar, n: nat)
    requires 1 <= n < |EncodeOne(c)|
    ensures DecodeOne(EncodeOne(c)[..n]) == (REPLACEMENT, n)
  {
    EncodeOneWellFormed(c);
    ExtentRuns(EncodeOne(c)[..n], |EncodeOne(c)|, 1);
  }

  lemma DecodeStep(bs: seq<Byte>, c: Scalar, rest: seq<Byte>)
    requires bs == EncodeOne(c) + rest
    ensures Decode(bs) == [c] + Decode(rest)
  {
    DecodeOneWhole(c, rest);
    assert bs[|EncodeOne(c)|..] == rest;
  }

  /** Decoding undoes encoding. */
  lemma {:induction false} DecodeEncode(t: Text)
    ensures Decode(Encode(t)) == t
  {
    if t != [] {
      DecodeStep(Encode(t), t[0], Encode(t[1..]));
      DecodeEncode(t[1..]);
    }
  }

  lemma {:induction false} EncodeConcat(a: Text, b: Text)
    ensures Encode(a + b) == Encode(a) + Encode(b)
  {
    if a == [] {
      assert a + b == b;
    } else {
      assert (a + b)[1..] == a[1..] + b;
      EncodeConcat(a[1..], b);
    }
  }

  /** How many leading characters of `t` fit whole into `max` bytes. */
  function Fitting(t: Text, max: nat): (k: nat)
    ensures k <= |t|
  {
    if t == [] || |EncodeOne(t[0])| > max then 0 else 1 + Fitting(t[1..], max - |EncodeOne(t[0])|)
  }

  /** `Fitting` is the length of the longest prefix whose encoding has at most `max` bytes. */
  lemma {:induction false} FittingIsLongest(t: Text, max: nat)
    ensures |Encode(t[..Fitting(t, max)])| <= max
    ensures forall j :: 0 <= j <= |t| && |Encode(t[..j])| <= max ==> j <= Fitting(t, max)
  {
    var k := Fitting(t, max);
    if k > 0 {
      var w := |EncodeOne(t[0])|;
      FittingIsLongest(t[1..], max - w);
      assert t[..k][1..] == t[1..][..k - 1];
      forall j | 0 <= j <= |t| && |Encode(t[..j])| <= max ensures j <= k {
        if j > 0 {
          assert t[..j][1..] == t[1..][..j - 1];
        }
      }
    } else if t != [] {
      forall j | 0 < j <= |t| ensures |Encode(t[..j])| > max {
        assert t[..j][0] == t[0];
      }
    }
  }

  /** What a byte prefix of an encoded text decodes to: the characters that fit, then one
      U+FFFD if a character was cut. */
  function Cut(t: Text, max: nat): Text {
    t[..Fitting(t, max)] + if |Encode(t[..Fitting(t, max)])| < max then [REPLACEMENT] else []
  }

  lemma CutStep(t: Text, max: nat)
    requires t != [] && |EncodeOne(t[0])| <= max
    ensures Cut(t, max) == [t[0]] + Cut(t[1..], max - |EncodeOne(t[0])|)
  {
    var k := Fitting(t, max);
    assert t[..k][1..] == t[1..][..k - 1];
    assert t[..k] == [t[0]] + t[1..][..k - 1];
  }

  lemma DecodeCutHead(c: Scalar, n: nat)
    requires 1 <= n < |EncodeOne(c)|
    ensures Decode(EncodeOne(c)[..n]) == [REPLACEMENT]
  {
    DecodeOneCut(c, n);
    assert EncodeOne(c)[..n][n..] == [];
  }

  lemma {:induction false} DecodePrefix(t: Text, max: nat)
    requires max <= |Encode(t)|
    ensures Decode(Encode(t)[..max]) == Cut(t, max)
  {
    if t == [] || max == 0 {
      assert Encode(t)[..max] == [];
    } else {
      var e, tail := EncodeOne(t[0]), Encode(t[1..]);
      if |e| > max {
        assert Encode(t)[..max] == e[..max];
        DecodeCutHead(t[0], max);
      } else {
        DecodeStep(Encode(t)[..max], t[0], tail[..max - |e|]) by {
          assert Encode(t)[..max] == e + tail[..max - |e|];
        }
        DecodePrefix(t[1..], max - |e|);
        CutStep(t, max);
      }
    }
  }

  /** `stdout` as the backends return it, with `stdout_truncated`. */
  datatype Captured = Captured(stdout: Text, truncated: bool)

  /** Tier 2: the host re-encodes the reported text and cuts it only when it is too long. */
  function CaptureText(t: Text, max: nat): Captured {
    if |Encode(t)| > max then Captured(Decode(Encode(t)[..max]), true) else Captured(t, false)
  }

  /** Tiers 0 and 1: the host always cuts and decodes the bytes the child wrote. */
  function CaptureBytes(bs: seq<Byte>, max: nat): Captured {
    Captured(Decode(if |bs| > max then bs[..max] else bs), |bs| > max)
  }

  /** Both captures of one text agree: all of it when it fits, else its longest prefix of whole
      characters that fits, followed by at most one U+FFFD, and at most `max + 2` bytes. */
  lemma TruncationIsFaithful(t: Text, max: nat)
    ensures CaptureBytes(Encode(t), max) == CaptureText(t, max)
    ensures var c := CaptureText(t, max);
            var k := Fitting(t, max);
            && (c.truncated <==> |Encode(t)| > max)
            && (!c.truncated ==> c.stdout == t)
            && (c.truncated ==> c.stdout == t[..k] || c.stdout == t[..k] + [REPLACEMENT])
            && (c.truncated ==> (c.stdout == t[..k] <==> |Encode(t[..k])| == max))
            && |Encode(c.stdout)| <= max + 2
  {
    DecodeEncode(t);
    if |Encode(t)| > max {
      DecodePrefix(t, max);
      FittingIsLongest(t, max);
      EncodeConcat(t[..Fitting(t, max)], [REPLACEMENT]);
      assert Encode([REPLACEMENT]) == EncodeOne(REPLACEMENT) + Encode([]);
    }
  }
}
