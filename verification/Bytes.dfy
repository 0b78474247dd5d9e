/** Byte strings, their order and their hexadecimal form: what the control plane
    uses of Buffer, b4a.compare and b4a.toHex. */
module Bytes {

  newtype byte = b: int | 0 <= b < 256

  const HEX_DIGITS := "0123456789abcdef"

  // ─── lexicographic order ────────────────────────────────────────────────

  /** b4a.compare(a, b) < 0 */
  predicate Less(a: seq<byte>, b: seq<byte>) {
    b != [] && (a == [] || a[0] < b[0] || (a[0] == b[0] && Less(a[1..], b[1..])))
  }

  lemma {:induction false} LessIrreflexive(a: seq<byte>)
    ensures !Less(a, a)
  {
    if a != [] {
      LessIrreflexive(a[1..]);
    }
  }

  lemma {:induction false} LessTransitive(a: seq<byte>, b: seq<byte>, c: seq<byte>)
    requires Less(a, b) && Less(b, c)
    ensures Less(a, c)
  {
    if a != [] && a[0] == b[0] && b[0] == c[0] {
      LessTransitive(a[1..], b[1..], c[1..]);
    }
  }

  lemma {:induction false} LessTotal(a: seq<byte>, b: seq<byte>)
    requires a != b
    ensures Less(a, b) != Less(b, a)
  {
    if a != [] && b != [] && a[0] == b[0] {
      assert a == [a[0]] + a[1..] && b == [b[0]] + b[1..];
      LessTotal(a[1..], b[1..]);
    }
  }

  // ─── deliveries ─────────────────────────────────────────────────────────

  /** The bytes of a run of chunks, in order. */
  function Flatten(chunks: seq<seq<byte>>): seq<byte> {
    if chunks == [] then [] else Flatten(chunks[..|chunks| - 1]) + chunks[|chunks| - 1]
  }

  lemma FlattenAppend(chunks: seq<seq<byte>>, data: seq<byte>)
    ensures Flatten(chunks + [data]) == Flatten(chunks) + data
  {
    assert (chunks + [data])[..|chunks|] == chunks;
  }

  lemma {:induction false} FlattenShift(chunks: seq<seq<byte>>)
    requires chunks != []
    ensures Flatten(chunks) == chunks[0] + Flatten(chunks[1..])
  {
    var n := |chunks| - 1;
    if n > 0 {
      FlattenShift(chunks[..n]);
      assert chunks[..n][1..] == chunks[1..][..n - 1];
    }
  }

  // ─── keys ───────────────────────────────────────────────────────────────

  /** A static public key. */
  datatype Key = Key(bytes: seq<byte>)

  predicate Before(a: Key, b: Key) {
    Less(a.bytes, b.bytes)
  }

  lemma BeforeTotal(a: Key, b: Key)
    requires a != b
    ensures Before(a, b) != Before(b, a)
  {
    LessTotal(a.bytes, b.bytes);
  }

  // ─── hexadecimal ────────────────────────────────────────────────────────

  function HexValue(c: char): (v: int)
    ensures -1 <= v < 16
  {
    if '0' <= c <= '9' then c as int - '0' as int
    else if 'a' <= c <= 'f' then c as int - 'a' as int + 10
    else if 'A' <= c <= 'F' then c as int - 'A' as int + 10
    else -1
  }

  predicate IsHex(s: string) {
    |s| % 2 == 0 && forall i :: 0 <= i < |s| ==> HexValue(s[i]) >= 0
  }

  predicate IsLowerHex(s: string) {
    |s| % 2 == 0 && forall i :: 0 <= i < |s| ==> s[i] in HEX_DIGITS
  }

  function LowerDigit(c: char): char
    requires HexValue(c) >= 0
  {
    HEX_DIGITS[HexValue(c)]
  }

  function Lower(s: string): (r: string)
    requires IsHex(s)
    ensures |r| == |s| && forall i :: 0 <= i < |s| ==> r[i] == LowerDigit(s[i])
  {
    seq(|s|, i requires 0 <= i < |s| => LowerDigit(s[i]))
  }

  function Digits(b: byte): (s: string)
    ensures |s| == 2 && IsLowerHex(s)
  {
    [HEX_DIGITS[b as int / 16], HEX_DIGITS[b as int % 16]]
  }

  function Octet(hi: char, lo: char): (b: byte)
    requires HexValue(hi) >= 0 && HexValue(lo) >= 0
  {
    (16 * HexValue(hi) + HexValue(lo)) as byte
  }

  /** b4a.toHex */
  function ToHex(b: seq<byte>): (s: string)
    ensures |s| == 2 * |b| && IsLowerHex(s)
  {
    if b == [] then "" else Digits(b[0]) + ToHex(b[1..])
  }

  /** b4a.from(s, 'hex') */
  function FromHex(s: string): (b: seq<byte>)
    requires IsHex(s)
    ensures 2 * |b| == |s|
  {
    if s == "" then [] else [Octet(s[0], s[1])] + FromHex(s[2..])
  }

  lemma LowerHexIsHex(s: string)
    requires IsLowerHex(s)
    ensures IsHex(s) && Lower(s) == s
  {
    forall i | 0 <= i < |s|
      ensures HexValue(s[i]) >= 0 && LowerDigit(s[i]) == s[i]
    {
      var k :| 0 <= k < 16 && HEX_DIGITS[k] == s[i];
      assert k == 0 || k == 1 || k == 2 || k == 3 || k == 4 || k == 5 || k == 6 || k == 7 || k == 8
          || k == 9 || k == 10 || k == 11 || k == 12 || k == 13 || k == 14 || k == 15;
    }
    assert Lower(s) == s;
  }

  lemma HexDigitValue(k: int)
    requires 0 <= k < 16
    ensures HexValue(HEX_DIGITS[k]) == k
  {
    assert k == 0 || k == 1 || k == 2 || k == 3 || k == 4 || k == 5 || k == 6 || k == 7 || k == 8
        || k == 9 || k == 10 || k == 11 || k == 12 || k == 13 || k == 14 || k == 15;
  }

  lemma DigitsThenOctet(b: byte)
    ensures HexValue(Digits(b)[0]) == b as int / 16 && HexValue(Digits(b)[1]) == b as int % 16
    ensures Octet(Digits(b)[0], Digits(b)[1]) == b
  {
    HexDigitValue(b as int / 16);
    HexDigitValue(b as int % 16);
  }

  lemma OctetThenDigits(hi: char, lo: char)
    requires HexValue(hi) >= 0 && HexValue(lo) >= 0
    ensures Digits(Octet(hi, lo)) == [LowerDigit(hi), LowerDigit(lo)]
  {
    SplitOctet(HexValue(hi), HexValue(lo));
  }

  lemma SplitOctet(h: int, l: int)
    requires 0 <= h < 16 && 0 <= l < 16
    ensures (16 * h + l) / 16 == h && (16 * h + l) % 16 == l
  {}

  /** Bytes survive the trip through their hexadecimal form. */
  lemma {:induction false} BytesRoundTrip(b: seq<byte>)
    ensures IsHex(ToHex(b)) && FromHex(ToHex(b)) == b
  {
    LowerHexIsHex(ToHex(b));
    if b != [] {
      BytesRoundTrip(b[1..]);
      DigitsThenOctet(b[0]);
      var s := ToHex(b);
      assert s[2..] == ToHex(b[1..]);
      assert s[0] == Digits(b[0])[0] && s[1] == Digits(b[0])[1];
      assert b == [b[0]] + b[1..];
    }
  }

  /** Hex digits survive up to letter case, so exactly the lower-case ones survive unchanged. */
  lemma {:induction false} HexRoundTrip(s: string)
    requires IsHex(s)
    ensures ToHex(FromHex(s)) == Lower(s)
  {
    if s != "" {
      HexRoundTrip(s[2..]);
      OctetThenDigits(s[0], s[1]);
      var b := FromHex(s);
      assert b[0] == Octet(s[0], s[1]) && b[1..] == FromHex(s[2..]);
      assert Lower(s) == [LowerDigit(s[0]), LowerDigit(s[1])] + Lower(s[2..]);
    }
  }
}
