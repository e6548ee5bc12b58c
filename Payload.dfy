/** The signing-payload generator: `gen_payload(params)` is the bytes
    0x05 0x01, then the number 2 * |params| written as hexadecimal digits,
    zero-padded to at least eight digits and read back two digits per byte, then
    `params` itself. Michelson's PACK of a byte string has this shape (tag 0x05,
    bytes tag 0x01, then a length), which is what a wallet signs; note that the
    length field holds twice the byte count (the number of hex characters). */
module Payload {
  import opened Tezos

  // ---------------------------------------------------------------------------
  // The two lookup tables held in the contract's storage, as they are
  // initialised: `nat_to_bytes_string` maps 0..15 to the one-character string
  // of its lower-case hex digit, `string_to_bytes` maps every two-character
  // lower-case hex string to the byte it denotes.
  // ---------------------------------------------------------------------------

  predicate IsHexChar(c: char) {
    '0' <= c <= '9' || 'a' <= c <= 'f'
  }

  function HexChar(d: nat): (c: char)
    requires d < 16
    ensures IsHexChar(c)
  {
    if d < 10 then ('0' as int + d) as char else ('a' as int + d - 10) as char
  }

  function HexValue(c: char): (d: nat)
    requires IsHexChar(c)
    ensures d < 16 && HexChar(d) == c
  {
    if c <= '9' then c as int - '0' as int else c as int - 'a' as int + 10
  }

  /** The `nat_to_bytes_string` table. */
  function NatToBytesString(d: nat): (s: string)
    requires d < 16
    ensures |s| == 1 && IsHexChar(s[0]) && HexValue(s[0]) == d
  {
    [HexChar(d)]
  }

  /** The `string_to_bytes` table: None for a key the table does not hold. */
  function StringToBytes(s: string): (r: Option<byte>)
    ensures r.Some? <==> |s| == 2 && IsHexChar(s[0]) && IsHexChar(s[1])
  {
    if |s| == 2 && IsHexChar(s[0]) && IsHexChar(s[1]) then
      Some((16 * HexValue(s[0]) + HexValue(s[1])) as byte)
    else
      None
  }

  // ---------------------------------------------------------------------------
  // Reference definitions of the encoding.
  // ---------------------------------------------------------------------------

  /** The hex digits of x, most significant first; [0] for 0. */
  function HexDigits(x: nat): (ds: seq<nat>)
    ensures |ds| >= 1
    ensures forall i :: 0 <= i < |ds| ==> ds[i] < 16
    decreases x
  {
    if x < 16 then [x] else HexDigits(x / 16) + [x % 16]
  }

  function Zeros(n: nat): (z: seq<nat>)
    ensures |z| == n && forall i :: 0 <= i < n ==> z[i] == 0
  {
    seq(n, _ => 0)
  }

  /** Left-pads a digit list with zeros to eight digits. */
  function Padded(ds: seq<nat>): (p: seq<nat>)
    ensures |p| == if |ds| < 8 then 8 else |ds|
  {
    if |ds| < 8 then Zeros(8 - |ds|) + ds else ds
  }

  function DigitChars(ds: seq<nat>): (s: string)
    requires forall i :: 0 <= i < |ds| ==> ds[i] < 16
    ensures |s| == |ds|
  {
    seq(|ds|, i requires 0 <= i < |ds| => HexChar(ds[i]))
  }

  /** `sp.concat` of a list of strings. */
  function Concat(parts: seq<string>): string {
    if parts == [] then "" else parts[0] + Concat(parts[1..])
  }

  /** Reads a hex string two characters per byte; None when a pair is cut short
      (the slice fails) or is not in the table. */
  function HexToBytes(s: string): Option<Bytes>
    decreases |s|
  {
    if |s| == 0 then Some([])
    else if |s| < 2 then None
    else
      match StringToBytes(s[..2])
      case None => None
      case Some(b) =>
        match HexToBytes(s[2..])
        case None => None
        case Some(rest) => Some([b] + rest)
  }

  /** What `gen_payload(params)` returns; None when it aborts. */
  function Payload(params: Bytes): Option<Bytes> {
    var field := HexToBytes(DigitChars(Padded(HexDigits(2 * |params|))));
    match field
    case None => None
    case Some(b) => Some([0x05, 0x01] + b + params)
  }

  /** The last n bytes of x in big-endian order. */
  function BigEndian(x: nat, n: nat): (bs: Bytes)
    ensures |bs| == n
  {
    if n == 0 then [] else BigEndian(x / 256, n - 1) + [(x % 256) as byte]
  }

  /** The number a big-endian byte string denotes. */
  function BigEndianValue(bs: Bytes): nat {
    if bs == [] then 0 else BigEndianValue(bs[..|bs| - 1]) * 256 + bs[|bs| - 1] as nat
  }

  /** The length field holds four bytes as long as 2 * |params| < 16^8. */
  const LENGTH_LIMIT: nat := 0x1_0000_0000

  /** The inverse of the encoder: checks the prefix and the length field and
      strips them. */
  function Decode(payload: Bytes): Option<Bytes> {
    if |payload| >= 6 && payload[0] == 0x05 && payload[1] == 0x01
       && BigEndianValue(payload[2..6]) == 2 * (|payload| - 6)
    then Some(payload[6..])
    else None
  }

  // ---------------------------------------------------------------------------
  // The view itself, with the source's loops.
  // ---------------------------------------------------------------------------

  /** `gen_payload`: the digit list is built by prepending (SmartPy's
      `list.push`), so the least significant digit, pushed first, ends up last;
      the zero padding is prepended the same way. */
  method GenPayload(params: Bytes) returns (r: Option<Bytes>)
    ensures r == Payload(params)
    ensures r.Some? ==> |r.value| >= 2 && r.value[..2] == [0x05, 0x01]
    ensures r.Some? ==> |r.value| >= |params| && r.value[|r.value| - |params|..] == params
    ensures 2 * |params| < LENGTH_LIMIT ==>
              r == Some([0x05, 0x01] + BigEndian(2 * |params|, 4) + params)
  {
    var result: Bytes := [0x05, 0x01];
    var field := EncodeLength(|params| * 2);
    PayloadEnds(params);
    if 2 * |params| < LENGTH_LIMIT {
      LengthField(2 * |params|);
    }
    if field.None? {
      return None;
    }
    result := result + field.value;
    result := result + params;
    r := Some(result);
  }

  /** The length field of `gen_payload`: the eight-digit hex string of x,
      read back two digits per byte. */
  method EncodeLength(x: nat) returns (field: Option<Bytes>)
    ensures field == HexToBytes(DigitChars(Padded(HexDigits(x))))
  {
    var digits := PaddedLengthDigits(x);
    var s := Concat(digits);
    ConcatDigitStrings(Padded(HexDigits(x)));
    field := PairsToBytes(s);
  }

  /** Whatever the length field, a payload starts with the two tag bytes and
      ends with params. */
  lemma PayloadEnds(params: Bytes)
    ensures Payload(params).Some? ==>
              var p := Payload(params).value;
              && |p| >= 2 + |params| && p[..2] == [0x05, 0x01] && p[|p| - |params|..] == params
  {
    if Payload(params).Some? {
      var field := HexToBytes(DigitChars(Padded(HexDigits(2 * |params|)))).value;
      var p := [0x05, 0x01] + field + params;
      assert p[..2] == [0x05, 0x01];
      assert p[|p| - |params|..] == params;
    }
  }

  /** The two `while_` loops of `gen_payload`: the hex digits of x, pushed least
      significant first, then "0" pushed until there are eight. */
  method PaddedLengthDigits(x0: nat) returns (digits: seq<string>)
    ensures |digits| >= 8
    ensures forall i :: 0 <= i < |digits| ==> |digits[i]| == 1 && IsHexChar(digits[i][0])
    ensures digits == DigitStrings(Padded(HexDigits(x0)))
  {
    digits := LengthDigits(x0);
    digits := PadDigits(digits, HexDigits(x0));
  }

  /** The first `while_` loop (and the "0" pushed for a zero length). */
  method LengthDigits(x0: nat) returns (digits: seq<string>)
    ensures digits == DigitStrings(HexDigits(x0))
  {
    var x: nat := x0;
    digits := [];
    ghost var ds: seq<nat> := [];
    if x == 0 {
      digits := ["0"] + digits;
      ds := [0] + ds;
    }
    while x > 0
      invariant forall i :: 0 <= i < |ds| ==> ds[i] < 16
      invariant digits == DigitStrings(ds)
      invariant x > 0 ==> HexDigits(x0) == HexDigits(x) + ds
      invariant x == 0 ==> HexDigits(x0) == ds
      decreases x
    {
      DigitStringsCons(x % 16, ds);
      if x >= 16 {
        assert HexDigits(x) + ds == HexDigits(x / 16) + ([x % 16] + ds);
      }
      digits := [NatToBytesString(x % 16)] + digits;
      ds := [x % 16] + ds;
      x := x / 16;
    }
  }

  /** The second `while_` loop: "0" pushed until the list has eight digits. */
  method PadDigits(digits0: seq<string>, ghost hd: seq<nat>) returns (digits: seq<string>)
    requires forall i :: 0 <= i < |hd| ==> hd[i] < 16
    requires digits0 == DigitStrings(hd)
    ensures digits == DigitStrings(Padded(hd))
  {
    digits := digits0;
    ghost var ds := hd;
    assert ds == Zeros(0) + hd;
    while |digits| < 8
      invariant forall i :: 0 <= i < |ds| ==> ds[i] < 16
      invariant digits == DigitStrings(ds)
      invariant |ds| >= |hd| && ds == Zeros(|ds| - |hd|) + hd
      invariant |ds| > |hd| ==> |ds| <= 8
      decreases 8 - |digits|
    {
      DigitStringsCons(0, ds);
      assert [0] + (Zeros(|ds| - |hd|) + hd) == Zeros(|ds| + 1 - |hd|) + hd;
      digits := ["0"] + digits;
      ds := [0] + ds;
    }
    assert ds == Padded(hd);
  }

  /** The `for` loop of `gen_payload`: each two-character slice of the digit
      string looked up in `string_to_bytes`. */
  method PairsToBytes(s: string) returns (r: Option<Bytes>)
    ensures r == HexToBytes(s)
  {
    var acc: Bytes := [];
    var offset := 0;
    assert s[offset..] == s;
    PrependEmpty(HexToBytes(s));
    while offset < |s|
      invariant 0 <= offset <= |s|
      invariant HexToBytes(s) == Prepend(acc, HexToBytes(s[offset..]))
      decreases |s| - offset
    {
      if offset + 2 > |s| {
        return None;
      }
      var b := StringToBytes(s[offset..offset + 2]);
      if b.None? {
        assert s[offset..][..2] == s[offset..offset + 2];
        return None;
      }
      assert s[offset..][..2] == s[offset..offset + 2];
      assert s[offset..][2..] == s[offset + 2..];
      PrependStep(acc, b.value, HexToBytes(s[offset + 2..]));
      acc := acc + [b.value];
      offset := offset + 2;
    }
    assert s[offset..] == [];
    assert acc + [] == acc;
    r := Some(acc);
  }

  function DigitStrings(ds: seq<nat>): seq<string>
    requires forall i :: 0 <= i < |ds| ==> ds[i] < 16
  {
    seq(|ds|, i requires 0 <= i < |ds| => NatToBytesString(ds[i]))
  }

  lemma DigitStringsCons(d: nat, ds: seq<nat>)
    requires d < 16 && forall i :: 0 <= i < |ds| ==> ds[i] < 16
    ensures DigitStrings([d] + ds) == [NatToBytesString(d)] + DigitStrings(ds)
  {
  }

  function Prepend(acc: Bytes, rest: Option<Bytes>): Option<Bytes> {
    match rest
    case None => None
    case Some(b) => Some(acc + b)
  }

  lemma PrependEmpty(rest: Option<Bytes>)
    ensures Prepend([], rest) == rest
  {
    if rest.Some? {
      assert [] + rest.value == rest.value;
    }
  }

  lemma PrependStep(acc: Bytes, b: byte, rest: Option<Bytes>)
    ensures Prepend(acc, Prepend([b], rest)) == Prepend(acc + [b], rest)
  {
    if rest.Some? {
      assert acc + ([b] + rest.value) == (acc + [b]) + rest.value;
    }
  }

  lemma {:induction false} ConcatDigitStrings(ds: seq<nat>)
    requires forall i :: 0 <= i < |ds| ==> ds[i] < 16
    ensures Concat(DigitStrings(ds)) == DigitChars(ds)
    decreases |ds|
  {
    if ds != [] {
      ConcatDigitStrings(ds[1..]);
      assert DigitStrings(ds)[1..] == DigitStrings(ds[1..]);
      assert DigitChars(ds) == [HexChar(ds[0])] + DigitChars(ds[1..]);
    }
  }

  // ---------------------------------------------------------------------------
  // Properties of the encoding.
  // ---------------------------------------------------------------------------

  function Pow16(k: nat): (p: nat)
    ensures p >= 1
  {
    if k == 0 then 1 else 16 * Pow16(k - 1)
  }

  /** The last k hex digits of x, most significant first. */
  function FixedHex(x: nat, k: nat): (ds: seq<nat>)
    ensures |ds| == k && forall i :: 0 <= i < k ==> ds[i] < 16
  {
    if k == 0 then [] else FixedHex(x / 16, k - 1) + [x % 16]
  }

  lemma {:induction false} FixedHexZero(k: nat)
    ensures FixedHex(0, k) == Zeros(k)
  {
    if k > 0 {
      FixedHexZero(k - 1);
    }
  }

  /** Padding the minimal digits of x to k digits gives the last k digits of x,
      when x has at most k digits. */
  lemma {:induction false} PaddedDigits(x: nat, k: nat)
    requires 1 <= k && x < Pow16(k)
    ensures |HexDigits(x)| <= k
    ensures Zeros(k - |HexDigits(x)|) + HexDigits(x) == FixedHex(x, k)
    decreases k
  {
    if x < 16 {
      FixedHexZero(k - 1);
    } else {
      assert k >= 2;
      PaddedDigits(x / 16, k - 1);
    }
  }

  lemma {:induction false} HexToBytesAppend(a: string, b: string)
    requires |a| % 2 == 0
    ensures HexToBytes(a + b) == match HexToBytes(a)
                                 case None => None
                                 case Some(x) => Prepend(x, HexToBytes(b))
    decreases |a|
  {
    if |a| == 0 {
      assert a + b == b;
      PrependEmpty(HexToBytes(b));
    } else {
      assert (a + b)[..2] == a[..2];
      assert (a + b)[2..] == a[2..] + b;
      HexToBytesAppend(a[2..], b);
      match StringToBytes(a[..2])
      case None =>
      case Some(x) =>
        match HexToBytes(a[2..])
        case None =>
        case Some(rest) =>
          match HexToBytes(b)
          case None =>
          case Some(bb) =>
            assert [x] + (rest + bb) == ([x] + rest) + bb;
    }
  }

  lemma HexRoundTrip(d: nat)
    requires d < 16
    ensures HexValue(HexChar(d)) == d
  {
  }

  lemma PairByte(x: nat)
    ensures 16 * ((x / 16) % 16) + x % 16 == x % 256
    ensures x / 16 / 16 == x / 256
  {
  }

  /** Two hex digits per byte read back the big-endian bytes. */
  lemma {:induction false} FixedHexBytes(x: nat, m: nat)
    ensures HexToBytes(DigitChars(FixedHex(x, 2 * m))) == Some(BigEndian(x, m))
    decreases m
  {
    if m > 0 {
      var hi := DigitChars(FixedHex(x / 256, 2 * (m - 1)));
      var pair := [HexChar((x / 16) % 16), HexChar(x % 16)];
      FixedHexSplit(x, m);
      FixedHexBytes(x / 256, m - 1);
      HexToBytesAppend(hi, pair);
      LowByte(x);
    }
  }

  /** The last two hex digits of a 2m-digit string are those of the low byte. */
  lemma FixedHexSplit(x: nat, m: nat)
    requires m > 0
    ensures DigitChars(FixedHex(x, 2 * m))
            == DigitChars(FixedHex(x / 256, 2 * (m - 1))) + [HexChar((x / 16) % 16), HexChar(x % 16)]
  {
    FixedHexTwo(x, 2 * (m - 1));
    DigitCharsPush(FixedHex(x / 256, 2 * (m - 1)), (x / 16) % 16, x % 16);
  }

  lemma DigitCharsPush(ds: seq<nat>, a: nat, b: nat)
    requires forall i :: 0 <= i < |ds| ==> ds[i] < 16
    requires a < 16 && b < 16
    ensures DigitChars(ds + [a, b]) == DigitChars(ds) + [HexChar(a), HexChar(b)]
  {
    DigitCharsAppend(ds, [a, b]);
    DigitCharsTwo(a, b);
  }

  lemma DigitCharsTwo(a: nat, b: nat)
    requires a < 16 && b < 16
    ensures DigitChars([a, b]) == [HexChar(a), HexChar(b)]
  {
  }

  /** The two hex digits of the low byte read back that byte. */
  lemma LowByte(x: nat)
    ensures HexToBytes([HexChar((x / 16) % 16), HexChar(x % 16)]) == Some([(x % 256) as byte])
  {
    PairByte(x);
    HexPair((x / 16) % 16, x % 16);
  }

  lemma FixedHexTwo(x: nat, k: nat)
    ensures FixedHex(x, k + 2) == FixedHex(x / 256, k) + [(x / 16) % 16, x % 16]
  {
    PairByte(x);
    assert FixedHex(x, k + 2) == FixedHex(x / 16, k + 1) + [x % 16];
    assert FixedHex(x / 16, k + 1) == FixedHex(x / 16 / 16, k) + [(x / 16) % 16];
  }

  lemma DigitCharsAppend(a: seq<nat>, b: seq<nat>)
    requires forall i :: 0 <= i < |a| ==> a[i] < 16
    requires forall i :: 0 <= i < |b| ==> b[i] < 16
    ensures DigitChars(a + b) == DigitChars(a) + DigitChars(b)
  {
  }

  lemma HexPair(hi: nat, lo: nat)
    requires hi < 16 && lo < 16
    ensures HexToBytes([HexChar(hi), HexChar(lo)]) == Some([(16 * hi + lo) as byte])
  {
    var pair := [HexChar(hi), HexChar(lo)];
    HexRoundTrip(hi);
    HexRoundTrip(lo);
    assert pair[..2] == pair && pair[2..] == [];
    assert StringToBytes(pair) == Some((16 * hi + lo) as byte);
    assert [(16 * hi + lo) as byte] + [] == [(16 * hi + lo) as byte];
  }

  /** For 2 * |params| < 16^8 the length field is the four big-endian bytes. */
  lemma LengthField(n: nat)
    requires n < LENGTH_LIMIT
    ensures HexToBytes(DigitChars(Padded(HexDigits(n)))) == Some(BigEndian(n, 4))
  {
    assert Pow16(8) == LENGTH_LIMIT;
    PaddedDigits(n, 8);
    assert Padded(HexDigits(n)) == FixedHex(n, 8);
    FixedHexBytes(n, 4);
  }

  /** Under the size bound the payload is exactly six bytes longer than params,
      with the prefix and length field in front. */
  lemma PayloadShape(params: Bytes)
    requires 2 * |params| < LENGTH_LIMIT
    ensures Payload(params) == Some([0x05, 0x01] + BigEndian(2 * |params|, 4) + params)
    ensures |Payload(params).value| == 6 + |params|
  {
    LengthField(2 * |params|);
  }

  /** The empty byte string encodes to the six bytes 05 01 00 00 00 00. */
  lemma EmptyPayload()
    ensures Payload([]) == Some([0x05, 0x01, 0x00, 0x00, 0x00, 0x00])
  {
    PayloadShape([]);
    assert BigEndian(0, 4) == [0, 0, 0, 0];
    assert [0x05, 0x01] + [0, 0, 0, 0] + [] == [0x05, 0x01, 0x00, 0x00, 0x00, 0x00];
  }

  lemma {:induction false} BigEndianRoundTrip(x: nat, n: nat)
    requires x < Pow16(2 * n)
    ensures BigEndianValue(BigEndian(x, n)) == x
    decreases n
  {
    if n > 0 {
      var bs := BigEndian(x, n);
      assert bs[..n - 1] == BigEndian(x / 256, n - 1);
      assert Pow16(2 * n) == 256 * Pow16(2 * (n - 1));
      BigEndianRoundTrip(x / 256, n - 1);
    }
  }

  /** Decoding a generated payload gives params back. */
  lemma DecodePayload(params: Bytes)
    requires 2 * |params| < LENGTH_LIMIT
    ensures Payload(params).Some? && Decode(Payload(params).value) == Some(params)
  {
    PayloadShape(params);
    var p := Payload(params).value;
    assert p[2..6] == BigEndian(2 * |params|, 4);
    assert Pow16(8) == LENGTH_LIMIT;
    BigEndianRoundTrip(2 * |params|, 4);
    assert p[6..] == params;
  }

  /** So the encoder is injective under the size bound. */
  lemma PayloadInjective(p: Bytes, q: Bytes)
    requires 2 * |p| < LENGTH_LIMIT && 2 * |q| < LENGTH_LIMIT
    requires Payload(p) == Payload(q)
    ensures p == q
  {
    DecodePayload(p);
    DecodePayload(q);
  }

  /** Between 16^8 and 16^9 the length has nine hex digits: the last two-digit
      slice is cut short and the view aborts. */
  lemma NineDigitLengthAborts(params: Bytes)
    requires LENGTH_LIMIT <= 2 * |params| < 16 * LENGTH_LIMIT
    ensures Payload(params) == None
  {
    var n := 2 * |params|;
    assert Pow16(9) == 16 * LENGTH_LIMIT;
    PaddedDigits(n, 9);
    var hd := HexDigits(n);
    assert |hd| == 9 by {
      if |hd| < 9 {
        assert Zeros(9 - |hd|) + hd == FixedHex(n, 9);
        FixedHexHigh(n, 9);
        assert false;
      }
    }
    OddHexAborts(DigitChars(Padded(hd)));
  }

  /** The leading digit of a k-digit x is nonzero when x >= 16^(k-1). */
  lemma {:induction false} FixedHexHigh(x: nat, k: nat)
    requires 1 <= k && Pow16(k - 1) <= x < Pow16(k)
    ensures FixedHex(x, k)[0] != 0
    decreases k
  {
    if k > 1 {
      assert Pow16(k - 1) == 16 * Pow16(k - 2);
      FixedHexHigh(x / 16, k - 1);
    }
  }

  lemma {:induction false} OddHexAborts(s: string)
    requires |s| % 2 == 1
    ensures HexToBytes(s) == None
    decreases |s|
  {
    if |s| >= 2 {
      OddHexAborts(s[2..]);
    }
  }
}
