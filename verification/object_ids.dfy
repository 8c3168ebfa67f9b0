/** Store-assigned document identifiers (BSON ObjectIds) and their string
    form. `str(oid)` is the 24-digit lower-case hexadecimal spelling of the
    twelve identifier bytes, and `ObjectId(s)` reads such a string back,
    accepting either case. */
module ObjectIds {
  import opened Wrappers

  /** An unsigned 8-bit value. */
  type Byte = b: int | 0 <= b < 256

  /** The twelve raw bytes of an ObjectId. */
  type ObjectIdBytes = s: seq<Byte> | |s| == 12
    witness [0, 0, 0, 0, 0, 0, 0, 0, 0, 0, 0, 0]

  const LowerHexDigits: string := "0123456789abcdef"

  function HexDigit(n: int): char
    requires 0 <= n < 16
  {
    LowerHexDigits[n]
  }

  /** The value of one hexadecimal digit of either case; None for any other character. */
  function DigitValue(c: char): (r: Option<int>)
    ensures r.Some? ==> 0 <= r.value < 16
  {
    if '0' <= c <= '9' then Some(c as int - '0' as int)
    else if 'a' <= c <= 'f' then Some(c as int - 'a' as int + 10)
    else if 'A' <= c <= 'F' then Some(c as int - 'A' as int + 10)
    else None
  }

  /** Every lower-case digit reads back as the value it was written for. */
  lemma DigitValueOfHexDigit(n: int)
    requires 0 <= n < 16
    ensures DigitValue(HexDigit(n)) == Some(n)
  {
    assert LowerHexDigits == ['0', '1', '2', '3', '4', '5', '6', '7', '8', '9',
                              'a', 'b', 'c', 'd', 'e', 'f'];
  }

  /** Two lower-case hex digits per byte, high nibble first. */
  function Hex(bs: seq<Byte>): (s: string)
    ensures |s| == 2 * |bs|
    ensures forall i :: 0 <= i < |s| ==> s[i] in LowerHexDigits
  {
    if bs == [] then ""
    else [HexDigit(bs[0] / 16), HexDigit(bs[0] % 16)] + Hex(bs[1..])
  }

  /** Reads pairs of hex digits back into bytes; None on an odd length or a
      non-digit character. */
  function Unhex(s: string): (r: Option<seq<Byte>>)
    ensures r.Some? ==> 2 * |r.value| == |s|
    ensures r.Some? ==> forall i :: 0 <= i < |s| ==> DigitValue(s[i]).Some?
    decreases |s|
  {
    if s == "" then Some([])
    else if |s| == 1 then None
    else
      match (DigitValue(s[0]), DigitValue(s[1]))
      case (Some(hi), Some(lo)) =>
        (match Unhex(s[2..])
         case Some(rest) => Some([(hi * 16 + lo) as Byte] + rest)
         case None => None)
      case _ => None
  }

  /** `str(oid)`. */
  function ObjectIdString(oid: ObjectIdBytes): (s: string)
    ensures |s| == 24
    ensures forall i :: 0 <= i < |s| ==> s[i] in LowerHexDigits
  {
    Hex(oid)
  }

  /** `ObjectId(s)` for a string argument: exactly 24 hex digits, else the
      constructor raises. */
  function ParseObjectId(s: string): (r: Option<ObjectIdBytes>)
    ensures r.Some? ==> |s| == 24
    ensures r.Some? ==> forall i :: 0 <= i < |s| ==> DigitValue(s[i]).Some?
  {
    if |s| != 24 then None
    else
      match Unhex(s)
      case Some(bs) => Some(bs)
      case None => None
  }

  /** One step of `Unhex`: two digits in front of a readable rest. */
  lemma UnhexStep(s: string, hi: int, lo: int, rest: seq<Byte>)
    requires |s| >= 2 && 0 <= hi < 16 && 0 <= lo < 16
    requires DigitValue(s[0]) == Some(hi) && DigitValue(s[1]) == Some(lo)
    requires Unhex(s[2..]) == Some(rest)
    ensures Unhex(s) == Some([(hi * 16 + lo) as Byte] + rest)
  {
  }

  lemma Nibbles(b: Byte)
    ensures 0 <= b / 16 < 16 && 0 <= b % 16 < 16
    ensures (b / 16) * 16 + b % 16 == b
  {
  }

  lemma {:induction false} UnhexHex(bs: seq<Byte>)
    ensures Unhex(Hex(bs)) == Some(bs)
  {
    if bs != [] {
      var b := bs[0];
      var tail := Hex(bs[1..]);
      var hi, lo := b / 16, b % 16;
      Nibbles(b);
      var s := [HexDigit(hi), HexDigit(lo)] + tail;
      assert Hex(bs) == s;
      assert s[2..] == tail;
      DigitValueOfHexDigit(hi);
      DigitValueOfHexDigit(lo);
      UnhexHex(bs[1..]);
      UnhexStep(s, hi, lo, bs[1..]);
      assert (hi * 16 + lo) as Byte == b;
      assert [b] + bs[1..] == bs;
    }
  }

  /** Reading back the string form of an identifier recovers the identifier. */
  lemma ParseObjectIdString(oid: ObjectIdBytes)
    ensures ParseObjectId(ObjectIdString(oid)) == Some(oid)
  {
    UnhexHex(oid);
  }

  /** Distinct identifiers have distinct string forms. */
  lemma ObjectIdStringInjective(a: ObjectIdBytes, b: ObjectIdBytes)
    ensures ObjectIdString(a) == ObjectIdString(b) <==> a == b
  {
    ParseObjectIdString(a);
    ParseObjectIdString(b);
  }
}
