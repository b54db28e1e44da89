/** MongoDB object ids and their hexadecimal text, which is what the rest of the system passes around. */
module ObjectIds {
  import opened Wrappers

  newtype byte = b: int | 0 <= b < 256

  type ObjectId = s: seq<byte> | |s| == 12 witness [0, 0, 0, 0, 0, 0, 0, 0, 0, 0, 0, 0]

  const NIL_ID: ObjectId := [0, 0, 0, 0, 0, 0, 0, 0, 0, 0, 0, 0]

  const LOWER_DIGITS := "0123456789abcdef"

  function HexDigit(n: nat): (c: char)
    requires n < 16
  {
    LOWER_DIGITS[n]
  }

  /** Accepts both cases, as Go's hex decoder does. */
  function DigitValue(c: char): (v: Option<nat>)
    ensures v.Some? ==> v.value < 16
  {
    if '0' <= c <= '9' then Some(c as int - '0' as int)
    else if 'a' <= c <= 'f' then Some(c as int - 'a' as int + 10)
    else if 'A' <= c <= 'F' then Some(c as int - 'A' as int + 10)
    else None
  }

  predicate HexText(t: string) {
    |t| == 24 && forall i :: 0 <= i < 24 ==> DigitValue(t[i]).Some?
  }

  function Hex(id: ObjectId): (t: string)
    ensures |t| == 24
  {
    seq(24, i requires 0 <= i < 24 =>
      if i % 2 == 0 then HexDigit(id[i / 2] as int / 16) else HexDigit(id[i / 2] as int % 16))
  }

  /** None is the parse error that every store method reports for a malformed id. */
  function FromHex(t: string): (id: Option<ObjectId>)
    ensures id.Some? <==> HexText(t)
  {
    if HexText(t) then
      Some(seq(12, i requires 0 <= i < 12 =>
        (DigitValue(t[2 * i]).value * 16 + DigitValue(t[2 * i + 1]).value) as byte))
    else
      None
  }

  lemma DigitRoundTrip(n: nat)
    requires n < 16
    ensures DigitValue(HexDigit(n)) == Some(n)
  {
  }

  /** Printing an id and parsing it back is the identity, so distinct ids have distinct texts. */
  lemma HexRoundTrip(id: ObjectId)
    ensures FromHex(Hex(id)) == Some(id)
  {
    var t := Hex(id);
    forall i | 0 <= i < 24 ensures DigitValue(t[i]).Some? {
      DigitRoundTrip(if i % 2 == 0 then id[i / 2] as int / 16 else id[i / 2] as int % 16);
    }
    var back := FromHex(t).value;
    forall i | 0 <= i < 12 ensures back[i] == id[i] {
      assert (2 * i) / 2 == i && (2 * i + 1) / 2 == i && (2 * i) % 2 == 0 && (2 * i + 1) % 2 == 1;
      DigitRoundTrip(id[i] as int / 16);
      DigitRoundTrip(id[i] as int % 16);
    }
    assert back == id;
  }

  lemma HexInjective(a: ObjectId, b: ObjectId)
    ensures Hex(a) == Hex(b) <==> a == b
  {
    HexRoundTrip(a);
    HexRoundTrip(b);
  }

  /** The texts the system itself prints: parseable, and printed by `Hex`.
      An upper-case text parses to the same id but is a different cache key. */
  predicate Canonical(t: string) {
    FromHex(t).Some? && Hex(FromHex(t).value) == t
  }

  lemma HexIsCanonical(id: ObjectId)
    ensures Canonical(Hex(id))
  {
    HexRoundTrip(id);
  }

  /** The text gives the bytes one after the other, the high digit first, in lower case; and any text that parses is
      read the same way. */
  lemma HexByteByByte(id: ObjectId, t: string, i: nat)
    requires i < 12 && HexText(t)
    ensures var h, l := Hex(id)[2 * i], Hex(id)[2 * i + 1];
      && ('0' <= h <= '9' || 'a' <= h <= 'f') && ('0' <= l <= '9' || 'a' <= l <= 'f')
      && DigitValue(h).Some? && DigitValue(l).Some?
      && DigitValue(h).value * 16 + DigitValue(l).value == id[i] as int
    ensures FromHex(t).value[i] as int == DigitValue(t[2 * i]).value * 16 + DigitValue(t[2 * i + 1]).value
  {
    assert (2 * i) / 2 == i && (2 * i + 1) / 2 == i && (2 * i) % 2 == 0 && (2 * i + 1) % 2 == 1;
    DigitRoundTrip(id[i] as int / 16);
    DigitRoundTrip(id[i] as int % 16);
  }
}
