/** Java values the order pipeline passes around: nullable references,
    32-bit ints, the exceptions its methods throw or catch, and
    java.util.UUID with its canonical text form. */
module Common {

  /** A Java reference that may be null. */
  datatype Option<+T> = None | Some(value: T)

  /** How a `void` Java call ended: normally, or by throwing. */
  datatype Outcome<+E> = Pass | Fail(error: E)

  /** How a value-returning Java call ended: with a value, or by throwing. */
  datatype Result<+T> = Ok(value: T) | Err(error: Exception)

  /** Java `int`. */
  type Int32 = x: int | -0x8000_0000 <= x < 0x8000_0000

  /** The exceptions that the modelled code throws, catches or wraps. There is no
      subtyping: `IllegalArgument` stands for IllegalArgumentException and all its
      subclasses (NumberFormatException among them), since a `catch` of it catches
      them too; `Runtime` stands for every exception not named here. */
  datatype Exception =
    | IllegalArgument(message: string)                 // Spring's Assert, UUID.fromString
    | OrderCompletion(message: string, cause: Exception)
    | JsonProcessing                                    // ObjectMapper.readValue on bad input
    | NullPointer                                       // a member call on a null reference
    | Runtime(message: string)                          // anything else a subscriber may throw

  // ---------------------------------------------------------------------------
  // java.util.UUID and UUID.toString()
  // ---------------------------------------------------------------------------

  function Pow16(w: nat): (p: nat)
    ensures p > 0
  {
    if w == 0 then 1 else 16 * Pow16(w - 1)
  }

  /** The 128 bits of a UUID, as one number. */
  type Bits128 = n: nat | n < Pow16(32) witness 0

  datatype Uuid = Uuid(bits: Bits128)

  const HEX_DIGITS: string := "0123456789abcdef"

  function HexChar(d: nat): (c: char)
    requires d < 16
    ensures c in HEX_DIGITS
  {
    HEX_DIGITS[d]
  }

  /** The lowest `width` hex digits of `n`, most significant first, zero padded. */
  function HexDigits(n: nat, width: nat): (s: string)
    ensures |s| == width
    ensures forall i :: 0 <= i < width ==> s[i] in HEX_DIGITS
  {
    if width == 0 then [] else HexDigits(n / 16, width - 1) + [HexChar(n % 16)]
  }

  /** UUID.toString(): 32 lower-case hex digits grouped 8-4-4-4-12 by dashes. */
  function UuidText(u: Uuid): (s: string)
    ensures |s| == 36
    ensures s[8] == s[13] == s[18] == s[23] == '-'
  {
    var d := HexDigits(u.bits, 32);
    d[..8] + "-" + d[8..12] + "-" + d[12..16] + "-" + d[16..20] + "-" + d[20..]
  }

  /** String concatenation of a nullable UUID: `"" + id` prints "null" for null. */
  function IdText(id: Option<Uuid>): (s: string)
    ensures id.None? <==> |s| == 4
    ensures id.None? ==> s == "null"
    ensures id.Some? ==> s == UuidText(id.value)
  {
    match id
    case None => "null"
    case Some(u) => UuidText(u)
  }

  lemma HexCharInjective(a: nat, b: nat)
    requires a < 16 && b < 16 && HexChar(a) == HexChar(b)
    ensures a == b
  {
  }

  /** Two numbers below 16^width with the same `width` hex digits are equal. */
  lemma {:induction false} HexDigitsInjective(n: nat, m: nat, width: nat)
    requires n < Pow16(width) && m < Pow16(width)
    requires HexDigits(n, width) == HexDigits(m, width)
    ensures n == m
  {
    if width > 0 {
      var s, t := HexDigits(n, width), HexDigits(m, width);
      assert s[width - 1] == HexChar(n % 16) && t[width - 1] == HexChar(m % 16);
      HexCharInjective(n % 16, m % 16);
      assert s[..width - 1] == HexDigits(n / 16, width - 1);
      assert t[..width - 1] == HexDigits(m / 16, width - 1);
      HexDigitsInjective(n / 16, m / 16, width - 1);
    }
  }

  /** Removing the four dashes from UuidText gives back the 32 hex digits. */
  lemma DigitsOfText(u: Uuid)
    ensures var t := UuidText(u);
            HexDigits(u.bits, 32) == t[..8] + t[9..13] + t[14..18] + t[19..23] + t[24..]
  {
    var d := HexDigits(u.bits, 32);
    var t := UuidText(u);
    assert t[..8] == d[..8];
    assert t[9..13] == d[8..12];
    assert t[14..18] == d[12..16];
    assert t[19..23] == d[16..20];
    assert t[24..] == d[20..];
    assert d == d[..8] + d[8..12] + d[12..16] + d[16..20] + d[20..];
  }

  /** Distinct UUIDs print differently, so a message that embeds the text names one order. */
  lemma UuidTextInjective(a: Uuid, b: Uuid)
    requires UuidText(a) == UuidText(b)
    ensures a == b
  {
    DigitsOfText(a);
    DigitsOfText(b);
    HexDigitsInjective(a.bits, b.bits, 32);
  }

  /** A nullable id prints as "null" or as its UUID text, never ambiguously. */
  lemma IdTextInjective(a: Option<Uuid>, b: Option<Uuid>)
    requires IdText(a) == IdText(b)
    ensures a == b
  {
    if a.Some? && b.Some? {
      UuidTextInjective(a.value, b.value);
    }
  }
}
