/**
 * TauriApi/Utilities/JsonConverters/ColorFormatConverter.cs: the JSON form of
 * a `TauriColor`, the hexadecimal notation of CSS Color Module Level 4,
 * section 5.2.
 *
 * `Write` emits `#RRGGBB` for an opaque colour (alpha 255) and `#RRGGBBAA`
 * otherwise, each channel as two upper-case hexadecimal digits. `Read`
 * rejects a null or empty string, puts a `#` in front of a string that lacks
 * one, and hands the result to the `TauriColor(string)` constructor, turning
 * its `ArgumentException` into a `JsonException`.
 *
 * The constructor is not part of this model: `Read` takes it as a function
 * parameter. As the partner of `Write`, `Decode` is an independent reader of
 * the notation, and the model proves that it inverts `Write`.
 */
module ColorFormatConverterModel {
  import opened Bridge

  /** A channel: the `byte` properties `R`, `G`, `B`, `A`. */
  type Byte = x: int | 0 <= x < 256

  datatype TauriColor = TauriColor(r: Byte, g: Byte, b: Byte, a: Byte)

  // ----- Write -----

  /** The upper-case hexadecimal digit of a value below 16. */
  function HexDigit(d: int): (c: char)
    requires 0 <= d < 16
    ensures ('0' <= c <= '9') || ('A' <= c <= 'F')
  {
    if d < 10 then ('0' as int + d) as char else ('A' as int + d - 10) as char
  }

  /** The format `X2` on a byte: exactly two upper-case digits, high nibble first. */
  function HexByte(v: Byte): (s: string)
    ensures |s| == 2
  {
    [HexDigit(v / 16), HexDigit(v % 16)]
  }

  /** `Write`: the notation with six digits when alpha is 255, eight otherwise. */
  function Write(c: TauriColor): (s: string)
    ensures |s| == (if c.a == 255 then 7 else 9)
    ensures s[0] == '#'
    ensures s[1..3] == HexByte(c.r) && s[3..5] == HexByte(c.g) && s[5..7] == HexByte(c.b)
    ensures c.a != 255 ==> s[7..9] == HexByte(c.a)
  {
    var rgb := "#" + HexByte(c.r) + HexByte(c.g) + HexByte(c.b);
    if c.a == 255 then rgb else rgb + HexByte(c.a)
  }

  // ----- An independent reader of the notation -----

  /** The value of one hexadecimal digit of either case. */
  function HexValue(ch: char): (r: Option<int>)
    ensures r.Some? ==> 0 <= r.value < 16
  {
    if '0' <= ch <= '9' then Some(ch as int - '0' as int)
    else if 'A' <= ch <= 'F' then Some(ch as int - 'A' as int + 10)
    else if 'a' <= ch <= 'f' then Some(ch as int - 'a' as int + 10)
    else None
  }

  /** The byte two hexadecimal digits spell. */
  function DecodeByte(s: string): (r: Option<Byte>)
    requires |s| == 2
  {
    var hi := HexValue(s[0]);
    var lo := HexValue(s[1]);
    if hi.Some? && lo.Some? then Some(hi.value * 16 + lo.value) else None
  }

  /** Read `#RRGGBB` (alpha 255) or `#RRGGBBAA`; anything else is not the notation. */
  function Decode(s: string): (r: Option<TauriColor>)
    ensures r.Some? ==> (|s| == 7 || |s| == 9) && s[0] == '#'
  {
    if (|s| != 7 && |s| != 9) || s[0] != '#' then None
    else
      var r := DecodeByte(s[1..3]);
      var g := DecodeByte(s[3..5]);
      var b := DecodeByte(s[5..7]);
      var a := if |s| == 7 then Some(255) else DecodeByte(s[7..9]);
      if r.Some? && g.Some? && b.Some? && a.Some? then Some(TauriColor(r.value, g.value, b.value, a.value))
      else None
  }

  lemma HexDigitValue(d: int)
    requires 0 <= d < 16
    ensures HexValue(HexDigit(d)) == Some(d)
  {
  }

  /** Every byte reads back from its two digits. */
  lemma HexByteRoundTrip(v: Byte)
    ensures DecodeByte(HexByte(v)) == Some(v)
  {
    HexDigitValue(v / 16);
    HexDigitValue(v % 16);
  }

  /** `Decode` inverts `Write`: every colour reads back from its notation. */
  lemma WriteDecodes(c: TauriColor)
    ensures Decode(Write(c)) == Some(c)
  {
    var s := Write(c);
    HexByteRoundTrip(c.r);
    HexByteRoundTrip(c.g);
    HexByteRoundTrip(c.b);
    HexByteRoundTrip(c.a);
  }

  /**
   * `Write` is injective: distinct colours give distinct strings. In
   * particular an opaque colour's string, of length 7, never equals a
   * translucent one's, of length 9.
   */
  lemma WriteInjective(c1: TauriColor, c2: TauriColor)
    ensures Write(c1) == Write(c2) <==> c1 == c2
    ensures c1.a == 255 && c2.a != 255 ==> Write(c1) != Write(c2)
  {
    WriteDecodes(c1);
    WriteDecodes(c2);
  }

  /** Concretely: opaque red and half-transparent blue. */
  lemma WriteExamples()
    ensures Write(TauriColor(255, 0, 0, 255)) == "#FF0000"
    ensures Write(TauriColor(0, 0, 255, 128)) == "#0000FF80"
  {
    assert HexByte(255) == "FF";
    assert HexByte(0) == "00";
    assert HexByte(128) == "80";
  }

  // ----- Read -----

  /** How `new TauriColor(value)` ends: a colour, an `ArgumentException`, or another exception, which `Read` does not catch. */
  datatype Construction = Constructed(color: TauriColor) | ConstructorArgumentException | ConstructorOtherException

  /** How `Read` ends. */
  datatype ReadResult = Ok(color: TauriColor) | JsonException(message: string) | OtherException

  const NullOrEmptyMessage := "Color value cannot be null or empty"
  const InvalidFormatPrefix := "Invalid color format: "

  /** Put `#` in front of a string that does not start with it (an ordinal test). */
  function EnsureHashPrefix(value: string): (s: string)
    ensures |s| > 0 && s[0] == '#'
    ensures |value| > 0 && value[0] == '#' ==> s == value
    ensures !(|value| > 0 && value[0] == '#') ==> s == "#" + value
  {
    if |value| > 0 && value[0] == '#' then value else "#" + value
  }

  /** Prefixing is idempotent. */
  lemma EnsureHashPrefixIdempotent(value: string)
    ensures EnsureHashPrefix(EnsureHashPrefix(value)) == EnsureHashPrefix(value)
  {
  }

  /**
   * `Read` on the JSON string (`None` for null), with `construct` standing
   * for the `TauriColor(string)` constructor.
   */
  function Read(value: Option<string>, construct: string -> Construction): (r: ReadResult)
    ensures (value.None? || value.value == "") ==> r == JsonException(NullOrEmptyMessage)
  {
    if value.None? || value.value == "" then JsonException(NullOrEmptyMessage)
    else
      var prefixed := EnsureHashPrefix(value.value);
      match construct(prefixed)
      case Constructed(c) => Ok(c)
      case ConstructorArgumentException => JsonException(InvalidFormatPrefix + prefixed)
      case ConstructorOtherException => OtherException
  }

  /**
   * On a non-empty string, the constructor sees the string with the `#` it
   * lacked: a colour it builds is the result, its `ArgumentException` is a
   * `JsonException` naming the prefixed string, and any other exception
   * passes through.
   */
  lemma ReadMapsConstructor(value: string, construct: string -> Construction)
    requires value != ""
    ensures var prefixed := EnsureHashPrefix(value);
      (construct(prefixed).Constructed? ==> Read(Some(value), construct) == Ok(construct(prefixed).color)) &&
      (construct(prefixed).ConstructorArgumentException? ==> Read(Some(value), construct) == JsonException(InvalidFormatPrefix + prefixed)) &&
      (construct(prefixed).ConstructorOtherException? ==> Read(Some(value), construct) == OtherException)
  {
  }

  /** With or without the leading `#`, a string reads alike. */
  lemma ReadIgnoresHashPrefix(value: string, construct: string -> Construction)
    requires value != "" && value[0] != '#'
    ensures Read(Some(value), construct) == Read(Some("#" + value), construct)
  {
    assert ("#" + value)[0] == '#';
  }

  /** Only `Read`'s own checks and the constructor's `ArgumentException` become a `JsonException`. */
  lemma ReadJsonExceptions(value: Option<string>, construct: string -> Construction)
    ensures Read(value, construct).JsonException? <==>
      value.None? || value.value == "" || construct(EnsureHashPrefix(value.value)).ConstructorArgumentException?
  {
  }
}
