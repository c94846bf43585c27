/**
 * `CustomEnumValueConverter<T>` of
 * TauriApi/Utilities/JsonConverters/CustomEnumValueConvertor.cs: the JSON
 * string form of an enum whose members may carry a `[CustomEnumValue(...)]`
 * attribute.
 *
 * Reflection over the enum type is replaced by an explicit table of its
 * public fields in declaration order; an enum value is its underlying
 * 32-bit integer, as in .NET, so values that name no member are values too.
 */
module CustomEnumValueConverterModel {
  import opened Bridge

  /** The underlying type of the enums (`int`). */
  type Int32 = x: int | -0x8000_0000 <= x < 0x8000_0000

  /** One public static field of the enum: its name, its value and its custom value, if any. */
  datatype Field = Field(name: string, value: Int32, custom: Option<string>)

  /** The fields of an enum, in declaration order. */
  type Table = seq<Field>

  // ----- Searching the table in declaration order -----

  /** What a search looks for in a field. */
  datatype Key =
    | CustomIs(text: string)     // the custom value equals `text` exactly (ordinal comparison)
    | NameLike(text: string)     // the name equals `text` ignoring case
    | ValueIs(value: Int32)      // the field has this underlying value

  function ToUpperAscii(c: char): char
  {
    if 'a' <= c <= 'z' then (c as int - 32) as char else c
  }

  /** Ordinal comparison ignoring case. */
  predicate EqualsIgnoreCase(a: string, b: string)
  {
    |a| == |b| && forall k :: 0 <= k < |a| ==> ToUpperAscii(a[k]) == ToUpperAscii(b[k])
  }

  predicate Matches(f: Field, key: Key)
  {
    match key
    case CustomIs(text) => f.custom == Some(text)
    case NameLike(text) => EqualsIgnoreCase(f.name, text)
    case ValueIs(v) => f.value == v
  }

  /** The position of the first field in declaration order that matches `key`, if there is one. */
  function FirstMatch(table: Table, key: Key): (r: Option<nat>)
    ensures r.Some? ==> r.value < |table| && Matches(table[r.value], key)
    ensures r.Some? ==> forall j :: 0 <= j < r.value ==> !Matches(table[j], key)
    ensures r.None? <==> forall j :: 0 <= j < |table| ==> !Matches(table[j], key)
  {
    if table == [] then None
    else if Matches(table[0], key) then Some(0)
    else match FirstMatch(table[1..], key)
      case None => None
      case Some(i) => Some(i + 1)
  }

  // ----- Decimal numbers, as `ToString()` writes and `Enum.Parse` reads an enum value -----

  predicate IsDigit(c: char) { '0' <= c <= '9' }

  function DigitChar(d: nat): (c: char)
    requires d < 10
    ensures IsDigit(c) && c as int - '0' as int == d
  {
    ('0' as int + d) as char
  }

  predicate AllDigits(s: string) { forall k :: 0 <= k < |s| ==> IsDigit(s[k]) }

  /** The value of a string of decimal digits. */
  function DigitsValue(s: string): nat
    requires AllDigits(s)
  {
    if s == [] then 0 else 10 * DigitsValue(s[..|s| - 1]) + (s[|s| - 1] as int - '0' as int)
  }

  /** The shortest decimal digits of `n`. */
  function FormatNat(n: nat): (s: string)
    ensures s != [] && AllDigits(s)
    ensures DigitsValue(s) == n
    decreases n
  {
    if n < 10 then [DigitChar(n)]
    else
      var s := FormatNat(n / 10) + [DigitChar(n % 10)];
      assert s[..|s| - 1] == FormatNat(n / 10);
      s
  }

  /** `ToString()` of an enum value that names no member: its decimal form. */
  function FormatInt(v: int): (s: string)
    ensures s != [] && (s[0] == '-' || IsDigit(s[0]))
  {
    if v < 0 then "-" + FormatNat(-v) else FormatNat(v)
  }

  /** The integer a numeric string denotes: an optional sign, then at least one digit. */
  function ParseInteger(s: string): (r: Option<int>)
    ensures r.Some? ==> s != [] && (s[0] == '-' || s[0] == '+' || IsDigit(s[0]))
  {
    if s != [] && (s[0] == '-' || s[0] == '+') then
      if |s| > 1 && AllDigits(s[1..]) then
        Some(if s[0] == '-' then -(DigitsValue(s[1..]) as int) else DigitsValue(s[1..]) as int)
      else None
    else if s != [] && AllDigits(s) then Some(DigitsValue(s))
    else None
  }

  /** Reading back what `FormatInt` writes gives the value. */
  lemma ParseFormatInt(v: int)
    ensures ParseInteger(FormatInt(v)) == Some(v)
  {
    if v < 0 {
      assert FormatInt(v)[1..] == FormatNat(-v);
    }
  }

  datatype ReadError = ArgumentNullException | ArgumentException | OverflowException

  datatype ReadResult = Ok(value: Int32) | Err(error: ReadError)

  /**
   * `Enum.Parse<T>(value, ignoreCase: true)` on a non-null string: a numeric
   * string is the value it denotes (an `OverflowException` outside the
   * underlying type), otherwise the first field whose name equals the string
   * ignoring case, otherwise an `ArgumentException`.
   */
  function EnumParse(table: Table, s: string): (r: ReadResult)
    ensures ParseInteger(s).Some? ==>
      r == (if -0x8000_0000 <= ParseInteger(s).value < 0x8000_0000 then Ok(ParseInteger(s).value) else Err(OverflowException))
    ensures ParseInteger(s).None? && FirstMatch(table, NameLike(s)).Some? ==>
      r == Ok(table[FirstMatch(table, NameLike(s)).value].value)
    ensures ParseInteger(s).None? && FirstMatch(table, NameLike(s)).None? ==> r == Err(ArgumentException)
  {
    match ParseInteger(s)
    case Some(n) => if -0x8000_0000 <= n < 0x8000_0000 then Ok(n) else Err(OverflowException)
    case None =>
      match FirstMatch(table, NameLike(s))
      case Some(i) => Ok(table[i].value)
      case None => Err(ArgumentException)
  }

  /**
   * What `Read` returns for the JSON string `value` (`None` for a JSON null):
   * the first field, in declaration order, whose custom value equals the
   * string exactly; failing that, what `Enum.Parse` makes of it.
   */
  function ReadSpec(table: Table, value: Option<string>): ReadResult
  {
    if value.Some? && FirstMatch(table, CustomIs(value.value)).Some? then
      Ok(table[FirstMatch(table, CustomIs(value.value)).value].value)
    else if value.None? then
      Err(ArgumentNullException)
    else
      EnumParse(table, value.value)
  }

  /** `Read`: a linear search over the fields for an exact custom-value match, then the `Enum.Parse` fallback. */
  method Read(table: Table, value: Option<string>) returns (r: ReadResult)
    ensures r == ReadSpec(table, value)
  {
    var i := 0;
    while i < |table|
      invariant 0 <= i <= |table|
      invariant value.Some? ==> forall j :: 0 <= j < i ==> !Matches(table[j], CustomIs(value.value))
    {
      var attribute := table[i].custom;
      if attribute.Some? && attribute == value {
        return Ok(table[i].value);
      }
      i := i + 1;
    }
    if value.None? {
      return Err(ArgumentNullException);
    }
    return EnumParse(table, value.value);
  }

  /** The string `Write` emits for a field: its custom value if it has one, else its name. */
  function DisplayName(f: Field): string
  {
    if f.custom.Some? then f.custom.value else f.name
  }

  /**
   * `Write`: `value.ToString()` names the (first) field with that value, and
   * that field's custom value is written if it has one, its name otherwise; a
   * value that names no field is written in decimal.
   */
  function Write(table: Table, v: Int32): (s: string)
    ensures FirstMatch(table, ValueIs(v)).Some? ==> s == DisplayName(table[FirstMatch(table, ValueIs(v)).value])
    ensures FirstMatch(table, ValueIs(v)).None? ==> ParseInteger(s) == Some(v)
  {
    match FirstMatch(table, ValueIs(v))
    case Some(i) => DisplayName(table[i])
    case None => ParseFormatInt(v); FormatInt(v)
  }

  // ----- Properties of Read -----

  /** A JSON null matches no custom value and makes `Enum.Parse` throw `ArgumentNullException`. */
  lemma ReadNull(table: Table)
    ensures ReadSpec(table, None) == Err(ArgumentNullException)
  {
  }

  /**
   * An exact custom-value match wins: the first field carrying the custom
   * value is returned, whatever names or numbers the string also resembles.
   */
  lemma ReadCustomValueFirst(table: Table, s: string, i: nat)
    requires i < |table| && table[i].custom == Some(s)
    requires forall j :: 0 <= j < i ==> table[j].custom != Some(s)
    ensures ReadSpec(table, Some(s)) == Ok(table[i].value)
  {
  }

  /** With no custom-value match and no numeric form, `Read` is the first case-insensitive name match, or fails. */
  lemma ReadFallsBackToName(table: Table, s: string)
    requires forall j :: 0 <= j < |table| ==> table[j].custom != Some(s)
    requires ParseInteger(s) == None
    ensures (exists j :: 0 <= j < |table| && EqualsIgnoreCase(table[j].name, s)) <==> ReadSpec(table, Some(s)).Ok?
    ensures forall j :: 0 <= j < |table| && EqualsIgnoreCase(table[j].name, s) ==>
      (forall k :: 0 <= k < j ==> !EqualsIgnoreCase(table[k].name, s)) ==> ReadSpec(table, Some(s)) == Ok(table[j].value)
    ensures ReadSpec(table, Some(s)).Err? ==> ReadSpec(table, Some(s)) == Err(ArgumentException)
  {
    var m := FirstMatch(table, NameLike(s));
    if m.Some? {
      assert EqualsIgnoreCase(table[m.value].name, s);
    }
  }

  // ----- Round trips -----

  /** No two fields share an underlying value (the enum has no aliases). */
  ghost predicate ValuesDistinct(table: Table)
  {
    forall i, j :: 0 <= i < j < |table| ==> table[i].value != table[j].value
  }

  /** No two fields carry the same custom value. */
  ghost predicate CustomValuesDistinct(table: Table)
  {
    forall i, j :: 0 <= i < j < |table| && table[i].custom.Some? ==> table[i].custom != table[j].custom
  }

  /** Every field carries a custom value, so `Write` never falls back to a name. */
  ghost predicate AllCustom(table: Table)
  {
    forall i :: 0 <= i < |table| ==> table[i].custom.Some?
  }

  lemma FirstMatchOfDistinct(table: Table, i: nat, key: Key)
    requires i < |table| && Matches(table[i], key)
    requires forall j :: 0 <= j < i ==> !Matches(table[j], key)
    ensures FirstMatch(table, key) == Some(i)
  {
  }

  /** With distinct values and distinct custom values, a field with a custom value reads back from what `Write` writes. */
  lemma RoundTripCustom(table: Table, i: nat)
    requires ValuesDistinct(table) && CustomValuesDistinct(table)
    requires i < |table| && table[i].custom.Some?
    ensures Write(table, table[i].value) == table[i].custom.value
    ensures ReadSpec(table, Some(Write(table, table[i].value))) == Ok(table[i].value)
  {
    FirstMatchOfDistinct(table, i, ValueIs(table[i].value));
    FirstMatchOfDistinct(table, i, CustomIs(table[i].custom.value));
  }

  /**
   * A field without a custom value reads back from its name, provided no
   * custom value equals that name, the name is not numeric, and no earlier
   * field's name equals it ignoring case.
   */
  lemma RoundTripName(table: Table, i: nat)
    requires ValuesDistinct(table)
    requires i < |table| && table[i].custom.None?
    requires forall j :: 0 <= j < |table| ==> table[j].custom != Some(table[i].name)
    requires ParseInteger(table[i].name) == None
    requires forall j :: 0 <= j < i ==> !EqualsIgnoreCase(table[j].name, table[i].name)
    ensures Write(table, table[i].value) == table[i].name
    ensures ReadSpec(table, Some(Write(table, table[i].value))) == Ok(table[i].value)
  {
    FirstMatchOfDistinct(table, i, ValueIs(table[i].value));
    assert EqualsIgnoreCase(table[i].name, table[i].name);
    FirstMatchOfDistinct(table, i, NameLike(table[i].name));
  }

  /** A value that names no field is written in decimal and read back, unless a custom value spells that number. */
  lemma RoundTripUndeclared(table: Table, v: Int32)
    requires forall j :: 0 <= j < |table| ==> table[j].value != v
    requires forall j :: 0 <= j < |table| ==> table[j].custom != Some(FormatInt(v))
    ensures Write(table, v) == FormatInt(v)
    ensures ReadSpec(table, Some(Write(table, v))) == Ok(v)
  {
    ParseFormatInt(v);
  }
}
