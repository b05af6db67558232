/**
 * `StringDataParser`: turns the text of the string VRs into values. Age String (AS,
 * DICOM PS3.5 section 6.2) becomes a number and a unit; Integer String (IS) and
 * Decimal String (DS) values are split on the backslash value delimiter after padding
 * spaces are removed; Date, Date Time and Time values are handed to a calendar parser.
 * A null string is `None`.
 */
module StringDataParsing {
  import opened DicomCore
  import opened Wrappers

  /** The exceptions the parsers let escape. */
  datatype ParseError =
    | ArgumentOutOfRange   // `Substring` past the end of the string
    | FormatException      // `int.Parse` on text that is not a 32-bit integer

  /** `string.IsNullOrEmpty`. */
  predicate IsNullOrEmpty(data: Option<string>) {
    data.None? || |data.value| == 0
  }

  // ---------------------------------------------------------------------------
  // Integers as `int.Parse` reads them (NumberStyles.Integer, invariant culture)
  // ---------------------------------------------------------------------------

  predicate IsDigit(c: char) {
    '0' <= c <= '9'
  }

  /** The white space `NumberStyles.Integer` allows around a number: U+0009 to U+000D and U+0020. */
  predicate IsWhiteSpace(c: char) {
    c == ' ' || '\t' <= c <= '\r'
  }

  predicate AllDigits(s: string) {
    forall i :: 0 <= i < |s| ==> IsDigit(s[i])
  }

  /** The value of a run of decimal digits, most significant first. */
  function DigitsValue(s: string): nat
    requires AllDigits(s)
  {
    if |s| == 0 then 0 else 10 * DigitsValue(s[..|s| - 1]) + (s[|s| - 1] as int - '0' as int)
  }

  function TrimStart(s: string): (t: string)
    ensures |t| > 0 ==> !IsWhiteSpace(t[0])
    ensures forall c :: c in s && !IsWhiteSpace(c) ==> c in t
  {
    if |s| > 0 && IsWhiteSpace(s[0]) then TrimStart(s[1..]) else s
  }

  function TrimEnd(s: string): (t: string)
    ensures |t| > 0 ==> !IsWhiteSpace(t[|t| - 1])
    ensures forall c :: c in s && !IsWhiteSpace(c) ==> c in t
  {
    if |s| > 0 && IsWhiteSpace(s[|s| - 1]) then TrimEnd(s[..|s| - 1]) else s
  }

  /** `int.TryParse`: optional surrounding white space, an optional sign, then at least one digit, within the 32-bit range. */
  function ParseInt32(s: string): (r: Option<int32>)
    ensures (exists i :: 0 <= i < |s| && !IsDigit(s[i]) && !IsWhiteSpace(s[i]) && s[i] != '-' && s[i] != '+') ==> r.None?
  {
    var t := TrimEnd(TrimStart(s));
    var negative := |t| > 0 && t[0] == '-';
    var digits := if |t| > 0 && (t[0] == '-' || t[0] == '+') then t[1..] else t;
    if |digits| == 0 || !AllDigits(digits) then None
    else
      var v: int := if negative then -(DigitsValue(digits) as int) else DigitsValue(digits);
      if -0x8000_0000 <= v < 0x8000_0000 then Some(v) else None
  }

  function DigitChar(d: nat): (c: char)
    requires d < 10
    ensures IsDigit(c) && c as int - '0' as int == d
  {
    ('0' as int + d) as char
  }

  /** The decimal digits of `n` without leading zeros (`int.ToString` of a non-negative value). */
  function Digits(n: nat): (s: string)
    ensures |s| >= 1 && AllDigits(s) && DigitsValue(s) == n
  {
    if n < 10 then [DigitChar(n)]
    else
      var s := Digits(n / 10) + [DigitChar(n % 10)];
      assert s[..|s| - 1] == Digits(n / 10);
      s
  }

  /** `int.ToString` in the invariant culture. */
  function FormatInt32(n: int32): (s: string)
    ensures |s| >= 1 && IsDigit(s[|s| - 1])
    ensures forall i :: 0 <= i < |s| ==> s[i] == '-' || IsDigit(s[i])
  {
    if n < 0 then "-" + Digits(-(n as int)) else Digits(n)
  }

  lemma TrimNothing(s: string)
    requires |s| > 0 && !IsWhiteSpace(s[0]) && !IsWhiteSpace(s[|s| - 1])
    ensures TrimEnd(TrimStart(s)) == s
  {
  }

  /** What the integer formatter writes, `int.Parse` reads back. */
  lemma ParseFormattedInt32(n: int32)
    ensures ParseInt32(FormatInt32(n)) == Some(n)
  {
    var s := FormatInt32(n);
    TrimNothing(s);
    if n < 0 {
      assert s[1..] == Digits(-(n as int));
    }
  }

  // ---------------------------------------------------------------------------
  // Multi-valued strings: `Replace(" ", "")` and `Split('\\')`
  // ---------------------------------------------------------------------------

  /** `s.Replace(c, "")`: `s` with every `c` removed and the rest kept in order. */
  function RemoveAll(s: string, c: char): (r: string)
    ensures c !in r
    ensures forall d :: d != c ==> multiset(r)[d] == multiset(s)[d]
  {
    if |s| == 0 then ""
    else
      assert s == [s[0]] + s[1..];
      if s[0] == c then RemoveAll(s[1..], c) else [s[0]] + RemoveAll(s[1..], c)
  }

  lemma RemoveAbsent(s: string, c: char)
    requires c !in s
    ensures RemoveAll(s, c) == s
  {
    if |s| > 0 {
      assert s[0] != c && c !in s[1..];
      RemoveAbsent(s[1..], c);
      assert RemoveAll(s, c) == [s[0]] + RemoveAll(s[1..], c);
      assert s == [s[0]] + s[1..];
    }
  }

  /** `s.Split(sep)`: the fields between the separators, empty ones included. */
  function Split(s: string, sep: char): (fields: seq<string>)
    ensures |fields| >= 1
  {
    if |s| == 0 then [""]
    else
      var rest := Split(s[1..], sep);
      if s[0] == sep then [""] + rest else [[s[0]] + rest[0]] + rest[1..]
  }

  /** `string.Join(sep, fields)`. */
  function Join(fields: seq<string>, sep: char): string
    requires |fields| >= 1
  {
    if |fields| == 1 then fields[0] else fields[0] + [sep] + Join(fields[1..], sep)
  }

  /** Splitting yields one field more than there are separators. */
  lemma {:induction false} SplitCount(s: string, sep: char)
    ensures |Split(s, sep)| == multiset(s)[sep] + 1
  {
    if |s| > 0 {
      SplitCount(s[1..], sep);
      assert s == [s[0]] + s[1..];
    }
  }

  /** No field holds the separator. */
  lemma {:induction false} SplitFieldsHaveNoSeparator(s: string, sep: char)
    ensures forall i :: 0 <= i < |Split(s, sep)| ==> sep !in Split(s, sep)[i]
  {
    if |s| > 0 {
      SplitFieldsHaveNoSeparator(s[1..], sep);
      var rest := Split(s[1..], sep);
      if s[0] != sep {
        assert forall i :: 1 <= i < |Split(s, sep)| ==> Split(s, sep)[i] == rest[i];
      }
    }
  }

  lemma JoinCons(c: char, fields: seq<string>, sep: char)
    requires |fields| >= 1
    ensures Join([[c] + fields[0]] + fields[1..], sep) == [c] + Join(fields, sep)
  {
    var g := [[c] + fields[0]] + fields[1..];
    if |fields| > 1 {
      assert g[1..] == fields[1..];
    }
  }

  /** Joining the fields with the separator gives back the string. */
  lemma {:induction false} JoinSplit(s: string, sep: char)
    ensures Join(Split(s, sep), sep) == s
  {
    if |s| > 0 {
      JoinSplit(s[1..], sep);
      var rest := Split(s[1..], sep);
      if s[0] == sep {
        assert ([""] + rest)[1..] == rest;
      } else {
        JoinCons(s[0], rest, sep);
      }
      assert s == [s[0]] + s[1..];
    }
  }

  lemma SplitCons(c: char, s: string, sep: char)
    requires c != sep
    ensures Split([c] + s, sep) == [[c] + Split(s, sep)[0]] + Split(s, sep)[1..]
  {
    assert ([c] + s)[0] == c && ([c] + s)[1..] == s;
  }

  lemma {:induction false} SplitPrefixWithoutSeparator(f: string, t: string, sep: char)
    requires sep !in f
    ensures Split(f + t, sep) == [f + Split(t, sep)[0]] + Split(t, sep)[1..]
  {
    var x := Split(t, sep);
    if |f| > 0 {
      assert f + t == [f[0]] + (f[1..] + t);
      SplitCons(f[0], f[1..] + t, sep);
      SplitPrefixWithoutSeparator(f[1..], t, sep);
      assert [f[0]] + (f[1..] + x[0]) == f + x[0];
    } else {
      assert f + t == t && f + x[0] == x[0];
      assert x == [x[0]] + x[1..];
    }
  }

  /** Splitting joined fields that hold no separator gives back the fields. */
  lemma {:induction false} SplitJoin(fields: seq<string>, sep: char)
    requires |fields| >= 1
    requires forall i :: 0 <= i < |fields| ==> sep !in fields[i]
    ensures Split(Join(fields, sep), sep) == fields
  {
    if |fields| == 1 {
      SplitPrefixWithoutSeparator(fields[0], "", sep);
      assert fields[0] + "" == fields[0];
    } else {
      var tail := Join(fields[1..], sep);
      SplitJoin(fields[1..], sep);
      SplitPrefixWithoutSeparator(fields[0], [sep] + tail, sep);
      assert fields[0] + [sep] + tail == fields[0] + ([sep] + tail);
      assert ([sep] + tail)[0] == sep && ([sep] + tail)[1..] == tail;
      var x := Split([sep] + tail, sep);
      assert x == [""] + fields[1..];
      assert x[0] == "" && x[1..] == fields[1..];
      assert fields[0] + "" == fields[0];
      assert fields == [fields[0]] + fields[1..];
    }
  }

  /** The fields of a multi-valued IS or DS string: padding spaces removed, split on the backslash. */
  function Fields(s: string): seq<string> {
    Split(RemoveAll(s, ' '), '\\')
  }

  /**
   * The values a multi-valued string parses to: none for a null or empty string,
   * otherwise one per field, the parse of the field or `zero` where it fails.
   */
  function FieldValues<T>(data: Option<string>, parse: string -> Option<T>, zero: T): seq<T> {
    if IsNullOrEmpty(data) then [] else ParseEach(Fields(data.value), parse, zero)
  }

  /** Each field parsed, `zero` where the parse fails. */
  function ParseEach<T>(fs: seq<string>, parse: string -> Option<T>, zero: T): seq<T> {
    seq(|fs|, i requires 0 <= i < |fs| => parse(fs[i]).GetOr(zero))
  }

  /** A non-empty multi-valued string has one value more than it has backslashes. */
  lemma FieldCount<T>(data: Option<string>, parse: string -> Option<T>, zero: T)
    ensures IsNullOrEmpty(data) ==> FieldValues(data, parse, zero) == []
    ensures !IsNullOrEmpty(data) ==> |FieldValues(data, parse, zero)| == multiset(data.value)['\\'] + 1
  {
    if !IsNullOrEmpty(data) {
      SplitCount(RemoveAll(data.value, ' '), '\\');
    }
  }

  /** The loop both multi-valued parsers run: each field parsed in turn into a new array. */
  method ParseFields<T>(fields: seq<string>, parse: string -> Option<T>, zero: T) returns (numbers: array<T>)
    ensures numbers[..] == ParseEach(fields, parse, zero)
  {
    numbers := new T[|fields|](_ => zero);
    for i := 0 to |fields|
      invariant forall j :: 0 <= j < i ==> numbers[j] == parse(fields[j]).GetOr(zero)
    {
      numbers[i] := parse(fields[i]).GetOr(zero);
    }
    assert numbers[..] == ParseEach(fields, parse, zero);
  }

  /** ParseIntegerString: one `int` per field, 0 for a field that is not a 32-bit integer. */
  method ParseIntegerString(data: Option<string>) returns (numbers: array<int32>)
    ensures numbers[..] == FieldValues(data, ParseInt32, 0)
  {
    if IsNullOrEmpty(data) {
      numbers := new int32[0];
      return;
    }
    numbers := ParseFields(Fields(data.value), ParseInt32, 0);
  }

  /**
   * ParseDecimalString: one value per field, 0 for a field that does not parse.
   * `parseDouble` stands for `double.TryParse`; the values themselves are not modelled.
   */
  method ParseDecimalString(data: Option<string>, parseDouble: string -> Option<real>) returns (numbers: array<real>)
    ensures numbers[..] == FieldValues(data, parseDouble, 0.0)
  {
    if IsNullOrEmpty(data) {
      numbers := new real[0];
      return;
    }
    numbers := ParseFields(Fields(data.value), parseDouble, 0.0);
  }

  /** The fields of backslash-joined texts without spaces or backslashes are those texts. */
  lemma FieldsOfJoined(texts: seq<string>)
    requires |texts| >= 1
    requires forall i :: 0 <= i < |texts| ==> '\\' !in texts[i] && ' ' !in texts[i]
    ensures Fields(Join(texts, '\\')) == texts
  {
    JoinHasNoSpace(texts);
    RemoveAbsent(Join(texts, '\\'), ' ');
    SplitJoin(texts, '\\');
  }

  /** A list of integers written as an Integer String parses back to the same list. */
  lemma IntegerStringRoundTrip(ns: seq<int32>)
    requires |ns| >= 1
    ensures FieldValues(Some(Join(seq(|ns|, i requires 0 <= i < |ns| => FormatInt32(ns[i])), '\\')), ParseInt32, 0) == ns
  {
    var texts := seq(|ns|, i requires 0 <= i < |ns| => FormatInt32(ns[i]));
    forall i | 0 <= i < |texts|
      ensures '\\' !in texts[i] && ' ' !in texts[i]
    {
      var t := FormatInt32(ns[i]);
      assert forall j :: 0 <= j < |t| ==> t[j] == '-' || IsDigit(t[j]);
    }
    FieldsOfJoined(texts);
    JoinLength(texts, '\\');
    var values := FieldValues(Some(Join(texts, '\\')), ParseInt32, 0);
    assert values == seq(|texts|, i requires 0 <= i < |texts| => ParseInt32(texts[i]).GetOr(0));
    forall i | 0 <= i < |ns|
      ensures values[i] == ns[i]
    {
      ParseFormattedInt32(ns[i]);
    }
  }

  lemma {:induction false} JoinHasNoSpace(texts: seq<string>)
    requires |texts| >= 1
    requires forall i :: 0 <= i < |texts| ==> ' ' !in texts[i]
    ensures ' ' !in Join(texts, '\\')
  {
    if |texts| > 1 {
      JoinHasNoSpace(texts[1..]);
    }
  }

  lemma {:induction false} JoinLength(texts: seq<string>, sep: char)
    requires |texts| >= 1
    ensures |Join(texts, sep)| >= |texts[0]|
  {
  }

  // ---------------------------------------------------------------------------
  // Age String
  // ---------------------------------------------------------------------------

  datatype AgeUnit = DAYS | WEEKS | MONTHS | YEARS

  /** The parsed age; `units` is `None` while it holds the enumeration's default. */
  class Age {
    var number: int32
    var units: Option<AgeUnit>

    constructor ()
      ensures number == 0 && units == None
    {
      number := 0;
      units := None;
    }
  }

  /** The unit a letter names; any other letter leaves the unit at its default. */
  function UnitOf(c: char): Option<AgeUnit> {
    match c
    case 'D' => Some(DAYS)
    case 'W' => Some(WEEKS)
    case 'M' => Some(MONTHS)
    case 'Y' => Some(YEARS)
    case _ => None
  }

  function UnitLetter(u: AgeUnit): (c: char)
    ensures UnitOf(c) == Some(u)
  {
    match u
    case DAYS => 'D'
    case WEEKS => 'W'
    case MONTHS => 'M'
    case YEARS => 'Y'
  }

  /**
   * The number and unit `ParseAgeString` sets, as written: the number from the three
   * characters at offsets 1 to 3 and the unit from the character at offset 4.
   */
  function AgeFieldsAsWritten(data: string): Result<(int32, Option<AgeUnit>), ParseError> {
    if |data| < 4 then Err(ArgumentOutOfRange)
    else
      match ParseInt32(data[1..4])
      case None => Err(FormatException)
      case Some(n) =>
        if |data| < 5 then Err(ArgumentOutOfRange) else Ok((n, UnitOf(data[4])))
  }

  /** ParseAgeString: null for a null or empty string, otherwise a new Age with the number and unit read. */
  method ParseAgeString(data: Option<string>) returns (r: Result<Option<Age>, ParseError>)
    ensures IsNullOrEmpty(data) ==> r == Ok(None)
    ensures !IsNullOrEmpty(data) ==>
              match AgeFieldsAsWritten(data.value)
              case Err(e) => r == Err(e)
              case Ok(f) => r.Ok? && r.value.Some? && fresh(r.value.value)
                            && r.value.value.number == f.0 && r.value.value.units == f.1
  {
    if IsNullOrEmpty(data) {
      return Ok(None);
    }
    var s := data.value;
    var a := new Age();
    if |s| < 4 {
      return Err(ArgumentOutOfRange);
    }
    var n := ParseInt32(s[1..4]);
    if n.None? {
      return Err(FormatException);
    }
    a.number := n.value;
    if |s| < 5 {
      return Err(ArgumentOutOfRange);
    }
    match s[4] {
      case 'D' => a.units := Some(DAYS);
      case 'W' => a.units := Some(WEEKS);
      case 'M' => a.units := Some(MONTHS);
      case 'Y' => a.units := Some(YEARS);
      case _ =>
    }
    return Ok(Some(a));
  }

  /** A well-formed Age String of PS3.5 section 6.2: three digits, then the unit letter. */
  function AgeString(n: nat, u: AgeUnit): (s: string)
    requires n < 1000
    ensures |s| == 4
  {
    [DigitChar(n / 100), DigitChar(n / 10 % 10), DigitChar(n % 10), UnitLetter(u)]
  }

  /** Every well-formed Age String is refused by the as-written offsets, "045Y" among them. */
  lemma AgeStringRefusedAsWritten(n: nat, u: AgeUnit)
    requires n < 1000
    ensures AgeFieldsAsWritten(AgeString(n, u)).Err?
  {
    var t := AgeString(n, u)[1..4];
    assert !IsDigit(t[2]);
    assert !IsWhiteSpace(t[2]) && !IsWhiteSpace(t[0]);
    TrimNothing(t);
  }

  /** The offsets Age String has: digits at 0 to 2 and the unit letter at 3. */
  function AgeFields(data: string): Result<(int32, Option<AgeUnit>), ParseError> {
    if |data| < 4 then Err(ArgumentOutOfRange)
    else
      match ParseInt32(data[0..3])
      case None => Err(FormatException)
      case Some(n) => Ok((n, UnitOf(data[3])))
  }

  /** Three digit characters are worth their hundreds, tens and units. */
  lemma ThreeDigitsValue(a: nat, b: nat, c: nat)
    requires a < 10 && b < 10 && c < 10
    ensures DigitsValue([DigitChar(a), DigitChar(b), DigitChar(c)]) == 100 * a + 10 * b + c
  {
    var t := [DigitChar(a), DigitChar(b), DigitChar(c)];
    assert t[..2] == [DigitChar(a), DigitChar(b)];
    assert t[..2][..1] == [DigitChar(a)];
    assert [DigitChar(a)][..0] == [];
    assert DigitsValue([DigitChar(a)]) == a;
    assert DigitsValue(t[..2]) == 10 * a + b;
  }

  /** With the corrected offsets every well-formed Age String reads back as its number and unit. */
  lemma AgeStringRoundTrip(n: nat, u: AgeUnit)
    requires n < 1000
    ensures AgeFields(AgeString(n, u)) == Ok((n, Some(u)))
  {
    var t := AgeString(n, u)[0..3];
    assert t == [DigitChar(n / 100), DigitChar(n / 10 % 10), DigitChar(n % 10)];
    ThreeDigitsValue(n / 100, n / 10 % 10, n % 10);
    HundredsTensUnits(n);
    ParseUnsignedDigits(t);
  }

  lemma HundredsTensUnits(n: nat)
    requires n < 1000
    ensures 100 * (n / 100) + 10 * (n / 10 % 10) + n % 10 == n
  {
    var q := n / 10;
    assert n == 10 * q + n % 10;
    assert q / 10 == n / 100;
    assert q == 10 * (q / 10) + q % 10;
  }

  /** A run of digits with no sign and no white space parses to its value. */
  lemma ParseUnsignedDigits(t: string)
    requires |t| > 0 && AllDigits(t) && DigitsValue(t) < 0x8000_0000
    ensures ParseInt32(t) == Some(DigitsValue(t))
  {
    TrimNothing(t);
  }

  // ---------------------------------------------------------------------------
  // Date, Date Time and Time
  // ---------------------------------------------------------------------------

  /** A `DateTime`, by its ticks; `MinValue` is `default(DateTime)`. */
  datatype DateTime = DateTime(ticks: int)

  const MinValue: DateTime := DateTime(0)

  const DateFormat: string := "yyyyMMdd"

  const DateTimeFormats: seq<string> := [
    "yyyyMMddHHmmss.ffffff", "yyyyMMddHHmmss.fffff", "yyyyMMddHHmmss.ffff", "yyyyMMddHHmmss.fff",
    "yyyyMMddHHmmss.ff", "yyyyMMddHHmmss.f", "yyyyMMddHHmmss"]

  const TimeFormats: seq<string> := [
    "HHmmss.ffffff", "HHmmss.fffff", "HHmmss.ffff", "HHmmss.fff", "HHmmss.ff", "HHmmss.f", "HHmmss"]

  /** The first format, in list order, that the calendar parser accepts the text in. */
  function FirstFormat(data: string, formats: seq<string>, parseExact: (string, string) -> Option<DateTime>): (r: Option<nat>)
    ensures r.Some? ==> r.value < |formats| && parseExact(data, formats[r.value]).Some?
    ensures r.Some? ==> forall j :: 0 <= j < r.value ==> parseExact(data, formats[j]).None?
    ensures r.None? <==> forall j :: 0 <= j < |formats| ==> parseExact(data, formats[j]).None?
  {
    if |formats| == 0 then None
    else if parseExact(data, formats[0]).Some? then Some(0)
    else
      match FirstFormat(data, formats[1..], parseExact)
      case Some(k) =>
        assert forall j :: 1 <= j < k + 1 ==> formats[j] == formats[1..][j - 1];
        Some(k + 1)
      case None =>
        assert forall j :: 1 <= j < |formats| ==> formats[j] == formats[1..][j - 1];
        None
  }

  /** `DateTime.TryParseExact` over a list of formats. */
  function TryParseExact(data: string, formats: seq<string>, parseExact: (string, string) -> Option<DateTime>): Option<DateTime> {
    match FirstFormat(data, formats, parseExact)
    case Some(i) => parseExact(data, formats[i])
    case None => None
  }

  /** ParseDate: null for a null or empty string or one not in the date format. */
  function ParseDate(data: Option<string>, parseExact: (string, string) -> Option<DateTime>): (r: Option<DateTime>)
    ensures r.None? <==> IsNullOrEmpty(data) || parseExact(data.value, DateFormat).None?
    ensures r.Some? ==> r == parseExact(data.value, DateFormat)
  {
    if IsNullOrEmpty(data) then None else parseExact(data.value, DateFormat)
  }

  /** ParseDateTime: null for a null or empty string or one in none of the formats; otherwise the reading in the first format that accepts it. */
  function ParseDateTime(data: Option<string>, parseExact: (string, string) -> Option<DateTime>): (r: Option<DateTime>)
    ensures r.None? <==>
              IsNullOrEmpty(data) || forall j :: 0 <= j < |DateTimeFormats| ==> parseExact(data.value, DateTimeFormats[j]).None?
    ensures r.Some? ==> exists i :: 0 <= i < |DateTimeFormats| && r == parseExact(data.value, DateTimeFormats[i])
                                    && forall j :: 0 <= j < i ==> parseExact(data.value, DateTimeFormats[j]).None?
  {
    if IsNullOrEmpty(data) then None else TryParseExact(data.value, DateTimeFormats, parseExact)
  }

  /** ParseTime: null for a null or empty string; a string in none of the formats gives `MinValue`. */
  function ParseTime(data: Option<string>, parseExact: (string, string) -> Option<DateTime>): (r: Option<DateTime>)
    ensures r.None? <==> IsNullOrEmpty(data)
    ensures !IsNullOrEmpty(data) && (forall j :: 0 <= j < |TimeFormats| ==> parseExact(data.value, TimeFormats[j]).None?) ==>
              r == Some(MinValue)
    ensures !IsNullOrEmpty(data) && (exists j :: 0 <= j < |TimeFormats| && parseExact(data.value, TimeFormats[j]).Some?) ==>
              exists i :: 0 <= i < |TimeFormats| && r == parseExact(data.value, TimeFormats[i])
                          && forall j :: 0 <= j < i ==> parseExact(data.value, TimeFormats[j]).None?
  {
    if IsNullOrEmpty(data) then None else Some(TryParseExact(data.value, TimeFormats, parseExact).GetOr(MinValue))
  }

  /** A successful parse is the calendar parser's reading in the first format, in list order, that accepts the text. */
  lemma FirstAcceptingFormatWins(data: string, formats: seq<string>, parseExact: (string, string) -> Option<DateTime>, i: nat)
    requires i < |formats| && parseExact(data, formats[i]).Some?
    requires forall j :: 0 <= j < i ==> parseExact(data, formats[j]).None?
    ensures TryParseExact(data, formats, parseExact) == parseExact(data, formats[i])
  {
    var k := FirstFormat(data, formats, parseExact);
    assert k.Some?;
    assert !(k.value < i) && !(i < k.value);
  }
}
