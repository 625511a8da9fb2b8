/**
 Presentation helpers shared by the screens of the weather application:
 the weather-icon table, the substitution of Arabic-Indic digits for ASCII
 ones, and the helpers over the key-value preference store.
 */
module Utils {

  datatype Option<+T> = None | Some(value: T)

  /** Kotlin's `Int`: a signed 32-bit integer. */
  newtype Int32 = x: int | -0x8000_0000 <= x < 0x8000_0000

  // ---------------------------------------------------------------------
  // Icon table
  // ---------------------------------------------------------------------

  /** The drawables the icon table can yield. */
  datatype Icon =
    | ClearSkyDay | ClearSkyNight
    | CloudsMediumDay | CloudsMediumNight | CloudsHigh
    | RainMediumDay | RainMediumNight | RainHighDay | RainHighNight
    | ThunderstormDay | ThunderstormNight
    | SnowDay | SnowNight
    | MistDay | MistNight

  /** The OpenWeather condition codes the table lists explicitly. */
  const IconCodes: set<string> :=
    {"01d", "01n", "02d", "02n", "03d", "03n", "04d", "04n", "09d",
     "09n", "10d", "10n", "11d", "11n", "13d", "13n", "50d", "50n"}

  predicate IsNightIcon(icon: Icon) {
    icon in {ClearSkyNight, CloudsMediumNight, RainMediumNight, RainHighNight,
             ThunderstormNight, SnowNight, MistNight}
  }

  /** Icon for an OpenWeather condition code; every other string gets the high-clouds icon. */
  function GetIcon(imageString: string): (icon: Icon)
    ensures imageString !in IconCodes ==> icon == CloudsHigh
    ensures icon == CloudsHigh <==> imageString !in IconCodes || imageString in {"04d", "04n"}
  {
    match imageString
    case "01d" => ClearSkyDay
    case "01n" => ClearSkyNight
    case "02d" => CloudsMediumDay
    case "02n" => CloudsMediumNight
    // the day and night drawables of "03" are the other way round in the table
    case "03n" => CloudsMediumDay
    case "03d" => CloudsMediumNight
    case "04d" => CloudsHigh
    case "04n" => CloudsHigh
    case "09d" => RainMediumDay
    case "09n" => RainMediumNight
    case "10d" => RainHighDay
    case "10n" => RainHighNight
    case "11d" => ThunderstormDay
    case "11n" => ThunderstormNight
    case "13d" => SnowDay
    case "13n" => SnowNight
    case "50d" => MistDay
    case "50n" => MistNight
    case _ => CloudsHigh
  }

  /** The cloud rows of the table, including its two quirks. */
  lemma IconTableClouds()
    ensures GetIcon("01d") == ClearSkyDay && GetIcon("01n") == ClearSkyNight
    ensures GetIcon("02d") == CloudsMediumDay && GetIcon("02n") == CloudsMediumNight
    ensures GetIcon("03n") == CloudsMediumDay && GetIcon("03d") == CloudsMediumNight
    ensures GetIcon("04d") == CloudsHigh && GetIcon("04n") == CloudsHigh
  {
  }

  /** The rain, thunderstorm, snow and mist rows of the table. */
  lemma IconTablePrecipitation()
    ensures GetIcon("09d") == RainMediumDay && GetIcon("09n") == RainMediumNight
    ensures GetIcon("10d") == RainHighDay && GetIcon("10n") == RainHighNight
    ensures GetIcon("11d") == ThunderstormDay && GetIcon("11n") == ThunderstormNight
    ensures GetIcon("13d") == SnowDay && GetIcon("13n") == SnowNight
    ensures GetIcon("50d") == MistDay && GetIcon("50n") == MistNight
  {
  }

  /**
   A listed code ending in 'n' gets a night drawable and one ending in 'd'
   a day drawable, except for the swapped "03" pair and the "04" pair,
   which shares the default drawable.
   */
  lemma {:induction false} IconDayNight(code: string)
    requires code in IconCodes && code !in {"03d", "03n", "04d", "04n"}
    ensures IsNightIcon(GetIcon(code)) <==> code[2] == 'n'
  {
    assert code in {"01d", "01n", "02d", "02n", "09d", "09n", "10d", "10n",
                    "11d", "11n", "13d", "13n", "50d", "50n"};
  }

  /** Two different listed codes share a drawable only in the three known pairs. */
  lemma {:induction false} IconCollisions(a: string, b: string)
    requires a in IconCodes && b in IconCodes && a != b
    requires GetIcon(a) == GetIcon(b)
    ensures {a, b} == {"02d", "03n"} || {a, b} == {"02n", "03d"} || {a, b} == {"04d", "04n"}
  {
  }

  // ---------------------------------------------------------------------
  // Decimal strings and Arabic-Indic digits
  // ---------------------------------------------------------------------

  predicate IsAsciiDigit(c: char) { '0' <= c <= '9' }

  /** U+0660 ARABIC-INDIC DIGIT ZERO .. U+0669 ARABIC-INDIC DIGIT NINE. */
  predicate IsArabicIndicDigit(c: char) { 0x660 as char <= c <= 0x669 as char }

  function AsciiDigit(d: nat): (c: char)
    requires d < 10
    ensures IsAsciiDigit(c) && c as int - '0' as int == d
  {
    ('0' as int + d) as char
  }

  function ArabicIndicDigit(d: nat): (c: char)
    requires d < 10
    ensures IsArabicIndicDigit(c) && c as int - 0x660 == d
  {
    (0x660 + d) as char
  }

  /** Decimal digits of `n`, most significant first, without leading zeros. */
  function NatToString(n: nat): (s: string)
    ensures |s| >= 1
    ensures s[0] == '0' <==> n == 0
    ensures forall i :: 0 <= i < |s| ==> IsAsciiDigit(s[i])
  {
    if n < 10 then [AsciiDigit(n)] else NatToString(n / 10) + [AsciiDigit(n % 10)]
  }

  /** Kotlin's `Int.toString()`: a leading '-' for negative values, then the digits. */
  function IntToString(n: int): (r: string)
    ensures |r| >= 1
    ensures r[0] == '-' <==> n < 0
    ensures forall i :: 0 <= i < |r| ==> if i == 0 && n < 0 then r[i] == '-' else IsAsciiDigit(r[i])
  {
    if n < 0 then "-" + NatToString(-n) else NatToString(n)
  }

  /** Value of a string of ASCII digits, read most significant first. */
  function ParseNat(s: string): int {
    if s == [] then 0 else ParseNat(s[..|s| - 1]) * 10 + (s[|s| - 1] as int - '0' as int)
  }

  /** Value of an optionally '-'-prefixed string of ASCII digits. */
  function ParseInt(s: string): int {
    if |s| > 0 && s[0] == '-' then -ParseNat(s[1..]) else ParseNat(s)
  }

  lemma {:induction false} ParseNatToString(n: nat)
    ensures ParseNat(NatToString(n)) == n
  {
    if n >= 10 {
      var s := NatToString(n);
      assert s[..|s| - 1] == NatToString(n / 10);
      ParseNatToString(n / 10);
    }
  }

  /** The decimal string determines the integer: parsing it gives the value back. */
  lemma {:induction false} IntToStringRoundTrip(n: int)
    ensures ParseInt(IntToString(n)) == n
  {
    if n < 0 {
      assert IntToString(n)[1..] == NatToString(-n);
      ParseNatToString(-n);
    } else {
      ParseNatToString(n);
    }
  }

  /**
   Kotlin's `String.replace` with a one-character pattern: every occurrence
   of `from` becomes `to`.
   */
  function Replace(s: string, from: char, to: char): (r: string)
    ensures |r| == |s|
    ensures forall i :: 0 <= i < |s| ==> r[i] == (if s[i] == from then to else s[i])
  {
    if s == [] then [] else [if s[0] == from then to else s[0]] + Replace(s[1..], from, to)
  }

  /** The one-character effect of the substitution: ASCII digit d becomes Arabic-Indic digit d. */
  function LocaliseDigit(c: char): char {
    if IsAsciiDigit(c) then ArabicIndicDigit(c as int - '0' as int) else c
  }

  /** The inverse direction: Arabic-Indic digit d becomes ASCII digit d. */
  function DelocaliseDigit(c: char): char {
    if IsArabicIndicDigit(c) then AsciiDigit(c as int - 0x660) else c
  }

  /** `s` with every Arabic-Indic digit read back as its ASCII digit. */
  function FromArabicIndic(s: string): (r: string)
    ensures |r| == |s|
    ensures forall i :: 0 <= i < |s| ==> r[i] == DelocaliseDigit(s[i])
  {
    if s == [] then [] else [DelocaliseDigit(s[0])] + FromArabicIndic(s[1..])
  }

  predicate NoAsciiDigits(s: string) {
    forall i :: 0 <= i < |s| ==> !IsAsciiDigit(s[i])
  }

  /** The order of the ten replacements in `convertNumbersToArabic`. */
  const ReplacementOrder: seq<nat> := [1, 2, 3, 4, 5, 6, 7, 8, 9, 0]

  /**
   Replaces ASCII digit d by Arabic-Indic digit d for each d of `order`,
   one `replace` call after another.
   */
  function ReplaceDigits(s: string, order: seq<nat>): (r: string)
    requires forall k :: 0 <= k < |order| ==> order[k] < 10
    ensures |r| == |s|
    decreases |order|
  {
    if order == [] then s
    else ReplaceDigits(Replace(s, AsciiDigit(order[0]), ArabicIndicDigit(order[0])), order[1..])
  }

  /**
   A character is localised by the chain exactly when its digit is in
   `order`: no replacement introduces an ASCII digit, so a later
   replacement never sees the output of an earlier one.
   */
  lemma {:induction false} ReplaceDigitsAt(s: string, order: seq<nat>, i: nat)
    requires forall k :: 0 <= k < |order| ==> order[k] < 10
    requires i < |s|
    ensures ReplaceDigits(s, order)[i] ==
      if IsAsciiDigit(s[i]) && (s[i] as int - '0' as int) in order then LocaliseDigit(s[i]) else s[i]
    decreases |order|
  {
    if order != [] {
      var t := Replace(s, AsciiDigit(order[0]), ArabicIndicDigit(order[0]));
      ReplaceDigitsAt(t, order[1..], i);
      if s[i] == AsciiDigit(order[0]) {
        assert !IsAsciiDigit(t[i]);
      } else {
        assert t[i] == s[i];
        assert IsAsciiDigit(s[i]) ==> (s[i] as int - '0' as int) != order[0];
        assert order == [order[0]] + order[1..];
      }
    }
  }

  /** One character of a chain of replacements that covers every digit: it is localised. */
  lemma ArabicDigitAt(s: string, order: seq<nat>, i: nat)
    requires forall k :: 0 <= k < |order| ==> order[k] < 10
    requires forall d: nat :: d < 10 ==> d in order
    requires i < |s|
    ensures ReplaceDigits(s, order)[i] == LocaliseDigit(s[i])
  {
    ReplaceDigitsAt(s, order, i);
  }

  /**
   A chain of replacements that covers every digit acts as one
   per-character map, and leaves no ASCII digit behind.
   */
  lemma ArabicDigitsAt(s: string, order: seq<nat>)
    requires forall k :: 0 <= k < |order| ==> order[k] < 10
    requires forall d: nat :: d < 10 ==> d in order
    ensures forall i :: 0 <= i < |s| ==> ReplaceDigits(s, order)[i] == LocaliseDigit(s[i])
    ensures NoAsciiDigits(ReplaceDigits(s, order))
  {
    forall i | 0 <= i < |s|
      ensures ReplaceDigits(s, order)[i] == LocaliseDigit(s[i])
    {
      ArabicDigitAt(s, order, i);
    }
  }

  /**
   The ten replacements of `convertNumbersToArabic`, in the source's order:
   each ASCII digit becomes the Arabic-Indic digit of the same value, every
   other character is kept, and no ASCII digit remains.
   */
  function ArabicDigits(s: string): (r: string)
    ensures |r| == |s|
    ensures forall i :: 0 <= i < |s| ==> r[i] == LocaliseDigit(s[i])
    ensures NoAsciiDigits(r)
  {
    assert forall d: nat :: d < 10 ==> d in ReplacementOrder;
    ArabicDigitsAt(s, ReplacementOrder);
    ReplaceDigits(s, ReplacementOrder)
  }

  /** Localising and then delocalising gives back any character that is not already an Arabic-Indic digit. */
  lemma DelocaliseLocalise(c: char)
    requires !IsArabicIndicDigit(c)
    ensures DelocaliseDigit(LocaliseDigit(c)) == c
  {
  }

  /**
   `convertNumbersToArabic(Int)`: the decimal string of `value` with each
   ASCII digit written as the Arabic-Indic digit of the same value and
   every other character kept.
   */
  function ConvertNumbersToArabic(value: Int32): (r: string)
    ensures |r| == |IntToString(value as int)|
    ensures forall i :: 0 <= i < |r| ==> r[i] == LocaliseDigit(IntToString(value as int)[i])
    ensures NoAsciiDigits(r)
  {
    var s := IntToString(value as int) + "";
    assert s == IntToString(value as int);
    ArabicDigits(s)
  }

  /** Reading the Arabic-Indic digits back gives the decimal string exactly. */
  lemma ConvertNumbersToArabicRoundTrip(value: Int32)
    ensures FromArabicIndic(ConvertNumbersToArabic(value)) == IntToString(value as int)
  {
    var s := IntToString(value as int);
    var r := ConvertNumbersToArabic(value);
    forall i | 0 <= i < |s|
      ensures FromArabicIndic(r)[i] == s[i]
    {
      DelocaliseLocalise(s[i]);
    }
  }

  /** Different integers never get the same Arabic rendering. */
  lemma ConvertNumbersToArabicInjective(a: Int32, b: Int32)
    requires ConvertNumbersToArabic(a) == ConvertNumbersToArabic(b)
    ensures a == b
  {
    ConvertNumbersToArabicRoundTrip(a);
    ConvertNumbersToArabicRoundTrip(b);
    IntToStringRoundTrip(a as int);
    IntToStringRoundTrip(b as int);
  }

  // ---------------------------------------------------------------------
  // Reverse geocoding
  // ---------------------------------------------------------------------

  /** The two address fields the city text shows. */
  datatype Place = Place(adminArea: string, countryName: string)

  /**
   What the reverse geocoder does for one coordinate: it throws an
   `IOException`, returns a null list, or returns a list of places.
   */
  datatype ReverseGeocode = GeocoderIOException | NullAddresses | Addresses(places: seq<Place>)

  const UnknownCity: string := "Unknown!"

  /**
   `getCityText`: "adminArea, countryName" of the first place, and
   "Unknown!" when the lookup throws an `IOException` or finds no place.
   A null list is dereferenced with `!!` outside the `IOException`
   handler, so it throws; `None` stands for that uncaught exception.
   */
  function GetCityText(lookup: ReverseGeocode): (r: Option<string>)
    ensures r.None? <==> lookup.NullAddresses?
    ensures r == Some(UnknownCity) <==> lookup.GeocoderIOException? || lookup == Addresses([])
    ensures lookup.Addresses? && lookup.places != [] ==>
      var place := lookup.places[0];
      && r.Some? && |r.value| == |place.adminArea| + 2 + |place.countryName|
      && r.value[..|place.adminArea|] == place.adminArea
      && r.value[|place.adminArea|..|place.adminArea| + 2] == ", "
      && r.value[|place.adminArea| + 2..] == place.countryName
  {
    match lookup
    case GeocoderIOException => Some(UnknownCity)
    case NullAddresses => None
    case Addresses(places) =>
      if places == [] then Some(UnknownCity)
      else
        var text := places[0].adminArea + ", " + places[0].countryName;
        assert text[|places[0].adminArea|] == ',';
        assert forall i :: 0 <= i < |UnknownCity| ==> UnknownCity[i] != ',';
        Some(text)
  }

  // ---------------------------------------------------------------------
  // Preference store
  // ---------------------------------------------------------------------

  /** A stored preference: the store keeps floats and strings. */
  datatype PrefValue = FloatPref(f: real) | StringPref(s: string)

  const LatKey: string := "lat"
  const LonKey: string := "lon"
  const LocationKey: string := "location"
  const TimeZoneKey: string := "timeZone"
  const UnitsSettingKey: string := "unitsSetting"
  const LanguageSettingKey: string := "languageSetting"

  /** The keys `updateSharedPreferences` writes. */
  const UpdatedKeys: set<string> := {LatKey, LonKey, LocationKey, TimeZoneKey}

  /** The application's key-value preference file, updated in place through its editor. */
  class SharedPreferences {
    var entries: map<string, PrefValue>

    constructor (initial: map<string, PrefValue>)
      ensures entries == initial
    {
      entries := initial;
    }

    /** `getString(key, null)`: the stored string, or nothing. */
    function GetString(key: string): (r: Option<string>)
      reads this
      ensures key !in entries ==> r.None?
      ensures r.Some? <==> key in entries && entries[key].StringPref?
      ensures r.Some? ==> entries[key] == StringPref(r.value)
    {
      if key in entries && entries[key].StringPref? then Some(entries[key].s) else None
    }

    /** `getString(key, default)`. */
    function GetStringOr(key: string, default: string): (r: string)
      reads this
      ensures key !in entries ==> r == default
      ensures key in entries && entries[key].StringPref? ==> r == entries[key].s
    {
      match GetString(key)
      case Some(s) => s
      case None => default
    }

    /** `getFloat(key, default)`. */
    function GetFloat(key: string, default: real): (r: real)
      reads this
      ensures key !in entries ==> r == default
      ensures key in entries && entries[key].FloatPref? ==> r == entries[key].f
    {
      if key in entries && entries[key].FloatPref? then entries[key].f else default
    }

    method PutFloat(key: string, value: real)
      modifies this
      ensures entries == old(entries)[key := FloatPref(value)]
    {
      entries := entries[key := FloatPref(value)];
    }

    method PutString(key: string, value: string)
      modifies this
      ensures entries == old(entries)[key := StringPref(value)]
    {
      entries := entries[key := StringPref(value)];
    }
  }

  predicate IsNullOrEmpty(s: Option<string>) {
    s.None? || s.value == ""
  }

  /**
   Neither a location name nor a time zone is stored: the check is an AND,
   so one non-empty value makes it false.
   */
  function IsSharedPreferencesLocationAndTimeZoneNull(prefs: SharedPreferences): (r: bool)
    reads prefs
    ensures prefs.GetString(LocationKey).Some? && prefs.GetString(LocationKey).value != "" ==> !r
    ensures prefs.GetString(TimeZoneKey).Some? && prefs.GetString(TimeZoneKey).value != "" ==> !r
    ensures LocationKey !in prefs.entries && TimeZoneKey !in prefs.entries ==> r
    ensures prefs.GetString(LocationKey) == Some("") && prefs.GetString(TimeZoneKey) == Some("") ==> r
  {
    IsNullOrEmpty(prefs.GetString(LocationKey)) && IsNullOrEmpty(prefs.GetString(TimeZoneKey))
  }

  /**
   Both stored coordinates, read with default 0, are 0: the check is an
   AND, so one non-zero stored coordinate makes it false.
   */
  function IsSharedPreferencesLatAndLongNull(prefs: SharedPreferences): (r: bool)
    reads prefs
    ensures LatKey in prefs.entries && prefs.entries[LatKey].FloatPref? && prefs.entries[LatKey].f != 0.0 ==> !r
    ensures LonKey in prefs.entries && prefs.entries[LonKey].FloatPref? && prefs.entries[LonKey].f != 0.0 ==> !r
    ensures LatKey !in prefs.entries && LonKey !in prefs.entries ==> r
  {
    prefs.GetFloat(LatKey, 0.0) == 0.0 && prefs.GetFloat(LonKey, 0.0) == 0.0
  }

  /**
   Writes the coordinates, the location name and the time zone through the
   editor, one `put` after another; every other key keeps its value.
   */
  method UpdateSharedPreferences(prefs: SharedPreferences, lat: real, long: real, location: string, timeZone: string)
    modifies prefs
    ensures prefs.entries.Keys == old(prefs.entries.Keys) + UpdatedKeys
    ensures prefs.entries[LatKey] == FloatPref(lat) && prefs.entries[LonKey] == FloatPref(long)
    ensures prefs.entries[LocationKey] == StringPref(location)
    ensures prefs.entries[TimeZoneKey] == StringPref(timeZone)
    ensures forall k :: k in old(prefs.entries) && k !in UpdatedKeys ==> prefs.entries[k] == old(prefs.entries[k])
    ensures location != "" ==> !IsSharedPreferencesLocationAndTimeZoneNull(prefs)
    ensures IsSharedPreferencesLatAndLongNull(prefs) <==> lat == 0.0 && long == 0.0
  {
    prefs.PutFloat(LatKey, lat);
    prefs.PutFloat(LonKey, long);
    prefs.PutString(LocationKey, location);
    prefs.PutString(TimeZoneKey, timeZone);
  }
}
