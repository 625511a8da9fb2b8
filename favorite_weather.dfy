/**
 The favorite-weather screen: it decides between an online refresh and a
 cached read, resolves the temperature and wind-speed suffixes for the
 language and unit system, and turns each weather emission into display
 strings and two forecast lists.
 */
module FavoriteWeather {
  import opened Utils

  /** The unit systems both suffix tables know. */
  const KnownUnitSystems: set<string> := {"metric", "imperial", "standard"}

  /** Temperature and wind-speed suffixes. */
  datatype UnitSuffixes = UnitSuffixes(temperature: string, windSpeed: string)

  /** The English suffix table; an unknown unit system has no entry. */
  function EnglishUnits(units: string): (r: Option<UnitSuffixes>)
    ensures r.Some? <==> units in KnownUnitSystems
  {
    match units
    case "metric" => Some(UnitSuffixes(" °C", " m/s"))
    case "imperial" => Some(UnitSuffixes(" °F", " miles/h"))
    case "standard" => Some(UnitSuffixes(" °K", " m/s"))
    case _ => None
  }

  /** The Arabic suffix table; an unknown unit system has no entry. */
  function ArabicUnits(units: string): (r: Option<UnitSuffixes>)
    ensures r.Some? <==> units in KnownUnitSystems
  {
    match units
    case "metric" => Some(UnitSuffixes(" °م", " م/ث"))
    case "imperial" => Some(UnitSuffixes(" °ف", " ميل/س"))
    case "standard" => Some(UnitSuffixes(" °ك", " م/ث"))
    case _ => None
  }

  /** The English temperature suffixes, written with Latin letters. */
  predicate IsEnglishSuffixes(u: UnitSuffixes) {
    u.temperature in {" °C", " °F", " °K"}
  }

  /**
   The suffix table `setUnitSetting` uses: it has an entry for each known
   unit system, and the entry is English exactly for the language "en".
   */
  function UnitTable(language: string, units: string): (r: Option<UnitSuffixes>)
    ensures r.Some? <==> units in KnownUnitSystems
    ensures r.Some? ==> (IsEnglishSuffixes(r.value) <==> language == "en")
  {
    if language == "en" then EnglishUnits(units) else ArabicUnits(units)
  }

  /** The three entries of each table, and that the two tables know the same unit systems. */
  lemma UnitTables()
    ensures EnglishUnits("metric") == Some(UnitSuffixes(" °C", " m/s"))
    ensures EnglishUnits("imperial") == Some(UnitSuffixes(" °F", " miles/h"))
    ensures EnglishUnits("standard") == Some(UnitSuffixes(" °K", " m/s"))
    ensures ArabicUnits("metric") == Some(UnitSuffixes(" °م", " م/ث"))
    ensures ArabicUnits("imperial") == Some(UnitSuffixes(" °ف", " ميل/س"))
    ensures ArabicUnits("standard") == Some(UnitSuffixes(" °ك", " م/ث"))
    ensures forall u :: EnglishUnits(u).Some? <==> ArabicUnits(u).Some?
  {
  }

  // ---------------------------------------------------------------------
  // Weather data and display strings
  // ---------------------------------------------------------------------

  datatype Condition = Condition(icon: string, description: string)

  /**
   Current conditions. `uviText` and `windSpeedText` stand for the
   platform's rendering of the two floating-point readings.
   */
  datatype Current = Current(
    temp: real, humidity: Int32, pressure: Int32, clouds: Int32, visibility: Int32,
    uvi: real, uviText: string, windSpeedText: string, conditions: seq<Condition>)

  datatype Hourly = Hourly(dt: int, temp: real)
  datatype Daily = Daily(dt: int, min: real, max: real)

  datatype Weather = Weather(lat: real, lon: real, current: Current, hourly: seq<Hourly>, daily: seq<Daily>)

  /** The texts of the seven reading views. */
  datatype DisplayStrings = DisplayStrings(
    temperature: string, humidity: string, pressure: string, clouds: string,
    visibility: string, uvi: string, windSpeed: string)

  /** Kotlin's `Double.toInt()`: rounds toward zero and saturates at the `Int` range. */
  function ToInt(x: real): (r: Int32)
    ensures -0x8000_0000 as real <= x < 0x8000_0000 as real ==>
              (x >= 0.0 ==> r as real <= x < r as real + 1.0) &&
              (x < 0.0 ==> r as real - 1.0 < x <= r as real)
    ensures x >= 0x8000_0000 as real ==> r == 0x7fff_ffff
    ensures x < -0x8000_0000 as real ==> r == -0x8000_0000
  {
    var t := if x >= 0.0 then x.Floor else -((-x).Floor);
    if t > 0x7fff_ffff then 0x7fff_ffff else if t < -0x8000_0000 then -0x8000_0000 else t as Int32
  }

  /** The numeral script of a displayed number. */
  predicate InScript(s: string, arabic: bool) {
    forall i :: 0 <= i < |s| ==>
      (i == 0 && s[i] == '-') || (if arabic then IsArabicIndicDigit(s[i]) else IsAsciiDigit(s[i]))
  }

  /**
   `text` shows the integer `value` in the given script followed by
   `suffix`: the part before the suffix is the canonical decimal string of
   `value` (no leading zeros, '-' only in front), so it reads back as `value`.
   */
  predicate ShowsInt(text: string, value: int, suffix: string, arabic: bool) {
    |suffix| <= |text| && text[|text| - |suffix|..] == suffix &&
    var number := text[..|text| - |suffix|];
    && InScript(number, arabic)
    && FromArabicIndic(number) == IntToString(value)
    && ParseInt(FromArabicIndic(number)) == value
  }

  lemma {:induction false} ShowsIntEnglish(value: int, suffix: string)
    ensures ShowsInt(IntToString(value) + suffix, value, suffix, false)
  {
    var text := IntToString(value) + suffix;
    assert text[..|text| - |suffix|] == IntToString(value);
    assert text[|text| - |suffix|..] == suffix;
    IntToStringRoundTrip(value);
    assert FromArabicIndic(IntToString(value)) == IntToString(value);
  }

  lemma {:induction false} ShowsIntArabic(value: Int32, suffix: string)
    ensures ShowsInt(ConvertNumbersToArabic(value) + suffix, value as int, suffix, true)
  {
    var text := ConvertNumbersToArabic(value) + suffix;
    assert text[..|text| - |suffix|] == ConvertNumbersToArabic(value);
    assert text[|text| - |suffix|..] == suffix;
    ConvertNumbersToArabicRoundTrip(value);
    IntToStringRoundTrip(value as int);
  }

  /**
   `bindEnglishUnits`: each integer reading (and the temperature's integer
   part) in ASCII digits followed by its suffix; UV and wind speed as the
   platform renders them.
   */
  function BindEnglishUnits(c: Current, temperatureUnit: string, windSpeedUnit: string): (r: DisplayStrings)
    ensures ShowsInt(r.temperature, ToInt(c.temp) as int, temperatureUnit, false)
    ensures ShowsInt(r.humidity, c.humidity as int, "%", false)
    ensures ShowsInt(r.pressure, c.pressure as int, " hPa", false)
    ensures ShowsInt(r.clouds, c.clouds as int, "%", false)
    ensures ShowsInt(r.visibility, c.visibility as int, "m", false)
    ensures r.uvi == c.uviText
    ensures r.windSpeed == c.windSpeedText + windSpeedUnit
  {
    ShowsIntEnglish(ToInt(c.temp) as int, temperatureUnit);
    ShowsIntEnglish(c.humidity as int, "%");
    ShowsIntEnglish(c.pressure as int, " hPa");
    ShowsIntEnglish(c.clouds as int, "%");
    ShowsIntEnglish(c.visibility as int, "m");
    DisplayStrings(
      IntToString(ToInt(c.temp) as int) + temperatureUnit,
      IntToString(c.humidity as int) + "%",
      IntToString(c.pressure as int) + " hPa",
      IntToString(c.clouds as int) + "%",
      IntToString(c.visibility as int) + "m",
      c.uviText,
      c.windSpeedText + windSpeedUnit)
  }

  /**
   `bindArabicUnits`: each integer reading (and the integer parts of the
   temperature and of UV) in Arabic-Indic digits followed by its Arabic
   suffix; the wind speed's rendering with its digits localised.
   */
  function BindArabicUnits(c: Current, temperatureUnit: string, windSpeedUnit: string): (r: DisplayStrings)
    ensures ShowsInt(r.temperature, ToInt(c.temp) as int, temperatureUnit, true)
    ensures ShowsInt(r.humidity, c.humidity as int, "٪", true)
    ensures ShowsInt(r.pressure, c.pressure as int, " هب", true)
    ensures ShowsInt(r.clouds, c.clouds as int, "٪", true)
    ensures ShowsInt(r.visibility, c.visibility as int, "م", true)
    ensures ShowsInt(r.uvi, ToInt(c.uvi) as int, "", true)
    ensures r.windSpeed == ArabicDigits(c.windSpeedText) + windSpeedUnit
  {
    ShowsIntArabic(ToInt(c.temp), temperatureUnit);
    ShowsIntArabic(c.humidity, "٪");
    ShowsIntArabic(c.pressure, " هب");
    ShowsIntArabic(c.clouds, "٪");
    ShowsIntArabic(c.visibility, "م");
    ShowsIntArabic(ToInt(c.uvi), "");
    assert ConvertNumbersToArabic(ToInt(c.uvi)) + "" == ConvertNumbersToArabic(ToInt(c.uvi));
    DisplayStrings(
      ConvertNumbersToArabic(ToInt(c.temp)) + temperatureUnit,
      ConvertNumbersToArabic(c.humidity) + "٪",
      ConvertNumbersToArabic(c.pressure) + " هب",
      ConvertNumbersToArabic(c.clouds) + "٪",
      ConvertNumbersToArabic(c.visibility) + "م",
      ConvertNumbersToArabic(ToInt(c.uvi)),
      ArabicDigits(c.windSpeedText) + windSpeedUnit)
  }

  /**
   The binding `setData` picks, Arabic only for exactly "ar": every reading
   in that language's numeral script followed by its suffix; UV is
   truncated in Arabic only.
   */
  function BindUnits(language: string, c: Current, temperatureUnit: string, windSpeedUnit: string): (r: DisplayStrings)
    ensures var ar := language == "ar";
            && ShowsInt(r.temperature, ToInt(c.temp) as int, temperatureUnit, ar)
            && ShowsInt(r.humidity, c.humidity as int, if ar then "٪" else "%", ar)
            && ShowsInt(r.pressure, c.pressure as int, if ar then " هب" else " hPa", ar)
            && ShowsInt(r.clouds, c.clouds as int, if ar then "٪" else "%", ar)
            && ShowsInt(r.visibility, c.visibility as int, if ar then "م" else "m", ar)
            && (ar ==> ShowsInt(r.uvi, ToInt(c.uvi) as int, "", true))
            && (!ar ==> r.uvi == c.uviText)
            && r.windSpeed == (if ar then ArabicDigits(c.windSpeedText) else c.windSpeedText) + windSpeedUnit
  {
    if language == "ar" then BindArabicUnits(c, temperatureUnit, windSpeedUnit)
    else BindEnglishUnits(c, temperatureUnit, windSpeedUnit)
  }

  /**
   What `setData` hands to the reading views: the language, the current
   conditions and the two suffixes. The views then show `Texts()`.
   */
  datatype ReadingsBinding = ReadingsBinding(
    language: string, current: Current, temperatureUnit: string, windSpeedUnit: string)
  {
    function Texts(): DisplayStrings {
      BindUnits(language, current, temperatureUnit, windSpeedUnit)
    }
  }

  /**
   The suffixes are English exactly for "en" and the binding is Arabic
   exactly for "ar", so the two checks disagree for every other language:
   it gets the Arabic suffixes but the English binding.
   */
  lemma LanguageChecksDisagree(language: string, units: string, c: Current, tu: string, wu: string)
    ensures language != "en" && language != "ar" ==>
      UnitTable(language, units) == ArabicUnits(units) && BindUnits(language, c, tu, wu) == BindEnglishUnits(c, tu, wu)
  {
  }

  // ---------------------------------------------------------------------
  // The screen
  // ---------------------------------------------------------------------

  /** Calls to the data-access layer. */
  datatype DataCall =
    | UpdateWeather(lat: real, lon: real, units: string, language: string, id: int)
    | GetWeather(id: int)

  datatype Destination = Dashboard

  /** How one weather emission ended: shown, or an uncaught exception. */
  datatype Outcome = Shown | Crashed

  const OfflineNotice: string := "You are offline"

  /** The reverse geocoder's answer for a coordinate in a language. */
  type ReverseGeocoder = (real, real, string) -> ReverseGeocode

  class DisplayFavoriteWeather {
    var latitude: real
    var longitude: real
    var language: string
    var units: string
    /** `lateinit` fields: `None` until first assigned. */
    var temperatureUnit: Option<string>
    var windSpeedUnit: Option<string>

    var dataCalls: seq<DataCall>
    var notices: seq<string>
    var navigation: seq<Destination>

    var icon: Option<Icon>
    var description: Option<string>
    var city: Option<string>
    var readings: Option<ReadingsBinding>
    /** The two adapters' lists and temperature units; new adapters start empty. */
    var hourly: seq<Hourly>
    var hourlyUnit: Option<string>
    var daily: seq<Daily>
    var dailyUnit: Option<string>

    /** The two suffix fields are only ever assigned together. */
    ghost predicate Valid()
      reads this
    {
      temperatureUnit.Some? <==> windSpeedUnit.Some?
    }

    constructor ()
      ensures Valid()
      ensures latitude == 0.0 && longitude == 0.0 && language == "en" && units == "metric"
      ensures temperatureUnit.None? && windSpeedUnit.None?
      ensures dataCalls == [] && notices == [] && navigation == []
      ensures icon.None? && description.None? && city.None? && readings.None?
      ensures hourly == [] && hourlyUnit.None? && daily == [] && dailyUnit.None?
    {
      latitude, longitude, language, units := 0.0, 0.0, "en", "metric";
      temperatureUnit, windSpeedUnit := None, None;
      dataCalls, notices, navigation := [], [], [];
      icon, description, city, readings := None, None, None, None;
      hourly, hourlyUnit, daily, dailyUnit := [], None, [], None;
    }

    /**
     Start of the screen, on a freshly inflated view with fresh adapters:
     the shown texts and both forecast lists start empty. Online, the
     coordinates come from the arguments and the settings from the store
     before one refresh; offline, one notice and one cached read, with the
     fragment's own fields left as they were.
     */
    method OnViewCreated(id: int, argLat: real, argLon: real, online: bool, prefs: SharedPreferences)
      requires Valid()
      modifies this`latitude, this`longitude, this`units, this`language, this`dataCalls, this`notices
      modifies this`icon, this`description, this`city, this`readings
      modifies this`hourly, this`hourlyUnit, this`daily, this`dailyUnit
      ensures Valid()
      ensures online ==>
        && latitude == argLat && longitude == argLon
        && units == prefs.GetStringOr(UnitsSettingKey, "metric")
        && language == prefs.GetStringOr(LanguageSettingKey, "en")
        && dataCalls == old(dataCalls) + [UpdateWeather(argLat, argLon, units, language, id)]
        && notices == old(notices)
      ensures !online ==>
        && latitude == old(latitude) && longitude == old(longitude)
        && units == old(units) && language == old(language)
        && dataCalls == old(dataCalls) + [GetWeather(id)]
        && notices == old(notices) + [OfflineNotice]
      ensures temperatureUnit == old(temperatureUnit) && windSpeedUnit == old(windSpeedUnit)
      ensures navigation == old(navigation)
      ensures icon.None? && description.None? && city.None? && readings.None?
      ensures hourly == [] && hourlyUnit.None? && daily == [] && dailyUnit.None?
    {
      if online {
        GetOnlineNeeds(argLat, argLon, prefs);
        dataCalls := dataCalls + [UpdateWeather(latitude, longitude, units, language, id)];
      } else {
        notices := notices + [OfflineNotice];
        dataCalls := dataCalls + [GetWeather(id)];
      }
      NewViewAndAdapters();
    }

    /** A freshly inflated view shows no texts, and fresh adapters hold empty lists. */
    method NewViewAndAdapters()
      modifies this`icon, this`description, this`city, this`readings
      modifies this`hourly, this`hourlyUnit, this`daily, this`dailyUnit
      ensures icon.None? && description.None? && city.None? && readings.None?
      ensures hourly == [] && hourlyUnit.None? && daily == [] && dailyUnit.None?
    {
      icon, description, city, readings := None, None, None, None;
      hourly, hourlyUnit, daily, dailyUnit := [], None, [], None;
    }

    method GetOnlineNeeds(argLat: real, argLon: real, prefs: SharedPreferences)
      modifies this`latitude, this`longitude, this`units, this`language
      ensures latitude == argLat && longitude == argLon
      ensures units == prefs.GetStringOr(UnitsSettingKey, "metric")
      ensures language == prefs.GetStringOr(LanguageSettingKey, "en")
    {
      var storedUnits := prefs.GetStringOr(UnitsSettingKey, "metric");
      var storedLanguage := prefs.GetStringOr(LanguageSettingKey, "en");
      latitude, longitude := argLat, argLon;
      units, language := storedUnits, storedLanguage;
    }

    /** Assigns both suffixes from a table entry, and nothing when there is none. */
    method AssignSuffixes(entry: Option<UnitSuffixes>)
      requires Valid()
      modifies this`temperatureUnit, this`windSpeedUnit
      ensures Valid()
      ensures entry.Some? ==> temperatureUnit == Some(entry.value.temperature) && windSpeedUnit == Some(entry.value.windSpeed)
      ensures entry.None? ==> temperatureUnit == old(temperatureUnit) && windSpeedUnit == old(windSpeedUnit)
    {
      if entry.Some? {
        temperatureUnit := Some(entry.value.temperature);
        windSpeedUnit := Some(entry.value.windSpeed);
      }
    }

    method SetArabicUnit(units: string)
      requires Valid()
      modifies this`temperatureUnit, this`windSpeedUnit
      ensures Valid()
      ensures units in KnownUnitSystems ==>
        temperatureUnit == Some(ArabicUnits(units).value.temperature) &&
        windSpeedUnit == Some(ArabicUnits(units).value.windSpeed)
      ensures units !in KnownUnitSystems ==>
        temperatureUnit == old(temperatureUnit) && windSpeedUnit == old(windSpeedUnit)
    {
      AssignSuffixes(ArabicUnits(units));
    }

    method SetEnglishUnits(units: string)
      requires Valid()
      modifies this`temperatureUnit, this`windSpeedUnit
      ensures Valid()
      ensures units in KnownUnitSystems ==>
        temperatureUnit == Some(EnglishUnits(units).value.temperature) &&
        windSpeedUnit == Some(EnglishUnits(units).value.windSpeed)
      ensures units !in KnownUnitSystems ==>
        temperatureUnit == old(temperatureUnit) && windSpeedUnit == old(windSpeedUnit)
    {
      AssignSuffixes(EnglishUnits(units));
    }

    method SetUnitSetting(units: string)
      requires Valid()
      modifies this`temperatureUnit, this`windSpeedUnit
      ensures Valid()
      ensures UnitTable(language, units).Some? ==>
        temperatureUnit == Some(UnitTable(language, units).value.temperature) &&
        windSpeedUnit == Some(UnitTable(language, units).value.windSpeed)
      ensures units !in KnownUnitSystems ==>
        temperatureUnit == old(temperatureUnit) && windSpeedUnit == old(windSpeedUnit)
    {
      if language == "en" {
        SetEnglishUnits(units);
      } else {
        SetArabicUnit(units);
      }
    }

    method FetchTempPerDayRecycler(daily: seq<Daily>, temperatureUnit: string)
      modifies this`daily, this`dailyUnit
      ensures this.daily == daily && dailyUnit == Some(temperatureUnit)
    {
      this.daily := daily;
      dailyUnit := Some(temperatureUnit);
    }

    method FetchTempPerTimeRecycler(hourly: seq<Hourly>, temperatureUnit: string)
      modifies this`hourly, this`hourlyUnit
      ensures this.hourly == hourly && hourlyUnit == Some(temperatureUnit)
    {
      this.hourly := hourly;
      hourlyUnit := Some(temperatureUnit);
    }

    /**
     `setData`: the icon and description of the first condition, then the
     city text of the emission's coordinate, then the readings in the
     language's binding. It fails when there is no condition, when the
     reverse geocoder returns a null list, or when the suffixes were never
     assigned.
     */
    method SetData(w: Weather, reverseGeocode: ReverseGeocoder) returns (outcome: Outcome)
      requires Valid()
      modifies this`icon, this`description, this`city, this`readings
      ensures |w.current.conditions| > 0 ==>
        icon == Some(GetIcon(w.current.conditions[0].icon)) &&
        description == Some(w.current.conditions[0].description)
      ensures |w.current.conditions| == 0 ==> icon == old(icon) && description == old(description)
      ensures var lookup := reverseGeocode(w.lat, w.lon, language);
        && (|w.current.conditions| > 0 && !lookup.NullAddresses? ==> city == GetCityText(lookup))
        && (|w.current.conditions| == 0 || lookup.NullAddresses? ==> city == old(city))
        && (outcome == Shown <==>
              |w.current.conditions| > 0 && !lookup.NullAddresses? && temperatureUnit.Some?)
      ensures outcome == Shown ==>
        readings == Some(ReadingsBinding(language, w.current, temperatureUnit.value, windSpeedUnit.value))
      ensures outcome == Crashed ==> readings == old(readings)
    {
      if |w.current.conditions| == 0 {
        return Crashed;
      }
      var condition := w.current.conditions[0];
      icon := Some(GetIcon(condition.icon));
      description := Some(condition.description);
      var cityText := GetCityText(reverseGeocode(w.lat, w.lon, language));
      if cityText.None? {
        return Crashed;
      }
      city := cityText;
      if temperatureUnit.None? {
        return Crashed;
      }
      readings := Some(ReadingsBinding(language, w.current, temperatureUnit.value, windSpeedUnit.value));
      outcome := Shown;
    }

    /**
     One emission of the observed weather: suffixes first, then the display,
     then both forecast lists replaced wholesale with the current
     temperature suffix. No other field changes.
     */
    method OnWeather(w: Option<Weather>, reverseGeocode: ReverseGeocoder) returns (outcome: Outcome)
      requires Valid()
      modifies this`temperatureUnit, this`windSpeedUnit
      modifies this`icon, this`description, this`city, this`readings
      modifies this`hourly, this`hourlyUnit, this`daily, this`dailyUnit
      ensures Valid()
      ensures UnitTable(language, units).Some? ==>
        temperatureUnit == Some(UnitTable(language, units).value.temperature) &&
        windSpeedUnit == Some(UnitTable(language, units).value.windSpeed)
      ensures units !in KnownUnitSystems ==>
        temperatureUnit == old(temperatureUnit) && windSpeedUnit == old(windSpeedUnit)
      ensures ShowsEmission(w, reverseGeocode, outcome, old(icon), old(description), old(city), old(readings),
                            old(hourly), old(hourlyUnit), old(daily), old(dailyUnit))
    {
      SetUnitSetting(units);
      outcome := ShowWeather(w, reverseGeocode);
    }

    /**
     The state after everything that follows `setUnitSetting` in one
     emission, given the state before it. A non-empty condition list sets
     icon and description; a lookup that does not crash sets the city text;
     the emission is shown exactly when it exists, has a condition, its
     lookup does not crash and the suffixes are assigned; a shown emission
     binds the readings and replaces both lists; a failed one keeps them.
     */
    ghost predicate ShowsEmission(w: Option<Weather>, reverseGeocode: ReverseGeocoder, outcome: Outcome,
                                  icon0: Option<Icon>, description0: Option<string>, city0: Option<string>,
                                  readings0: Option<ReadingsBinding>, hourly0: seq<Hourly>, hourlyUnit0: Option<string>,
                                  daily0: seq<Daily>, dailyUnit0: Option<string>)
      reads this
    {
      var hasCondition := w.Some? && |w.value.current.conditions| > 0;
      var lookupCrashes := w.Some? && reverseGeocode(w.value.lat, w.value.lon, language).NullAddresses?;
      && Valid()
      && (hasCondition ==>
            icon == Some(GetIcon(w.value.current.conditions[0].icon)) &&
            description == Some(w.value.current.conditions[0].description))
      && (!hasCondition ==> icon == icon0 && description == description0)
      && (hasCondition && !lookupCrashes ==> city == GetCityText(reverseGeocode(w.value.lat, w.value.lon, language)))
      && (!hasCondition || lookupCrashes ==> city == city0)
      && (outcome == Shown <==> hasCondition && !lookupCrashes && temperatureUnit.Some?)
      && (outcome == Shown ==>
            && readings == Some(ReadingsBinding(language, w.value.current, temperatureUnit.value, windSpeedUnit.value))
            && hourly == w.value.hourly && hourlyUnit == temperatureUnit
            && daily == w.value.daily && dailyUnit == temperatureUnit)
      && (outcome == Crashed ==>
            && readings == readings0
            && hourly == hourly0 && hourlyUnit == hourlyUnit0
            && daily == daily0 && dailyUnit == dailyUnit0)
    }

    /**
     Everything after `setUnitSetting` in one emission. A missing emission
     fails at the cast of its hourly list.
     */
    method ShowWeather(w: Option<Weather>, reverseGeocode: ReverseGeocoder) returns (outcome: Outcome)
      requires Valid()
      modifies this`icon, this`description, this`city, this`readings
      modifies this`hourly, this`hourlyUnit, this`daily, this`dailyUnit
      ensures ShowsEmission(w, reverseGeocode, outcome, old(icon), old(description), old(city), old(readings),
                            old(hourly), old(hourlyUnit), old(daily), old(dailyUnit))
    {
      if w.None? {
        outcome := Crashed;
      } else {
        outcome := SetData(w.value, reverseGeocode);
        if outcome == Shown {
          FetchTempPerTimeRecycler(w.value.hourly, temperatureUnit.value);
          FetchTempPerDayRecycler(w.value.daily, temperatureUnit.value);
        }
      }
    }

    /** Releasing the back key goes to the dashboard and consumes the event. */
    method HandleBackButton(backReleased: bool) returns (consumed: bool)
      modifies this`navigation
      ensures consumed == backReleased
      ensures navigation == old(navigation) + (if backReleased then [Dashboard] else [])
    {
      consumed := backReleased;
      if backReleased {
        navigation := navigation + [Dashboard];
      }
    }
  }

  /**
   A freshly created screen that starts offline keeps the field
   initialisers: 0.0/0.0, "metric" and "en", with one cached read of the
   favorite and one notice.
   */
  method OfflineStart(id: int, argLat: real, argLon: real, prefs: SharedPreferences)
    returns (latitude: real, longitude: real, units: string, language: string,
             dataCalls: seq<DataCall>, notices: seq<string>)
    ensures latitude == 0.0 && longitude == 0.0 && units == "metric" && language == "en"
    ensures dataCalls == [GetWeather(id)]
    ensures notices == [OfflineNotice]
  {
    var screen := new DisplayFavoriteWeather();
    screen.OnViewCreated(id, argLat, argLon, false, prefs);
    latitude, longitude, units, language := screen.latitude, screen.longitude, screen.units, screen.language;
    dataCalls, notices := screen.dataCalls, screen.notices;
  }
}
