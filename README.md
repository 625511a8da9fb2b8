# Sky_Scope presentation and location-picker logic in Dafny

Sky_Scope is an Android weather application. Most of it is view wiring;
this project models the three pieces of it that carry logic of their own,
with the Android SDK, the map SDK and the geocoder replaced by plain inputs.

- **Utils** (`utils.dfy`): the icon table from OpenWeather condition codes
  to drawables, with its default entry and its two quirks; the
  substitution of Arabic-Indic digits (U+0660..U+0669) for the ASCII digits
  of an integer's decimal string, written as the source's chain of ten
  `replace` calls in the source's order (1, 2, ..., 9, 0); and the helpers
  over the key-value preference store, a class whose `entries` map is
  updated in place through `put` calls.
- **FavoriteWeather** (`favorite_weather.dfy`): the favorite-weather screen
  as a class with the source's fields. It covers the online/offline
  branch, the two unit-suffix tables and the language dispatch in front of
  them, the English and Arabic bindings of the readings, and the handling
  of one weather emission. The `lateinit` suffix fields are `Option`s.
  Reading one of them before it is assigned throws in the source; here
  that makes the emission end `Crashed`.
- **Maps** (`maps.dfy`): the location picker as a class. Its state is
  `lat`/`lon` (initially 30.0), the fixed `isFavorite` mode, the markers,
  the Done-button visibility, the search text and the suggestions. It
  handles map taps, search submits, type-ahead, suggestion clicks, Done and
  back. Geocoder results come from a function parameter. Every geocoder
  request, notice, "create favorite" request and navigation is recorded in
  a sequence.

The main proved properties:
- the ten sequential replacements act as one per-character map, keep the
  length and leave no ASCII digit;
- reading the Arabic-Indic digits back gives the decimal string exactly,
  so the conversion is injective;
- each displayed integer reading parses back to its value, in the
  language's numeral script, followed by the fixed suffix;
- the suffix check and the binding check disagree on languages other than
  "en" and "ar";
- the online and offline paths make exactly one data-access call each;
  the offline path leaves the coordinates and settings as they were, so a
  new screen that starts offline keeps its initial values;
- the picker's invariant: Done is visible exactly when a marker exists,
  and the chosen coordinate is always the last marker placed.

`getCityText` catches only `IOException` and dereferences a null address
list with `!!` (Utils.kt:140-141), so a null list ends the weather emission
with an uncaught exception; `Utils.GetCityText` and
`FavoriteWeather.DisplayFavoriteWeather.SetData` model that crash.

## Model

| member | source | states |
|---|---|---|
| `Utils.GetIcon` | app/src/main/java/com/iti/skyscope/util/Utils.kt:32-56 | any string outside the 18 listed codes gets the high-clouds icon; the high-clouds icon comes out exactly for unlisted strings and for "04d"/"04n" |
| `Utils.IconTableClouds` | app/src/main/java/com/iti/skyscope/util/Utils.kt:35-42 | codes 01 to 04 map to their fixed drawables: "03n" gives the medium-clouds day drawable, "03d" the night one, and "04d"/"04n" the high-clouds drawable |
| `Utils.IconTablePrecipitation` | app/src/main/java/com/iti/skyscope/util/Utils.kt:43-52 | codes 09, 10, 11, 13 and 50 map to their day and night drawables |
| `Utils.IconDayNight` | app/src/main/java/com/iti/skyscope/util/Utils.kt:35-52 | outside the "03" and "04" pairs, a listed code gets a night drawable exactly when it ends in 'n' |
| `Utils.IconCollisions` | app/src/main/java/com/iti/skyscope/util/Utils.kt:37-42 | two different listed codes share a drawable only for {"02d","03n"}, {"02n","03d"} and {"04d","04n"} |
| `Utils.NatToString` | app/src/main/java/com/iti/skyscope/util/Utils.kt:161 | the decimal digits of a natural number are all ASCII digits, at least one, and start with '0' only for 0 (no leading zeros) |
| `Utils.IntToString` | app/src/main/java/com/iti/skyscope/util/Utils.kt:161 | `Int.toString()` starts with '-' exactly for negative values, and every other character is an ASCII digit |
| `Utils.IntToStringRoundTrip` | app/src/main/java/com/iti/skyscope/util/Utils.kt:161 | parsing `value.toString()` gives the value back, so the decimal string determines the integer |
| `Utils.Replace` | app/src/main/java/com/iti/skyscope/util/Utils.kt:162-166 | one `replace` keeps the length and changes exactly the occurrences of the pattern character |
| `Utils.ReplaceDigits` | app/src/main/java/com/iti/skyscope/util/Utils.kt:162-166 | a chain of digit replacements keeps the length |
| `Utils.ReplaceDigitsAt` | app/src/main/java/com/iti/skyscope/util/Utils.kt:162-166 | after a chain of digit replacements, a character is localised exactly when its digit is in the chain, because no replacement introduces an ASCII digit |
| `Utils.ArabicDigitAt` | app/src/main/java/com/iti/skyscope/util/Utils.kt:162-166 | a chain of replacements that covers all ten digits localises each character of the input |
| `Utils.ArabicDigitsAt` | app/src/main/java/com/iti/skyscope/util/Utils.kt:162-166 | a chain that covers all ten digits equals one per-character map and leaves no ASCII digit |
| `Utils.ArabicDigits` | app/src/main/java/com/iti/skyscope/util/Utils.kt:151-166 | the ten replacements in the source's order keep the length, turn each ASCII digit d into Arabic-Indic digit d, keep every other character, and leave no ASCII digit |
| `Utils.ConvertNumbersToArabic` | app/src/main/java/com/iti/skyscope/util/Utils.kt:160-167 | same length as `value.toString()`; each ASCII digit d becomes Arabic-Indic digit d and every other character (the '-') is kept; no ASCII digit remains |
| `Utils.FromArabicIndic` | app/src/main/java/com/iti/skyscope/util/Utils.kt:160-167 | the reverse map reads every Arabic-Indic digit back as its ASCII digit and keeps the length |
| `Utils.ConvertNumbersToArabicRoundTrip` | app/src/main/java/com/iti/skyscope/util/Utils.kt:160-167 | reading the Arabic-Indic digits back recovers `value.toString()` exactly |
| `Utils.ConvertNumbersToArabicInjective` | app/src/main/java/com/iti/skyscope/util/Utils.kt:160-167 | two integers with the same Arabic rendering are equal |
| `Utils.GetCityText` | app/src/main/java/com/iti/skyscope/util/Utils.kt:136-149 | "Unknown!" exactly when the lookup throws an `IOException` or finds no place; otherwise "adminArea, countryName" of the first place; a null list throws (no result) |
| `Utils.SharedPreferences.constructor` | app/src/main/java/com/iti/skyscope/util/Utils.kt:74-79 | the store opens with the given entries |
| `Utils.SharedPreferences.GetString` | app/src/main/java/com/iti/skyscope/util/Utils.kt:83-84 | `getString(key, null)`: nothing for a missing key; a string exactly when one is stored under the key, and then the stored one |
| `Utils.SharedPreferences.GetStringOr` | app/src/main/java/com/iti/skyscope/favorites/view/DisplayFavoriteWeather.kt:99-106 | `getString(key, default)`: the default for a missing key, the stored string otherwise |
| `Utils.SharedPreferences.GetFloat` | app/src/main/java/com/iti/skyscope/util/Utils.kt:90-91 | `getFloat(key, default)`: the default for a missing key, the stored float otherwise |
| `Utils.SharedPreferences.PutFloat` | app/src/main/java/com/iti/skyscope/util/Utils.kt:104-105 | `putFloat` sets one key and leaves the rest of the map as it was |
| `Utils.SharedPreferences.PutString` | app/src/main/java/com/iti/skyscope/util/Utils.kt:106-107 | `putString` sets one key and leaves the rest of the map as it was |
| `Utils.IsSharedPreferencesLocationAndTimeZoneNull` | app/src/main/java/com/iti/skyscope/util/Utils.kt:81-86 | the check is an AND: a non-empty stored location or time zone makes it false; with neither key stored, or both stored empty, it is true |
| `Utils.IsSharedPreferencesLatAndLongNull` | app/src/main/java/com/iti/skyscope/util/Utils.kt:88-93 | the check is an AND with read default 0: one non-zero stored coordinate makes it false; with neither key stored it is true |
| `Utils.UpdateSharedPreferences` | app/src/main/java/com/iti/skyscope/util/Utils.kt:95-109 | writes exactly the lat, lon, location and timeZone keys and keeps every other key; afterwards the location check is false when the location is non-empty, and the coordinate check holds exactly when both values are 0 |
| `FavoriteWeather.EnglishUnits` | app/src/main/java/com/iti/skyscope/favorites/view/DisplayFavoriteWeather.kt:195-210 | the English table has an entry exactly for metric, imperial and standard |
| `FavoriteWeather.ArabicUnits` | app/src/main/java/com/iti/skyscope/favorites/view/DisplayFavoriteWeather.kt:178-193 | the Arabic table has an entry exactly for metric, imperial and standard |
| `FavoriteWeather.UnitTables` | app/src/main/java/com/iti/skyscope/favorites/view/DisplayFavoriteWeather.kt:178-210 | the six fixed suffix pairs, and that both tables know the same unit systems |
| `FavoriteWeather.UnitTable` | app/src/main/java/com/iti/skyscope/favorites/view/DisplayFavoriteWeather.kt:124-130 | the table `setUnitSetting` picks has an entry exactly for the three unit systems, and that entry has English suffixes exactly when the language is "en" |
| `FavoriteWeather.LanguageChecksDisagree` | app/src/main/java/com/iti/skyscope/favorites/view/DisplayFavoriteWeather.kt:124-130 | suffixes are English exactly for "en" and the binding is Arabic exactly for "ar"; any other language gets Arabic suffixes with the English binding |
| `FavoriteWeather.ToInt` | app/src/main/java/com/iti/skyscope/favorites/view/DisplayFavoriteWeather.kt:215 | `Double.toInt()` drops the fraction toward zero and saturates at the `Int` bounds |
| `FavoriteWeather.ShowsIntEnglish` | app/src/main/java/com/iti/skyscope/favorites/view/DisplayFavoriteWeather.kt:232-236 | an English reading text is the canonical decimal string of the value in ASCII digits ('-' only in front, no leading zeros), so it parses back to the value, followed by its suffix |
| `FavoriteWeather.ShowsIntArabic` | app/src/main/java/com/iti/skyscope/favorites/view/DisplayFavoriteWeather.kt:214-224 | an Arabic reading text is the canonical decimal string of the value written in Arabic-Indic digits, so it reads back to the value, followed by its suffix |
| `FavoriteWeather.BindEnglishUnits` | app/src/main/java/com/iti/skyscope/favorites/view/DisplayFavoriteWeather.kt:230-240 | temperature (integer part), humidity, pressure, clouds and visibility are ASCII digits that parse back to the reading, followed by the temperature suffix, "%", " hPa", "%" and "m"; UV is the platform rendering; wind speed is the rendering followed by the wind suffix |
| `FavoriteWeather.BindArabicUnits` | app/src/main/java/com/iti/skyscope/favorites/view/DisplayFavoriteWeather.kt:212-228 | the same readings, and UV's integer part, in Arabic-Indic digits that read back to the value, followed by the temperature suffix, "٪", " هب", "٪" and "م"; wind speed is the rendering with its digits localised, followed by the wind suffix |
| `FavoriteWeather.BindUnits` | app/src/main/java/com/iti/skyscope/favorites/view/DisplayFavoriteWeather.kt:157-161 | the readings are in Arabic-Indic digits with Arabic suffixes exactly for "ar", and in ASCII digits with English suffixes otherwise; each reads back to its value; UV is truncated in Arabic only |
| `FavoriteWeather.DisplayFavoriteWeather.constructor` | app/src/main/java/com/iti/skyscope/favorites/view/DisplayFavoriteWeather.kt:42-53 | starts at 0.0/0.0, "en", "metric", with both suffixes unassigned |
| `FavoriteWeather.DisplayFavoriteWeather.OnViewCreated` | app/src/main/java/com/iti/skyscope/favorites/view/DisplayFavoriteWeather.kt:65-87 | the new view and adapters start with no texts and empty forecast lists; online: the arguments' coordinates and the stored settings, then exactly one `updateWeather` and no notice; offline: exactly one "You are offline" notice and one `getWeather(id)`, with coordinates, units, language and suffixes left as they were |
| `FavoriteWeather.DisplayFavoriteWeather.NewViewAndAdapters` | app/src/main/java/com/iti/skyscope/favorites/view/DisplayFavoriteWeather.kt:109-122 | each new adapter starts with an empty list and no unit, and the fresh view shows no icon, description, city or readings |
| `FavoriteWeather.DisplayFavoriteWeather.GetOnlineNeeds` | app/src/main/java/com/iti/skyscope/favorites/view/DisplayFavoriteWeather.kt:96-107 | coordinates from the arguments; units and language from the store with defaults "metric" and "en" |
| `FavoriteWeather.DisplayFavoriteWeather.SetArabicUnit` | app/src/main/java/com/iti/skyscope/favorites/view/DisplayFavoriteWeather.kt:178-193 | a known unit system assigns both suffixes from the Arabic table; an unknown one assigns neither |
| `FavoriteWeather.DisplayFavoriteWeather.SetEnglishUnits` | app/src/main/java/com/iti/skyscope/favorites/view/DisplayFavoriteWeather.kt:195-210 | a known unit system assigns both suffixes from the English table; an unknown one assigns neither |
| `FavoriteWeather.DisplayFavoriteWeather.SetUnitSetting` | app/src/main/java/com/iti/skyscope/favorites/view/DisplayFavoriteWeather.kt:124-130 | both suffixes come from the table the language selects, or stay as they were for an unknown unit system |
| `FavoriteWeather.DisplayFavoriteWeather.FetchTempPerDayRecycler` | app/src/main/java/com/iti/skyscope/favorites/view/DisplayFavoriteWeather.kt:132-138 | the daily list is replaced wholesale and carries the given temperature suffix |
| `FavoriteWeather.DisplayFavoriteWeather.FetchTempPerTimeRecycler` | app/src/main/java/com/iti/skyscope/favorites/view/DisplayFavoriteWeather.kt:140-146 | the hourly list is replaced wholesale and carries the given temperature suffix |
| `FavoriteWeather.DisplayFavoriteWeather.SetData` | app/src/main/java/com/iti/skyscope/favorites/view/DisplayFavoriteWeather.kt:148-163 | icon and description from the first condition, then the city text of the emission's coordinate, then the readings in the language's binding; it fails exactly when there is no condition, the reverse geocoder returns a null list, or the suffixes are unassigned, and each failure keeps what was set before it |
| `FavoriteWeather.DisplayFavoriteWeather.OnWeather` | app/src/main/java/com/iti/skyscope/favorites/view/DisplayFavoriteWeather.kt:88-93 | suffixes are set before binding; a non-empty condition list sets icon and description, and a lookup that does not crash sets the city; shown exactly when the emission exists, has a condition, its lookup does not crash and the suffixes are assigned; when shown, the readings are bound and both forecast lists are the emission's with the current temperature suffix; a failed emission keeps the previous readings, lists and list units |
| `FavoriteWeather.DisplayFavoriteWeather.ShowWeather` | app/src/main/java/com/iti/skyscope/favorites/view/DisplayFavoriteWeather.kt:90-92 | a missing emission fails and changes nothing; otherwise `setData`, then the hourly and the daily list when it succeeded; a failure keeps the readings, lists and list units |
| `FavoriteWeather.DisplayFavoriteWeather.HandleBackButton` | app/src/main/java/com/iti/skyscope/favorites/view/DisplayFavoriteWeather.kt:165-176 | releasing the back key navigates to the dashboard and consumes the event |
| `FavoriteWeather.OfflineStart` | app/src/main/java/com/iti/skyscope/favorites/view/DisplayFavoriteWeather.kt:50-87 | a new screen that starts offline keeps 0.0/0.0, "metric" and "en", and makes exactly one `getWeather(id)` call and shows one notice |
| `Maps.CollectAddressLines` | app/src/main/java/com/iti/skyscope/map/view/MapsFragment.kt:125-130 | one first address line per geocoder result, in result order |
| `Maps.BuildSuggestionRows` | app/src/main/java/com/iti/skyscope/map/view/MapsFragment.kt:131-134 | one cursor row per line, with ids 0, 1, 2, ... in order |
| `Maps.MapsFragment.constructor` | app/src/main/java/com/iti/skyscope/map/view/MapsFragment.kt:43-66 | lat = lon = 30.0; `isFavorite` fixed from the arguments; no marker and Done hidden |
| `Maps.MapsFragment.OnMapClick` | app/src/main/java/com/iti/skyscope/map/view/MapsFragment.kt:83-90 | exactly one marker, at the tapped point, which becomes lat/lon; Done visible |
| `Maps.MapsFragment.ShowFirstResult` | app/src/main/java/com/iti/skyscope/map/view/MapsFragment.kt:97-116 | a hit adds a marker without clearing, moves lat/lon to the first result and shows Done; no result shows exactly one "No results found" notice and changes nothing else |
| `Maps.MapsFragment.OnQueryTextSubmit` | app/src/main/java/com/iti/skyscope/map/view/MapsFragment.kt:93-119 | always returns false; a null or empty query changes nothing; otherwise one geocoder request for at most 1 result and the hit/no-result rule |
| `Maps.MapsFragment.OnQueryTextChange` | app/src/main/java/com/iti/skyscope/map/view/MapsFragment.kt:121-149 | non-empty text requests at most 3 addresses and lists their first lines in order with ids from 0, returning true; empty text returns false and leaves the suggestions |
| `Maps.MapsFragment.OnSuggestionClick` | app/src/main/java/com/iti/skyscope/map/view/MapsFragment.kt:159-181 | geocodes the chosen row's address for at most 1 result with the hit/no-result rule, always clears the search text, and returns true |
| `Maps.MapsFragment.NavigateToFavoriteScreen` | app/src/main/java/com/iti/skyscope/map/view/MapsFragment.kt:185-202 | one "create favorite" request with the stored language and units (defaults "en", "metric"); dashboard only on success; on failure one notice with the message |
| `Maps.MapsFragment.SaveLocationInSharedPreferences` | app/src/main/java/com/iti/skyscope/map/view/MapsFragment.kt:204-211 | stores the latitude under the lat key and the longitude under the lon key, then navigates home |
| `Maps.MapsFragment.OnDone` | app/src/main/java/com/iti/skyscope/map/view/MapsFragment.kt:70-76 | favorite mode makes the favorite request at the current lat/lon; one-time mode stores the current lat under the lat key and lon under the lon key (the swapped call-site order matches the parameter order) and goes home |
| `Maps.MapsFragment.HandleBackButton` | app/src/main/java/com/iti/skyscope/map/view/MapsFragment.kt:213-230 | releasing the back key goes to the dashboard in favorite mode and home otherwise |
| `Maps.TapThenDoneInFavoriteMode` | app/src/main/java/com/iti/skyscope/map/view/MapsFragment.kt:70-90 | a tap at (10, 20) and a successful Done make exactly one favorite request at (10, 20) and navigate to the dashboard |
| `Maps.TapThenDoneInOneTimeMode` | app/src/main/java/com/iti/skyscope/map/view/MapsFragment.kt:73-90 | a tap and Done in one-time mode store the tapped point and go home; the stored coordinates then read as unset only for (0, 0) |

## Left out

- The Android views, Toast/Snackbar rendering and navigation calls are not modelled. Notices and destinations are recorded as entries of sequences. Of the view binding and the two RecyclerView adapters, the model keeps only the shown icon, description, city and readings and each adapter's list and temperature unit; `onViewCreated` starts them afresh, as a re-created view comes with a new binding and new adapters.
- The map camera, zoom and UI settings, and the map-ready callback, are not modelled. Every event is assumed to come after the map is ready.
- The Done button is assumed hidden until the first marker; the layout that sets its initial visibility is not part of this model.
- Forward-geocoder exceptions (`IOException`) in the picker are not modelled. There a `null` address list behaves like an empty one, as the three forward-geocoder uses treat it (app/src/main/java/com/iti/skyscope/map/view/MapsFragment.kt:97, 126 and 164).
- The geocoder's promise to return at most the requested number of results is not assumed. The model records the maximum requested and lists whatever the geocoder returns.
- `isOnline` and the connectivity manager are a platform query; the model takes the result as a boolean input.
- `getCurrentLocale` and the date formatters (`convertLongToTime`, `convertCalenderToDayString`, `convertLongToDayDate`) wrap foreign locale formatting and are left out, with the day and date texts of `setData`. The reverse geocoder itself is an input function; `getCityText` around it is modelled.
- Floating-point formatting is not modelled. The model takes the platform's rendering of UV and wind speed as opaque strings (`uviText`, `windSpeedText`), so `convertNumbersToArabic(Double)` applies only to that given text. The `"$lat"` rendering in `setFavorite` is also left out, and the request keeps the numbers.
- Coordinates are exact reals: the `toFloat` narrowing on store and the `0.0f` comparison are not modelled. `Double.toInt()` of NaN is not modelled either.
- LiveData observation, the ViewModel and the repository are asynchronous and external. The model records the data-access calls and takes each weather emission as an input, or as `None` for a null emission.
- `Utils.SharedPreferences.GetString`: reading a key that holds a float gives "absent" instead of the platform's `ClassCastException`.
- `Utils.SharedPreferences.GetStringOr`: reading a key that holds a float gives the default instead of the platform's `ClassCastException`.
- `Utils.SharedPreferences.GetFloat`: reading a key that holds a string gives the default instead of the platform's `ClassCastException`.
- `FavoriteWeather.DisplayFavoriteWeather.OnWeather`: after an uncaught exception the app stops. The model only reports `Crashed` and keeps the writes made before the failing step.
- `FavoriteWeather.DisplayFavoriteWeather.readings` records what `setData` binds: the language, the current conditions and the two suffixes. The displayed texts are `Texts()` of that record, and `FavoriteWeather.BindUnits` states what they are.
- The preference keys are resource strings whose values are not part of this model. The model uses the distinct literals "lat", "lon", "location", "timeZone", "unitsSetting" and "languageSetting". The frame facts of `Utils.UpdateSharedPreferences`, `Maps.MapsFragment.OnDone` and `Maps.MapsFragment.SaveLocationInSharedPreferences` rely on these six keys being pairwise distinct.
