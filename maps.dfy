/**
 The location picker: a map screen on which the user chooses a coordinate
 by tapping, by submitting a search, or by clicking a type-ahead
 suggestion, and then confirms it either as a new favorite or as the
 one-time location stored in the preferences.
 */
module Maps {
  import opened Utils

  datatype LatLng = LatLng(latitude: real, longitude: real)

  /** One geocoder result: its coordinates and its first address line. */
  datatype Address = Address(latitude: real, longitude: real, addressLine: string)

  /** The forward geocoder: a query and a maximum number of results give the addresses found. */
  type Geocoder = (string, nat) -> seq<Address>

  /** A row of the suggestion cursor: its `_ID` and its "address" column. */
  datatype Suggestion = Suggestion(id: nat, address: string)

  datatype GeocodeRequest = GeocodeRequest(query: string, maxResults: nat)

  /** A call of the "create favorite" operation of the data-access layer. */
  datatype FavoriteRequest = FavoriteRequest(lat: real, lon: real, language: string, units: string)

  datatype Destination = Dashboard | Home

  const NoResultsNotice: string := "No results found"

  /** The first loop of `onQueryTextChange`: the first address line of each result, in order. */
  method CollectAddressLines(addresses: seq<Address>) returns (lines: seq<string>)
    ensures |lines| == |addresses|
    ensures forall i :: 0 <= i < |addresses| ==> lines[i] == addresses[i].addressLine
  {
    lines := [];
    for k := 0 to |addresses|
      invariant |lines| == k
      invariant forall i :: 0 <= i < k ==> lines[i] == addresses[i].addressLine
    {
      lines := lines + [addresses[k].addressLine];
    }
  }

  /** The second loop of `onQueryTextChange`: one cursor row per line, numbered from 0. */
  method BuildSuggestionRows(lines: seq<string>) returns (rows: seq<Suggestion>)
    ensures |rows| == |lines|
    ensures forall i :: 0 <= i < |rows| ==> rows[i] == Suggestion(i, lines[i])
  {
    rows := [];
    for index := 0 to |lines|
      invariant |rows| == index
      invariant forall i :: 0 <= i < index ==> rows[i] == Suggestion(i, lines[i])
    {
      rows := rows + [Suggestion(index, lines[index])];
    }
  }

  class MapsFragment {
    var lat: real
    var lon: real
    /** Fixed from the screen's arguments when it is created. */
    const isFavorite: bool
    const prefs: SharedPreferences

    /** The markers on the map, in the order they were added. */
    var markers: seq<LatLng>
    var doneVisible: bool
    /** The text of the search box. */
    var query: string
    var suggestions: seq<Suggestion>

    var geocodeRequests: seq<GeocodeRequest>
    var notices: seq<string>
    var favoriteRequests: seq<FavoriteRequest>
    var navigation: seq<Destination>

    /**
     Done is shown exactly when a marker has been placed, the chosen
     coordinate is the last marker placed, and suggestion ids count from 0.
     */
    ghost predicate Valid()
      reads this
    {
      && (doneVisible <==> markers != [])
      && (markers != [] ==> markers[|markers| - 1] == LatLng(lat, lon))
      && (forall i :: 0 <= i < |suggestions| ==> suggestions[i].id == i)
    }

    constructor (isFavoriteArgument: bool, prefs: SharedPreferences)
      ensures Valid()
      ensures lat == 30.0 && lon == 30.0
      ensures isFavorite == isFavoriteArgument && this.prefs == prefs
      ensures markers == [] && !doneVisible && query == "" && suggestions == []
      ensures geocodeRequests == [] && notices == [] && favoriteRequests == [] && navigation == []
    {
      lat, lon := 30.0, 30.0;
      isFavorite := isFavoriteArgument;
      this.prefs := prefs;
      markers, doneVisible, query, suggestions := [], false, "", [];
      geocodeRequests, notices, favoriteRequests, navigation := [], [], [], [];
    }

    /** A tap replaces every marker by one at the tapped point, which becomes the choice. */
    method OnMapClick(location: LatLng)
      requires Valid()
      modifies this`markers, this`lat, this`lon, this`doneVisible
      ensures Valid()
      ensures markers == [location]
      ensures lat == location.latitude && lon == location.longitude
      ensures doneVisible
    {
      markers := [];
      markers := markers + [location];
      lat := location.latitude;
      lon := location.longitude;
      doneVisible := true;
    }

    /**
     The first geocoder result, if any, gets a marker (earlier markers stay)
     and becomes the choice; no result shows one notice and changes nothing else.
     */
    method ShowFirstResult(addresses: seq<Address>)
      requires Valid()
      modifies this`markers, this`lat, this`lon, this`doneVisible, this`notices
      ensures Valid()
      ensures addresses != [] ==>
        && markers == old(markers) + [LatLng(addresses[0].latitude, addresses[0].longitude)]
        && lat == addresses[0].latitude && lon == addresses[0].longitude
        && doneVisible && notices == old(notices)
      ensures addresses == [] ==>
        && markers == old(markers) && lat == old(lat) && lon == old(lon)
        && doneVisible == old(doneVisible) && notices == old(notices) + [NoResultsNotice]
    {
      if addresses != [] {
        var address := addresses[0];
        markers := markers + [LatLng(address.latitude, address.longitude)];
        lat := address.latitude;
        lon := address.longitude;
        doneVisible := true;
      } else {
        notices := notices + [NoResultsNotice];
      }
    }

    /** A non-empty submitted query is geocoded for one result; submit never consumes the event. */
    method OnQueryTextSubmit(q: Option<string>, geocode: Geocoder) returns (handled: bool)
      requires Valid()
      modifies this`markers, this`lat, this`lon, this`doneVisible, this`notices, this`geocodeRequests
      ensures Valid()
      ensures !handled
      ensures (q.None? || q.value == "") ==>
        && geocodeRequests == old(geocodeRequests)
        && markers == old(markers) && lat == old(lat) && lon == old(lon)
        && doneVisible == old(doneVisible) && notices == old(notices)
      ensures q.Some? && q.value != "" ==>
        var found := geocode(q.value, 1);
        && geocodeRequests == old(geocodeRequests) + [GeocodeRequest(q.value, 1)]
        && (found != [] ==>
              && markers == old(markers) + [LatLng(found[0].latitude, found[0].longitude)]
              && lat == found[0].latitude && lon == found[0].longitude
              && doneVisible && notices == old(notices))
        && (found == [] ==>
              && markers == old(markers) && lat == old(lat) && lon == old(lon)
              && doneVisible == old(doneVisible) && notices == old(notices) + [NoResultsNotice])
    {
      if q.Some? && q.value != "" {
        geocodeRequests := geocodeRequests + [GeocodeRequest(q.value, 1)];
        var addressList := geocode(q.value, 1);
        ShowFirstResult(addressList);
      }
      handled := false;
    }

    /**
     Typing asks the geocoder for up to three addresses and lists their
     first lines, numbered from 0, as the suggestions. Empty text leaves
     the suggestions as they were.
     */
    method OnQueryTextChange(newText: Option<string>, geocode: Geocoder) returns (handled: bool)
      requires Valid()
      modifies this`query, this`suggestions, this`geocodeRequests
      ensures Valid()
      ensures query == (if newText.Some? then newText.value else "")
      ensures handled <==> newText.Some? && newText.value != ""
      ensures handled ==>
        var found := geocode(newText.value, 3);
        && geocodeRequests == old(geocodeRequests) + [GeocodeRequest(newText.value, 3)]
        && |suggestions| == |found|
        && forall i :: 0 <= i < |found| ==> suggestions[i] == Suggestion(i, found[i].addressLine)
      ensures !handled ==> suggestions == old(suggestions) && geocodeRequests == old(geocodeRequests)
    {
      query := if newText.Some? then newText.value else "";
      if newText.Some? && newText.value != "" {
        geocodeRequests := geocodeRequests + [GeocodeRequest(newText.value, 3)];
        var addressList := geocode(newText.value, 3);
        var lines := CollectAddressLines(addressList);
        suggestions := BuildSuggestionRows(lines);
        return true;
      }
      return false;
    }

    /**
     Clicking a suggestion geocodes its address line for one result, with the
     same outcome as a submit, and then clears the search box (which reports
     an empty text change).
     */
    method OnSuggestionClick(position: nat, geocode: Geocoder) returns (handled: bool)
      requires Valid()
      requires position < |suggestions|
      modifies this`markers, this`lat, this`lon, this`doneVisible, this`notices
      modifies this`geocodeRequests, this`query, this`suggestions
      ensures Valid()
      ensures handled
      ensures query == "" && suggestions == old(suggestions)
      ensures
        var address := old(suggestions[position].address);
        var found := geocode(address, 1);
        && geocodeRequests == old(geocodeRequests) + [GeocodeRequest(address, 1)]
        && (found != [] ==>
              && markers == old(markers) + [LatLng(found[0].latitude, found[0].longitude)]
              && lat == found[0].latitude && lon == found[0].longitude
              && doneVisible && notices == old(notices))
        && (found == [] ==>
              && markers == old(markers) && lat == old(lat) && lon == old(lon)
              && doneVisible == old(doneVisible) && notices == old(notices) + [NoResultsNotice])
    {
      var address := suggestions[position].address;
      geocodeRequests := geocodeRequests + [GeocodeRequest(address, 1)];
      var addressList := geocode(address, 1);
      ShowFirstResult(addressList);
      var _ := OnQueryTextChange(Some(""), geocode);
      handled := true;
    }

    /**
     Asks the data-access layer to create a favorite at the given point with
     the stored language and units; `failure` is the message of the
     exception that call throws, if it throws. Only success navigates.
     */
    method NavigateToFavoriteScreen(lat: real, lon: real, failure: Option<string>)
      modifies this`favoriteRequests, this`notices, this`navigation
      ensures favoriteRequests == old(favoriteRequests) + [FavoriteRequest(lat, lon,
        prefs.GetStringOr(LanguageSettingKey, "en"), prefs.GetStringOr(UnitsSettingKey, "metric"))]
      ensures failure.None? ==> navigation == old(navigation) + [Dashboard] && notices == old(notices)
      ensures failure.Some? ==> navigation == old(navigation) && notices == old(notices) + [failure.value]
    {
      var language := prefs.GetStringOr(LanguageSettingKey, "en");
      var units := prefs.GetStringOr(UnitsSettingKey, "metric");
      favoriteRequests := favoriteRequests + [FavoriteRequest(lat, lon, language, units)];
      if failure.Some? {
        notices := notices + [failure.value];
      } else {
        navigation := navigation + [Dashboard];
      }
    }

    /** Stores `lat` under the latitude key and `long` under the longitude key, then goes home. */
    method SaveLocationInSharedPreferences(long: real, lat: real)
      modifies prefs, this`navigation
      ensures prefs.entries == old(prefs.entries)[LatKey := FloatPref(lat)][LonKey := FloatPref(long)]
      ensures navigation == old(navigation) + [Home]
    {
      prefs.PutFloat(LatKey, lat);
      prefs.PutFloat(LonKey, long);
      navigation := navigation + [Home];
    }

    /**
     Done: in favorite mode, one "create favorite" request at the chosen
     point; otherwise the chosen point becomes the stored one-time location.
     */
    method OnDone(failure: Option<string>)
      modifies prefs, this`favoriteRequests, this`notices, this`navigation
      ensures isFavorite ==>
        && prefs.entries == old(prefs.entries)
        && favoriteRequests == old(favoriteRequests) + [FavoriteRequest(lat, lon,
             prefs.GetStringOr(LanguageSettingKey, "en"), prefs.GetStringOr(UnitsSettingKey, "metric"))]
        && (failure.None? ==> navigation == old(navigation) + [Dashboard] && notices == old(notices))
        && (failure.Some? ==> navigation == old(navigation) && notices == old(notices) + [failure.value])
      ensures !isFavorite ==>
        && prefs.entries == old(prefs.entries)[LatKey := FloatPref(lat)][LonKey := FloatPref(lon)]
        && navigation == old(navigation) + [Home]
        && favoriteRequests == old(favoriteRequests) && notices == old(notices)
    {
      if isFavorite {
        NavigateToFavoriteScreen(lat, lon, failure);
      } else {
        SaveLocationInSharedPreferences(lon, lat);
      }
    }

    /** Releasing the back key leaves for the screen the picker was opened from. */
    method HandleBackButton(backReleased: bool) returns (consumed: bool)
      modifies this`navigation
      ensures consumed == backReleased
      ensures navigation == old(navigation) + (if !backReleased then [] else if isFavorite then [Dashboard] else [Home])
    {
      consumed := backReleased;
      if backReleased {
        if isFavorite {
          navigation := navigation + [Dashboard];
        } else {
          navigation := navigation + [Home];
        }
      }
    }
  }

  /**
   In favorite mode, a tap at (10, 20) followed by a successful Done makes
   exactly one "create favorite" request there and goes to the dashboard.
   */
  method TapThenDoneInFavoriteMode(prefs: SharedPreferences) returns (requests: seq<FavoriteRequest>, navigation: seq<Destination>)
    modifies prefs
    ensures prefs.entries == old(prefs.entries)
    ensures requests == [FavoriteRequest(10.0, 20.0,
      prefs.GetStringOr(LanguageSettingKey, "en"), prefs.GetStringOr(UnitsSettingKey, "metric"))]
    ensures navigation == [Dashboard]
  {
    var picker := new MapsFragment(true, prefs);
    picker.OnMapClick(LatLng(10.0, 20.0));
    picker.OnDone(None);
    requests, navigation := picker.favoriteRequests, picker.navigation;
  }

  /**
   In one-time mode, a tap followed by Done stores the tapped point as the
   location and goes home; the stored coordinates then read as set unless
   the point is (0, 0).
   */
  method TapThenDoneInOneTimeMode(prefs: SharedPreferences, location: LatLng) returns (navigation: seq<Destination>)
    modifies prefs
    ensures prefs.GetFloat(LatKey, 0.0) == location.latitude && prefs.GetFloat(LonKey, 0.0) == location.longitude
    ensures IsSharedPreferencesLatAndLongNull(prefs) <==> location == LatLng(0.0, 0.0)
    ensures navigation == [Home]
  {
    var picker := new MapsFragment(false, prefs);
    picker.OnMapClick(location);
    picker.OnDone(None);
    navigation := picker.navigation;
  }
}
