/**
 * MainActivity.kt: how the cached weather is shown on screen, and how a
 * weather response updates the cache.
 */
module Activity {
  import opened Wrappers
  import opened Models
  import opened Constants

  // ---------------------------------------------------------------------------
  // Icon codes, day and night
  // ---------------------------------------------------------------------------

  /** The drawables the main image can show. */
  datatype Image =
    | Sunny | Night1 | Cloud | Mist | Storm | Rain | Snowflake
    | ShowerRain | BrokenCloud | FewCloudNight | FewCloudDay

  /** The image for a weather icon code; None for a code the table does not list. */
  function IconImage(icon: string): Option<Image> {
    if icon == "01d" then Some(Sunny)
    else if icon == "01n" then Some(Night1)
    else if icon == "03d" || icon == "03n" then Some(Cloud)
    else if icon == "50d" || icon == "50n" then Some(Mist)
    else if icon == "11d" || icon == "11n" then Some(Storm)
    else if icon == "10d" || icon == "10n" then Some(Rain)
    else if icon == "13d" || icon == "13n" then Some(Snowflake)
    else if icon == "09d" || icon == "09n" then Some(ShowerRain)
    else if icon == "04d" || icon == "04n" then Some(BrokenCloud)
    else if icon == "02n" then Some(FewCloudNight)
    else if icon == "02d" then Some(FewCloudDay)
    else None
  }

  /** The condition prefixes whose day and night codes the table lists. */
  const IconPrefixes: set<string> := {"01", "02", "03", "04", "09", "10", "11", "13", "50"}

  /** A code is listed exactly when it is a known prefix followed by 'd' or 'n'. */
  lemma IconListedIff(icon: string)
    ensures IconImage(icon).Some? <==>
              |icon| == 3 && icon[..2] in IconPrefixes && (icon[2] == 'd' || icon[2] == 'n')
  {
    if |icon| == 3 {
      assert icon == [icon[0], icon[1], icon[2]];
      assert icon[..2] == [icon[0], icon[1]];
    }
  }

  /** Only "01" and "02" tell day from night; every other listed prefix shares one image. */
  lemma DayNightImagesDifferOnlyFor01And02(prefix: string)
    requires prefix in IconPrefixes
    ensures IconImage(prefix + "d").Some? && IconImage(prefix + "n").Some?
    ensures IconImage(prefix + "d") != IconImage(prefix + "n") <==> prefix == "01" || prefix == "02"
  {
    assert prefix + "d" == [prefix[0], prefix[1], 'd'];
    assert prefix + "n" == [prefix[0], prefix[1], 'n'];
  }

  /** The condition prefix of the codes an image is shown for. */
  function ImagePrefix(img: Image): string {
    match img
    case Sunny => "01"
    case Night1 => "01"
    case FewCloudDay => "02"
    case FewCloudNight => "02"
    case Cloud => "03"
    case BrokenCloud => "04"
    case ShowerRain => "09"
    case Rain => "10"
    case Storm => "11"
    case Snowflake => "13"
    case Mist => "50"
  }

  lemma ListedCodeHasImagePrefix(icon: string)
    requires IconImage(icon).Some?
    ensures |icon| == 3 && icon[..2] == ImagePrefix(IconImage(icon).value)
  {
    assert icon[..2] == [icon[0], icon[1]];
  }

  /** Different prefixes never share an image. */
  lemma ImageDeterminesPrefix(a: string, b: string)
    requires IconImage(a).Some? && IconImage(a) == IconImage(b)
    ensures a[..2] == b[..2]
  {
    ListedCodeHasImagePrefix(a);
    ListedCodeHasImagePrefix(b);
  }

  /** The unused `dayOrNight` helper: "Day" exactly when the third character is 'd'. */
  function DayOrNight(s1: string): (r: string)
    requires |s1| >= 3
    ensures r == "Day" <==> s1[2] == 'd'
    ensures r == "Night" <==> s1[2] != 'd'
  {
    if s1[2] == 'd' then "Day" else "Night"
  }

  /** The images only a day code shows are shown for codes `dayOrNight` calls "Day", and likewise for night. */
  lemma DayOnlyImagesAgreeWithDayOrNight(icon: string)
    requires IconImage(icon) == Some(Sunny) || IconImage(icon) == Some(FewCloudDay)
               || IconImage(icon) == Some(Night1) || IconImage(icon) == Some(FewCloudNight)
    ensures |icon| == 3
    ensures DayOrNight(icon) == "Day" <==> IconImage(icon) == Some(Sunny) || IconImage(icon) == Some(FewCloudDay)
  {
  }

  // ---------------------------------------------------------------------------
  // Units and times
  // ---------------------------------------------------------------------------

  /** Countries `getUnit` shows in Fahrenheit. */
  const FahrenheitCountries: set<string> := {"US", "LR", "MM"}

  const Celsius: string := "°C"
  const Fahrenheit: string := "°F"

  /** The unit `getUnit` picks. */
  function TemperatureUnit(value: string): (r: string)
    ensures r == Fahrenheit <==> value in FahrenheitCountries
    ensures r == Celsius <==> value !in FahrenheitCountries
  {
    if value in FahrenheitCountries then Fahrenheit else Celsius
  }

  method GetUnit(value: string) returns (unit: string)
    ensures unit == TemperatureUnit(value)
  {
    unit := Celsius;
    if "US" == value || "LR" == value || "MM" == value {
      unit := Fahrenheit;
    }
  }

  /** `unixTime`'s first step: epoch seconds to milliseconds, in `Long` arithmetic. */
  function UnixMillis(timex: Long): (r: Long)
    ensures -(LongMax / 1000) <= timex <= LongMax / 1000 ==> r == timex * 1000 && r / 1000 == timex && r % 1000 == 0
  {
    assert LongMax / 1000 == 9_223_372_036_854_775;
    ToLong(timex * 1000)
  }

  /** Past the `Long` range the multiplication wraps around. */
  lemma UnixMillisWrapsForHugeTimes()
    ensures UnixMillis(LongMax) == -1000
  {
  }

  // ---------------------------------------------------------------------------
  // The screen
  // ---------------------------------------------------------------------------

  /** The views `setUpUI` writes; `image` is None while the layout's own image shows. */
  datatype Screen = Screen(
    main: string,
    mainDesc: string,
    temp: string,
    image: Option<Image>,
    humid: string,
    windSpeed: string,
    name: string,
    country: string,
    sunriseMillis: Long,
    sunsetMillis: Long,
    max: string,
    min: string)

  /** One iteration of the display loop over the weather entries. */
  function ShowEntry(s: Screen, entry: Weather, tempText: string): Screen {
    var shown := s.(main := entry.main, mainDesc := entry.description, temp := tempText);
    match IconImage(entry.icon)
    case Some(img) => shown.(image := Some(img))
    case None => shown
  }

  /** The display loop over the weather entries, first to last. */
  function ShowEntries(s: Screen, entries: seq<Weather>, tempText: string): Screen
    decreases |entries|
  {
    if entries == [] then s
    else ShowEntry(ShowEntries(s, entries[..|entries| - 1], tempText), entries[|entries| - 1], tempText)
  }

  /** With at least one entry, the texts shown are the last entry's. */
  lemma LastEntryWins(s: Screen, entries: seq<Weather>, tempText: string)
    requires entries != []
    ensures var r := ShowEntries(s, entries, tempText);
            r.main == entries[|entries| - 1].main
            && r.mainDesc == entries[|entries| - 1].description
            && r.temp == tempText
  {
  }

  /** Without entries, the loop leaves the screen as it was, temperature included. */
  lemma NoEntriesShowNothing(s: Screen, tempText: string)
    ensures ShowEntries(s, [], tempText) == s
  {
  }

  /** The image shown is that of the last entry whose icon code the table lists. */
  lemma {:induction false} ImageOfLastListedIcon(s: Screen, entries: seq<Weather>, tempText: string, k: int)
    requires 0 <= k < |entries| && IconImage(entries[k].icon).Some?
    requires forall j :: k < j < |entries| ==> IconImage(entries[j].icon).None?
    ensures ShowEntries(s, entries, tempText).image == IconImage(entries[k].icon)
    decreases |entries|
  {
    var n := |entries|;
    if k < n - 1 {
      var prefix := entries[..n - 1];
      assert forall j :: k < j < |prefix| ==> prefix[j] == entries[j];
      ImageOfLastListedIcon(s, prefix, tempText, k);
    }
  }

  /** When no entry's code is listed, the image stays whatever it was. */
  lemma {:induction false} ImageKeptWithoutListedIcon(s: Screen, entries: seq<Weather>, tempText: string)
    requires forall j :: 0 <= j < |entries| ==> IconImage(entries[j].icon).None?
    ensures ShowEntries(s, entries, tempText).image == s.image
    decreases |entries|
  {
    if entries != [] {
      var prefix := entries[..|entries| - 1];
      assert forall j :: 0 <= j < |prefix| ==> prefix[j] == entries[j];
      ImageKeptWithoutListedIcon(s, prefix, tempText);
    }
  }

  /** Everything `setUpUI` shows for one decoded response. */
  function Render(s: Screen, w: WeatherResponse, localeText: string): Screen {
    var looped := ShowEntries(s, w.weather, w.main.temp + TemperatureUnit(localeText));
    looped.(
      humid := w.main.humidity + " per cent",
      windSpeed := w.wind.speed,
      name := w.name,
      country := w.sys.country,
      sunriseMillis := UnixMillis(w.sys.sunrise),
      sunsetMillis := UnixMillis(w.sys.sunset),
      max := w.main.tempMax + " max",
      min := w.main.tempMin + " min")
  }

  /** `getString(WEATHER_RESPONSE_DATA, "")`. */
  function CachedJson(preferences: map<string, string>): string {
    if WeatherResponseData in preferences then preferences[WeatherResponseData] else ""
  }

  /** The screen after `setUpUI`: unchanged when the cache is empty. */
  function ScreenAfterSetUp(s: Screen, preferences: map<string, string>, localeText: string,
                            fromJson: string -> WeatherResponse): Screen
  {
    var cached := CachedJson(preferences);
    if cached == "" then s else Render(s, fromJson(cached), localeText)
  }

  /** Writing the cache key is what the next read of the cache returns; other keys stay. */
  lemma CacheWriteIsRead(preferences: map<string, string>, json: string)
    ensures CachedJson(preferences[WeatherResponseData := json]) == json
  {
  }

  /**
   * A stored response whose serialization the decoder reads back is exactly
   * what the next `setUpUI` shows.
   */
  lemma StoredResponseIsShown(s: Screen, preferences: map<string, string>, w: WeatherResponse,
                              localeText: string, toJson: WeatherResponse -> string,
                              fromJson: string -> WeatherResponse)
    requires toJson(w) != "" && fromJson(toJson(w)) == w
    ensures ScreenAfterSetUp(s, preferences[WeatherResponseData := toJson(w)], localeText, fromJson)
            == Render(s, w, localeText)
  {
  }

  /** What became of one weather request. */
  datatype FetchReport =
    | NoNetwork
    | Stored
    | HttpError(status: StatusClass)
    | TransportFailure(message: string)

  class MainActivity {
    /** The app's shared preferences. */
    var preferences: map<string, string>
    var screen: Screen

    constructor (preferences: map<string, string>, screen: Screen)
      ensures this.preferences == preferences && this.screen == screen
    {
      this.preferences := preferences;
      this.screen := screen;
    }

    /** Shows the cached response, if there is one. */
    method SetUpUI(localeText: string, fromJson: string -> WeatherResponse)
      modifies this
      ensures preferences == old(preferences)
      ensures screen == ScreenAfterSetUp(old(screen), preferences, localeText, fromJson)
    {
      var json := CachedJson(preferences);
      if json != "" {
        var w := fromJson(json);
        ghost var initial := screen;
        var i := 0;
        while i < |w.weather|
          invariant 0 <= i <= |w.weather|
          invariant preferences == old(preferences)
          invariant screen == ShowEntries(initial, w.weather[..i], w.main.temp + TemperatureUnit(localeText))
        {
          var unit := GetUnit(localeText);
          screen := screen.(main := w.weather[i].main, mainDesc := w.weather[i].description,
                            temp := w.main.temp + unit);
          match IconImage(w.weather[i].icon) {
            case Some(img) => screen := screen.(image := Some(img));
            case None =>
          }
          assert w.weather[..i + 1][..i] == w.weather[..i];
          i := i + 1;
        }
        assert w.weather[..i] == w.weather;
        screen := screen.(
          humid := w.main.humidity + " per cent",
          windSpeed := w.wind.speed,
          name := w.name,
          country := w.sys.country,
          sunriseMillis := UnixMillis(w.sys.sunrise),
          sunsetMillis := UnixMillis(w.sys.sunset),
          max := w.main.tempMax + " max",
          min := w.main.tempMin + " min");
      }
    }

    /**
     * Requests the weather at `location` when the network is up and handles the
     * callback: a success overwrites the one cache key and refreshes the screen;
     * an error status or a transport failure leaves both alone.
     */
    method WeatherDetail(network: ConnectivityState, location: Location, outcome: CallOutcome,
                         toJson: WeatherResponse -> string, localeText: string,
                         fromJson: string -> WeatherResponse)
      returns (request: Option<WeatherRequest>, report: FetchReport)
      modifies this
      ensures request.Some? <==> IsNetworkAvailable(network)
      ensures request.Some? ==> request.value == WeatherRequest(location, MetricUnit)
      ensures !IsNetworkAvailable(network) ==> report == NoNetwork
      ensures report == Stored <==> request.Some? && outcome.Responded? && IsSuccessful(outcome.code)
      ensures report == Stored ==>
                preferences == old(preferences)[WeatherResponseData := toJson(outcome.body)]
                && screen == ScreenAfterSetUp(old(screen), preferences, localeText, fromJson)
      ensures report != Stored ==> preferences == old(preferences) && screen == old(screen)
      ensures request.Some? && outcome.Responded? && !IsSuccessful(outcome.code) ==>
                report == HttpError(ClassifyStatus(outcome.code))
      ensures request.Some? && outcome.TransportFailed? ==> report == TransportFailure(outcome.message)
    {
      if !IsNetworkAvailable(network) {
        request, report := None, NoNetwork;
        return;
      }
      request := Some(WeatherRequest(location, MetricUnit));
      match outcome
      case Responded(code, body) =>
        if IsSuccessful(code) {
          var json := toJson(body);
          preferences := preferences[WeatherResponseData := json];
          SetUpUI(localeText, fromJson);
          report := Stored;
        } else {
          report := HttpError(ClassifyStatus(code));
        }
      case TransportFailed(message) =>
        report := TransportFailure(message);
    }
  }
}
