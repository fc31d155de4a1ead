/**
 * The weather tool server: the URLs it requests from the National Weather
 * Service and the text its two tools, `get_alerts` and `get_forecast`, build
 * from the JSON that comes back. A request is a `Fetcher`: the decoded body,
 * or `None` when the request fails for any reason.
 */
module Weather {
  import opened Wrappers
  import opened Json
  import opened Text

  const NwsApiBase := "https://api.weather.gov"
  const AlertsPath := "/alerts/active/area/"
  const PointsPath := "/points/"

  /** The request helper: the decoded JSON body of a GET, or `None` on any failure. */
  type Fetcher = string -> Option<Json>

  // ---------------------------------------------------------------------------
  // URLs

  /** The endpoint listing the active alerts of a state. */
  function AlertsUrl(state: string): string
  {
    NwsApiBase + AlertsPath + state
  }

  /** Reads the state back out of an alerts URL. */
  function StateOfAlertsUrl(url: string): (r: Option<string>)
    ensures r.Some? <==> |NwsApiBase + AlertsPath| <= |url| && url[..|NwsApiBase + AlertsPath|] == NwsApiBase + AlertsPath
  {
    var prefix := NwsApiBase + AlertsPath;
    if |prefix| <= |url| && url[..|prefix|] == prefix then Some(url[|prefix|..]) else None
  }

  /** The state code goes into the URL unchanged, and nothing else does. */
  lemma AlertsUrlRoundTrip(state: string)
    ensures StateOfAlertsUrl(AlertsUrl(state)) == Some(state)
  {
    var prefix := NwsApiBase + AlertsPath;
    assert AlertsUrl(state) == prefix + state;
    assert (prefix + state)[..|prefix|] == prefix;
    assert (prefix + state)[|prefix|..] == state;
  }

  /** Distinct states are sent to distinct URLs. */
  lemma AlertsUrlInjective(s1: string, s2: string)
    requires AlertsUrl(s1) == AlertsUrl(s2)
    ensures s1 == s2
  {
    AlertsUrlRoundTrip(s1);
    AlertsUrlRoundTrip(s2);
  }

  /**
   * The endpoint describing a location, from the printed latitude and
   * longitude (the two numbers appear as Python prints them).
   */
  function PointsUrl(latitude: string, longitude: string): (r: string)
    ensures |r| == |NwsApiBase + PointsPath| + |latitude| + 1 + |longitude|
    ensures r[..|NwsApiBase + PointsPath|] == NwsApiBase + PointsPath
    ensures r[|NwsApiBase + PointsPath|..][..|latitude|] == latitude
    ensures r[|NwsApiBase + PointsPath| + |latitude|] == ','
    ensures r[|NwsApiBase + PointsPath| + |latitude| + 1..] == longitude
  {
    NwsApiBase + PointsPath + latitude + "," + longitude
  }

  /** The position of the first comma of `s`, or `|s|` when there is none. */
  function FirstComma(s: string): (k: nat)
    ensures k <= |s|
    ensures k < |s| ==> s[k] == ','
    ensures forall i :: 0 <= i < k ==> s[i] != ','
  {
    if s == [] || s[0] == ',' then 0 else 1 + FirstComma(s[1..])
  }

  /** Reads the latitude and longitude back out of a points URL, splitting at the first comma. */
  function CoordinatesOfPointsUrl(url: string): (r: Option<(string, string)>)
    ensures r.Some? ==> ',' !in r.value.0 && url == PointsUrl(r.value.0, r.value.1)
  {
    var prefix := NwsApiBase + PointsPath;
    if |prefix| <= |url| && url[..|prefix|] == prefix then
      var rest := url[|prefix|..];
      var k := FirstComma(rest);
      if k < |rest| then
        assert url == prefix + rest[..k] + "," + rest[k + 1..];
        Some((rest[..k], rest[k + 1..]))
      else None
    else None
  }

  /**
   * A latitude without a comma, as Python prints a float, and the longitude
   * can both be read back from the points URL.
   */
  lemma PointsUrlRoundTrip(latitude: string, longitude: string)
    requires ',' !in latitude
    ensures CoordinatesOfPointsUrl(PointsUrl(latitude, longitude)) == Some((latitude, longitude))
  {
    var prefix := NwsApiBase + PointsPath;
    var url := PointsUrl(latitude, longitude);
    var rest := latitude + "," + longitude;
    assert url == prefix + rest;
    assert url[..|prefix|] == prefix && url[|prefix|..] == rest;
    FirstCommaAfter(latitude, longitude);
    assert rest[..|latitude|] == latitude && rest[|latitude| + 1..] == longitude;
  }

  /** The first comma after a comma-free latitude is the separator. */
  lemma {:induction false} FirstCommaAfter(latitude: string, longitude: string)
    requires ',' !in latitude
    ensures FirstComma(latitude + "," + longitude) == |latitude|
  {
    if latitude != [] {
      assert latitude[0] in latitude;
      assert forall c :: c in latitude[1..] ==> c in latitude;
      FirstCommaAfter(latitude[1..], longitude);
      assert (latitude + "," + longitude)[1..] == latitude[1..] + "," + longitude;
    }
  }

  /** Distinct comma-free latitudes, or distinct longitudes, are sent to distinct URLs. */
  lemma PointsUrlInjective(lat1: string, lon1: string, lat2: string, lon2: string)
    requires ',' !in lat1 && ',' !in lat2
    requires PointsUrl(lat1, lon1) == PointsUrl(lat2, lon2)
    ensures lat1 == lat2 && lon1 == lon2
  {
    PointsUrlRoundTrip(lat1, lon1);
    PointsUrlRoundTrip(lat2, lon2);
  }

  // ---------------------------------------------------------------------------
  // Alerts

  /**
   * `props.get(key, default)` printed into an f-string: the value under `key`
   * when `props` is a dict holding it, `default` when the dict lacks it, and an
   * `AttributeError` when `props` is not a dict at all.
   */
  function Field(props: Json, key: string, default: string): (r: Result<string, PyError>)
    ensures r.Ok? <==> props.JObj?
    ensures props.JObj? && key in props.fields ==> r == Ok(Str(props.fields[key]))
    ensures props.JObj? && key !in props.fields ==> r == Ok(default)
    ensures !props.JObj? ==> r == Err(AttributeError)
  {
    match props
    case JObj(m) => Ok(if key in m then Str(m[key]) else default)
    case _ => Err(AttributeError)
  }

  /** The five fields of an alert, as `format_alert` prints them. */
  datatype AlertFields = AlertFields(event: string, area: string, severity: string,
                                     description: string, instruction: string)

  /** The printed alert, one field per line, with an empty line before and after. */
  function AlertLines(a: AlertFields): seq<string>
  {
    ["", "Event: " + a.event, "Area: " + a.area, "Severity: " + a.severity,
     "Description: " + a.description, "Instructions: " + a.instruction, ""]
  }

  /**
   * The text of a printed alert: the triple-quoted f-string, whose lines are
   * `AlertLines`.
   */
  function AlertText(a: AlertFields): string
  {
    Join(AlertLines(a), "\n")
  }

  /** The fields of `properties`, each with its default for a missing key. */
  function ReadAlertFields(props: Json): (r: Result<AlertFields, PyError>)
  {
    match Field(props, "event", "Unknown")
    case Err(e) => Err(e)
    case Ok(event) =>
      match Field(props, "areaDesc", "Unknown")
      case Err(e) => Err(e)
      case Ok(area) =>
        match Field(props, "severity", "Unknown")
        case Err(e) => Err(e)
        case Ok(severity) =>
          match Field(props, "description", "No description available")
          case Err(e) => Err(e)
          case Ok(description) =>
            match Field(props, "instruction", "No specific instructions provided")
            case Err(e) => Err(e)
            case Ok(instruction) => Ok(AlertFields(event, area, severity, description, instruction))
  }

  /**
   * `format_alert`: the alert under `feature["properties"]`, printed. A present
   * field is printed verbatim, a missing one as its default; it fails only when
   * the feature has no `properties` dict, with the error Python raises.
   */
  function FormatAlert(feature: Json): (r: Result<string, PyError>)
    ensures r.Ok? <==> feature.JObj? && "properties" in feature.fields && feature.fields["properties"].JObj?
    ensures !feature.JObj? ==> r == Err(TypeError)
    ensures feature.JObj? && "properties" !in feature.fields ==> r == Err(KeyError("properties"))
    ensures feature.JObj? && "properties" in feature.fields && !feature.fields["properties"].JObj? ==>
              r == Err(AttributeError)
    ensures r.Ok? ==> var m := feature.fields["properties"].fields;
              r.value == AlertText(AlertFields(
                if "event" in m then Str(m["event"]) else "Unknown",
                if "areaDesc" in m then Str(m["areaDesc"]) else "Unknown",
                if "severity" in m then Str(m["severity"]) else "Unknown",
                if "description" in m then Str(m["description"]) else "No description available",
                if "instruction" in m then Str(m["instruction"]) else "No specific instructions provided"))
  {
    match Index(feature, "properties")
    case Err(e) => Err(e)
    case Ok(props) =>
      match ReadAlertFields(props)
      case Err(e) => Err(e)
      case Ok(a) => Ok(AlertText(a))
  }

  /** Single-line fields can be read back from the printed alert, line by line. */
  lemma AlertTextRoundTrip(a: AlertFields)
    requires NoNewline(a.event) && NoNewline(a.area) && NoNewline(a.severity)
    requires NoNewline(a.description) && NoNewline(a.instruction)
    ensures SplitLines(AlertText(a)) == AlertLines(a)
  {
    var ls := AlertLines(a);
    forall i | 0 <= i < |ls| ensures NoNewline(ls[i]) {
    }
    SplitLinesJoin(ls);
  }

  // ---------------------------------------------------------------------------
  // Applying a fallible step to every element, as a list comprehension does

  /** Index of the first element on which `f` fails, or the length if none. */
  function FirstError<A, B>(f: A -> Result<B, PyError>, xs: seq<A>): (k: nat)
    ensures k <= |xs|
    ensures forall i :: 0 <= i < k ==> f(xs[i]).Ok?
    ensures k < |xs| ==> f(xs[k]).Err?
  {
    if xs == [] then 0
    else if f(xs[0]).Err? then 0
    else 1 + FirstError(f, xs[1..])
  }

  /** `[f(x) for x in xs]`: the results in order, or the first exception raised. */
  function MapAll<A, B>(f: A -> Result<B, PyError>, xs: seq<A>): Result<seq<B>, PyError>
    decreases |xs|
  {
    if xs == [] then Ok([])
    else
      match MapAll(f, xs[..|xs| - 1])
      case Err(e) => Err(e)
      case Ok(ys) =>
        match f(xs[|xs| - 1])
        case Err(e) => Err(e)
        case Ok(y) => Ok(ys + [y])
  }

  /**
   * The comprehension succeeds exactly when every element succeeds, yielding one
   * result per element in order; otherwise it raises what the first failing
   * element raised.
   */
  lemma {:induction false} MapAllSpec<A, B>(f: A -> Result<B, PyError>, xs: seq<A>)
    ensures var r := MapAll(f, xs);
      && (r.Ok? <==> FirstError(f, xs) == |xs|)
      && (r.Err? ==> r.error == f(xs[FirstError(f, xs)]).error)
      && (r.Ok? ==> |r.value| == |xs| && forall i :: 0 <= i < |xs| ==> f(xs[i]) == Ok(r.value[i]))
    decreases |xs|
  {
    if xs != [] {
      var init := xs[..|xs| - 1];
      MapAllSpec(f, init);
      assert forall i :: 0 <= i < |init| ==> init[i] == xs[i];
      var k := FirstError(f, xs);
      var ki := FirstError(f, init);
      if ki < |init| {
        assert k == ki;
      } else if f(xs[|xs| - 1]).Err? {
        assert k == |init|;
      } else {
        assert k == |xs|;
      }
    }
  }
  /** A list comprehension over `xs` whose strings are joined by `"\n---\n"`. */
  function JoinAll<A>(f: A -> Result<string, PyError>, xs: seq<A>): Result<string, PyError>
  {
    match MapAll(f, xs)
    case Err(e) => Err(e)
    case Ok(parts) => Ok(Join(parts, Separator))
  }

  /**
   * The joined comprehension succeeds exactly when every element does, and
   * then joins one string per element, in order; otherwise it raises what the
   * first failing element raised.
   */
  lemma JoinAllSpec<A>(f: A -> Result<string, PyError>, xs: seq<A>)
    ensures var r := JoinAll(f, xs);
      && (r.Ok? <==> forall i :: 0 <= i < |xs| ==> f(xs[i]).Ok?)
      && (r.Err? ==> r.error == f(xs[FirstError(f, xs)]).error)
      && (r.Ok? ==> exists parts: seq<string> ::
            && |parts| == |xs|
            && (forall i :: 0 <= i < |xs| ==> f(xs[i]) == Ok(parts[i]))
            && r.value == Join(parts, Separator))
  {
    MapAllSpec(f, xs);
    if MapAll(f, xs).Ok? {
      var parts := MapAll(f, xs).value;
      assert |parts| == |xs| && JoinAll(f, xs).value == Join(parts, Separator);
    } else {
      assert FirstError(f, xs) < |xs|;
    }
  }


  /** Extending the input by one element extends a successful result by that element's result. */
  lemma MapAllStep<A, B>(f: A -> Result<B, PyError>, xs: seq<A>, k: nat)
    requires k < |xs|
    ensures MapAll(f, xs[..k + 1]) ==
      match MapAll(f, xs[..k])
      case Err(e) => Err(e)
      case Ok(ys) => (match f(xs[k]) case Err(e) => Err(e) case Ok(y) => Ok(ys + [y]))
  {
    assert xs[..k + 1][..k] == xs[..k];
  }

  // ---------------------------------------------------------------------------
  // get_alerts

  const NoAlertsData := "Unable to fetch alerts or no alerts found."
  const NoActiveAlerts := "No active alerts for this state."
  const Separator := "\n---\n"

  /**
   * What `get_alerts` returns for the decoded response `data` (`None` when the
   * request failed), or the exception it raises.
   */
  function AlertsText(data: Option<Json>): (r: Result<string, PyError>)
    ensures data.None? || !Truthy(data.value) || Contains(data.value, "features") == Ok(false) ==>
              r == Ok(NoAlertsData)
    ensures (data.Some? && Truthy(data.value) && data.value.JObj? && "features" in data.value.fields
             && !Truthy(data.value.fields["features"])) ==> r == Ok(NoActiveAlerts)
    ensures (data.Some? && Truthy(data.value) && (data.value.JArr? || data.value.JStr?)
             && Contains(data.value, "features") == Ok(true)) ==> r == Err(TypeError)
    ensures (data.Some? && Truthy(data.value) && !(data.value.JObj? || data.value.JArr? || data.value.JStr?))
              ==> r == Err(TypeError)
    ensures (data.Some? && data.value.JObj? && "features" in data.value.fields
             && Truthy(data.value.fields["features"]) && !data.value.fields["features"].JArr?)
              ==> r == Err(TypeError)
  {
    if data.None? || !Truthy(data.value) then Ok(NoAlertsData)
    else
      match Contains(data.value, "features")
      case Err(e) => Err(e)
      case Ok(false) => Ok(NoAlertsData)
      case Ok(true) =>
        match Index(data.value, "features")
        case Err(e) => Err(e)
        case Ok(features) =>
          if !Truthy(features) then Ok(NoActiveAlerts)
          else if features.JArr? then JoinAll(FormatAlert, features.items)
          else Err(TypeError)
  }

  /** `get_alerts(state)`: one request to the state's alerts URL, then `AlertsText`. */
  function GetAlerts(state: string, fetch: Fetcher): (r: Result<string, PyError>)
    ensures fetch(AlertsUrl(state)).None? ==> r == Ok(NoAlertsData)
    ensures var d := fetch(AlertsUrl(state));
      (d.Some? && d.value.JObj? && "features" in d.value.fields && !Truthy(d.value.fields["features"]))
        ==> r == Ok(NoActiveAlerts)
    ensures var d := fetch(AlertsUrl(state));
      (d.Some? && d.value.JObj? && "features" in d.value.fields && d.value.fields["features"].JArr?
       && d.value.fields["features"].items != [])
        ==> r == JoinAll(FormatAlert, d.value.fields["features"].items)
  {
    AlertsText(fetch(AlertsUrl(state)))
  }

  /** A response with a non-empty `features` list is printed through the comprehension. */
  lemma AlertsTextOfFeatures(data: Json, features: seq<Json>)
    requires data.JObj? && "features" in data.fields && data.fields["features"] == JArr(features)
    requires features != []
    ensures AlertsText(Some(data)) == JoinAll(FormatAlert, features)
  {
    assert Truthy(data) && Contains(data, "features") == Ok(true);
  }

  /**
   * When the response holds a non-empty `features` list, `get_alerts` prints
   * one alert per feature, in order, with a separator between each neighbouring
   * pair, or raises what the first malformed feature raises.
   */
  lemma AlertsTextFeatures(data: Json, features: seq<Json>)
    requires data.JObj? && "features" in data.fields && data.fields["features"] == JArr(features)
    requires features != []
    ensures var r := AlertsText(Some(data));
      && (r.Ok? <==> forall i :: 0 <= i < |features| ==> FormatAlert(features[i]).Ok?)
      && (r.Err? ==> r.error == FormatAlert(features[FirstError(FormatAlert, features)]).error)
      && (r.Ok? ==> exists alerts: seq<string> ::
            && |alerts| == |features|
            && (forall i :: 0 <= i < |features| ==> FormatAlert(features[i]) == Ok(alerts[i]))
            && r.value == Join(alerts, Separator))
  {
    AlertsTextOfFeatures(data, features);
    JoinAllSpec(FormatAlert, features);
  }


  // ---------------------------------------------------------------------------
  // get_forecast

  const NoLocationData := "Unable to fetch forecast data for this location."
  const NoForecastData := "Unable to fetch detailed forecast."
  /** How many forecast periods are printed at most. */
  const MaxPeriods := 5
  /** The keys a period is read with, in the order the f-string evaluates them. */
  const PeriodKeys := ["name", "temperature", "temperatureUnit", "windSpeed", "windDirection", "detailedForecast"]

  /** The six printed fields of a forecast period. */
  datatype PeriodFields = PeriodFields(name: string, temperature: string, unit: string,
                                       windSpeed: string, windDirection: string, forecast: string)

  /** The printed period, line by line, with an empty line before and after. */
  function PeriodLines(p: PeriodFields): seq<string>
  {
    ["", p.name + ":", "Temperature: " + p.temperature + "\U{B0}" + p.unit,
     "Wind: " + p.windSpeed + " " + p.windDirection, "Forecast: " + p.forecast, ""]
  }

  /** The text of a printed period: the triple-quoted f-string, whose lines are `PeriodLines`. */
  function PeriodFieldsText(p: PeriodFields): string
  {
    Join(PeriodLines(p), "\n")
  }

  /** `period[key]` for each key, in order: the values, or the first exception. */
  function PeriodValues(period: Json): Result<seq<Json>, PyError>
  {
    MapAll((key: string) => Index(period, key), PeriodKeys)
  }

  /** The f-string printing one period: its six values, or what indexing the period raises. */
  function PeriodText(period: Json): (r: Result<string, PyError>)
  {
    MapAllSpec((key: string) => Index(period, key), PeriodKeys);
    match PeriodValues(period)
    case Err(e) => Err(e)
    case Ok(v) =>
      Ok(PeriodFieldsText(PeriodFields(Str(v[0]), Str(v[1]), Str(v[2]), Str(v[3]), Str(v[4]), Str(v[5]))))
  }

  /** A dict holding all six keys a period is read with. */
  predicate IsPeriod(period: Json)
  {
    && period.JObj?
    && "name" in period.fields && "temperature" in period.fields && "temperatureUnit" in period.fields
    && "windSpeed" in period.fields && "windDirection" in period.fields && "detailedForecast" in period.fields
  }

  /**
   * Printing a period fails exactly when it is not a dict holding all six keys:
   * with a `TypeError` when it is not a dict, and otherwise with a `KeyError`
   * for the first key, in evaluation order, that it lacks. Otherwise each value
   * is printed in its place.
   */
  lemma PeriodTextSpec(period: Json)
    ensures var r := PeriodText(period);
      && (r.Ok? <==> IsPeriod(period))
      && (!period.JObj? ==> r == Err(TypeError))
      && (period.JObj? && r.Err? ==>
            exists i :: 0 <= i < |PeriodKeys| && r.error == KeyError(PeriodKeys[i])
                        && PeriodKeys[i] !in period.fields
                        && forall j :: 0 <= j < i ==> PeriodKeys[j] in period.fields)
      && (r.Ok? ==> var m := period.fields;
            r.value == PeriodFieldsText(PeriodFields(
              Str(m["name"]), Str(m["temperature"]), Str(m["temperatureUnit"]),
              Str(m["windSpeed"]), Str(m["windDirection"]), Str(m["detailedForecast"]))))
  {
    var f := (key: string) => Index(period, key);
    MapAllSpec(f, PeriodKeys);
    var k := FirstError(f, PeriodKeys);
    assert IsPeriod(period) <==> period.JObj? && forall i :: 0 <= i < |PeriodKeys| ==> PeriodKeys[i] in period.fields;
    if k < |PeriodKeys| {
      assert f(PeriodKeys[k]).Err?;
      if !period.JObj? {
        assert PeriodText(period) == Err(TypeError);
      } else {
        assert PeriodText(period) == Err(KeyError(PeriodKeys[k]));
      }
    }
  }

  /** Single-line fields can be read back from the printed period, line by line. */
  lemma PeriodTextRoundTrip(p: PeriodFields)
    requires NoNewline(p.name) && NoNewline(p.temperature) && NoNewline(p.unit)
    requires NoNewline(p.windSpeed) && NoNewline(p.windDirection) && NoNewline(p.forecast)
    ensures SplitLines(PeriodFieldsText(p)) == PeriodLines(p)
  {
    var ls := PeriodLines(p);
    forall i | 0 <= i < |ls| ensures NoNewline(ls[i]) {
    }
    SplitLinesJoin(ls);
  }

  function Min(a: int, b: int): int
  {
    if a <= b then a else b
  }

  /**
   * The periods the loop visits, `periods[:MaxPeriods]`: the first five list
   * elements, or the first five characters of a string (each a one-character
   * string), or the exception slicing any other value raises.
   */
  function Window(periods: Json): (r: Result<seq<Json>, PyError>)
    ensures periods.JArr? ==> r == Ok(periods.items[..Min(MaxPeriods, |periods.items|)])
    ensures periods.JStr? ==> r.Ok? && |r.value| == Min(MaxPeriods, |periods.s|)
                              && forall i :: 0 <= i < |r.value| ==> r.value[i] == JStr([periods.s[i]])
    ensures !(periods.JArr? || periods.JStr?) ==> r == Err(TypeError)
  {
    match periods
    case JArr(xs) => Ok(xs[..Min(MaxPeriods, |xs|)])
    case JStr(s) =>
      var t := s[..Min(MaxPeriods, |s|)];
      Ok(seq(|t|, i requires 0 <= i < |t| => JStr([t[i]])))
    case _ => Err(TypeError)
  }

  /** `forecast_data["properties"]["periods"][:MaxPeriods]`. */
  function PeriodsWindow(data: Json): Result<seq<Json>, PyError>
  {
    match Index(data, "properties")
    case Err(e) => Err(e)
    case Ok(props) =>
      match Index(props, "periods")
      case Err(e) => Err(e)
      case Ok(periods) => Window(periods)
  }

  /** The text printed for a (truthy) forecast response: its first periods, separated. */
  function ForecastText(data: Json): Result<string, PyError>
  {
    match PeriodsWindow(data)
    case Err(e) => Err(e)
    case Ok(window) => JoinAll(PeriodText, window)
  }

  /** `points_data["properties"]["forecast"]`. */
  function ForecastUrl(points: Json): Result<Json, PyError>
  {
    match Index(points, "properties")
    case Err(e) => Err(e)
    case Ok(props) => Index(props, "forecast")
  }

  /** What a tool call returns or raises, and the URLs it requested, in order. */
  datatype Fetched = Fetched(result: Result<string, PyError>, requests: seq<string>)

  /**
   * `get_forecast(latitude, longitude)`: the points request, then the request
   * to the forecast URL it names, then the printed periods. A forecast URL that
   * is not a string makes the request helper fail before anything is sent.
   */
  function Forecast(latitude: string, longitude: string, fetch: Fetcher): (r: Fetched)
    ensures |r.requests| > 0 && r.requests[0] == PointsUrl(latitude, longitude)
    ensures (fetch(PointsUrl(latitude, longitude)).None? || !Truthy(fetch(PointsUrl(latitude, longitude)).value))
            ==> r == Fetched(Ok(NoLocationData), [PointsUrl(latitude, longitude)])
    ensures |r.requests| == 2 ==>
              && fetch(PointsUrl(latitude, longitude)).Some?
              && ForecastUrl(fetch(PointsUrl(latitude, longitude)).value) == Ok(JStr(r.requests[1]))
    ensures |r.requests| <= 2
  {
    var pointsUrl := PointsUrl(latitude, longitude);
    var points := fetch(pointsUrl);
    if points.None? || !Truthy(points.value) then Fetched(Ok(NoLocationData), [pointsUrl])
    else
      match ForecastUrl(points.value)
      case Err(e) => Fetched(Err(e), [pointsUrl])
      case Ok(url) =>
        var data := if url.JStr? then fetch(url.s) else None;
        var requests := if url.JStr? then [pointsUrl, url.s] else [pointsUrl];
        if data.None? || !Truthy(data.value) then Fetched(Ok(NoForecastData), requests)
        else Fetched(ForecastText(data.value), requests)
  }

  /** `get_forecast`, step by step: two requests, then a loop over the first periods. */
  method GetForecast(latitude: string, longitude: string, fetch: Fetcher)
    returns (result: Result<string, PyError>, requests: seq<string>)
    ensures Fetched(result, requests) == Forecast(latitude, longitude, fetch)
  {
    var pointsUrl := PointsUrl(latitude, longitude);
    requests := [pointsUrl];
    var points := fetch(pointsUrl);
    if points.None? || !Truthy(points.value) {
      return Ok(NoLocationData), requests;
    }
    var url := ForecastUrl(points.value);
    if url.Err? {
      return Err(url.error), requests;
    }
    var data := None;
    if url.value.JStr? {
      requests := requests + [url.value.s];
      data := fetch(url.value.s);
    }
    if data.None? || !Truthy(data.value) {
      return Ok(NoForecastData), requests;
    }
    var window := PeriodsWindow(data.value);
    if window.Err? {
      return Err(window.error), requests;
    }
    var periods := window.value;
    var forecasts: seq<string> := [];
    for k := 0 to |periods|
      invariant MapAll(PeriodText, periods[..k]) == Ok(forecasts)
    {
      MapAllStep(PeriodText, periods, k);
      var forecast := PeriodText(periods[k]);
      if forecast.Err? {
        MapAllErrorPersists(PeriodText, periods, k + 1);
        return Err(forecast.error), requests;
      }
      forecasts := forecasts + [forecast.value];
    }
    assert periods[..|periods|] == periods;
    result := Ok(Join(forecasts, Separator));
  }

  /** Once a prefix of the input fails, the whole comprehension fails the same way. */
  lemma {:induction false} MapAllErrorPersists<A, B>(f: A -> Result<B, PyError>, xs: seq<A>, k: nat)
    requires k <= |xs| && MapAll(f, xs[..k]).Err?
    ensures MapAll(f, xs) == MapAll(f, xs[..k])
    decreases |xs| - k
  {
    if k < |xs| {
      MapAllStep(f, xs, k);
      MapAllErrorPersists(f, xs, k + 1);
    } else {
      assert xs[..k] == xs;
    }
  }

  /** A forecast response whose `properties.periods` is `periods`. */
  predicate HasPeriods(data: Json, periods: Json)
  {
    && data.JObj? && "properties" in data.fields
    && data.fields["properties"].JObj? && "periods" in data.fields["properties"].fields
    && data.fields["properties"].fields["periods"] == periods
  }

  /** With a list of periods, the loop runs over its first `min(5, n)` elements. */
  lemma ForecastTextOfWindow(data: Json, periods: seq<Json>)
    requires HasPeriods(data, JArr(periods))
    ensures ForecastText(data) == JoinAll(PeriodText, periods[..Min(MaxPeriods, |periods|)])
  {
    assert PeriodsWindow(data) == Ok(periods[..Min(MaxPeriods, |periods|)]);
  }

  /**
   * With a list of periods, the forecast prints the first `min(5, n)` periods
   * in order, with a separator between each neighbouring pair, or raises what
   * the first malformed one raises; later periods are never looked at.
   */
  lemma ForecastTextPeriods(data: Json, periods: seq<Json>)
    requires HasPeriods(data, JArr(periods))
    ensures var r := ForecastText(data);
      var shown := periods[..Min(MaxPeriods, |periods|)];
      && (r.Ok? <==> forall i :: 0 <= i < |shown| ==> PeriodText(shown[i]).Ok?)
      && (r.Err? ==> r.error == PeriodText(shown[FirstError(PeriodText, shown)]).error)
      && (r.Ok? ==> exists forecasts: seq<string> ::
            && |forecasts| == |shown|
            && (forall i :: 0 <= i < |shown| ==> PeriodText(shown[i]) == Ok(forecasts[i]))
            && r.value == Join(forecasts, Separator))
  {
    var shown := periods[..Min(MaxPeriods, |periods|)];
    ForecastTextOfWindow(data, periods);
    JoinAllSpec(PeriodText, shown);
  }


  /** Only the first five periods matter: dropping the rest changes nothing. */
  lemma ForecastTextFirstFive(data: Json, data': Json, periods: seq<Json>)
    requires HasPeriods(data, JArr(periods))
    requires HasPeriods(data', JArr(periods[..Min(MaxPeriods, |periods|)]))
    ensures ForecastText(data) == ForecastText(data')
  {
    var shown := periods[..Min(MaxPeriods, |periods|)];
    assert shown[..Min(MaxPeriods, |shown|)] == shown;
  }

  /**
   * When the forecast URL the points response names cannot be fetched, or
   * returns nothing truthy, the tool says so after exactly those two requests.
   */
  lemma ForecastUnavailable(latitude: string, longitude: string, fetch: Fetcher, url: string)
    requires fetch(PointsUrl(latitude, longitude)).Some?
    requires Truthy(fetch(PointsUrl(latitude, longitude)).value)
    requires ForecastUrl(fetch(PointsUrl(latitude, longitude)).value) == Ok(JStr(url))
    requires fetch(url).None? || !Truthy(fetch(url).value)
    ensures Forecast(latitude, longitude, fetch) == Fetched(Ok(NoForecastData), [PointsUrl(latitude, longitude), url])
  {
  }

  /**
   * When both responses are usable, the tool's text is the forecast text of
   * the second response, after exactly the two requests.
   */
  lemma ForecastFetched(latitude: string, longitude: string, fetch: Fetcher, url: string)
    requires fetch(PointsUrl(latitude, longitude)).Some?
    requires Truthy(fetch(PointsUrl(latitude, longitude)).value)
    requires ForecastUrl(fetch(PointsUrl(latitude, longitude)).value) == Ok(JStr(url))
    requires fetch(url).Some? && Truthy(fetch(url).value)
    ensures Forecast(latitude, longitude, fetch) ==
              Fetched(ForecastText(fetch(url).value), [PointsUrl(latitude, longitude), url])
  {
  }
}
