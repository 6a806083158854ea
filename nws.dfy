/**
 * The National Weather Service result shaping shared by every server file:
 * `format_alert`, the five-period forecast text, and the outcomes of the
 * points / forecast / alerts fetches. The HTTP GETs themselves are not modelled:
 * their replies are inputs.
 */
module Nws {
  import opened Wrappers
  import opened Text

  /** An alert's `properties` object; each value is the text the f-string renders for it. */
  type Props = map<string, string>

  /** One element of the alerts reply's `features`; `None` when it has no `properties` key. */
  datatype Feature = Feature(properties: Option<Props>)

  /** One element of the forecast reply's `periods`, each field as the f-string renders it. */
  datatype Period = Period(
    name: string,
    temperature: string,
    temperatureUnit: string,
    windSpeed: string,
    windDirection: string,
    detailedForecast: string)

  /** What the points lookup gave: nothing (None or an empty object), an object lacking
      `properties.forecast` (the lookup raises KeyError with message `err`), or the forecast URL. */
  datatype PointsReply = PointsMissing | PointsMalformed(err: string) | PointsFound(forecastUrl: string)

  /** What the forecast fetch gave: nothing, an object whose formatting raises KeyError
      with message `err`, or the `properties.periods` list. */
  datatype PeriodsReply = PeriodsMissing | PeriodsMalformed(err: string) | PeriodsFound(periods: seq<Period>)

  /** The alerts reply: `None` when the fetch failed, the object is empty or it has no
      `features` key; otherwise the `features` list. */
  type AlertsReply = Option<seq<Feature>>

  const Separator := "\n---\n"
  const MaxPeriods: nat := 5
  /** `str(KeyError('properties'))`, raised by `format_alert` on a feature without properties. */
  const MissingPropertiesError := "'properties'"

  const EventLabel := "Event: "
  const AreaLabel := "Area: "
  const SeverityLabel := "Severity: "
  const DescriptionLabel := "Description: "
  const InstructionsLabel := "Instructions: "

  // ---------------------------------------------------------------- format_alert

  /** `props.get(key, default)`. */
  function Get(props: Props, key: string, default: string): string {
    if key in props then props[key] else default
  }

  /** The five values an alert block shows. */
  datatype AlertView = AlertView(
    event: string, area: string, severity: string, description: string, instruction: string)

  /** The values `format_alert` prints, with its per-field defaults. */
  function AlertFields(props: Props): AlertView {
    AlertView(
      Get(props, "event", "Unknown"),
      Get(props, "areaDesc", "Unknown"),
      Get(props, "severity", "Unknown"),
      Get(props, "description", "No description available"),
      Get(props, "instruction", "No specific instructions provided"))
  }

  /** The text block `format_alert` builds from the five values. */
  function AlertBlock(v: AlertView): string {
    "\n" + EventLabel + v.event + "\n" + AreaLabel + v.area + "\n" + SeverityLabel + v.severity
    + "\n" + DescriptionLabel + v.description + "\n" + InstructionsLabel + v.instruction + "\n"
  }

  /** `format_alert(feature)` for a feature whose `properties` are `props`. */
  function FormatAlert(props: Props): string {
    AlertBlock(AlertFields(props))
  }

  /** The lines of an alert block: a blank line, the five labelled lines, a blank line. */
  function AlertLines(v: AlertView): seq<string> {
    ["", EventLabel + v.event, AreaLabel + v.area, SeverityLabel + v.severity,
     DescriptionLabel + v.description, InstructionsLabel + v.instruction, ""]
  }

  predicate NewlineFree(v: AlertView) {
    '\n' !in v.event && '\n' !in v.area && '\n' !in v.severity
    && '\n' !in v.description && '\n' !in v.instruction
  }

  /** Reads the five values back from an alert block, if the text has that shape. */
  function ParseAlert(text: string): Option<AlertView> {
    var lines := SplitOn(text, '\n');
    if |lines| == 7 && lines[0] == "" && lines[6] == ""
       && StartsWith(lines[1], EventLabel) && StartsWith(lines[2], AreaLabel)
       && StartsWith(lines[3], SeverityLabel) && StartsWith(lines[4], DescriptionLabel)
       && StartsWith(lines[5], InstructionsLabel)
    then Some(AlertView(
      lines[1][|EventLabel|..], lines[2][|AreaLabel|..], lines[3][|SeverityLabel|..],
      lines[4][|DescriptionLabel|..], lines[5][|InstructionsLabel|..]))
    else None
  }

  /** Missing keys take the defaults `Unknown`, `No description available` and
      `No specific instructions provided`. */
  lemma AlertDefaults()
    ensures AlertFields(map[]) == AlertView(
      "Unknown", "Unknown", "Unknown", "No description available", "No specific instructions provided")
  {
  }

  /** Only the five keys `format_alert` reads affect the block. */
  lemma AlertReadsOnlyItsKeys(p: Props, q: Props)
    requires forall k | k in ["event", "areaDesc", "severity", "description", "instruction"] ::
      (k in p <==> k in q) && (k in p ==> p[k] == q[k])
    ensures FormatAlert(p) == FormatAlert(q)
  {
    assert "event" in ["event", "areaDesc", "severity", "description", "instruction"];
    assert "areaDesc" in ["event", "areaDesc", "severity", "description", "instruction"];
    assert "severity" in ["event", "areaDesc", "severity", "description", "instruction"];
    assert "description" in ["event", "areaDesc", "severity", "description", "instruction"];
    assert "instruction" in ["event", "areaDesc", "severity", "description", "instruction"];
  }

  /** `Join` of a part followed by at least one more part. */
  lemma JoinCons(sep: string, p: string, rest: seq<string>)
    requires |rest| >= 1
    ensures Join(sep, [p] + rest) == p + sep + Join(sep, rest)
  {
    assert ([p] + rest)[1..] == rest;
  }

  /** Joining seven parts. */
  lemma JoinSeven(sep: string, a: string, b: string, c: string, d: string, e: string, f: string, g: string)
    ensures Join(sep, [a, b, c, d, e, f, g]) == a + sep + b + sep + c + sep + d + sep + e + sep + f + sep + g
  {
    var l := [a, b, c, d, e, f, g];
    assert Join(sep, l[6..]) == g by { assert l[6..] == [g]; }
    JoinCons(sep, f, l[6..]);
    assert l[5..] == [f] + l[6..];
    JoinCons(sep, e, l[5..]);
    assert l[4..] == [e] + l[5..];
    JoinCons(sep, d, l[4..]);
    assert l[3..] == [d] + l[4..];
    JoinCons(sep, c, l[3..]);
    assert l[2..] == [c] + l[3..];
    JoinCons(sep, b, l[2..]);
    assert l[1..] == [b] + l[2..];
    JoinCons(sep, a, l[1..]);
    assert l == [a] + l[1..];
  }

  /** An alert block is its seven lines joined with newlines. */
  lemma AlertBlockIsLines(v: AlertView)
    ensures AlertBlock(v) == Join("\n", AlertLines(v))
  {
    var nl := "\n";
    JoinSeven(nl, "", EventLabel + v.event, AreaLabel + v.area, SeverityLabel + v.severity,
      DescriptionLabel + v.description, InstructionsLabel + v.instruction, "");
    assert "" + nl == nl;
    var s1 := nl + EventLabel + v.event;
    ConcatAssoc(nl, EventLabel, v.event);
    var s2 := s1 + nl + AreaLabel + v.area;
    ConcatAssoc(s1 + nl, AreaLabel, v.area);
    var s3 := s2 + nl + SeverityLabel + v.severity;
    ConcatAssoc(s2 + nl, SeverityLabel, v.severity);
    var s4 := s3 + nl + DescriptionLabel + v.description;
    ConcatAssoc(s3 + nl, DescriptionLabel, v.description);
    var s5 := s4 + nl + InstructionsLabel + v.instruction;
    ConcatAssoc(s4 + nl, InstructionsLabel, v.instruction);
    assert s5 + nl + "" == s5 + nl;
  }

  /** No alert line holds a newline when no value does. */
  lemma AlertLinesNewlineFree(v: AlertView)
    requires NewlineFree(v)
    ensures forall k | 0 <= k < |AlertLines(v)| :: '\n' !in AlertLines(v)[k]
  {
    var l := AlertLines(v);
    assert '\n' !in EventLabel && '\n' !in AreaLabel && '\n' !in SeverityLabel;
    assert '\n' !in DescriptionLabel && '\n' !in InstructionsLabel;
    assert '\n' !in l[1] by { assert l[1] == EventLabel + v.event; }
    assert '\n' !in l[2] by { assert l[2] == AreaLabel + v.area; }
    assert '\n' !in l[3] by { assert l[3] == SeverityLabel + v.severity; }
    assert '\n' !in l[4] by { assert l[4] == DescriptionLabel + v.description; }
    assert '\n' !in l[5] by { assert l[5] == InstructionsLabel + v.instruction; }
  }

  /** An alert block determines the five values it shows: reading it back gives them,
      in the order Event, Area, Severity, Description, Instructions. */
  lemma AlertBlockRoundTrip(v: AlertView)
    requires NewlineFree(v)
    ensures ParseAlert(AlertBlock(v)) == Some(v)
  {
    var l := AlertLines(v);
    AlertBlockIsLines(v);
    AlertLinesNewlineFree(v);
    SplitOnJoin(l, '\n');
    assert SplitOn(AlertBlock(v), '\n') == l;
    assert StartsWith(l[1], EventLabel) && l[1][|EventLabel|..] == v.event;
    assert StartsWith(l[2], AreaLabel) && l[2][|AreaLabel|..] == v.area;
    assert StartsWith(l[3], SeverityLabel) && l[3][|SeverityLabel|..] == v.severity;
    assert StartsWith(l[4], DescriptionLabel) && l[4][|DescriptionLabel|..] == v.description;
    assert StartsWith(l[5], InstructionsLabel) && l[5][|InstructionsLabel|..] == v.instruction;
  }

  /** `format_alert` loses nothing: its five values (defaults filled in) read back from the block. */
  lemma AlertRoundTrip(props: Props)
    requires NewlineFree(AlertFields(props))
    ensures ParseAlert(FormatAlert(props)) == Some(AlertFields(props))
  {
    AlertBlockRoundTrip(AlertFields(props));
  }

  // ---------------------------------------------------------------- forecast periods

  /** One period of the forecast text. */
  function PeriodBlock(p: Period): string {
    "\n" + p.name + ":\nTemperature: " + p.temperature + "°" + p.temperatureUnit
    + "\nWind: " + p.windSpeed + " " + p.windDirection
    + "\nForecast: " + p.detailedForecast + "\n"
  }

  /** `periods[:5]`. */
  function Shown(periods: seq<Period>): (r: seq<Period>)
    ensures |r| == if |periods| < MaxPeriods then |periods| else MaxPeriods
    ensures r == periods[..|r|]
  {
    if |periods| < MaxPeriods then periods else periods[..MaxPeriods]
  }

  /** The blocks of the shown periods, in upstream order. */
  function ForecastBlocks(periods: seq<Period>): seq<string> {
    var shown := Shown(periods);
    seq(|shown|, i requires 0 <= i < |shown| => PeriodBlock(shown[i]))
  }

  /** The forecast text: the blocks joined by the separator line. */
  function ForecastText(periods: seq<Period>): (r: string)
    ensures r == "" <==> periods == []
    ensures periods != [] ==> StartsWith(r, PeriodBlock(periods[0])) && r[0] == '\n'
  {
    var blocks := ForecastBlocks(periods);
    if blocks == [] then ""
    else
      JoinStartsWithFirst(Separator, blocks);
      Join(Separator, blocks)
  }

  /** The loop of the forecast formatters, which appends one block per shown period. */
  method FormatForecast(periods: seq<Period>) returns (text: string)
    ensures text == ForecastText(periods)
  {
    var shown := if |periods| < MaxPeriods then periods else periods[..MaxPeriods];
    var forecasts: seq<string> := [];
    for i := 0 to |shown|
      invariant |forecasts| == i
      invariant forall j | 0 <= j < i :: forecasts[j] == PeriodBlock(shown[j])
    {
      var period := shown[i];
      var forecast := "\n" + period.name + ":\nTemperature: " + period.temperature + "°"
        + period.temperatureUnit + "\nWind: " + period.windSpeed + " " + period.windDirection
        + "\nForecast: " + period.detailedForecast + "\n";
      forecasts := forecasts + [forecast];
    }
    assert forecasts == ForecastBlocks(periods);
    text := Join(Separator, forecasts);
  }

  /** Exactly min(5, n) blocks, each the block of the period at the same position. */
  lemma ForecastBlocksInOrder(periods: seq<Period>)
    ensures |ForecastBlocks(periods)| == if |periods| < MaxPeriods then |periods| else MaxPeriods
    ensures forall i | 0 <= i < |ForecastBlocks(periods)| ::
      ForecastBlocks(periods)[i] == PeriodBlock(periods[i])
  {
  }

  /** With n >= 1 periods the text has min(5, n) blocks and min(5, n) - 1 separators. */
  lemma ForecastTextLength(periods: seq<Period>)
    requires periods != []
    ensures |ForecastText(periods)| == TotalLength(ForecastBlocks(periods))
      + ((if |periods| < MaxPeriods then |periods| else MaxPeriods) - 1) * |Separator|
  {
    JoinLength(Separator, ForecastBlocks(periods));
  }

  /** Periods after the fifth never show up in the text. */
  lemma ForecastIgnoresLaterPeriods(periods: seq<Period>, later: seq<Period>)
    requires |periods| >= MaxPeriods
    ensures ForecastText(periods + later) == ForecastText(periods)
  {
    assert Shown(periods + later) == Shown(periods);
  }

  // ---------------------------------------------------------------- requests and outcomes

  const NwsApiBase := "https://api.weather.gov"

  /** The NWS service as seen by `make_nws_request`: the reply to a GET of each URL. */
  datatype NwsService = NwsService(
    points: string -> PointsReply,
    forecast: string -> PeriodsReply,
    alerts: string -> AlertsReply)

  /** The points URL for coordinates rendered as `latitude` and `longitude`. */
  function PointsUrl(latitude: string, longitude: string): string {
    NwsApiBase + "/points/" + latitude + "," + longitude
  }

  /** The active-alerts URL of a state. */
  function AlertsUrl(state: string): string {
    NwsApiBase + "/alerts/active/area/" + state
  }

  /** How a forecast request ends. */
  datatype ForecastOutcome = NoPoints | NoForecast | ForecastRaised(err: string) | ForecastReady(text: string)

  /** The two-step forecast: points lookup, then the forecast by the URL it gives. */
  function ForecastOutcomeOf(points: PointsReply, periods: PeriodsReply): (r: ForecastOutcome)
    ensures r.NoPoints? <==> points.PointsMissing?
    ensures r.NoForecast? <==> points.PointsFound? && periods.PeriodsMissing?
    ensures r.ForecastReady? <==> points.PointsFound? && periods.PeriodsFound?
    ensures r.ForecastReady? ==> r.text == ForecastText(periods.periods)
  {
    match points
    case PointsMissing => NoPoints
    case PointsMalformed(err) => ForecastRaised(err)
    case PointsFound(_) =>
      match periods
      case PeriodsMissing => NoForecast
      case PeriodsMalformed(err) => ForecastRaised(err)
      case PeriodsFound(ps) => ForecastReady(ForecastText(ps))
  }

  /** The forecast for the points URL `pointsUrl`, against the service `nws`. */
  function ForecastAt(nws: NwsService, pointsUrl: string): ForecastOutcome {
    var points := nws.points(pointsUrl);
    ForecastOutcomeOf(points, if points.PointsFound? then nws.forecast(points.forecastUrl) else PeriodsMissing)
  }

  /** The GETs the forecast steps make: the points URL, then the forecast URL when one was found. */
  function ForecastRequests(nws: NwsService, pointsUrl: string): (r: seq<string>)
    ensures 1 <= |r| <= 2 && r[0] == pointsUrl
    ensures |r| == 2 <==> nws.points(pointsUrl).PointsFound?
    ensures |r| == 2 ==> r[1] == nws.points(pointsUrl).forecastUrl
  {
    var points := nws.points(pointsUrl);
    if points.PointsFound? then [pointsUrl, points.forecastUrl] else [pointsUrl]
  }

  /** The forecast steps as the tool bodies run them, with the GETs they make. */
  method FetchForecast(nws: NwsService, pointsUrl: string) returns (outcome: ForecastOutcome, gets: seq<string>)
    ensures outcome == ForecastAt(nws, pointsUrl)
    ensures gets == ForecastRequests(nws, pointsUrl)
  {
    gets := [pointsUrl];
    var points := nws.points(pointsUrl);
    if points.PointsMissing? {
      return NoPoints, gets;
    }
    if points.PointsMalformed? {
      return ForecastRaised(points.err), gets;
    }
    gets := gets + [points.forecastUrl];
    var periods := nws.forecast(points.forecastUrl);
    match periods
    case PeriodsMissing =>
      outcome := NoForecast;
    case PeriodsMalformed(err) =>
      outcome := ForecastRaised(err);
    case PeriodsFound(ps) =>
      var text := FormatForecast(ps);
      outcome := ForecastReady(text);
  }

  /** How an alerts request ends. */
  datatype AlertsOutcome = AlertsUnavailable | NoActiveAlerts | AlertsRaised(err: string) | AlertBlocks(text: string)

  predicate AllHaveProperties(features: seq<Feature>) {
    forall i | 0 <= i < |features| :: features[i].properties.Some?
  }

  /** `[format_alert(feature) for feature in features]`. */
  function AlertTexts(features: seq<Feature>): seq<string>
    requires AllHaveProperties(features)
  {
    seq(|features|, i requires 0 <= i < |features| => FormatAlert(features[i].properties.value))
  }

  /** The alerts branch: unavailable, no active alerts, or the joined blocks. */
  function AlertsOutcomeOf(data: AlertsReply): (r: AlertsOutcome)
    ensures r.AlertsUnavailable? <==> data.None?
    ensures r.NoActiveAlerts? <==> data == Some([])
    ensures r.AlertsRaised? <==> data.Some? && data.value != [] && !AllHaveProperties(data.value)
    ensures r.AlertsRaised? ==> r.err == MissingPropertiesError
    ensures r.AlertBlocks? ==>
      data.Some? && AllHaveProperties(data.value) && r.text == Join(Separator, AlertTexts(data.value))
    ensures r.AlertBlocks? ==> |r.text| > 0 && r.text[0] == '\n'
  {
    match data
    case None => AlertsUnavailable
    case Some(features) =>
      if features == [] then NoActiveAlerts
      else if !AllHaveProperties(features) then AlertsRaised(MissingPropertiesError)
      else
        var blocks := AlertTexts(features);
        JoinStartsWithFirst(Separator, blocks);
        AlertBlocks(Join(Separator, blocks))
  }

  /** The alerts of `state`, against the service `nws`. */
  function AlertsAt(nws: NwsService, state: string): AlertsOutcome {
    AlertsOutcomeOf(nws.alerts(AlertsUrl(state)))
  }

  /** With n alerts the text holds n blocks and n - 1 separators. */
  lemma AlertsTextLength(features: seq<Feature>)
    requires features != [] && AllHaveProperties(features)
    ensures AlertsOutcomeOf(Some(features)).AlertBlocks?
    ensures |AlertsOutcomeOf(Some(features)).text|
         == TotalLength(AlertTexts(features)) + (|features| - 1) * |Separator|
  {
    JoinLength(Separator, AlertTexts(features));
  }
}
