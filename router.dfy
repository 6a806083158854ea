/**
 * The keyword router of the weather pipeline: a query is a weather query when its
 * lower-cased text contains one of six keywords, and a weather query is sent to one
 * fixed tool call by the first place-name list, in a fixed priority order, that
 * matches. The same rules appear in `generate_response` and in both
 * `process_weather_query` tools.
 */
module QueryRouter {
  import opened Wrappers
  import opened Text

  const WeatherKeywords: seq<string> := ["weather", "forecast", "temperature", "날씨", "예보", "기온"]
  const LosAngelesNames: seq<string> := ["los angeles", "la", "캘리포니아", "california"]
  const NewYorkNames: seq<string> := ["new york", "뉴욕", "ny"]
  const TexasNames: seq<string> := ["texas", "텍사스", "tx"]
  const CaliforniaNames: seq<string> := ["california", "캘리포니아", "ca"]

  /** The two places a forecast can be asked for. */
  datatype Place = LosAngeles | NewYork

  /** The latitude argument, as the URL f-string renders the float. */
  function Latitude(p: Place): string {
    match p
    case LosAngeles => "34.0522"
    case NewYork => "40.7128"
  }

  /** The longitude argument, as the URL f-string renders the float (`-74.0060` renders as `-74.006`). */
  function Longitude(p: Place): string {
    match p
    case LosAngeles => "-118.2437"
    case NewYork => "-74.006"
  }

  /** The tool call a weather query is routed to. */
  datatype Selection = ForecastFor(place: Place) | AlertsFor(state: string)

  /** A lower-cased query that mentions one of the weather keywords. */
  predicate IsWeatherQuery(lowered: string) {
    ContainsAny(lowered, WeatherKeywords)
  }

  /** The place-name chain: Los Angeles names first, then New York, Texas, California;
      no match at all falls back to the Los Angeles forecast. */
  function SelectTool(lowered: string): (r: Selection)
    ensures r == ForecastFor(LosAngeles) <==>
      ContainsAny(lowered, LosAngelesNames)
      || (!ContainsAny(lowered, NewYorkNames) && !ContainsAny(lowered, TexasNames)
          && !ContainsAny(lowered, CaliforniaNames))
    ensures r == ForecastFor(NewYork) <==>
      !ContainsAny(lowered, LosAngelesNames) && ContainsAny(lowered, NewYorkNames)
    ensures r == AlertsFor("TX") <==>
      !ContainsAny(lowered, LosAngelesNames) && !ContainsAny(lowered, NewYorkNames)
      && ContainsAny(lowered, TexasNames)
    ensures r == AlertsFor("CA") <==>
      !ContainsAny(lowered, LosAngelesNames) && !ContainsAny(lowered, NewYorkNames)
      && !ContainsAny(lowered, TexasNames) && ContainsAny(lowered, CaliforniaNames)
    ensures r in {ForecastFor(LosAngeles), ForecastFor(NewYork), AlertsFor("TX"), AlertsFor("CA")}
  {
    if ContainsAny(lowered, LosAngelesNames) then ForecastFor(LosAngeles)
    else if ContainsAny(lowered, NewYorkNames) then ForecastFor(NewYork)
    else if ContainsAny(lowered, TexasNames) then AlertsFor("TX")
    else if ContainsAny(lowered, CaliforniaNames) then AlertsFor("CA")
    else ForecastFor(LosAngeles)
  }

  /** What a query is routed to: no tool for a non-weather query, else the selected call. */
  function Route(query: string): (r: Option<Selection>)
    ensures r.None? <==> !IsWeatherQuery(Lower(query))
    ensures r.Some? ==> r.value == SelectTool(Lower(query))
  {
    var lowered := Lower(query);
    if IsWeatherQuery(lowered) then Some(SelectTool(lowered)) else None
  }

  /** Routing ignores ASCII letter case. */
  lemma RouteIgnoresCase(a: string, b: string)
    requires Lower(a) == Lower(b)
    ensures Route(a) == Route(b)
  {
  }

  /** Routing an already lower-cased query gives the same call. */
  lemma RouteOfLowered(query: string)
    ensures Route(Lower(query)) == Route(query)
  {
    LowerIdempotent(query);
  }

  /** "california" and "캘리포니아" are also Los Angeles names, which are tried first:
      a query naming California gets the Los Angeles forecast, never the California alerts. */
  lemma CaliforniaNamesRouteToLosAngeles(lowered: string)
    requires Contains(lowered, "california") || Contains(lowered, "캘리포니아")
    ensures SelectTool(lowered) == ForecastFor(LosAngeles)
  {
    if Contains(lowered, "california") {
      assert Contains(lowered, LosAngelesNames[3]);
    } else {
      assert Contains(lowered, LosAngelesNames[2]);
    }
  }

  /** The California alerts are reached only through the bare "ca". */
  lemma CaliforniaAlertsOnlyViaCa(lowered: string)
    requires SelectTool(lowered) == AlertsFor("CA")
    ensures Contains(lowered, "ca")
    ensures !Contains(lowered, "california") && !Contains(lowered, "캘리포니아")
  {
    var k :| 0 <= k < |CaliforniaNames| && Contains(lowered, CaliforniaNames[k]);
    assert !Contains(lowered, LosAngelesNames[2]) && !Contains(lowered, LosAngelesNames[3]);
    assert k == 2;
  }

  /** "forecast" contains "ca": a forecast request naming none of the Los Angeles,
      New York or Texas names gets the California alerts. */
  lemma ForecastKeywordSelectsCaliforniaAlerts(lowered: string)
    requires Contains(lowered, "forecast")
    requires !ContainsAny(lowered, LosAngelesNames) && !ContainsAny(lowered, NewYorkNames)
    requires !ContainsAny(lowered, TexasNames)
    ensures IsWeatherQuery(lowered)
    ensures SelectTool(lowered) == AlertsFor("CA")
  {
    assert Contains(lowered, WeatherKeywords[1]);
    assert OccursAt("forecast", "ca", 4);
    ContainsTransitive(lowered, "forecast", "ca");
    assert Contains(lowered, CaliforniaNames[2]);
  }

  /** No Los Angeles name occurs in the lowered Texas question. */
  lemma TexasQueryNamesNoLosAngeles()
    ensures !ContainsAny("what's the weather in texas?", LosAngelesNames)
  {
    var q := "what's the weather in texas?";
    forall k | 0 <= k < |LosAngelesNames| ensures !Contains(q, LosAngelesNames[k]) {
      FirstCharAbsent(q, LosAngelesNames[k]);
    }
  }

  /** No New York name occurs in the lowered Texas question. */
  lemma TexasQueryNamesNoNewYork()
    ensures !ContainsAny("what's the weather in texas?", NewYorkNames)
  {
    var q := "what's the weather in texas?";
    PairAbsent(q, NewYorkNames[0]);
    FirstCharAbsent(q, NewYorkNames[1]);
    PairAbsent(q, NewYorkNames[2]);
  }

  /** "What's the weather in Texas?" asks for the Texas alerts. */
  lemma TexasQueryExample()
    ensures Route("What's the weather in Texas?") == Some(AlertsFor("TX"))
  {
    var q := "what's the weather in texas?";
    var query := "What's the weather in Texas?";
    assert Lower(query) == q by {
      forall i | 0 <= i < |q| ensures Lower(query)[i] == q[i] {
      }
    }
    assert OccursAt(q, "weather", 11);
    assert Contains(q, WeatherKeywords[0]);
    TexasQueryNamesNoLosAngeles();
    TexasQueryNamesNoNewYork();
    assert OccursAt(q, "texas", 22);
    assert Contains(q, TexasNames[0]);
  }

  /** "텍사스 날씨" (Texas weather) asks for the Texas alerts too. */
  lemma KoreanTexasQueryExample()
    ensures Route("텍사스 날씨") == Some(AlertsFor("TX"))
  {
    var q := "텍사스 날씨";
    assert Lower(q) == q;
    assert OccursAt(q, "날씨", 4);
    assert Contains(q, WeatherKeywords[3]);
    forall k | 0 <= k < |LosAngelesNames| ensures !Contains(q, LosAngelesNames[k]) {
      FirstCharAbsent(q, LosAngelesNames[k]);
    }
    forall k | 0 <= k < |NewYorkNames| ensures !Contains(q, NewYorkNames[k]) {
      FirstCharAbsent(q, NewYorkNames[k]);
    }
    assert OccursAt(q, "텍사스", 0);
    assert Contains(q, TexasNames[1]);
  }

  /** A question with no weather keyword is answered by the model alone. */
  lemma NonWeatherQueryExample()
    ensures Route("Hi") == None
  {
    var q := "hi";
    assert Lower("Hi") == q;
    forall k | 0 <= k < |WeatherKeywords| ensures !Contains(q, WeatherKeywords[k]) {
      FirstCharAbsent(q, WeatherKeywords[k]);
    }
  }
}
