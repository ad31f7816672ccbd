/**
 The message composer: the daily overview, the hourly block, the
 recommendations and the footer, assembled from the aggregator's variables
 into the Telegram message.
 */
module Composer {
  import opened Basics
  import opened Conditions
  import opened Aggregation

  const LocationNameFallback: string := "Selected Location"
  const DataSourceName: string := "Open-Meteo"

  /** `inputData.timezone_abbreviation || LOCATION_NAME_FALLBACK`; "" stands for a missing field. */
  function LocationName(timezoneAbbreviation: string): (name: string)
    ensures name != ""
    ensures timezoneAbbreviation != "" ==> name == timezoneAbbreviation
    ensures timezoneAbbreviation == "" ==> name == LocationNameFallback
  {
    if timezoneAbbreviation != "" then timezoneAbbreviation else LocationNameFallback
  }

  /** avgWindSpeedKmh: zero without matches, otherwise the mean matched wind speed. */
  function AverageWind(d: Daily): (avg: real)
    ensures d.count == 0 ==> avg == 0.0
    ensures d.count > 0 ==> avg * (d.count as real) == d.totalWind
  {
    if d.count > 0 then d.totalWind / d.count as real else 0.0
  }

  /** How a template literal prints an integer-valued number or a sentinel. */
  function ExtText(x: ExtInt): string {
    match x
    case NegInf => "-Infinity"
    case Fin(v) => IntToString(v)
    case PosInf => "Infinity"
  }

  /** The lines the daily overview can hold. */
  datatype OverviewLine = TemperatureRange(low: ExtInt, high: ExtInt)
                        | NoTemperatureData
                        | ExpectedRain(mm: real)
                        | WindSummary(avg: real)

  /** The temperature line: `high > -Infinity && low < Infinity && count > 0`, else `count === 0`. */
  function TemperatureLines(d: Daily): seq<OverviewLine> {
    if d.high != NegInf && d.low != PosInf && d.count > 0 then [TemperatureRange(d.low, d.high)]
    else if d.count == 0 then [NoTemperatureData]
    else []
  }

  /** The daily overview's lines, in the order the script tests them. */
  function Overview(d: Daily, avg: real): seq<OverviewLine>
  {
    TemperatureLines(d)
    + When(d.totalRain > 0.0, ExpectedRain(d.totalRain))
    + When(avg > 2.0 && d.count > 0, WindSummary(avg))
  }

  /** A mean exceeds a threshold exactly when the total exceeds the threshold times the count. */
  lemma MeanAbove(avg: real, c: real, total: real, k: real)
    requires c > 0.0 && avg * c == total
    ensures avg > k <==> total > k * c
  {
    if avg > k {
      assert (avg - k) * c > 0.0;
    } else {
      assert (k - avg) * c >= 0.0;
    }
  }

  /**
   The overview opens with exactly one temperature line, the range when
   something matched and the "no temperature data" line otherwise; the rain
   line appears iff rain is expected, the wind line iff the mean exceeds 2 km/h
   over at least one match.
   */
  lemma OverviewLines(d: Daily)
    requires Consistent(d)
    ensures var lines := Overview(d, AverageWind(d));
            |lines| >= 1
            && (lines[0] == TemperatureRange(d.low, d.high) <==> d.count > 0)
            && (lines[0] == NoTemperatureData <==> d.count == 0)
            && (forall k :: 1 <= k < |lines| ==> !lines[k].TemperatureRange? && !lines[k].NoTemperatureData?)
    ensures var lines := Overview(d, AverageWind(d));
            ExpectedRain(d.totalRain) in lines <==> d.totalRain > 0.0
    ensures var lines := Overview(d, AverageWind(d));
            WindSummary(AverageWind(d)) in lines <==> d.count > 0 && d.totalWind > 2.0 * (d.count as real)
  {
    var avg := AverageWind(d);
    if d.count > 0 {
      var c := d.count as real;
      MeanAbove(avg, c, d.totalWind, 2.0);
    }
  }

  function OverviewLineText(l: OverviewLine, toFixed: (real, nat) -> string): string {
    match l
    case TemperatureRange(low, high) => "🌡️ Range: " + ExtText(low) + "°C - " + ExtText(high) + "°C\n"
    case NoTemperatureData => "🌡️ No temperature data for selected hours today.\n"
    case ExpectedRain(mm) => "🌧️ Expected rain: " + toFixed(mm, 1) + "mm\n"
    case WindSummary(avg) => WindInfo(avg, toFixed) + "\n"
  }

  /** The overview's lines one after another. */
  function OverviewText(lines: seq<OverviewLine>, toFixed: (real, nat) -> string): string {
    if lines == [] then "" else OverviewText(lines[..|lines| - 1], toFixed) + OverviewLineText(lines[|lines| - 1], toFixed)
  }

  lemma OverviewTextWhen(lines: seq<OverviewLine>, c: bool, l: OverviewLine, toFixed: (real, nat) -> string)
    ensures OverviewText(lines + When(c, l), toFixed)
         == OverviewText(lines, toFixed) + (if c then OverviewLineText(l, toFixed) else "")
  {
    if c {
      OverviewTextSnoc(lines, l, toFixed);
    } else {
      assert lines + When(c, l) == lines;
      AppendEmpty(OverviewText(lines, toFixed));
    }
  }

  lemma OverviewTextSnoc(lines: seq<OverviewLine>, l: OverviewLine, toFixed: (real, nat) -> string)
    ensures OverviewText(lines + [l], toFixed) == OverviewText(lines, toFixed) + OverviewLineText(l, toFixed)
  {
    assert (lines + [l])[..|lines|] == lines;
  }

  lemma TemperatureText(d: Daily, toFixed: (real, nat) -> string)
    ensures OverviewText(TemperatureLines(d), toFixed)
         == if d.high != NegInf && d.low != PosInf && d.count > 0 then OverviewLineText(TemperatureRange(d.low, d.high), toFixed)
            else if d.count == 0 then OverviewLineText(NoTemperatureData, toFixed)
            else ""
  {
    var lines := TemperatureLines(d);
    if lines != [] {
      OverviewTextSnoc([], lines[0], toFixed);
      assert [] + [lines[0]] == lines;
    }
  }

  /** The recommendations the script can give. */
  datatype Advice = Umbrella | DressWarmly(low: ExtInt) | StayHydrated(high: ExtInt) | SecureLooseItems | SunProtection

  /** The recommendations, each behind its strict threshold, in the script's order. */
  function Recommendations(d: Daily, avg: real): seq<Advice>
  {
    When(d.totalRain > 0.5, Umbrella)
    + When(d.low.Below(10) && d.count > 0, DressWarmly(d.low))
    + When(d.high.Above(25) && d.count > 0, StayHydrated(d.high))
    + When(avg > 30.0 && d.count > 0, SecureLooseItems)
    + When(Contains(d.hourlySummary, SunPhrase), SunProtection)
  }

  /**
   Each recommendation fires exactly when its strict threshold is passed:
   rain above 0.5 mm, a low under 10, a high over 25, a mean wind over
   30 km/h (all three over at least one match), and a UV advisory in some hour.
   */
  lemma RecommendationTriggers(d: Daily)
    requires Consistent(d)
    ensures var recs := Recommendations(d, AverageWind(d));
            Umbrella in recs <==> d.totalRain > 0.5
    ensures var recs := Recommendations(d, AverageWind(d));
            DressWarmly(d.low) in recs <==> d.count > 0 && d.low.v < 10
    ensures var recs := Recommendations(d, AverageWind(d));
            StayHydrated(d.high) in recs <==> d.count > 0 && d.high.v > 25
    ensures var recs := Recommendations(d, AverageWind(d));
            SecureLooseItems in recs <==> d.count > 0 && d.totalWind > 30.0 * (d.count as real)
    ensures var recs := Recommendations(d, AverageWind(d));
            SunProtection in recs <==> Contains(d.hourlySummary, SunPhrase)
    ensures var recs := Recommendations(d, AverageWind(d));
            recs == [] <==> !(d.totalRain > 0.5 || (d.count > 0 && (d.low.v < 10 || d.high.v > 25
                                                                    || d.totalWind > 30.0 * (d.count as real)))
                             || Contains(d.hourlySummary, SunPhrase))
  {
    var avg := AverageWind(d);
    if d.count > 0 {
      var c := d.count as real;
      MeanAbove(avg, c, d.totalWind, 30.0);
    }
  }

  /** Neither sentinel ever reaches the text once the aggregate is consistent. */
  lemma NoSentinelShown(d: Daily)
    requires Consistent(d)
    ensures forall l :: l in Overview(d, AverageWind(d)) && l.TemperatureRange? ==> l.low.Fin? && l.high.Fin?
    ensures forall a :: a in Recommendations(d, AverageWind(d)) && a.DressWarmly? ==> a.low.Fin?
    ensures forall a :: a in Recommendations(d, AverageWind(d)) && a.StayHydrated? ==> a.high.Fin?
  {
  }

  function AdviceText(a: Advice): (s: string)
    ensures s != ""
  {
    match a
    case Umbrella => "☂️ Consider an umbrella or raincoat for expected rain.\n"
    case DressWarmly(low) => "🧥 Dress warmly (lows near " + ExtText(low) + "°C expected).\n"
    case StayHydrated(high) => "💧 Stay hydrated (highs near " + ExtText(high) + "°C expected).\n"
    case SecureLooseItems => "💨 Windy conditions expected - secure loose items.\n"
    case SunProtection => "☀️ Sun protection might be needed during midday hours.\n"
  }

  /** The `recommendations` text: the recommendations' lines one after another. */
  function RecommendationsText(recs: seq<Advice>): string {
    Flatten(Map(AdviceText, recs))
  }

  /** The text is empty exactly when there is nothing to recommend, since no line is empty. */
  lemma RecommendationsTextEmpty(recs: seq<Advice>)
    ensures RecommendationsText(recs) == "" <==> recs == []
  {
    var lines := Map(AdviceText, recs);
    MapIndex(AdviceText, recs);
    FlattenEmpty(lines);
    if recs != [] {
      assert lines[0] == AdviceText(recs[0]);
    }
  }

  /** The text of five gated recommendations is their lines, each present when its gate holds. */
  lemma {:induction false} GatedText<A>(f: A -> string, c1: bool, a1: A, c2: bool, a2: A, c3: bool, a3: A,
                                        c4: bool, a4: A, c5: bool, a5: A)
    ensures Flatten(Map(f, When(c1, a1) + When(c2, a2) + When(c3, a3) + When(c4, a4) + When(c5, a5)))
         == "" + Line(c1, f(a1)) + Line(c2, f(a2)) + Line(c3, f(a3)) + Line(c4, f(a4)) + Line(c5, f(a5))
  {
    var xs0: seq<A> := [];
    assert xs0 + When(c1, a1) == When(c1, a1);
    MapWhen(f, xs0, c1, a1);
    var xs1 := When(c1, a1);
    MapWhen(f, xs1, c2, a2);
    var xs2 := xs1 + When(c2, a2);
    MapWhen(f, xs2, c3, a3);
    var xs3 := xs2 + When(c3, a3);
    MapWhen(f, xs3, c4, a4);
    var xs4 := xs3 + When(c4, a4);
    MapWhen(f, xs4, c5, a5);
    var ss0: seq<string> := [];
    assert Map(f, xs1) == ss0 + When(c1, f(a1));
    FlattenWhen(ss0, c1, f(a1));
    var ss1 := ss0 + When(c1, f(a1));
    FlattenWhen(ss1, c2, f(a2));
    var ss2 := ss1 + When(c2, f(a2));
    FlattenWhen(ss2, c3, f(a3));
    var ss3 := ss2 + When(c3, f(a3));
    FlattenWhen(ss3, c4, f(a4));
    var ss4 := ss3 + When(c4, f(a4));
    FlattenWhen(ss4, c5, f(a5));
  }

  const RecommendationsHeading: string := "\n<b>💡 Recommendations</b>\n"

  /** The recommendations section, omitted entirely when there is nothing to recommend. */
  function RecommendationsSection(recs: seq<Advice>): string {
    var text := RecommendationsText(recs);
    if text != "" then RecommendationsHeading + text else ""
  }

  /** The section appears exactly when at least one recommendation fired. */
  lemma RecommendationsSectionShown(recs: seq<Advice>)
    ensures RecommendationsSection(recs) != "" <==> recs != []
    ensures recs != [] ==> RecommendationsSection(recs) == RecommendationsHeading + RecommendationsText(recs)
  {
    RecommendationsTextEmpty(recs);
  }

  const HourlyHeading: string := "<b>⏰ Hourly Forecast</b>\n"
  const NoForecastData: string := "No forecast data available for the selected hours today.\n"

  /** The hourly block: the heading, then the summary or the "no forecast data" line. */
  function HourlySection(summary: string): string {
    if summary != "" then HourlyHeading + summary else HourlyHeading + NoForecastData
  }

  /** The summary follows the heading exactly when something matched; otherwise the fallback line does. */
  lemma HourlySectionShown(d: Daily)
    requires Consistent(d)
    ensures d.count > 0 ==> HourlySection(d.hourlySummary) == HourlyHeading + d.hourlySummary
    ensures d.count == 0 ==> HourlySection(d.hourlySummary) == HourlyHeading + NoForecastData
  {
  }

  /** The first line: the header icon and the location. */
  function HeaderLine(icon: Glyph, location: string): string {
    GlyphText(icon) + " <b>Weather Forecast for " + location + "</b>\n"
  }

  /** The date line, from the already formatted date. */
  function DateLine(dateText: string): string {
    "📅 " + dateText + "\n\n"
  }

  const OverviewHeading: string := "<b>📊 Daily Overview</b>\n"

  /** The footer: the data source, the update time and the timezone abbreviation. */
  function Footer(updateTime: string, zoneAbbr: string): string {
    "\n<i>📡 Data from " + DataSourceName + " | Updated: " + updateTime + " " + zoneAbbr + "</i>"
  }

  /** The whole message for the aggregator's variables d, section after section. */
  function Message(d: Daily, location: string, dateText: string, updateTime: string, zoneAbbr: string,
                   toFixed: (real, nat) -> string): string
  {
    var avg := AverageWind(d);
    HeaderLine(d.headerIcon, location) + DateLine(dateText)
    + OverviewHeading + OverviewText(Overview(d, avg), toFixed) + "\n"
    + HourlySection(d.hourlySummary)
    + RecommendationsSection(Recommendations(d, avg))
    + Footer(updateTime, zoneAbbr)
  }

  /**
   The script's main body: the aggregation loop, then the message. The local
   date and time of every entry, the date line, the update time and the
   timezone abbreviation come in as parameters.
   */
  method ForecastMessage(h: Hourly, today: string, timezoneAbbreviation: string, dateText: string,
                         updateTime: string, zoneAbbr: string, toFixed: (real, nat) -> string)
    returns (message: string)
    requires Aligned(h)
    ensures message == Message(Run(h, today, toFixed, |h.stamps|), LocationName(timezoneAbbreviation),
                               dateText, updateTime, zoneAbbr, toFixed)
  {
    var locationName := if timezoneAbbreviation != "" then timezoneAbbreviation else LocationNameFallback;
    var d := Aggregate(h, today, toFixed);
    message := ComposeMessage(d, locationName, dateText, updateTime, zoneAbbr, toFixed);
  }

  /** The message built by the script's successive appends, from the loop's variables d. */
  method ComposeMessage(d: Daily, locationName: string, dateText: string, updateTime: string, zoneAbbr: string,
                        toFixed: (real, nat) -> string)
    returns (message: string)
    ensures message == Message(d, locationName, dateText, updateTime, zoneAbbr, toFixed)
  {
    var avgWindSpeedKmh := 0.0;
    if d.count > 0 {
      avgWindSpeedKmh := d.totalWind / d.count as real;
    }
    assert avgWindSpeedKmh == AverageWind(d);

    message := HeaderLine(d.headerIcon, locationName);
    message := message + DateLine(dateText);
    message := message + OverviewHeading;
    message := AppendOverview(message, d, avgWindSpeedKmh, toFixed);
    message := message + "\n";

    ghost var hourlyStart := message;
    if d.hourlySummary != "" {
      message := message + HourlyHeading;
      message := message + d.hourlySummary;
      AppendAssoc(hourlyStart, HourlyHeading, d.hourlySummary);
    } else {
      message := message + (HourlyHeading + NoForecastData);
    }

    var recommendations := CollectRecommendations(d, avgWindSpeedKmh);
    ghost var recommendationsStart := message;
    if recommendations != "" {
      message := message + RecommendationsHeading;
      message := message + recommendations;
      AppendAssoc(recommendationsStart, RecommendationsHeading, recommendations);
    } else {
      AppendEmpty(recommendationsStart);
    }

    message := message + Footer(updateTime, zoneAbbr);
  }

  /** The overview's conditional lines appended to message, in the script's order. */
  method AppendOverview(message: string, d: Daily, avgWindSpeedKmh: real, toFixed: (real, nat) -> string)
    returns (extended: string)
    ensures extended == message + OverviewText(Overview(d, avgWindSpeedKmh), toFixed)
  {
    extended := message;
    ghost var lines := TemperatureLines(d);
    TemperatureText(d, toFixed);
    if d.high != NegInf && d.low != PosInf && d.count > 0 {
      extended := extended + OverviewLineText(TemperatureRange(d.low, d.high), toFixed);
    } else if d.count == 0 {
      extended := extended + OverviewLineText(NoTemperatureData, toFixed);
    } else {
      AppendEmpty(message);
    }
    assert extended == message + OverviewText(lines, toFixed);

    ghost var text := OverviewText(lines, toFixed);
    OverviewTextWhen(lines, d.totalRain > 0.0, ExpectedRain(d.totalRain), toFixed);
    if d.totalRain > 0.0 {
      extended := extended + OverviewLineText(ExpectedRain(d.totalRain), toFixed);
      AppendAssoc(message, text, OverviewLineText(ExpectedRain(d.totalRain), toFixed));
    } else {
      AppendEmpty(text);
    }
    lines := lines + When(d.totalRain > 0.0, ExpectedRain(d.totalRain));
    assert extended == message + OverviewText(lines, toFixed);

    text := OverviewText(lines, toFixed);
    OverviewTextWhen(lines, avgWindSpeedKmh > 2.0 && d.count > 0, WindSummary(avgWindSpeedKmh), toFixed);
    if avgWindSpeedKmh > 2.0 && d.count > 0 {
      extended := extended + OverviewLineText(WindSummary(avgWindSpeedKmh), toFixed);
      AppendAssoc(message, text, OverviewLineText(WindSummary(avgWindSpeedKmh), toFixed));
    } else {
      AppendEmpty(text);
    }
    lines := lines + When(avgWindSpeedKmh > 2.0 && d.count > 0, WindSummary(avgWindSpeedKmh));
  }

  /** The `recommendations` text, one conditional append per recommendation. */
  method CollectRecommendations(d: Daily, avgWindSpeedKmh: real) returns (recommendations: string)
    ensures recommendations == RecommendationsText(Recommendations(d, avgWindSpeedKmh))
  {
    recommendations := "";
    recommendations := AppendAdvice(recommendations, d.totalRain > 0.5, Umbrella);
    recommendations := AppendAdvice(recommendations, d.low.Below(10) && d.count > 0, DressWarmly(d.low));
    recommendations := AppendAdvice(recommendations, d.high.Above(25) && d.count > 0, StayHydrated(d.high));
    recommendations := AppendAdvice(recommendations, avgWindSpeedKmh > 30.0 && d.count > 0, SecureLooseItems);
    recommendations := AppendAdvice(recommendations, Contains(d.hourlySummary, SunPhrase), SunProtection);
    GatedText(AdviceText, d.totalRain > 0.5, Umbrella, d.low.Below(10) && d.count > 0, DressWarmly(d.low),
              d.high.Above(25) && d.count > 0, StayHydrated(d.high),
              avgWindSpeedKmh > 30.0 && d.count > 0, SecureLooseItems,
              Contains(d.hourlySummary, SunPhrase), SunProtection);
  }

  /** One of the script's `if (...) recommendations += ...` steps. */
  method AppendAdvice(recommendations: string, fires: bool, a: Advice) returns (extended: string)
    ensures extended == recommendations + Line(fires, AdviceText(a))
  {
    extended := recommendations;
    if fires {
      extended := extended + AdviceText(a);
    } else {
      AppendEmpty(recommendations);
    }
  }
}
