/**
 The condition classifier of the weather report: WMO weather codes to a
 category, a description and a cloudiness proxy, and the selectors that pick
 the weather glyph, the temperature glyph, the wind label and the UV advisory.
 */
module Conditions {
  import opened Basics

  /**
   The category names the emoji table knows. The classifier produces only the
   first eight; Mist, Haze and Smoke have emoji entries but no code maps to them.
   Unknown also stands for every name without an entry in the emoji table.
   */
  datatype Category = Clear | Clouds | Fog | Drizzle | Rain | Snow | Thunderstorm | Unknown
                    | Mist | Haze | Smoke

  datatype Condition = Condition(category: Category, description: string, cloudiness: int)

  /** Every code with an entry of its own in the classifier. */
  const KnownCodes: set<int> :=
    {0, 1, 2, 3, 45, 48, 51, 52, 53, 54, 55, 56, 57, 61, 62, 63, 64, 65, 66, 67,
     71, 72, 73, 74, 75, 77, 80, 81, 82, 85, 86, 95, 96, 99}

  /** The classifier's categories (those a WMO code can map to). */
  const ClassifiedCategories: set<Category> :=
    {Clear, Clouds, Fog, Drizzle, Rain, Snow, Thunderstorm, Unknown}

  /** mapWmoCodeToWeatherCondition: total over all integers, checked in the script's order. */
  function Classify(code: int): (c: Condition)
    ensures 0 <= c.cloudiness <= 100
    ensures c.category in ClassifiedCategories
    ensures c.category == Unknown <==> code !in KnownCodes
    ensures c.category == Unknown ==> c.description == "WMO " + IntToString(code) && c.cloudiness == 50
  {
    if code == 0 then Condition(Clear, "Clear sky", 0)
    else if code == 1 then Condition(Clear, "Mainly clear", 20)
    else if code == 2 then Condition(Clouds, "Partly cloudy", 50)
    else if code == 3 then Condition(Clouds, "Overcast", 100)
    else if code == 45 then Condition(Fog, "Fog", 100)
    else if code == 48 then Condition(Fog, "Depositing rime fog", 100)
    else if 51 <= code <= 55 then
      var desc := if code == 51 then "Light drizzle"
                  else if code == 53 then "Moderate drizzle"
                  else if code == 55 then "Dense drizzle"
                  else "Drizzle";
      Condition(Drizzle, desc, 90)
    else if 61 <= code <= 65 then
      var desc := if code == 61 then "Slight rain"
                  else if code == 63 then "Moderate rain"
                  else if code == 65 then "Heavy rain"
                  else "Rain";
      Condition(Rain, desc, 100)
    else if 80 <= code <= 82 then
      var desc := if code == 80 then "Slight rain showers"
                  else if code == 81 then "Moderate rain showers"
                  else "Violent rain showers";
      Condition(Rain, desc, 100)
    else if 71 <= code <= 75 then
      var desc := if code == 71 then "Slight snow fall"
                  else if code == 73 then "Moderate snow fall"
                  else if code == 75 then "Heavy snow fall"
                  else "Snow fall";
      Condition(Snow, desc, 100)
    else if code == 77 then Condition(Snow, "Snow grains", 100)
    else if code == 85 || code == 86 then Condition(Snow, "Snow showers", 100)
    else if code == 95 then Condition(Thunderstorm, "Thunderstorm", 100)
    else if code == 96 || code == 99 then Condition(Thunderstorm, "Thunderstorm with hail", 100)
    else if code == 56 || code == 57 then Condition(Drizzle, "Freezing Drizzle", 90)
    else if code == 66 || code == 67 then Condition(Rain, "Freezing Rain", 100)
    else Condition(Unknown, "WMO " + IntToString(code), 50)
  }

  /** Every code of the drizzle range, named or not, is drizzle with cloudiness 90. */
  lemma DrizzleRange(code: int)
    requires 51 <= code <= 55
    ensures Classify(code).category == Drizzle && Classify(code).cloudiness == 90
  {
  }

  /**
   The codes inside a range that the range's own checks do not name get the
   range's generic description; 56, 57, 66 and 67 lie outside the ranges and
   reach their own entries.
   */
  lemma UnnamedCodesInRanges(code: int)
    ensures code in {52, 54} ==> Classify(code) == Condition(Drizzle, "Drizzle", 90)
    ensures code in {62, 64} ==> Classify(code) == Condition(Rain, "Rain", 100)
    ensures code in {72, 74} ==> Classify(code) == Condition(Snow, "Snow fall", 100)
    ensures code in {56, 57} ==> Classify(code) == Condition(Drizzle, "Freezing Drizzle", 90)
    ensures code in {66, 67} ==> Classify(code) == Condition(Rain, "Freezing Rain", 100)
  {
  }

  /** The weather glyphs of getWeatherEmoji. */
  datatype Glyph = Moon | Sun | Cloud | SunBehindCloud | SunBehindSmallCloud
                 | CloudWithRain | SunBehindRainCloud | CloudWithLightningAndRain
                 | Snowflake | FogBank | Globe

  function GlyphText(g: Glyph): string {
    match g
    case Moon => "🌙"
    case Sun => "☀️"
    case Cloud => "☁️"
    case SunBehindCloud => "⛅"
    case SunBehindSmallCloud => "🌤️"
    case CloudWithRain => "🌧️"
    case SunBehindRainCloud => "🌦️"
    case CloudWithLightningAndRain => "⛈️"
    case Snowflake => "❄️"
    case FogBank => "🌫️"
    case Globe => "🌍"
  }

  /** getWeatherEmoji: the glyph of a category, its cloudiness and whether it is night. */
  function WeatherGlyph(category: Category, cloudiness: int, isNight: bool): (g: Glyph)
    ensures g in {Moon, Sun} <==> category == Clear
    ensures g in {Cloud, SunBehindCloud, SunBehindSmallCloud} <==> category == Clouds
    ensures g == FogBank <==> category in {Fog, Mist, Haze, Smoke}
    ensures g == Globe <==> category == Unknown
  {
    match category
    case Clear => if isNight then Moon else Sun
    case Clouds => if cloudiness > 75 then Cloud else if cloudiness > 25 then SunBehindCloud else SunBehindSmallCloud
    case Rain => CloudWithRain
    case Drizzle => SunBehindRainCloud
    case Thunderstorm => CloudWithLightningAndRain
    case Snow => Snowflake
    case Mist => FogBank
    case Fog => FogBank
    case Haze => FogBank
    case Smoke => FogBank
    case Unknown => Globe
  }

  /** Clear sky: the moon at night and the sun by day, whatever the cloudiness. */
  lemma ClearGlyph(cloudiness: int, isNight: bool)
    ensures WeatherGlyph(Clear, cloudiness, isNight) == (if isNight then Moon else Sun)
    ensures WeatherGlyph(Clear, cloudiness, true) != WeatherGlyph(Clear, cloudiness, false)
  {
  }

  /** Clouds: overcast above 75, partial from 26 to 75, few clouds at 25 and below; never depends on night. */
  lemma CloudsGlyph(cloudiness: int, isNight: bool)
    ensures WeatherGlyph(Clouds, cloudiness, isNight) == Cloud <==> cloudiness > 75
    ensures WeatherGlyph(Clouds, cloudiness, isNight) == SunBehindCloud <==> 25 < cloudiness <= 75
    ensures WeatherGlyph(Clouds, cloudiness, isNight) == SunBehindSmallCloud <==> cloudiness <= 25
    ensures WeatherGlyph(Clouds, cloudiness, isNight) == WeatherGlyph(Clouds, cloudiness, !isNight)
  {
  }

  /** A classified code gets the globe glyph exactly when it is not a known code. */
  lemma ClassifiedGlyph(code: int, isNight: bool)
    ensures var c := Classify(code);
            WeatherGlyph(c.category, c.cloudiness, isNight) == Globe <==> code !in KnownCodes
    ensures var c := Classify(code);
            WeatherGlyph(c.category, c.cloudiness, isNight) != FogBank || code in {45, 48}
  {
  }

  /** Counts the breakpoints that x has reached (b <= x). */
  function Reached(breakpoints: seq<real>, x: real): (n: nat)
    ensures n <= |breakpoints|
  {
    if breakpoints == [] then 0
    else (if breakpoints[0] <= x then 1 else 0) + Reached(breakpoints[1..], x)
  }

  lemma {:induction false} ReachedMonotone(breakpoints: seq<real>, x: real, y: real)
    requires x <= y
    ensures Reached(breakpoints, x) <= Reached(breakpoints, y)
  {
    if breakpoints != [] {
      ReachedMonotone(breakpoints[1..], x, y);
    }
  }

  /** The temperature glyphs of getTemperatureEmoji, coldest first. */
  datatype TemperatureGlyph = Ice | ColdFace | Coat | NeutralFace | SmilingFace | Sunglasses | Fire {
    /** Position in the scale from coldest (0) to hottest (6). */
    function Rank(): nat {
      match this
      case Ice => 0
      case ColdFace => 1
      case Coat => 2
      case NeutralFace => 3
      case SmilingFace => 4
      case Sunglasses => 5
      case Fire => 6
    }

    function Text(): string {
      match this
      case Ice => "🧊"
      case ColdFace => "🥶"
      case Coat => "🧥"
      case NeutralFace => "😐"
      case SmilingFace => "😊"
      case Sunglasses => "😎"
      case Fire => "🔥"
    }
  }

  const TemperatureBreakpoints: seq<real> := [5.0, 10.0, 15.0, 20.0, 25.0, 30.0]

  /** getTemperatureEmoji: the step function over the `>=` breakpoints 30, 25, 20, 15, 10, 5. */
  function TemperatureEmoji(temp: int): (g: TemperatureGlyph)
    ensures g == Ice <==> temp < 5
    ensures g == Fire <==> temp >= 30
  {
    if temp >= 30 then Fire
    else if temp >= 25 then Sunglasses
    else if temp >= 20 then SmilingFace
    else if temp >= 15 then NeutralFace
    else if temp >= 10 then Coat
    else if temp >= 5 then ColdFace
    else Ice
  }

  /** The glyph's rank is the number of breakpoints the temperature has reached. */
  lemma TemperatureEmojiCountsBreakpoints(temp: int)
    ensures TemperatureEmoji(temp).Rank() == Reached(TemperatureBreakpoints, temp as real)
  {
    var x := temp as real;
    assert [30.0][1..] == [];
    assert Reached([30.0], x) == if 30.0 <= x then 1 else 0;
    assert [25.0, 30.0][1..] == [30.0];
    assert Reached([25.0, 30.0], x) == (if 25.0 <= x then 1 else 0) + Reached([30.0], x);
    assert [20.0, 25.0, 30.0][1..] == [25.0, 30.0];
    assert Reached([20.0, 25.0, 30.0], x) == (if 20.0 <= x then 1 else 0) + Reached([25.0, 30.0], x);
    assert [15.0, 20.0, 25.0, 30.0][1..] == [20.0, 25.0, 30.0];
    assert Reached([15.0, 20.0, 25.0, 30.0], x) == (if 15.0 <= x then 1 else 0) + Reached([20.0, 25.0, 30.0], x);
    assert [10.0, 15.0, 20.0, 25.0, 30.0][1..] == [15.0, 20.0, 25.0, 30.0];
    assert Reached([10.0, 15.0, 20.0, 25.0, 30.0], x)
        == (if 10.0 <= x then 1 else 0) + Reached([15.0, 20.0, 25.0, 30.0], x);
    assert TemperatureBreakpoints[1..] == [10.0, 15.0, 20.0, 25.0, 30.0];
  }

  /** A warmer temperature never gets a colder glyph. */
  lemma TemperatureEmojiMonotone(t1: int, t2: int)
    requires t1 <= t2
    ensures TemperatureEmoji(t1).Rank() <= TemperatureEmoji(t2).Rank()
  {
    TemperatureEmojiCountsBreakpoints(t1);
    TemperatureEmojiCountsBreakpoints(t2);
    ReachedMonotone(TemperatureBreakpoints, t1 as real, t2 as real);
  }

  /** The wind labels of getWindInfo, calmest first. */
  datatype WindLabel = Calm | LightBreeze | ModerateBreeze | StrongBreeze | VeryWindy {
    function Rank(): nat {
      match this
      case Calm => 0
      case LightBreeze => 1
      case ModerateBreeze => 2
      case StrongBreeze => 3
      case VeryWindy => 4
    }

    function Text(): string {
      match this
      case Calm => "Calm"
      case LightBreeze => "Light breeze"
      case ModerateBreeze => "Moderate breeze"
      case StrongBreeze => "Strong breeze"
      case VeryWindy => "Very windy"
    }
  }

  const WindBreakpoints: seq<real> := [5.0, 20.0, 40.0, 70.0]

  /** The label getWindInfo chooses with the strict `<` breakpoints 5, 20, 40, 70. */
  function WindLabelFor(kmh: real): (l: WindLabel)
    ensures l == Calm <==> kmh < 5.0
    ensures l == VeryWindy <==> kmh >= 70.0
  {
    if kmh < 5.0 then Calm
    else if kmh < 20.0 then LightBreeze
    else if kmh < 40.0 then ModerateBreeze
    else if kmh < 70.0 then StrongBreeze
    else VeryWindy
  }

  /** The label's rank is the number of breakpoints the speed has reached. */
  lemma WindLabelCountsBreakpoints(kmh: real)
    ensures WindLabelFor(kmh).Rank() == Reached(WindBreakpoints, kmh)
  {
    assert [70.0][1..] == [];
    assert Reached([70.0], kmh) == if 70.0 <= kmh then 1 else 0;
    assert [40.0, 70.0][1..] == [70.0];
    assert Reached([40.0, 70.0], kmh) == (if 40.0 <= kmh then 1 else 0) + Reached([70.0], kmh);
    assert [20.0, 40.0, 70.0][1..] == [40.0, 70.0];
    assert Reached([20.0, 40.0, 70.0], kmh) == (if 20.0 <= kmh then 1 else 0) + Reached([40.0, 70.0], kmh);
    assert WindBreakpoints[1..] == [20.0, 40.0, 70.0];
  }

  /** A stronger wind never gets a calmer label. */
  lemma WindLabelMonotone(v1: real, v2: real)
    requires v1 <= v2
    ensures WindLabelFor(v1).Rank() <= WindLabelFor(v2).Rank()
  {
    WindLabelCountsBreakpoints(v1);
    WindLabelCountsBreakpoints(v2);
    ReachedMonotone(WindBreakpoints, v1, v2);
  }

  /** getWindInfo: the wind glyph and the label of the speed's band, then the speed to one decimal place. */
  function WindInfo(kmh: real, toFixed: (real, nat) -> string): (text: string)
    ensures OccursAt(text, "💨 " + WindLabelFor(kmh).Text() + " (", 0)
    ensures OccursAt(text, toFixed(kmh, 1) + " km/h)", |text| - |toFixed(kmh, 1) + " km/h)"|)
  {
    "💨 " + WindLabelFor(kmh).Text() + " (" + toFixed(kmh, 1) + " km/h)"
  }

  /** The words the sun-protection recommendation looks for. */
  const SunPhrase: string := "Consider sun protection"

  /** getUVAdvice: the advisory for a local hour; NaN (None) compares false like any other. */
  function UVAdvice(hour: Option<int>): (s: string)
    ensures s != "" <==> hour.Some? && 10 <= hour.value <= 16
    ensures s != "" ==> s == "☀️ " + SunPhrase
  {
    if hour.Some? && hour.value >= 10 && hour.value <= 16 then "☀️ " + SunPhrase else ""
  }

  /** Night is before 06 and after 20 local time; NaN (None) is never night. */
  predicate IsNight(hour: Option<int>) {
    hour.Some? && (hour.value < 6 || hour.value > 20)
  }

  /** Of the hours of a day, 00 to 05 and 21 to 23 are night; NaN never is. */
  lemma NightHours(hour: Option<int>)
    ensures IsNight(hour) ==> hour.Some?
    ensures hour.Some? && 0 <= hour.value <= 23 ==> (IsNight(hour) <==> hour.value in {0, 1, 2, 3, 4, 5, 21, 22, 23})
  {
  }
}
