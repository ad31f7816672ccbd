/**
 The forecast aggregator: one pass over the hourly series that keeps the
 entries of today's selected local times, tracks the day's high, low, rain
 and wind totals, picks the header glyph and renders the hourly lines.

 The series reaches this model already converted to the display timezone:
 each index carries its local calendar date and local "HH:MM" time.
 */
module Aggregation {
  import opened Basics
  import opened Conditions

  /** The local times of day that the report lists. */
  const DesiredHours: seq<string> := ["09:00", "12:00", "15:00", "18:00", "21:00"]

  /** An instant of the series seen in the display timezone. */
  datatype LocalStamp = LocalStamp(date: string, time: string)

  /** The hourly block of the forecast input: parallel, index-aligned sequences. */
  datatype Hourly = Hourly(
    stamps: seq<LocalStamp>,
    temperature: seq<real>,
    weatherCode: seq<int>,
    windSpeed: seq<real>,
    precipitation: seq<real>)

  predicate Aligned(h: Hourly) {
    && |h.temperature| == |h.stamps|
    && |h.weatherCode| == |h.stamps|
    && |h.windSpeed| == |h.stamps|
    && |h.precipitation| == |h.stamps|
  }

  /**
   `parseInt(time.slice(0, 2))`: the slice loses its leading white space and
   an optional sign; a `0x` or `0X` prefix switches to hexadecimal and leaves
   no digits; otherwise the leading decimal digits are read. None stands for
   NaN, when there are no digits to read.
   */
  function ParseHour(time: string): Option<int>
  {
    var t := if |time| <= 2 then time else time[..2];
    var u := TrimStart(t);
    var negative := |u| > 0 && u[0] == '-';
    var v := if |u| > 0 && (u[0] == '-' || u[0] == '+') then u[1..] else u;
    if |v| >= 2 && v[0] == '0' && (v[1] == 'x' || v[1] == 'X') then
      None
    else
      var z := LeadingDigits(v);
      if z == [] then None
      else if negative then Some(-DigitsValue(z)) else Some(DigitsValue(z))
  }

  /** Two leading digits are read as a two-digit number. */
  lemma ParseTwoDigits(time: string)
    requires |time| >= 2 && IsDigit(time[0]) && IsDigit(time[1])
    ensures ParseHour(time) == Some(DigitsValue(time[..2]))
  {
    var t := if |time| <= 2 then time else time[..2];
    assert t == time[..2];
    assert TrimStart(t) == t;
    assert LeadingDigits(t[1..][1..]) == [];
    assert LeadingDigits(t) == t;
  }

  /** A digit followed by anything but a digit (and not starting `0x`) is read alone. */
  lemma ParseOneDigit(time: string)
    requires |time| >= 1 && IsDigit(time[0])
    requires |time| == 1 || (!IsDigit(time[1]) && !(time[0] == '0' && (time[1] == 'x' || time[1] == 'X')))
    ensures ParseHour(time) == Some(DigitValue(time[0]))
  {
    var t := if |time| <= 2 then time else time[..2];
    assert TrimStart(t) == t;
    assert LeadingDigits(t[1..]) == [];
    assert LeadingDigits(t) == [t[0]];
    ShortDigitsValue([t[0]]);
  }

  /** `0x` and `0X` announce hexadecimal, and the slice keeps no digits after them. */
  lemma ParseHexPrefix(time: string)
    requires |time| >= 2 && time[0] == '0' && (time[1] == 'x' || time[1] == 'X')
    ensures ParseHour(time) == None
  {
    var t := if |time| <= 2 then time else time[..2];
    assert TrimStart(t) == t;
  }

  /** A sign or one white-space character before a digit: the digit, negated after a minus. */
  lemma ParseSignedDigit(time: string)
    requires |time| >= 2 && (time[0] == '+' || time[0] == '-' || IsJsSpace(time[0])) && IsDigit(time[1])
    ensures ParseHour(time) == Some(if time[0] == '-' then -DigitValue(time[1]) else DigitValue(time[1]))
  {
    var t := if |time| <= 2 then time else time[..2];
    var rest := t[1..];
    assert TrimStart(rest) == rest;
    if IsJsSpace(time[0]) {
      assert TrimStart(t) == rest;
    } else {
      assert TrimStart(t) == t;
    }
    assert LeadingDigits(rest[1..]) == [];
    assert LeadingDigits(rest) == rest;
    ShortDigitsValue(rest);
  }

  /** A sign or white space followed by nothing readable gives NaN. */
  lemma ParseSignAlone(time: string)
    requires |time| >= 1 && (time[0] == '+' || time[0] == '-' || IsJsSpace(time[0]))
    requires |time| == 1 || !IsDigit(time[1])
    ensures ParseHour(time) == None
  {
    var t := if |time| <= 2 then time else time[..2];
    var rest := t[1..];
    if |t| == 1 {
      assert rest == [];
    } else {
      var c := t[1];
      assert rest == [c];
      assert rest[1..] == [];
      assert LeadingDigits(rest) == [];
      if IsJsSpace(c) {
        assert TrimStart(rest) == [];
      } else {
        assert TrimStart(rest) == rest;
      }
    }
    if IsJsSpace(time[0]) {
      assert TrimStart(t) == TrimStart(rest);
    } else {
      assert TrimStart(t) == t;
    }
  }

  /** Anything else at the front (or an empty time) gives NaN. */
  lemma ParseNoDigit(time: string)
    requires |time| == 0 || !(IsDigit(time[0]) || time[0] == '+' || time[0] == '-' || IsJsSpace(time[0]))
    ensures ParseHour(time) == None
  {
    var t := if |time| <= 2 then time else time[..2];
    assert TrimStart(t) == t;
  }

  /**
   The case table is complete: every time falls under one of the cases above,
   so the hour is always a number from -9 to 99 or NaN.
   */
  lemma ParseHourRange(time: string)
    ensures ParseHour(time).Some? ==> -9 <= ParseHour(time).value <= 99
  {
    if |time| == 0 || !(IsDigit(time[0]) || time[0] == '+' || time[0] == '-' || IsJsSpace(time[0])) {
      ParseNoDigit(time);
    } else if IsDigit(time[0]) {
      if |time| >= 2 && IsDigit(time[1]) {
        ParseTwoDigits(time);
        ShortDigitsValue(time[..2]);
      } else if |time| >= 2 && time[0] == '0' && (time[1] == 'x' || time[1] == 'X') {
        ParseHexPrefix(time);
      } else {
        ParseOneDigit(time);
      }
    } else if |time| >= 2 && IsDigit(time[1]) {
      ParseSignedDigit(time);
    } else {
      ParseSignAlone(time);
    }
  }

  /**
   The hours of the selected times: only 21:00 is at night, and only 12:00 and
   15:00 get the UV advisory.
   */
  lemma DesiredHoursFacts()
    ensures ParseHour("09:00") == Some(9) && ParseHour("12:00") == Some(12)
    ensures ParseHour("15:00") == Some(15) && ParseHour("18:00") == Some(18)
    ensures ParseHour("21:00") == Some(21)
    ensures forall t :: t in DesiredHours ==> (IsNight(ParseHour(t)) <==> t == "21:00")
    ensures forall t :: t in DesiredHours ==> (UVAdvice(ParseHour(t)) != "" <==> t in {"12:00", "15:00"})
  {
    ParseTwoDigits("09:00");
    ParseTwoDigits("12:00");
    ParseTwoDigits("15:00");
    ParseTwoDigits("18:00");
    ParseTwoDigits("21:00");
    ShortDigitsValue("09");
    ShortDigitsValue("12");
    ShortDigitsValue("15");
    ShortDigitsValue("18");
    ShortDigitsValue("21");
    assert "09:00"[0] == '0' && "09:00"[1] == '9';
    assert "12:00"[0] == '1' && "12:00"[1] == '2';
    assert "15:00"[0] == '1' && "15:00"[1] == '5';
    assert "18:00"[0] == '1' && "18:00"[1] == '8';
    assert "21:00"[0] == '2' && "21:00"[1] == '1';
  }

  /** Index i is a matched hour: today's date and one of the selected times. */
  predicate Selected(h: Hourly, today: string, i: int)
    requires 0 <= i < |h.stamps|
  {
    h.stamps[i].date == today && Includes(DesiredHours, h.stamps[i].time)
  }

  /** The classification of the weather code at index i. */
  function ConditionAt(h: Hourly, i: int): Condition
    requires Aligned(h) && 0 <= i < |h.stamps|
  {
    Classify(h.weatherCode[i])
  }

  /** The weather glyph of index i (category, cloudiness and night flag of its hour). */
  function GlyphAt(h: Hourly, i: int): Glyph
    requires Aligned(h) && 0 <= i < |h.stamps|
  {
    var c := ConditionAt(h, i);
    WeatherGlyph(c.category, c.cloudiness, IsNight(ParseHour(h.stamps[i].time)))
  }

  /** The rendered line of one matched hour, without its UV line. */
  function HourLine(time: string, glyph: Glyph, temp: int, rain: real, wind: real,
                    toFixed: (real, nat) -> string): (line: string)
    ensures OccursAt(line, "🕒 <b>" + time + "</b> " + GlyphText(glyph) + " " + IntToString(temp) + "°C", 0)
    ensures line[|line| - 1] == '\n'
  {
    var rainText := if rain > 0.0 then ", 🌧️ " + toFixed(rain, 1) + "mm" else "";
    var windText := if wind > 10.0 then ", 💨 " + toFixed(wind, 0) + " km/h" else "";
    "🕒 <b>" + time + "</b> " + GlyphText(glyph) + " " + IntToString(temp) + "°C" + rainText + windText + "\n"
  }

  /** The optional fragments of an hour's line after its temperature. */
  datatype HourSuffix = RainAmount(mm: real) | WindSpeed(kmh: real)

  /** The fragments an hour's line carries, in the order they are printed. */
  function HourSuffixes(rain: real, wind: real): seq<HourSuffix> {
    When(rain > 0.0, RainAmount(rain)) + When(wind > 10.0, WindSpeed(wind))
  }

  /** The rain fragment appears only when rain fell, the wind fragment only above 10 km/h, the rain first. */
  lemma HourSuffixesPresent(rain: real, wind: real)
    ensures var xs := HourSuffixes(rain, wind);
            && (RainAmount(rain) in xs <==> rain > 0.0)
            && (WindSpeed(wind) in xs <==> wind > 10.0)
            && (forall k :: 0 <= k < |xs| ==> xs[k] == RainAmount(rain) || xs[k] == WindSpeed(wind))
            && (|xs| == 2 ==> xs[0].RainAmount? && xs[1].WindSpeed?)
  {
  }

  /** The text of one fragment: the rain to one decimal in mm, the wind to a whole number in km/h. */
  function SuffixText(x: HourSuffix, toFixed: (real, nat) -> string): string {
    match x
    case RainAmount(mm) => ", 🌧️ " + toFixed(mm, 1) + "mm"
    case WindSpeed(kmh) => ", 💨 " + toFixed(kmh, 0) + " km/h"
  }

  /** The fragments' texts, one after another. */
  function SuffixesText(xs: seq<HourSuffix>, toFixed: (real, nat) -> string): string {
    if xs == [] then "" else SuffixesText(xs[..|xs| - 1], toFixed) + SuffixText(xs[|xs| - 1], toFixed)
  }

  /** An hour's line is its time, glyph and temperature, then the fragments it carries, then a line break. */
  lemma HourLineFragments(time: string, glyph: Glyph, temp: int, rain: real, wind: real,
                          toFixed: (real, nat) -> string)
    ensures HourLine(time, glyph, temp, rain, wind, toFixed)
         == "🕒 <b>" + time + "</b> " + GlyphText(glyph) + " " + IntToString(temp) + "°C"
            + SuffixesText(HourSuffixes(rain, wind), toFixed) + "\n"
  {
    var head := "🕒 <b>" + time + "</b> " + GlyphText(glyph) + " " + IntToString(temp) + "°C";
    var rainText := if rain > 0.0 then SuffixText(RainAmount(rain), toFixed) else "";
    var windText := if wind > 10.0 then SuffixText(WindSpeed(wind), toFixed) else "";
    assert HourLine(time, glyph, temp, rain, wind, toFixed) == head + rainText + windText + "\n";
    SuffixesTextPair(rain > 0.0, RainAmount(rain), wind > 10.0, WindSpeed(wind), toFixed);
    AppendAssoc(head, rainText, windText);
  }

  /** The text of two optional fragments is the text of those present. */
  lemma SuffixesTextPair(c1: bool, x1: HourSuffix, c2: bool, x2: HourSuffix, toFixed: (real, nat) -> string)
    ensures SuffixesText(When(c1, x1) + When(c2, x2), toFixed)
         == (if c1 then SuffixText(x1, toFixed) else "") + (if c2 then SuffixText(x2, toFixed) else "")
  {
    var xs := When(c1, x1) + When(c2, x2);
    if c1 && c2 {
      assert xs == [x1, x2] && xs[..1] == [x1] && [x1][..0] == [];
      assert SuffixesText([x1], toFixed) == "" + SuffixText(x1, toFixed) == SuffixText(x1, toFixed);
      assert SuffixesText(xs, toFixed) == SuffixesText([x1], toFixed) + SuffixText(x2, toFixed);
    } else if c1 {
      assert xs == [x1] && xs[..0] == [];
    } else if c2 {
      assert xs == [x2] && xs[..0] == [];
    } else {
      assert xs == [];
    }
  }

  /** The indented advisory line, present only when the advisory is not empty. */
  function UVLine(uv: string): string {
    if uv != "" then "    " + uv + "\n" else ""
  }

  /** Everything the loop appends to the hourly summary for index i when it matches. */
  function HourBlock(h: Hourly, i: int, toFixed: (real, nat) -> string): string
    requires Aligned(h) && 0 <= i < |h.stamps|
  {
    var time := h.stamps[i].time;
    HourLine(time, GlyphAt(h, i), Round(h.temperature[i]), h.precipitation[i], h.windSpeed[i], toFixed)
      + UVLine(UVAdvice(ParseHour(time)))
  }

  /** A matched hour gets the indented advisory line exactly when its hour is 10 to 16. */
  lemma HourBlockAdvisory(h: Hourly, i: int, toFixed: (real, nat) -> string)
    requires Aligned(h) && 0 <= i < |h.stamps|
    ensures var time := h.stamps[i].time;
            var hour := ParseHour(time);
            var line := HourLine(time, GlyphAt(h, i), Round(h.temperature[i]), h.precipitation[i], h.windSpeed[i], toFixed);
            HourBlock(h, i, toFixed) == line + (if hour.Some? && 10 <= hour.value <= 16
                                                then "    " + ("☀️ " + SunPhrase) + "\n" else "")
  {
    var hour := ParseHour(h.stamps[i].time);
    if hour.Some? && 10 <= hour.value <= 16 {
      assert UVAdvice(hour) == "☀️ " + SunPhrase;
    } else {
      assert UVAdvice(hour) == "";
    }
  }

  /** The loop's variables. */
  datatype Daily = Daily(
    high: ExtInt,
    low: ExtInt,
    totalRain: real,
    totalWind: real,
    count: nat,
    headerIcon: Glyph,
    firstMatchForHeader: bool,
    hourlySummary: string)

  /** The default header glyph, kept when no matched hour has a known condition. */
  const DefaultHeaderIcon: Glyph := SunBehindSmallCloud

  /** The rounded temperature of index i. */
  function RoundedAt(h: Hourly, i: int): int
    requires Aligned(h) && 0 <= i < |h.stamps|
  {
    Round(h.temperature[i])
  }

  /** Index i's weather code is one the classifier names, so its condition is not Unknown. */
  predicate Known(h: Hourly, i: int)
    requires Aligned(h) && 0 <= i < |h.stamps|
  {
    h.weatherCode[i] in KnownCodes
  }

  // ---------------------------------------------------------------------------
  // Each loop variable after the first n indices, one update per matched index.

  /** dayHighTemp: starts at -Infinity, Math.max with each matched rounded temperature. */
  function High(h: Hourly, today: string, n: nat): ExtInt
    requires Aligned(h) && n <= |h.stamps|
  {
    if n == 0 then NegInf
    else if Selected(h, today, n - 1) then Max(High(h, today, n - 1), RoundedAt(h, n - 1))
    else High(h, today, n - 1)
  }

  /** dayLowTemp: starts at Infinity, Math.min with each matched rounded temperature. */
  function Low(h: Hourly, today: string, n: nat): ExtInt
    requires Aligned(h) && n <= |h.stamps|
  {
    if n == 0 then PosInf
    else if Selected(h, today, n - 1) then Min(Low(h, today, n - 1), RoundedAt(h, n - 1))
    else Low(h, today, n - 1)
  }

  /** totalRain: the matched precipitation amounts added in index order. */
  function RainTotal(h: Hourly, today: string, n: nat): real
    requires Aligned(h) && n <= |h.stamps|
  {
    if n == 0 then 0.0
    else if Selected(h, today, n - 1) then RainTotal(h, today, n - 1) + h.precipitation[n - 1]
    else RainTotal(h, today, n - 1)
  }

  /** totalWindSpeed: the matched wind speeds added in index order. */
  function WindTotal(h: Hourly, today: string, n: nat): real
    requires Aligned(h) && n <= |h.stamps|
  {
    if n == 0 then 0.0
    else if Selected(h, today, n - 1) then WindTotal(h, today, n - 1) + h.windSpeed[n - 1]
    else WindTotal(h, today, n - 1)
  }

  /** weatherCount: one more per matched index. */
  function Count(h: Hourly, today: string, n: nat): nat
    requires Aligned(h) && n <= |h.stamps|
  {
    if n == 0 then 0
    else if Selected(h, today, n - 1) then Count(h, today, n - 1) + 1
    else Count(h, today, n - 1)
  }

  /** The index whose glyph the header took among the first n: the first matched one with a known condition. */
  function HeaderIndex(h: Hourly, today: string, n: nat): (r: Option<nat>)
    requires Aligned(h) && n <= |h.stamps|
    ensures r.Some? ==> r.value < n
  {
    if n == 0 then None
    else if HeaderIndex(h, today, n - 1).None? && Selected(h, today, n - 1) && Known(h, n - 1) then Some(n - 1)
    else HeaderIndex(h, today, n - 1)
  }

  /** firstMatchForHeader: still set while the header has not taken a glyph. */
  predicate HeaderPending(h: Hourly, today: string, n: nat)
    requires Aligned(h) && n <= |h.stamps|
  {
    HeaderIndex(h, today, n).None?
  }

  /** headerIcon: the default, or the glyph of the index that cleared firstMatchForHeader. */
  function HeaderIcon(h: Hourly, today: string, n: nat): Glyph
    requires Aligned(h) && n <= |h.stamps|
  {
    match HeaderIndex(h, today, n)
    case None => DefaultHeaderIcon
    case Some(k) => GlyphAt(h, k)
  }

  /** hourlySummary: each matched index appends its block. */
  function Summary(h: Hourly, today: string, toFixed: (real, nat) -> string, n: nat): string
    requires Aligned(h) && n <= |h.stamps|
  {
    if n == 0 then ""
    else if Selected(h, today, n - 1) then Summary(h, today, toFixed, n - 1) + HourBlock(h, n - 1, toFixed)
    else Summary(h, today, toFixed, n - 1)
  }

  /** An index that does not match leaves every loop variable as it was. */
  lemma SkippedStep(h: Hourly, today: string, toFixed: (real, nat) -> string, i: nat)
    requires Aligned(h) && i < |h.stamps| && !Selected(h, today, i)
    ensures Run(h, today, toFixed, i + 1) == Run(h, today, toFixed, i)
  {
    HeaderStep(h, today, i);
  }

  /** One index's effect on firstMatchForHeader and headerIcon. */
  lemma HeaderStep(h: Hourly, today: string, i: nat)
    requires Aligned(h) && i < |h.stamps|
    ensures if Selected(h, today, i) && HeaderPending(h, today, i) && Known(h, i)
            then !HeaderPending(h, today, i + 1) && HeaderIcon(h, today, i + 1) == GlyphAt(h, i)
            else HeaderPending(h, today, i + 1) == HeaderPending(h, today, i)
                 && HeaderIcon(h, today, i + 1) == HeaderIcon(h, today, i)
  {
  }

  /** All the loop's variables after the first n indices. */
  function Run(h: Hourly, today: string, toFixed: (real, nat) -> string, n: nat): Daily
    requires Aligned(h) && n <= |h.stamps|
  {
    Daily(High(h, today, n), Low(h, today, n), RainTotal(h, today, n), WindTotal(h, today, n),
          Count(h, today, n), HeaderIcon(h, today, n), HeaderPending(h, today, n), Summary(h, today, toFixed, n))
  }

  /** The loop of the script's main body over the whole series. */
  method Aggregate(h: Hourly, today: string, toFixed: (real, nat) -> string) returns (d: Daily)
    requires Aligned(h)
    ensures d == Run(h, today, toFixed, |h.stamps|)
  {
    var hourlySummary := "";
    var headerIcon := DefaultHeaderIcon;
    var dayHighTemp := NegInf;
    var dayLowTemp := PosInf;
    var totalRain := 0.0;
    var totalWindSpeed := 0.0;
    var weatherCount: nat := 0;
    var firstMatchForHeader := true;

    var i := 0;
    while i < |h.stamps|
      invariant 0 <= i <= |h.stamps|
      invariant dayHighTemp == High(h, today, i) && dayLowTemp == Low(h, today, i)
      invariant totalRain == RainTotal(h, today, i) && totalWindSpeed == WindTotal(h, today, i)
      invariant weatherCount == Count(h, today, i)
      invariant firstMatchForHeader == HeaderPending(h, today, i) && headerIcon == HeaderIcon(h, today, i)
      invariant hourlySummary == Summary(h, today, toFixed, i)
    {
      dayHighTemp, dayLowTemp, totalRain, totalWindSpeed, weatherCount, firstMatchForHeader, headerIcon, hourlySummary :=
        Step(h, today, toFixed, i, dayHighTemp, dayLowTemp, totalRain, totalWindSpeed, weatherCount,
             firstMatchForHeader, headerIcon, hourlySummary);
      i := i + 1;
    }
    d := Daily(dayHighTemp, dayLowTemp, totalRain, totalWindSpeed, weatherCount, headerIcon,
               firstMatchForHeader, hourlySummary);
  }

  /** One iteration of the loop: index i updates the variables only when it matches. */
  method Step(h: Hourly, today: string, toFixed: (real, nat) -> string, i: nat,
              high: ExtInt, low: ExtInt, rain: real, wind: real, count: nat, pending: bool, icon: Glyph, summary: string)
    returns (highAfter: ExtInt, lowAfter: ExtInt, rainAfter: real, windAfter: real, countAfter: nat,
             pendingAfter: bool, iconAfter: Glyph, summaryAfter: string)
    requires Aligned(h) && i < |h.stamps|
    requires high == High(h, today, i) && low == Low(h, today, i)
    requires rain == RainTotal(h, today, i) && wind == WindTotal(h, today, i)
    requires count == Count(h, today, i)
    requires pending == HeaderPending(h, today, i) && icon == HeaderIcon(h, today, i)
    requires summary == Summary(h, today, toFixed, i)
    ensures highAfter == High(h, today, i + 1) && lowAfter == Low(h, today, i + 1)
    ensures rainAfter == RainTotal(h, today, i + 1) && windAfter == WindTotal(h, today, i + 1)
    ensures countAfter == Count(h, today, i + 1)
    ensures pendingAfter == HeaderPending(h, today, i + 1) && iconAfter == HeaderIcon(h, today, i + 1)
    ensures summaryAfter == Summary(h, today, toFixed, i + 1)
  {
    var stamp := h.stamps[i];
    if stamp.date == today && Includes(DesiredHours, stamp.time) {
      highAfter, lowAfter, rainAfter, windAfter, countAfter := Accumulate(h, today, i, high, low, rain, wind, count);
      pendingAfter, iconAfter := TakeHeader(h, today, i, pending, icon);
      summaryAfter := AppendHour(h, today, toFixed, i, summary);
    } else {
      SkippedStep(h, today, toFixed, i);
      highAfter, lowAfter, rainAfter, windAfter, countAfter := high, low, rain, wind, count;
      pendingAfter, iconAfter, summaryAfter := pending, icon, summary;
    }
  }

  /**
   The numeric updates of one matched index: Math.max and Math.min with the
   rounded temperature, the rain and wind totals, and the count.
   */
  method Accumulate(h: Hourly, today: string, i: nat, high: ExtInt, low: ExtInt, rain: real, wind: real, count: nat)
    returns (highAfter: ExtInt, lowAfter: ExtInt, rainAfter: real, windAfter: real, countAfter: nat)
    requires Aligned(h) && i < |h.stamps| && Selected(h, today, i)
    requires high == High(h, today, i) && low == Low(h, today, i)
    requires rain == RainTotal(h, today, i) && wind == WindTotal(h, today, i) && count == Count(h, today, i)
    ensures highAfter == High(h, today, i + 1) && lowAfter == Low(h, today, i + 1)
    ensures rainAfter == RainTotal(h, today, i + 1) && windAfter == WindTotal(h, today, i + 1)
    ensures countAfter == Count(h, today, i + 1)
  {
    var temp := Round(h.temperature[i]);
    highAfter := Max(high, temp);
    lowAfter := Min(low, temp);
    rainAfter := rain + h.precipitation[i];
    windAfter := wind + h.windSpeed[i];
    countAfter := count + 1;
  }

  /** The header update of one matched index: the first known condition sets the glyph and clears the flag. */
  method TakeHeader(h: Hourly, today: string, i: nat, pending: bool, icon: Glyph)
    returns (pendingAfter: bool, iconAfter: Glyph)
    requires Aligned(h) && i < |h.stamps| && Selected(h, today, i)
    requires pending == HeaderPending(h, today, i) && icon == HeaderIcon(h, today, i)
    ensures pendingAfter == HeaderPending(h, today, i + 1) && iconAfter == HeaderIcon(h, today, i + 1)
  {
    var condition := Classify(h.weatherCode[i]);
    var isNight := IsNight(ParseHour(h.stamps[i].time));
    HeaderStep(h, today, i);
    pendingAfter, iconAfter := pending, icon;
    if pending && condition.category != Unknown {
      iconAfter := WeatherGlyph(condition.category, condition.cloudiness, isNight);
      pendingAfter := false;
    }
  }

  /** One matched hour's lines appended to the summary: the hour line, then the UV line when there is advice. */
  method AppendHour(h: Hourly, today: string, toFixed: (real, nat) -> string, i: nat, summary: string)
    returns (extended: string)
    requires Aligned(h) && i < |h.stamps| && Selected(h, today, i)
    requires summary == Summary(h, today, toFixed, i)
    ensures extended == Summary(h, today, toFixed, i + 1)
  {
    var time := h.stamps[i].time;
    var hourNum := ParseHour(time);
    var condition := Classify(h.weatherCode[i]);
    var hourGlyph := WeatherGlyph(condition.category, condition.cloudiness, IsNight(hourNum));
    var uvText := UVAdvice(hourNum);
    var line := HourLine(time, hourGlyph, Round(h.temperature[i]), h.precipitation[i], h.windSpeed[i], toFixed);
    extended := summary + line;
    if uvText != "" {
      extended := extended + ("    " + uvText + "\n");
      AppendAssoc(summary, line, UVLine(uvText));
    } else {
      assert line + UVLine(uvText) == line;
    }
  }

  // ---------------------------------------------------------------------------
  // What the loop computes, stated independently of the loop's shape.

  /** The matched indices among the first n. */
  function SelectedBelow(h: Hourly, today: string, n: nat): set<nat>
    requires n <= |h.stamps|
  {
    set i: nat | i < n && Selected(h, today, i)
  }

  /** xs with every unmatched index among the first n replaced by zero. */
  function Masked(h: Hourly, today: string, xs: seq<real>, n: nat): seq<real>
    requires n <= |h.stamps| && n <= |xs|
  {
    seq(n, i requires 0 <= i < n => if Selected(h, today, i) then xs[i] else 0.0)
  }

  lemma MaskedStep(h: Hourly, today: string, xs: seq<real>, n: nat)
    requires n < |h.stamps| && n < |xs|
    ensures Masked(h, today, xs, n + 1)[..n] == Masked(h, today, xs, n)
  {
  }

  /** weatherCount is the number of matched indices. */
  lemma {:induction false} CountIsSelected(h: Hourly, today: string, n: nat)
    requires Aligned(h) && n <= |h.stamps|
    ensures Count(h, today, n) == |SelectedBelow(h, today, n)|
  {
    if n > 0 {
      CountIsSelected(h, today, n - 1);
      var before := SelectedBelow(h, today, n - 1);
      if Selected(h, today, n - 1) {
        assert SelectedBelow(h, today, n) == before + {n - 1};
        assert n - 1 !in before;
      } else {
        assert SelectedBelow(h, today, n) == before;
      }
    }
  }

  /** totalRain and totalWindSpeed are the sums over exactly the matched indices. */
  lemma {:induction false} TotalsAreSums(h: Hourly, today: string, n: nat)
    requires Aligned(h) && n <= |h.stamps|
    ensures RainTotal(h, today, n) == Sum(Masked(h, today, h.precipitation, n))
    ensures WindTotal(h, today, n) == Sum(Masked(h, today, h.windSpeed, n))
  {
    if n > 0 {
      TotalsAreSums(h, today, n - 1);
      MaskedStep(h, today, h.precipitation, n - 1);
      MaskedStep(h, today, h.windSpeed, n - 1);
    }
  }

  /** The matched indices below n, when there are none. */
  lemma NoneSelected(h: Hourly, today: string, n: nat)
    requires Aligned(h) && n <= |h.stamps|
    requires Count(h, today, n) == 0
    ensures forall i :: 0 <= i < n ==> !Selected(h, today, i)
  {
    CountIsSelected(h, today, n);
    assert SelectedBelow(h, today, n) == {};
    forall i | 0 <= i < n
      ensures !Selected(h, today, i)
    {
      assert i !in SelectedBelow(h, today, n);
    }
  }

  /**
   Without matches the sentinels stay; with matches high and low are finite,
   bound every matched rounded temperature and are each attained by one.
   */
  lemma {:induction false} Extremes(h: Hourly, today: string, n: nat)
    requires Aligned(h) && n <= |h.stamps|
    ensures Count(h, today, n) == 0 ==> High(h, today, n) == NegInf && Low(h, today, n) == PosInf
    ensures Count(h, today, n) > 0 ==> High(h, today, n).Fin? && Low(h, today, n).Fin?
                                       && Low(h, today, n).v <= High(h, today, n).v
    ensures Count(h, today, n) > 0 ==> forall i :: 0 <= i < n && Selected(h, today, i) ==>
                                         Low(h, today, n).v <= RoundedAt(h, i) <= High(h, today, n).v
    ensures Count(h, today, n) > 0 ==>
              exists i :: 0 <= i < n && Selected(h, today, i) && RoundedAt(h, i) == High(h, today, n).v
    ensures Count(h, today, n) > 0 ==>
              exists j :: 0 <= j < n && Selected(h, today, j) && RoundedAt(h, j) == Low(h, today, n).v
  {
    if n > 0 {
      Extremes(h, today, n - 1);
      if Selected(h, today, n - 1) {
        var t := RoundedAt(h, n - 1);
        if Count(h, today, n - 1) == 0 {
          NoneSelected(h, today, n - 1);
          assert High(h, today, n) == Fin(t) && Low(h, today, n) == Fin(t);
        } else {
          if High(h, today, n) != High(h, today, n - 1) {
            assert High(h, today, n) == Fin(t);
          }
          if Low(h, today, n) != Low(h, today, n - 1) {
            assert Low(h, today, n) == Fin(t);
          }
        }
      }
    }
  }

  /** No matched index among the first n has a known condition. */
  predicate NoKnownBelow(h: Hourly, today: string, n: nat)
    requires Aligned(h) && n <= |h.stamps|
  {
    forall j :: 0 <= j < n && Selected(h, today, j) ==> !Known(h, j)
  }

  /** k is the first matched index with a known condition. */
  predicate FirstKnown(h: Hourly, today: string, k: int)
    requires Aligned(h) && 0 <= k < |h.stamps|
  {
    Selected(h, today, k) && Known(h, k) && NoKnownBelow(h, today, k)
  }

  /** Extending the prefix by one index adds one candidate to the "no known condition yet" test. */
  lemma NoKnownBelowStep(h: Hourly, today: string, n: nat)
    requires Aligned(h) && 0 < n <= |h.stamps|
    ensures NoKnownBelow(h, today, n)
        <==> NoKnownBelow(h, today, n - 1) && !(Selected(h, today, n - 1) && Known(h, n - 1))
  {
  }

  /** firstMatchForHeader is still set exactly while no matched hour has had a known condition. */
  lemma {:induction false} HeaderFlag(h: Hourly, today: string, n: nat)
    requires Aligned(h) && n <= |h.stamps|
    ensures HeaderPending(h, today, n) <==> NoKnownBelow(h, today, n)
  {
    if n > 0 {
      HeaderFlag(h, today, n - 1);
      NoKnownBelowStep(h, today, n);
    }
  }

  /** Until a matched hour has a known condition, the header keeps the default glyph. */
  lemma HeaderDefault(h: Hourly, today: string, n: nat)
    requires Aligned(h) && n <= |h.stamps|
    ensures NoKnownBelow(h, today, n) ==> HeaderIcon(h, today, n) == DefaultHeaderIcon
  {
    HeaderFlag(h, today, n);
  }

  /** An index that is matched and known while the flag is still set stays the header's index. */
  lemma {:induction false} HeaderIndexFrom(h: Hourly, today: string, n: nat, k: nat)
    requires Aligned(h) && k < n <= |h.stamps|
    requires HeaderPending(h, today, k) && Selected(h, today, k) && Known(h, k)
    ensures HeaderIndex(h, today, n) == Some(k)
  {
    if k < n - 1 {
      HeaderIndexFrom(h, today, n - 1, k);
    }
  }

  /**
   The header glyph is that of the first matched hour whose condition is known;
   later matches never change it.
   */
  lemma HeaderIsFirstKnown(h: Hourly, today: string, n: nat, k: nat)
    requires Aligned(h) && k < n <= |h.stamps|
    requires FirstKnown(h, today, k)
    ensures HeaderIcon(h, today, n) == GlyphAt(h, k)
  {
    HeaderFlag(h, today, k);
    HeaderIndexFrom(h, today, n, k);
  }

  /** Once some matched hour has a known condition, there is a first one. */
  lemma {:induction false} SomeFirstKnown(h: Hourly, today: string, n: nat)
    requires Aligned(h) && n <= |h.stamps|
    requires !NoKnownBelow(h, today, n)
    ensures exists k :: 0 <= k < n && FirstKnown(h, today, k)
  {
    NoKnownBelowStep(h, today, n);
    if NoKnownBelow(h, today, n - 1) {
      assert FirstKnown(h, today, n - 1);
    } else {
      SomeFirstKnown(h, today, n - 1);
    }
  }

  /** The blocks the matched indices among the first n contribute, in index order. */
  function Blocks(h: Hourly, today: string, toFixed: (real, nat) -> string, n: nat): seq<string>
    requires Aligned(h) && n <= |h.stamps|
  {
    seq(n, i requires 0 <= i < n => if Selected(h, today, i) then HourBlock(h, i, toFixed) else "")
  }

  lemma BlocksStep(h: Hourly, today: string, toFixed: (real, nat) -> string, n: nat)
    requires Aligned(h) && 0 < n <= |h.stamps|
    ensures Blocks(h, today, toFixed, n)[..n - 1] == Blocks(h, today, toFixed, n - 1)
  {
  }

  lemma HourBlockNonEmpty(h: Hourly, i: int, toFixed: (real, nat) -> string)
    requires Aligned(h) && 0 <= i < |h.stamps|
    ensures |HourBlock(h, i, toFixed)| > 0
  {
  }

  /** The hourly summary is the matched hours' blocks in index order. */
  lemma {:induction false} SummaryIsBlocks(h: Hourly, today: string, toFixed: (real, nat) -> string, n: nat)
    requires Aligned(h) && n <= |h.stamps|
    ensures Summary(h, today, toFixed, n) == Flatten(Blocks(h, today, toFixed, n))
  {
    if n > 0 {
      SummaryIsBlocks(h, today, toFixed, n - 1);
      BlocksStep(h, today, toFixed, n);
      if !Selected(h, today, n - 1) {
        AppendEmpty(Summary(h, today, toFixed, n - 1));
      }
    }
  }

  /** The hourly summary is empty exactly when nothing matched. */
  lemma {:induction false} SummaryEmpty(h: Hourly, today: string, toFixed: (real, nat) -> string, n: nat)
    requires Aligned(h) && n <= |h.stamps|
    ensures |Summary(h, today, toFixed, n)| == 0 <==> Count(h, today, n) == 0
  {
    if n > 0 {
      SummaryEmpty(h, today, toFixed, n - 1);
      if Selected(h, today, n - 1) {
        HourBlockNonEmpty(h, n - 1, toFixed);
      }
    }
  }

  /** Some matched hour among the first n got the UV advisory. */
  predicate SomeAdvisory(h: Hourly, today: string, n: nat)
    requires n <= |h.stamps|
  {
    exists i :: 0 <= i < n && Selected(h, today, i) && UVAdvice(ParseHour(h.stamps[i].time)) != ""
  }

  lemma Regroup(line: string, p: string)
    ensures line + ("    " + ("☀️ " + p) + "\n") == (line + "    ☀️ ") + p + "\n"
  {
  }

  /** A block with the advisory line contains the phrase the script searches for. */
  lemma BlockHasPhrase(h: Hourly, i: int, toFixed: (real, nat) -> string)
    requires Aligned(h) && 0 <= i < |h.stamps|
    requires UVAdvice(ParseHour(h.stamps[i].time)) != ""
    ensures Contains(HourBlock(h, i, toFixed), SunPhrase)
  {
    var time := h.stamps[i].time;
    var line := HourLine(time, GlyphAt(h, i), RoundedAt(h, i), h.precipitation[i], h.windSpeed[i], toFixed);
    assert HourBlock(h, i, toFixed) == line + UVLine(UVAdvice(ParseHour(time)));
    Regroup(line, SunPhrase);
    ContainsMiddle(line + "    ☀️ ", SunPhrase, "\n");
  }

  /**
   Once some matched hour got the UV advisory, the summary text contains the
   phrase the script searches for, so the sun recommendation follows.
   */
  lemma AdvisoryInSummary(h: Hourly, today: string, toFixed: (real, nat) -> string, n: nat)
    requires Aligned(h) && n <= |h.stamps|
    ensures SomeAdvisory(h, today, n) ==> Contains(Summary(h, today, toFixed, n), SunPhrase)
  {
    if SomeAdvisory(h, today, n) {
      var i :| 0 <= i < n && Selected(h, today, i) && UVAdvice(ParseHour(h.stamps[i].time)) != "";
      var blocks := Blocks(h, today, toFixed, n);
      SummaryIsBlocks(h, today, toFixed, n);
      BlockHasPhrase(h, i, toFixed);
      assert blocks[i] == HourBlock(h, i, toFixed);
      FlattenContains(blocks, i, SunPhrase);
    }
  }

  /** The invariant the composer relies on: finite extremes exactly when something matched. */
  predicate Consistent(d: Daily) {
    && (d.count == 0 ==> d.high == NegInf && d.low == PosInf && d.hourlySummary == "")
    && (d.count > 0 ==> d.high.Fin? && d.low.Fin? && d.low.v <= d.high.v && d.hourlySummary != "")
  }

  lemma RunConsistent(h: Hourly, today: string, toFixed: (real, nat) -> string, n: nat)
    requires Aligned(h) && n <= |h.stamps|
    ensures Consistent(Run(h, today, toFixed, n))
  {
    Extremes(h, today, n);
    SummaryEmpty(h, today, toFixed, n);
  }
}
