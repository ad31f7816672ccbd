# Weather forecast processor: a verified model

The repository is a single n8n code-node script. It reads Open-Meteo hourly
forecast arrays and writes a Telegram message covering today's selected hours
in the Europe/Luxembourg timezone. This project models the script's logic in
Dafny and proves what it promises. There are four modules.

- `Basics` (`basics.dfy`) holds the shared value types and helpers:
  - an `Option` type;
  - `ExtInt`, the integers extended with the script's `-Infinity`/`Infinity` sentinels;
  - `Math.max`, `Math.min` and `Math.round`;
  - sums and concatenations;
  - decimal printing of integers;
  - `Array.prototype.includes` and `String.prototype.includes`.
- `Conditions` (`conditions.dfy`) holds the condition classifier and the glyph selectors:
  - `mapWmoCodeToWeatherCondition`, `getWeatherEmoji`, `getTemperatureEmoji`, `getWindInfo` and `getUVAdvice`;
  - categories, glyphs, temperature glyphs and wind labels are datatypes.
- `Aggregation` (`aggregation.dfy`) holds the loop over the hourly series, the functions that specify it, and the lemmas about them:
  - The method `Aggregate` keeps the script's variables and its loop. `Step` is one iteration of the loop body. `Accumulate`, `TakeHeader` and `AppendHour` are the three parts of a matched index's update.
  - Its invariants tie each variable to a recursive function over the first `i` indices: `High`, `Low`, `RainTotal`, `WindTotal`, `Count`, `HeaderPending`/`HeaderIcon` and `Summary`.
  - The lemmas relate those functions to independent definitions: the set of matched indices; sums over the masked series; "the first matched hour with a known condition"; and the sequence of rendered blocks.
- `Composer` (`composer.dfy`) builds the message:
  - the daily overview, the hourly section, the recommendations and the footer;
  - `Message` states the whole text as a function of the loop's variables;
  - `ComposeMessage` builds it by the script's successive appends and is proved equal to `Message`;
  - `ForecastMessage` is the script's main body: the loop, then the message.

The model does not convert timezones. Each entry of the series arrives with its
local calendar date and local `HH:MM` time. "Today" is a parameter. The hour
number comes from the local time's first two characters, as `parseInt` reads
them. `toFixed` is a parameter `(real, nat) -> string` in every text it
affects. The same holds for the formatted date line, the update time and the
footer's timezone abbreviation. Numbers are `real`, and the rounded
temperature is an `int`.

Points where script.js behaves in a way a reader might not expect, all followed as written:

- **Header icon.** `firstMatchForHeader` stays set until a matched hour's category is not `Unknown` (script.js:166-169). A later known hour can therefore still set the icon. `Aggregation.HeaderIsFirstKnown` states this.
- **Rounding.** The temperature goes through `Math.round` (script.js:149), which rounds halves towards +Infinity, so -2.5 becomes -2. `Basics.Round` is `Floor(x + 0.5)`.
- **Classifier ranges.** Codes 52, 54, 62, 64, 72 and 74 have no entry of their own. They fall inside the ranges of script.js:22-49 and get the range's generic description. `Conditions.UnnamedCodesInRanges` states this.

## Model

| member | source | states |
|---|---|---|
| Conditions.Classify | script.js:12-62 | The classifier is total. Cloudiness is always in 0..100 and the category is one of the eight classified ones. The category is `Unknown` exactly for codes outside the listed set. Those codes get the description "WMO <code>" and cloudiness 50. |
| Conditions.DrizzleRange | script.js:22-28 | Every code from 51 to 55, named or not, is Drizzle with cloudiness 90. |
| Conditions.UnnamedCodesInRanges | script.js:22-58 | 52 and 54 get "Drizzle", 62 and 64 get "Rain", and 72 and 74 get "Snow fall" from their ranges. 56/57 and 66/67 fall outside those ranges and reach their own Freezing entries. |
| Conditions.WeatherGlyph | script.js:64-78 | The moon or the sun exactly for Clear. The cloud, the sun behind a cloud or the sun behind a small cloud exactly for Clouds. The fog bank exactly for Fog, Mist, Haze and Smoke. The globe exactly for a category without an entry. |
| Conditions.ClearGlyph | script.js:66 | Clear gives the moon at night and the sun by day, whatever the cloudiness. |
| Conditions.CloudsGlyph | script.js:67 | For Clouds: overcast iff cloudiness > 75, partial iff 26..75, few clouds iff <= 25. The night flag plays no part. |
| Conditions.ClassifiedGlyph | script.js:12-78 | A classified code gets the globe exactly when it is not a known code. It gets the fog bank only for 45 and 48. |
| Conditions.TemperatureEmoji | script.js:80-88 | The ice glyph iff below 5. Fire iff 30 or more. |
| Conditions.TemperatureEmojiCountsBreakpoints | script.js:80-88 | The glyph's rank on the cold-to-hot scale equals the number of `>=` breakpoints (5, 10, 15, 20, 25, 30) the temperature reaches. |
| Conditions.TemperatureEmojiMonotone | script.js:80-88 | A warmer temperature never gets a colder glyph. |
| Conditions.WindLabelFor | script.js:94-98 | Calm iff below 5 km/h. Very windy iff 70 km/h or more. |
| Conditions.WindLabelCountsBreakpoints | script.js:94-98 | The label's rank equals the number of strict `<` breakpoints (5, 20, 40, 70) the speed has reached. |
| Conditions.WindLabelMonotone | script.js:94-98 | A stronger wind never gets a calmer label. |
| Conditions.WindInfo | script.js:100 | The text starts with the wind glyph, the speed band's label and an opening parenthesis. It ends with the speed to one decimal place and " km/h)". |
| Conditions.NightHours | script.js:155 | NaN is never night. Of the hours 0 to 23, exactly 0 to 5 and 21 to 23 are night. |
| Conditions.UVAdvice | script.js:103-106 | The advice is non-empty iff the hour is a number from 10 to 16. When non-empty it is the sun-protection advisory. NaN gets nothing. |
| Basics.Max | script.js:159 | `Math.max` of a running maximum other than +Infinity and a finite value: the result is finite, at least both operands, and one of them. |
| Basics.Min | script.js:160 | `Math.min` of a running minimum other than -Infinity and a finite value: the result is finite, at most both operands, and one of them. |
| Basics.Round | script.js:149 | `Math.round` is within half of x, with halves going up. |
| Basics.IncludesIn | script.js:148 | `Array.prototype.includes` holds iff the value is an element. |
| Basics.ContainsAt | script.js:242 | `String.prototype.includes` holds iff the phrase occurs at some position. |
| Basics.IntToStringDenotes | script.js:179 | A non-negative integer prints as a canonical numeral denoting it: digits only, no leading zero. A negative one prints as a minus sign followed by the canonical numeral of its magnitude. |
| Basics.NatToStringCanonical | script.js:179 | The digits printed for a natural number form a non-empty numeral without a leading zero. |
| Basics.NatToStringValue | script.js:179 | The digits printed for a natural number denote that number. |
| Basics.CanonicalUnique | script.js:179 | A canonical numeral is the printed form of the number it denotes, so the printed form is the only canonical one. |
| Basics.TrimStartDrops | script.js:146 | The white-space trimming at the start of `parseInt` drops a prefix of ECMAScript white-space characters and stops at a non-space. |
| Basics.LeadingDigitsPrefix | script.js:146 | The digits `parseInt` reads are the longest prefix of decimal digits. |
| Aggregation.ParseTwoDigits | script.js:146 | Two leading digits give their two-digit value. |
| Aggregation.ParseOneDigit | script.js:146 | A digit followed by the end of the text or by a non-digit gives that digit's value, unless the two form `0x` or `0X`. |
| Aggregation.ParseHexPrefix | script.js:146 | A slice `0x` or `0X` gives NaN. |
| Aggregation.ParseSignedDigit | script.js:146 | A plus sign, a minus sign or a white-space character followed by a digit gives the digit, negated after a minus sign. |
| Aggregation.ParseSignAlone | script.js:146 | A sign or a white-space character followed by the end of the text or by a non-digit gives NaN. |
| Aggregation.ParseNoDigit | script.js:146 | An empty time, or one whose first character is not a digit, a sign or white space, gives NaN. |
| Aggregation.ParseHourRange | script.js:146 | Whatever the time, the hour is NaN or a number from -9 to 99. |
| Aggregation.DesiredHoursFacts | script.js:121-177 | The five selected times parse to the hours 9, 12, 15, 18 and 21. Of them, only 21:00 is night, and only 12:00 and 15:00 get the UV advisory. |
| Aggregation.HourLine | script.js:171-179 | An hour's line starts with the clock glyph, the time in bold, the hour's weather glyph and the rounded temperature in °C. It ends with a line break. |
| Aggregation.HourLineFragments | script.js:173-179 | Between the temperature and the line break come exactly the texts of the fragments the hour carries, in order. |
| Aggregation.HourSuffixesPresent | script.js:173-176 | The rain fragment is present iff the rain is above 0. The wind fragment is present iff the wind is above 10 km/h. Nothing else is present, and rain comes before wind. |
| Aggregation.HourBlockAdvisory | script.js:177-180 | A matched hour's block is its line plus the indented advisory line, exactly when its hour is 10 to 16. |
| Aggregation.Aggregate | script.js:123-182 | The loop's eight variables end equal to `Run` over the whole series. Each variable equals its specification function after every index. |
| Aggregation.Step | script.js:146-181 | One iteration takes every loop variable from its specification function's value at i to its value at i + 1. |
| Aggregation.Accumulate | script.js:159-163 | For a matched index, `Math.max`, `Math.min`, the two additions and the increment take high, low, rain, wind and count to their specification functions' values at i + 1. |
| Aggregation.TakeHeader | script.js:165-169 | For a matched index, the guarded header update takes the flag and the header glyph to their specification functions' values at i + 1. |
| Aggregation.AppendHour | script.js:171-180 | For a matched index, appending the hour line and then the optional UV line gives the summary of the first i + 1 indices. |
| Aggregation.SkippedStep | script.js:148 | An index that is not today or not a selected time changes no loop variable. |
| Aggregation.HeaderStep | script.js:166-169 | A matched, known hour while the flag is set clears the flag and sets the header to its glyph. Any other index changes neither. |
| Aggregation.CountIsSelected | script.js:163 | `weatherCount` is the number of indices whose local date is today and whose local time is a selected time. |
| Aggregation.TotalsAreSums | script.js:161-162 | `totalRain` and `totalWindSpeed` are the sums of the series with every unmatched index set to zero. |
| Aggregation.NoneSelected | script.js:163 | A zero count means no index matched. |
| Aggregation.Extremes | script.js:125-160 | Without matches the sentinels stay. With matches, low and high are finite and low <= high. Both bound every matched rounded temperature, and each is some matched hour's rounded temperature. |
| Aggregation.HeaderFlag | script.js:131-169 | `firstMatchForHeader` is still set exactly when no matched hour so far has a known condition. |
| Aggregation.HeaderDefault | script.js:124-169 | While no matched hour has a known condition, the header keeps the default glyph. |
| Aggregation.HeaderIsFirstKnown | script.js:165-169 | The header glyph is that of the first matched hour with a known condition. Later matches never change it. |
| Aggregation.SomeFirstKnown | script.js:166 | If some matched hour has a known condition, then a first such hour exists. |
| Aggregation.SummaryIsBlocks | script.js:179-180 | `hourlySummary` is the matched hours' blocks, in index order. |
| Aggregation.SummaryEmpty | script.js:179-219 | The summary is empty exactly when nothing matched. |
| Aggregation.BlockHasPhrase | script.js:180-242 | A block with the advisory line contains the phrase the sun recommendation searches for. |
| Aggregation.AdvisoryInSummary | script.js:177-242 | If some matched hour got the UV advisory, the summary contains the searched-for phrase. |
| Aggregation.RunConsistent | script.js:125-182 | After the loop, either nothing matched, the sentinels stand and the summary is empty; or the extremes are finite and ordered and the summary is not empty. |
| Composer.LocationName | script.js:114 | A present timezone abbreviation is the location. A missing one gives the fallback name. The name is never empty. |
| Composer.AverageWind | script.js:185-188 | Zero without matches. Otherwise the value that, multiplied by the count, gives the wind total. |
| Composer.MeanAbove | script.js:211-238 | The mean exceeds a threshold iff the total exceeds the threshold times the count. |
| Composer.OverviewLines | script.js:202-213 | Exactly one temperature line comes first: the range iff something matched, and the no-data line iff nothing did. The rain line appears iff rain is above 0. The wind line appears iff the mean wind exceeds 2 km/h over at least one match. |
| Composer.AppendOverview | script.js:201-213 | The overview's conditional appends produce the text of `Overview`'s lines. |
| Composer.RecommendationTriggers | script.js:228-244 | Each recommendation fires iff its strict threshold is passed: umbrella iff rain exceeds 0.5; warm clothing iff count > 0 and low < 10; hydration iff count > 0 and high > 25; windy iff count > 0 and mean wind > 30; sun protection iff the summary contains the phrase. The list is empty iff none fires. |
| Composer.NoSentinelShown | script.js:202-236 | No shown range, low or high is ever a sentinel. |
| Composer.CollectRecommendations | script.js:228-244 | The successive appends produce the recommendations' lines, in the script's order. |
| Composer.AppendAdvice | script.js:229-231 | One gated append adds the advice's line exactly when its gate holds. |
| Composer.RecommendationsTextEmpty | script.js:247 | The recommendations text is empty exactly when no recommendation fired. |
| Composer.RecommendationsSectionShown | script.js:247-250 | The Recommendations heading and lines appear iff at least one recommendation fired. |
| Composer.HourlySectionShown | script.js:219-224 | The summary follows the hourly heading when something matched. The "No forecast data" line follows it otherwise. |
| Composer.ComposeMessage | script.js:185-267 | The script's appends build exactly `Message` of the loop's variables. |
| Composer.ForecastMessage | script.js:114-267 | The main body's output is `Message` of `Run` over the whole series. |

## Left out

- Timezone conversion and the clock (script.js:117-119, 136-146, 192-198, 253-257). These use the Intl and timezone database. Each entry carries its local date and local `HH:MM` time, and today's date is a parameter. The date line and the update time are already-formatted strings given by the caller.
- The footer's timezone-abbreviation lookup and its `try/catch` fallback (script.js:258-265). These are a foreign Intl call with an exception path. The abbreviation is a parameter.
- `toFixed` (script.js:100, 174, 176, 209) is float-to-decimal formatting. It is a caller-supplied function `(real, nat) -> string`. The model fixes which fragments appear and in what order, not the digits.
- IEEE floating point. Temperatures, rain and wind are `real`, so there is no rounding error in sums and no NaN inputs.
- The n8n input and output wrapper (script.js:110, 269).
- `parseInt` (script.js:146) is modelled for the two-character slice: leading ECMAScript white space, an optional sign, the `0x`/`0X` hexadecimal prefix, then decimal digits. The line-terminator and space-separator sets are written out character by character. Every case gives NaN or a number from -9 to 99. `-0` and `0` are the same integer here.
- Mismatched array lengths. JavaScript would read `undefined` past the end of a shorter array. The model requires all arrays to have the length of the time array (`Aggregation.Aligned`).
- `tempEmoji` and the `description` field are computed but never printed (script.js:171). Only the glyph choice is modelled; the description is kept in `Classify`'s result.
- Aggregation.AdvisoryInSummary: states only one direction (an advisory implies the phrase). The converse fails in general, because the caller-supplied `toFixed` text could itself contain the phrase. The sun recommendation is stated exactly in terms of the phrase search (`Composer.RecommendationTriggers`).
