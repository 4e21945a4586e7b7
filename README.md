# Bāzì chart engine — Dafny model

This project models the chart engine of `lib/bazi.ts`: everything `analyzeBazi`
does once the calendar library has produced the four pillars (year, month,
day and hour). Each pillar is a heavenly stem (天干) followed by an earthly
branch (地支).

The model covers:

- the stem and branch tables: element (五行), zodiac animal (生肖), fortune trait;
- the sound-element (纳音) lookup `getNaYin`;
- the ten-gods (十神) classifier `getShiShen`, with its element relation (同我, 我生, 生我, 我克, 克我) and the polarity flag;
- the chart arrays `pillars`, `elements` and `zodiacs`, and the multi-line `analysis` text;
- the narrator: `getFortuneAnalysis`, `getYearFortune`, `getMonthFortune`, `getFortuneDesc`;
- the way the page (`components/bazi.tsx`) reads the pillars back out of the analysis text, and a proof that this read gives back the four pillars.

Everything in the core is pure, so the model is functions and lemmas, one module per concern:

| module | file | contents |
|---|---|---|
| `JsStrings` | `js_strings.dfy` | the JavaScript string and array operations the code relies on |
| `Tables` | `tables.dfy` | stems, branches, elements and the four `Record` tables |
| `NaYin` | `nayin.dfy` | the 5×6 sound-element table and its lookup |
| `TenGods` | `ten_gods.dfy` | the element relation and the ten-gods label |
| `Fortune` | `fortune.dfy` | day-master strength, the year and month lines, the narrative |
| `Chart` | `chart.dfy` | the chart arrays and the analysis template |
| `Report` | `report.dfy` | the analysis text as lines; the page's parse; the round trip |

Strings are `seq<char>`, and table keys are strings, as in the `Record<string, string>` tables.

A character taken past the end of a string, as with `pillar[1]`, `dayPillar[0]` or a destructured `split('')`, is JavaScript's `undefined`. The code uses such a value as a `Record` key, in `indexOf`, in `includes` and in a template, and in every one of those places it acts like the string `"undefined"`. `JsStrings.At` represents it that way.

Because of this, every lookup, `NaYinOf` and `ShiShen` are total and need no precondition. A few differences from the code are handled explicitly:

- **Missing stem in `getShiShen`.** Its private element table has no `|| ''`, so a missing stem's element is `undefined` rather than `''`. That makes no difference to the relation: both values equal only themselves and are absent from the cycle. So the model uses the shared `StemElement`.
- **Remainder on negative numbers.** `%` on the index -1 of an unknown stem follows JavaScript's truncating remainder (`JsRem`).
- **`Math.floor(x / 2)`.** This is Dafny's `x / 2`, which also rounds down for a negative `x`.

### The sound-element table

The traditional sixty-pair table gives 丙寅 炉中火 and 戊辰 大林木. The code does not reproduce it.

- Its table rows are written in cycle order.
- They are read at row `floor(stem/2)`, column `floor(branch/2)`.
- So 丙寅 yields 城头土 and 戊辰 yields 长流水.
- The parity-mismatched 甲丑 yields 海中金, like 甲子.

The model follows the code and proves these readings.

## Model

| member | source | states |
|---|---|---|
| JsStrings.At | lib/bazi.ts:55 | `pillar.split('')[i]` / `pillar[i]`: the one-character string at `i`, or "undefined" past the end |
| JsStrings.IndexOf | lib/bazi.ts:159-160 | `indexOf`: -1 exactly when the key is absent; otherwise the first position holding it |
| JsStrings.JsRem | lib/bazi.ts:217 | JavaScript `%`: Euclidean on non-negative numbers; for a negative number, the sign of the dividend and magnitude |a| mod b (so `-1 % 2` is -1) |
| JsStrings.Join | lib/bazi.ts:72 | `join`: one part is itself, no parts is "" |
| JsStrings.Split | components/bazi.tsx:157 | `split(c)`: at least one piece, exactly one when `c` does not occur |
| JsStrings.SplitJoin | components/bazi.tsx:157-159 | splitting parts joined by `c` gives the parts back when none contains `c` |
| JsStrings.Contains | components/bazi.tsx:158 | `includes`: a prefix is included; an included string is no longer than the text |
| JsStrings.ContainsOccurs | components/bazi.tsx:158 | `includes` holds exactly when the pattern occurs at some position of the text |
| JsStrings.ReplaceFirst | components/bazi.tsx:159 | `replace`: no effect without an occurrence; a leading occurrence is replaced |
| JsStrings.ReplaceFirstOccurrence | components/bazi.tsx:159 | `replace` with a string pattern replaces the first occurrence, wherever it starts, and keeps the text around it |
| Tables.StemElement | lib/bazi.ts:125-134 | an element exactly for the ten stems, "" for any other key |
| Tables.BranchElement | lib/bazi.ts:137-144 | an element exactly for the twelve branches, "" for any other key |
| Tables.ZodiacOf | lib/bazi.ts:147-154 | a non-empty animal exactly for the twelve branches, "" otherwise |
| Tables.FortuneDesc | lib/bazi.ts:115-122 | never empty; something other than 运势平稳 exactly for a branch |
| Tables.StemElementByIndex | lib/bazi.ts:126-132 | the i-th stem has the (i/2)-th element of 木火土金水 |
| Tables.StemsOfElement | lib/bazi.ts:126-132 | each element belongs to exactly the stems at positions 2k and 2k+1 |
| Tables.BranchElementGroups | lib/bazi.ts:138-142 | 寅卯 木, 巳午 火, 辰戌丑未 土, 申酉 金, 亥子 水, in both directions |
| Tables.ZodiacByIndex | lib/bazi.ts:148-152 | the i-th branch has the i-th animal of 鼠牛虎兔龙蛇马羊猴鸡狗猪 |
| Tables.ZodiacDistinct | lib/bazi.ts:148-152 | different branches have different animals |
| Tables.StemsAreNotBranches | lib/bazi.ts:159-160 | no key is both a stem and a branch |
| Tables.StemIndex | lib/bazi.ts:159 | `indexOf` finds each stem at its own position |
| Tables.BranchIndex | lib/bazi.ts:160 | `indexOf` finds each branch at its own position |
| NaYin.TableShape | lib/bazi.ts:165-172 | five rows of six three-character names |
| NaYin.NaYinOf | lib/bazi.ts:157-179 | "" exactly when the stem or the branch is unknown; otherwise a cell of the table |
| NaYin.NaYinByIndex | lib/bazi.ts:175-176 | stem i with branch j reads the cell at row i/2, column j/2 |
| NaYin.NaYinDependsOnPairs | lib/bazi.ts:175-176 | the result depends only on the stem pair and the branch pair |
| NaYin.NaYinCellsReached | lib/bazi.ts:165-176 | every cell is the result of some parity-matched pillar |
| NaYin.NaYinFirstCell | lib/bazi.ts:166-176 | 甲子, 乙丑 and the mismatched 甲丑 all give 海中金 |
| NaYin.NaYinBingYin | lib/bazi.ts:167-176 | 丙寅 gives 城头土 |
| NaYin.NaYinWuChen | lib/bazi.ts:167-176 | 戊辰 gives 长流水 |
| TenGods.Relate | lib/bazi.ts:205-214 | equal elements give 同我 |
| TenGods.RelateMeaning | lib/bazi.ts:205-214 | on the five elements, each of the five answers holds exactly when its relation (same, generates, generated by, dominates, dominated by) holds |
| TenGods.RelateSwap | lib/bazi.ts:205-214 | swapping the elements swaps 我生 with 生我 and 我克 with 克我 and keeps 同我 |
| TenGods.TenGodName | lib/bazi.ts:220-239 | always one of the ten names: the pair of the relation, first name for equal polarity |
| TenGods.TenGodFamilies | lib/bazi.ts:220-239 | the name gives back the relation (its pair) and the polarity flag (its column) |
| TenGods.ShiShen | lib/bazi.ts:182-243 | always one of the ten names, never ""; the same stem on both sides gives 比肩 |
| TenGods.ShiShenMeaning | lib/bazi.ts:188-239 | for two stems, the name's pair is the element relation and its column the equality of stem parities |
| TenGods.ShiShenSwap | lib/bazi.ts:201-239 | swapping day master and target maps 食神/伤官 to 偏印/正印 and 偏财/正财 to 七杀/正官, and back, in the same column |
| TenGods.MirrorName | lib/bazi.ts:221-236 | the converse relation gives the mirrored name |
| Fortune.YangStemsAreEvenStems | lib/bazi.ts:94 | 甲丙戊庚壬 are exactly the stems at even positions |
| Fortune.Strength | lib/bazi.ts:93-98 | always 偏强 or 偏弱, never 中; 偏强 exactly when (yang stem and male) or (not yang and female) |
| Fortune.YearElementsConcat | lib/bazi.ts:105-107 | `split('').map(...).join('')` works character by character: the element text of a concatenation is the concatenation of the element texts |
| Fortune.YearElementsChar | lib/bazi.ts:105-107 | a single character has length 1, so it always goes through the stem table |
| Fortune.YearElementsNoStem | lib/bazi.ts:105-107 | a pillar without stem characters gives "" |
| Fortune.YearElementsOfPillar | lib/bazi.ts:105-107 | for a real pillar the parenthesis holds only the stem's element: the branch goes through the stem table |
| Fortune.YearFortuneOfPillar | lib/bazi.ts:104-109 | the year line is 年柱, the pillar, (stem element), 主 and the branch's trait |
| Fortune.MonthFortune | lib/bazi.ts:111-113 | the month line is 月柱, the pillar, 主 and the trait; steady exactly when the second character is not a branch |
| Report.NarrativeLines | lib/bazi.ts:88-102 | for real pillars the narrative splits into exactly two lines: the day-master line, then the year and month lines |
| Fortune.FortuneIgnoresHour | lib/bazi.ts:89-101 | the hour pillar does not affect the narrative |
| Chart.Pillars | lib/bazi.ts:45-50 | four pillars in year, month, day, hour order |
| Chart.PillarElements | lib/bazi.ts:54-57 | for a real pillar, two element characters |
| Chart.Elements | lib/bazi.ts:54-57 | one element pair per pillar, at the same position |
| Chart.Zodiacs | lib/bazi.ts:60-63 | one animal per pillar, from its branch |
| Chart.NaYins | lib/bazi.ts:66 | one sound element per pillar |
| Chart.ShiShens | lib/bazi.ts:67 | every ten god is taken against the day pillar; the day pillar's own is 比肩 |
| Chart.AnalyzeBazi | lib/bazi.ts:45-84 | pillars in order, four elements and four zodiacs, and the analysis text of those pillars |
| Chart.ChartValues | lib/bazi.ts:54-63 | elements[i] is the stem element then the branch element of pillar i; zodiacs[i] the animal of its branch |
| Chart.ChartOfPillars | lib/bazi.ts:54-63 | for a real pillar, a two-character element pair and a non-empty animal |
| Report.HeadLines | lib/bazi.ts:70-76 | eight lines before the narrative with a name, seven without |
| Report.ReportLines | lib/bazi.ts:70-77 | ten lines with a name, nine without |
| Report.HeadLayout | lib/bazi.ts:70-77 | the text before the narrative is the head lines joined by line breaks |
| Report.AnalysisLayout | lib/bazi.ts:70-77 | the analysis text is exactly its lines joined by line breaks |
| Report.LinesAroundLabel | lib/bazi.ts:70-77 | the lines are those above the 八字： line, that line, and those below |
| Report.MarkedReportLines | lib/bazi.ts:70-77 | splitting the text into lines and filtering on 八字： keeps only the pillar line |
| Report.MarkedLines | components/bazi.tsx:158 | a line is in the result exactly when it is a line of the input that includes 八字： |
| Report.MarkedLinesCount | components/bazi.tsx:158 | each line including 八字： is kept as often as it occurs in the input; every other line is dropped |
| Report.MarkedLine | components/bazi.tsx:158 | a single line is kept exactly when it includes 八字：; with MarkedLinesAppend this fixes the result and its order for any list |
| Report.MarkedLinesAppend | components/bazi.tsx:158 | the filter distributes over concatenation |
| Report.Fields | components/bazi.tsx:159 | the flatMap yields at least one piece per line |
| Report.ParsePillars | components/bazi.tsx:157-160 | at most four pieces |
| Report.TextRoundTrip | components/bazi.tsx:157-160 | the page's parse of the analysis text of four real pillars gives those pillars |
| Report.ReportRoundTrip | components/bazi.tsx:157-160 | the page's parse of `analyzeBazi(...).analysis` gives back `pillars`, provided name, date and time contain no line break and no 八字： |

## Left out

- The calendar conversion (`SolarDay`, `LunarHour`, `getEightChar` of the `tyme4ts` library, lib/bazi.ts:21-42) is foreign code. The model takes its result, the four pillar strings, as the `EightChar` input of `AnalyzeBazi`.
- The date and time parsing (`split('-')`, `Number`) only feeds that library and is not modelled.
- The `console.log` calls are output only.
- `analyzeBazi` is `async`; the model is the synchronous computation inside it.
- Table lookups with keys inherited from `Object.prototype` (such as `"constructor"`) are not modelled: the `Record` tables are maps holding only their own entries.
- Strings are sequences of code points, not UTF-16 code units. Every character of the engine's tables lies in the Basic Multilingual Plane, so the two agree there. The model does not follow `split('')` through surrogate pairs in user-typed text.
- app/server.ts (the chat-completion client) is not part of this model; it does network and timer work.
- app/api/bazi/route.ts (request handling) is not part of this model.
- components/header.tsx and app/bazi/page.tsx are not part of this model. components/bazi.tsx is modelled only for its parse of the pillar line (components/bazi.tsx:157-160).
- Report.ReportRoundTrip: requires the four pillars to be stem–branch pairs, as the calendar library produces them. For arbitrary pillar strings, a space or line break inside a pillar would change the parse.
- The traditional sixty-pair sound-element table is not claimed; `NaYinOf` follows the code's indexing.
