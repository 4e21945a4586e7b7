/**
  The chart derivation of analyzeBazi from the point where the four pillars
  exist: the per-pillar elements, zodiac animals, sound elements and ten
  gods, and the multi-line analysis text.  The calendar conversion that
  produces the pillars is represented by its result, an `EightChar` value.
 */
module Chart {
  import opened JsStrings
  import opened Tables
  import opened NaYin
  import opened TenGods
  import opened Fortune

  datatype CalendarType = SolarCalendar | LunarCalendar

  /** The eight characters returned by the calendar library: one
      stem-and-branch string per pillar. */
  datatype EightChar = EightChar(year: string, month: string, day: string, hour: string)

  datatype BaziResult = BaziResult(pillars: seq<string>, elements: seq<string>, zodiacs: seq<string>, analysis: string)

  /** Year, month, day, hour, in that order. */
  function Pillars(chart: EightChar): (r: seq<string>)
    ensures |r| == 4
    ensures r[0] == chart.year && r[1] == chart.month && r[2] == chart.day && r[3] == chart.hour
  {
    [chart.year, chart.month, chart.day, chart.hour]
  }

  /** The element pair of one pillar: the stem's element, then the branch's. */
  function PillarElements(pillar: string): (r: string)
    ensures IsPillar(pillar) ==> |r| == 2 && [r[0]] in ELEMENTS && [r[1]] in ELEMENTS
  {
    StemElement(At(pillar, 0)) + BranchElement(At(pillar, 1))
  }

  function Elements(pillars: seq<string>): (r: seq<string>)
    ensures |r| == |pillars|
    ensures forall i :: 0 <= i < |pillars| ==> r[i] == PillarElements(pillars[i])
  {
    seq(|pillars|, i requires 0 <= i < |pillars| => PillarElements(pillars[i]))
  }

  function Zodiacs(pillars: seq<string>): (r: seq<string>)
    ensures |r| == |pillars|
    ensures forall i :: 0 <= i < |pillars| ==> r[i] == ZodiacOf(At(pillars[i], 1))
  {
    seq(|pillars|, i requires 0 <= i < |pillars| => ZodiacOf(At(pillars[i], 1)))
  }

  function NaYins(pillars: seq<string>): (r: seq<string>)
    ensures |r| == |pillars|
    ensures forall i :: 0 <= i < |pillars| ==> r[i] == NaYinOf(pillars[i])
  {
    seq(|pillars|, i requires 0 <= i < |pillars| => NaYinOf(pillars[i]))
  }

  /** Every ten god is taken against the day pillar, the third; the day
      pillar against itself is always 比肩. */
  function ShiShens(pillars: seq<string>): (r: seq<string>)
    requires |pillars| >= 3
    ensures |r| == |pillars|
    ensures forall i :: 0 <= i < |pillars| ==> r[i] == ShiShen(pillars[2], pillars[i])
    ensures r[2] == "比肩"
  {
    seq(|pillars|, i requires 0 <= i < |pillars| => ShiShen(pillars[2], pillars[i]))
  }

  function GenderWord(gender: Gender): string {
    if gender == Male then "男" else "女"
  }

  function CalendarWord(calendarType: CalendarType): string {
    if calendarType == SolarCalendar then "阳历" else "阴历"
  }

  /** The analysis template: an optional name line, the gender line, the
      birth line, five labelled lines of space-separated values, and the
      narrative.  The parentheses only group each line's pieces. */
  function AnalysisText(name: string, calendarType: CalendarType, birthDate: string, birthTime: string,
                        gender: Gender, pillars: seq<string>): string
    requires |pillars| == 4
  {
    (if name != "" then "姓名：" + name + "\n" else "")
      + (GenderWord(gender) + "命") + "\n"
      + ("出生" + CalendarWord(calendarType) + "：" + birthDate + " " + birthTime) + "\n"
      + ("八字：" + Join(pillars, " ")) + "\n"
      + ("五行：" + Join(Elements(pillars), " ")) + "\n"
      + ("纳音：" + Join(NaYins(pillars), " ")) + "\n"
      + ("十神：" + Join(ShiShens(pillars), " ")) + "\n"
      + ("生肖：" + Join(Zodiacs(pillars), " ")) + "\n"
      + FortuneAnalysis(pillars, gender)
  }

  /** analyzeBazi from the pillars on: the pillars in year, month, day, hour
      order, each pillar's element pair and zodiac animal, and the analysis
      text. */
  function AnalyzeBazi(name: string, calendarType: CalendarType, birthDate: string, birthTime: string,
                       gender: Gender, chart: EightChar): (r: BaziResult)
    ensures r.pillars == Pillars(chart)
    ensures |r.elements| == 4 && |r.zodiacs| == 4
    ensures r.analysis == AnalysisText(name, calendarType, birthDate, birthTime, gender, r.pillars)
  {
    var pillars := Pillars(chart);
    BaziResult(pillars, Elements(pillars), Zodiacs(pillars), AnalysisText(name, calendarType, birthDate, birthTime, gender, pillars))
  }

  /** Each element pair and zodiac animal belongs to the pillar at the same
      position. */
  lemma ChartValues(name: string, calendarType: CalendarType, birthDate: string, birthTime: string,
                    gender: Gender, chart: EightChar, i: nat)
    requires i < 4
    ensures var r := AnalyzeBazi(name, calendarType, birthDate, birthTime, gender, chart);
      var p := Pillars(chart)[i];
      && i < |r.elements| && i < |r.zodiacs|
      && r.elements[i] == StemElement(At(p, 0)) + BranchElement(At(p, 1))
      && r.zodiacs[i] == ZodiacOf(At(p, 1))
  {
  }

  /** For real pillars every element pair is two elements and every zodiac
      entry an animal. */
  lemma ChartOfPillars(name: string, calendarType: CalendarType, birthDate: string, birthTime: string,
                       gender: Gender, chart: EightChar, i: nat)
    requires i < 4
    requires IsPillar(Pillars(chart)[i])
    ensures var r := AnalyzeBazi(name, calendarType, birthDate, birthTime, gender, chart);
      |r.elements[i]| == 2 && r.zodiacs[i] != ""
  {
    var p := Pillars(chart)[i];
    assert At(p, 1) == [p[1]];
  }
}
