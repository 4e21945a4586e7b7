/**
  The fortune narrator: the day-master strength line and the year/month
  trait line that close the analysis text.
 */
module Fortune {
  import opened JsStrings
  import opened Tables

  datatype Gender = Male | Female

  /** The five stems the narrator treats as strong for a man. */
  const YANG_STEMS: seq<string> := ["甲", "丙", "戊", "庚", "壬"]

  /** The yang stems are exactly the stems at even positions. */
  lemma YangStemsAreEvenStems(gan: string)
    ensures gan in YANG_STEMS <==> IsStem(gan) && IndexOf(STEMS, gan) % 2 == 0
  {
    if IsStem(gan) {
      var k := IndexOf(STEMS, gan);
      YangAt(k);
    } else {
      assert forall i :: 0 <= i < |YANG_STEMS| ==> YANG_STEMS[i] == STEMS[2 * i];
    }
  }

  lemma YangAt(k: nat)
    requires k < |STEMS|
    ensures STEMS[k] in YANG_STEMS <==> k % 2 == 0
  {
  }

  /** The strength label of the day master.  The label starts as 中 and is
      overwritten on both branches, so it is always 偏强 or 偏弱: 偏强 exactly
      when the day stem is yang for a man or not yang for a woman. */
  function Strength(dayGan: string, gender: Gender): (r: string)
    ensures r == "偏强" || r == "偏弱"
    ensures r == "偏强" <==> (dayGan in YANG_STEMS <==> gender == Male)
  {
    if dayGan in YANG_STEMS then
      (if gender == Male then "偏强" else "偏弱")
    else
      (if gender == Male then "偏弱" else "偏强")
  }

  /** The element text of getYearFortune: each character of the pillar is
      looked up with `c.length === 1 ? stem table : branch table`; a single
      character always has length 1, so every character, the branch
      included, goes through the stem table. */
  function YearElements(pillar: string): string
  {
    if |pillar| == 0 then ""
    else CharElement([pillar[0]]) + YearElements(pillar[1..])
  }

  /** The callback of getYearFortune's `map`. */
  function CharElement(c: string): string {
    if |c| == 1 then StemElement(c) else BranchElement(c)
  }

  /** The element text is built character by character: it distributes over
      concatenation. */
  lemma {:induction false} YearElementsConcat(a: string, b: string)
    ensures YearElements(a + b) == YearElements(a) + YearElements(b)
  {
    if |a| > 0 {
      YearElementsConcat(a[1..], b);
      YearElementsStep(a, "");
      YearElementsStep(a, b);
      assert a + "" == a;
      var h, x, y := CharElement([a[0]]), YearElements(a[1..]), YearElements(b);
      assert h + (x + y) == (h + x) + y;
    } else {
      assert a + b == b;
    }
  }

  /** A text without stem characters has no element text. */
  lemma {:induction false} YearElementsNoStem(pillar: string)
    requires forall i :: 0 <= i < |pillar| ==> !IsStem([pillar[i]])
    ensures YearElements(pillar) == ""
  {
    if |pillar| > 0 {
      assert !IsStem([pillar[0]]);
      YearElementsNoStem(pillar[1..]);
    }
  }

  /** The first character's element, then the rest. */
  lemma YearElementsStep(a: string, b: string)
    requires |a| > 0
    ensures YearElements(a + b) == CharElement([a[0]]) + YearElements(a[1..] + b)
  {
    assert (a + b)[0] == a[0] && (a + b)[1..] == a[1..] + b;
  }

  /** One character contributes its stem element. */
  lemma YearElementsChar(c: char)
    ensures YearElements([c]) == StemElement([c])
  {
    assert [c][1..] == "";
  }

  /** A stem-and-branch pillar: two characters, a stem then a branch. */
  predicate IsPillar(p: string) {
    |p| == 2 && IsStem([p[0]]) && IsBranch([p[1]])
  }

  /** For a pillar, the parenthesis holds the stem's element only. */
  lemma YearElementsOfPillar(pillar: string)
    requires IsPillar(pillar)
    ensures YearElements(pillar) == StemElement(At(pillar, 0))
  {
    StemsAreNotBranches([pillar[1]]);
    assert pillar == [pillar[0]] + [pillar[1]];
    YearElementsConcat([pillar[0]], [pillar[1]]);
    YearElementsChar(pillar[0]);
    YearElementsChar(pillar[1]);
  }

  /** getYearFortune. */
  function YearFortune(pillar: string): (r: string)
  {
    "年柱" + pillar + "(" + YearElements(pillar) + ")主" + FortuneDesc(At(pillar, 1))
  }

  /** The year line of a pillar: the pillar, its stem's element and the trait
      of its branch. */
  lemma YearFortuneOfPillar(pillar: string)
    requires IsPillar(pillar)
    ensures YearFortune(pillar) == "年柱" + pillar + "(" + StemElement([pillar[0]]) + ")主" + FORTUNE_TRAIT[[pillar[1]]]
  {
    YearElementsOfPillar(pillar);
  }

  /** getMonthFortune: the trait shown is the steady default exactly when the
      pillar's second character is not a branch. */
  function MonthFortune(pillar: string): (r: string)
    ensures |r| > |pillar| + 3 && r[..|pillar| + 3] == "月柱" + pillar + "主"
    ensures r[|pillar| + 3..] == FortuneDesc(At(pillar, 1))
    ensures r[|pillar| + 3..] != STEADY_FORTUNE <==> IsBranch(At(pillar, 1))
  {
    "月柱" + pillar + "主" + FortuneDesc(At(pillar, 1))
  }

  /** The first narrative line: the day stem, its element and its strength. */
  function DayMasterLine(dayPillar: string, gender: Gender): string
  {
    var dayGan := At(dayPillar, 0);
    "日主" + dayGan + StemElement(dayGan) + "，" + Strength(dayGan, gender)
  }

  /** getFortuneAnalysis: the day-master line, then the year and month lines
      side by side.  The hour pillar is destructured but never read. */
  function FortuneAnalysis(pillars: seq<string>, gender: Gender): (r: string)
    requires |pillars| >= 3
  {
    DayMasterLine(pillars[2], gender) + "\n" + (YearFortune(pillars[0]) + " " + MonthFortune(pillars[1]))
  }

  /** Only the year, month and day pillars shape the narrative. */
  lemma FortuneIgnoresHour(pillars: seq<string>, hour: string, gender: Gender)
    requires |pillars| >= 3
    ensures FortuneAnalysis(pillars, gender) == FortuneAnalysis(pillars[..3] + [hour], gender)
  {
  }
}
