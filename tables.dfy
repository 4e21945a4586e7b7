/**
  The fixed tables of the engine: the ten heavenly stems (天干), the twelve
  earthly branches (地支), the five elements (五行) in generation order, and
  the branch tables for zodiac animals (生肖) and fortune traits.  Keys are
  strings, as in the `Record<string, string>` tables of the source, so an
  unknown key (including the "undefined" of a missing character) falls
  through to the default value.
 */
module Tables {
  import opened JsStrings

  /** 甲乙丙丁戊己庚辛壬癸; an even position is yang, an odd one yin. */
  const STEMS: seq<string> := ["甲", "乙", "丙", "丁", "戊", "己", "庚", "辛", "壬", "癸"]

  /** 子丑寅卯辰巳午未申酉戌亥. */
  const BRANCHES: seq<string> := ["子", "丑", "寅", "卯", "辰", "巳", "午", "未", "申", "酉", "戌", "亥"]

  /** 木火土金水: each element generates the next one and dominates the one
      two places further on, cyclically. */
  const ELEMENTS: seq<string> := ["木", "火", "土", "金", "水"]

  predicate IsStem(s: string) { s in STEMS }

  predicate IsBranch(s: string) { s in BRANCHES }

  const STEM_ELEMENT: map<string, string> :=
    map["甲" := "木", "乙" := "木",
        "丙" := "火", "丁" := "火",
        "戊" := "土", "己" := "土",
        "庚" := "金", "辛" := "金",
        "壬" := "水", "癸" := "水"]

  const BRANCH_ELEMENT: map<string, string> :=
    map["子" := "水", "丑" := "土", "寅" := "木", "卯" := "木",
        "辰" := "土", "巳" := "火", "午" := "火", "未" := "土",
        "申" := "金", "酉" := "金", "戌" := "土", "亥" := "水"]

  const ZODIAC: map<string, string> :=
    map["子" := "鼠", "丑" := "牛", "寅" := "虎", "卯" := "兔",
        "辰" := "龙", "巳" := "蛇", "午" := "马", "未" := "羊",
        "申" := "猴", "酉" := "鸡", "戌" := "狗", "亥" := "猪"]

  const FORTUNE_TRAIT: map<string, string> :=
    map["子" := "聪明智慧", "丑" := "稳重务实", "寅" := "积极进取", "卯" := "温和细腻",
        "辰" := "包容大度", "巳" := "灵活多变", "午" := "热情开朗", "未" := "踏实可靠",
        "申" := "机智敏捷", "酉" := "精明能干", "戌" := "忠诚可靠", "亥" := "感性多情"]

  /** The trait reported for a branch missing from the table. */
  const STEADY_FORTUNE := "运势平稳"

  /** getElementFromTianGan: the element of a stem, "" for anything else. */
  function StemElement(gan: string): (r: string)
    ensures r in ELEMENTS <==> IsStem(gan)
    ensures !IsStem(gan) ==> r == ""
  {
    if gan in STEM_ELEMENT then STEM_ELEMENT[gan] else ""
  }

  /** getElementFromDiZhi: the element of a branch, "" for anything else. */
  function BranchElement(zhi: string): (r: string)
    ensures r in ELEMENTS <==> IsBranch(zhi)
    ensures !IsBranch(zhi) ==> r == ""
  {
    if zhi in BRANCH_ELEMENT then BRANCH_ELEMENT[zhi] else ""
  }

  /** getZodiacFromDiZhi: the animal of a branch, "" for anything else. */
  function ZodiacOf(zhi: string): (r: string)
    ensures r != "" <==> IsBranch(zhi)
  {
    if zhi in ZODIAC then ZODIAC[zhi] else ""
  }

  /** getFortuneDesc: the trait of a branch, 运势平稳 for anything else. */
  function FortuneDesc(zhi: string): (r: string)
    ensures r != STEADY_FORTUNE <==> IsBranch(zhi)
    ensures r != ""
  {
    if zhi in FORTUNE_TRAIT then FORTUNE_TRAIT[zhi] else STEADY_FORTUNE
  }

  /** Stem positions follow the element cycle two by two: 甲乙 are wood,
      丙丁 fire, 戊己 earth, 庚辛 metal, 壬癸 water. */
  lemma StemElementByIndex(i: nat)
    requires i < |STEMS|
    ensures StemElement(STEMS[i]) == ELEMENTS[i / 2]
  {
  }

  /** Each element is claimed by exactly two stems, the pair at positions
      2k and 2k+1; anything that is not a stem has no element at all. */
  lemma StemsOfElement(k: nat, i: nat)
    requires k < |ELEMENTS| && i < |STEMS|
    ensures StemElement(STEMS[i]) == ELEMENTS[k] <==> i == 2 * k || i == 2 * k + 1
  {
    StemElementByIndex(i);
    ElementsDistinct();
  }

  /** The five elements are five different non-empty names. */
  lemma ElementsDistinct()
    ensures forall j, k :: 0 <= j < k < |ELEMENTS| ==> ELEMENTS[j] != ELEMENTS[k]
    ensures forall k :: 0 <= k < |ELEMENTS| ==> ELEMENTS[k] != ""
  {
  }

  /** The branch elements: 寅卯 wood, 巳午 fire, 辰戌丑未 earth, 申酉 metal,
      亥子 water. */
  lemma BranchElementGroups(zhi: string)
    ensures BranchElement(zhi) == "木" <==> zhi in ["寅", "卯"]
    ensures BranchElement(zhi) == "火" <==> zhi in ["巳", "午"]
    ensures BranchElement(zhi) == "土" <==> zhi in ["辰", "戌", "丑", "未"]
    ensures BranchElement(zhi) == "金" <==> zhi in ["申", "酉"]
    ensures BranchElement(zhi) == "水" <==> zhi in ["亥", "子"]
  {
  }

  /** The animals in branch order. */
  const ANIMALS: seq<string> := ["鼠", "牛", "虎", "兔", "龙", "蛇", "马", "羊", "猴", "鸡", "狗", "猪"]

  /** The animal of the i-th branch is the i-th animal. */
  lemma ZodiacByIndex(i: nat)
    requires i < |BRANCHES|
    ensures ZodiacOf(BRANCHES[i]) == ANIMALS[i]
  {
  }

  /** The twelve branches have twelve different animals. */
  lemma ZodiacDistinct(i: nat, j: nat)
    requires i < j < |BRANCHES|
    ensures ZodiacOf(BRANCHES[i]) != ZodiacOf(BRANCHES[j])
  {
    ZodiacByIndex(i);
    ZodiacByIndex(j);
    AnimalsDistinct();
  }

  lemma AnimalsDistinct()
    ensures forall j, k :: 0 <= j < k < |ANIMALS| ==> ANIMALS[j] != ANIMALS[k]
  {
  }

  /** No character is both a stem and a branch. */
  lemma StemsAreNotBranches(s: string)
    ensures !(IsStem(s) && IsBranch(s))
  {
  }

  /** The stems are ten different single characters. */
  lemma StemsDistinct()
    ensures forall j, k :: 0 <= j < k < |STEMS| ==> STEMS[j] != STEMS[k]
    ensures forall k :: 0 <= k < |STEMS| ==> |STEMS[k]| == 1
  {
  }

  /** The branches are twelve different single characters. */
  lemma BranchesDistinct()
    ensures forall j, k :: 0 <= j < k < |BRANCHES| ==> BRANCHES[j] != BRANCHES[k]
    ensures forall k :: 0 <= k < |BRANCHES| ==> |BRANCHES[k]| == 1
  {
  }

  /** `STEMS.indexOf` finds each stem at its own position. */
  lemma StemIndex(i: nat)
    requires i < |STEMS|
    ensures IndexOf(STEMS, STEMS[i]) == i && |STEMS[i]| == 1
  {
    StemsDistinct();
    IndexOfDistinct(STEMS, i);
  }

  /** `BRANCHES.indexOf` finds each branch at its own position. */
  lemma BranchIndex(j: nat)
    requires j < |BRANCHES|
    ensures IndexOf(BRANCHES, BRANCHES[j]) == j && |BRANCHES[j]| == 1
  {
    BranchesDistinct();
    IndexOfDistinct(BRANCHES, j);
  }
}
