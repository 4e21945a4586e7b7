/**
  The ten-gods (十神) classifier: the relation of a target stem to the day
  master, from the generation/domination relation of their elements on the
  cycle 木火土金水 and from whether the two stems share polarity.
 */
module TenGods {
  import opened JsStrings
  import opened Tables

  /** The results of elementRelation: 同我, 我生, 生我, 我克, 克我. */
  datatype Relation = Same | IGenerate | GeneratesMe | IDominate | DominatesMe {
    /** The same relation seen from the other element. */
    function Converse(): Relation {
      match this
      case Same => Same
      case IGenerate => GeneratesMe
      case GeneratesMe => IGenerate
      case IDominate => DominatesMe
      case DominatesMe => IDominate
    }
  }

  /** `a` generates `b`: `b` is the next element of the cycle. */
  predicate Generates(a: string, b: string) {
    a in ELEMENTS && b in ELEMENTS && IndexOf(ELEMENTS, b) == (IndexOf(ELEMENTS, a) + 1) % 5
  }

  /** `a` dominates `b`: `b` is two places further on the cycle. */
  predicate Dominates(a: string, b: string) {
    a in ELEMENTS && b in ELEMENTS && IndexOf(ELEMENTS, b) == (IndexOf(ELEMENTS, a) + 2) % 5
  }

  /** elementRelation.  An unknown element has index -1, so every `%` below
      has a non-negative left operand, where JavaScript's and Dafny's `%`
      agree. */
  function Relate(e1: string, e2: string): (r: Relation)
    ensures e1 == e2 ==> r == Same
  {
    if e1 == e2 then Same
    else
      var i1 := IndexOf(ELEMENTS, e1);
      var i2 := IndexOf(ELEMENTS, e2);
      if (i1 + 1) % 5 == i2 then IGenerate
      else if (i2 + 1) % 5 == i1 then GeneratesMe
      else if (i1 + 2) % 5 == i2 then IDominate
      else DominatesMe
  }

  /** On the five elements, each answer of elementRelation means what its
      name says; in particular the final fall-through case 克我 is exactly
      "the target dominates me".  So exactly one of the five holds. */
  lemma RelateMeaning(e1: string, e2: string)
    requires e1 in ELEMENTS && e2 in ELEMENTS
    ensures Relate(e1, e2) == Same <==> e1 == e2
    ensures Relate(e1, e2) == IGenerate <==> Generates(e1, e2)
    ensures Relate(e1, e2) == GeneratesMe <==> Generates(e2, e1)
    ensures Relate(e1, e2) == IDominate <==> Dominates(e1, e2)
    ensures Relate(e1, e2) == DominatesMe <==> Dominates(e2, e1)
  {
    var i1 := IndexOf(ELEMENTS, e1);
    var i2 := IndexOf(ELEMENTS, e2);
    assert e1 == e2 <==> i1 == i2 by {
      assert ELEMENTS[i1] == e1 && ELEMENTS[i2] == e2;
    }
    CycleSteps(i1, i2);
  }

  /** Two positions on a five-cycle are equal, or one is one step or two
      steps ahead of the other, and only one of these. */
  lemma CycleSteps(i1: int, i2: int)
    requires 0 <= i1 < 5 && 0 <= i2 < 5
    ensures var d := (i2 - i1) % 5;
      && (i1 == i2 <==> d == 0)
      && (i2 == (i1 + 1) % 5 <==> d == 1)
      && (i1 == (i2 + 1) % 5 <==> d == 4)
      && (i2 == (i1 + 2) % 5 <==> d == 2)
      && (i1 == (i2 + 2) % 5 <==> d == 3)
  {
  }

  /** Swapping the two elements swaps 我生 with 生我 and 我克 with 克我. */
  lemma RelateSwap(e1: string, e2: string)
    requires e1 in ELEMENTS && e2 in ELEMENTS
    ensures Relate(e2, e1) == Relate(e1, e2).Converse()
  {
    RelateMeaning(e1, e2);
    RelateMeaning(e2, e1);
  }

  const TEN_GODS: seq<string> := ["比肩", "劫财", "食神", "伤官", "偏印", "正印", "偏财", "正财", "七杀", "正官"]

  /** The switch on the relation: the first name when the polarities agree,
      the second when they differ. */
  function TenGodName(relation: Relation, yinYangSame: bool): (r: string)
    ensures r in TEN_GODS
    ensures r == TEN_GODS[2 * RelationRank(relation) + (if yinYangSame then 0 else 1)]
  {
    match relation
    case Same => if yinYangSame then "比肩" else "劫财"
    case IGenerate => if yinYangSame then "食神" else "伤官"
    case GeneratesMe => if yinYangSame then "偏印" else "正印"
    case IDominate => if yinYangSame then "偏财" else "正财"
    case DominatesMe => if yinYangSame then "七杀" else "正官"
  }

  /** Each label names one relation and one polarity: the pair a label
      belongs to gives the relation back, its column the polarity flag. */
  lemma TenGodFamilies(relation: Relation, yinYangSame: bool)
    ensures var r := TenGodName(relation, yinYangSame);
      && (r in ["比肩", "劫财"] <==> relation == Same)
      && (r in ["食神", "伤官"] <==> relation == IGenerate)
      && (r in ["偏印", "正印"] <==> relation == GeneratesMe)
      && (r in ["偏财", "正财"] <==> relation == IDominate)
      && (r in ["七杀", "正官"] <==> relation == DominatesMe)
      && (r in ["比肩", "食神", "偏印", "偏财", "七杀"] <==> yinYangSame)
  {
  }

  /** The position of a relation among the five, in the order of TEN_GODS. */
  function RelationRank(relation: Relation): (k: nat)
    ensures k < 5
  {
    match relation
    case Same => 0
    case IGenerate => 1
    case GeneratesMe => 2
    case IDominate => 3
    case DominatesMe => 4
  }

  /** getShiShen: the ten god of `pillar`'s stem seen from `dayPillar`'s stem.
      The element table is the stem table.  Its private copy in the source
      gives `undefined` rather than "" for an unknown stem; either value is
      equal only to itself and missing from the cycle, so the relation is the
      same.  `%` is JavaScript's, which keeps the -1 of an unknown stem apart
      from both parities. */
  function ShiShen(dayPillar: string, pillar: string): (r: string)
    ensures r in TEN_GODS
    ensures At(dayPillar, 0) == At(pillar, 0) ==> r == "比肩"
  {
    var dayGan := At(dayPillar, 0);
    var gan := At(pillar, 0);
    var dayIndex := IndexOf(STEMS, dayGan);
    var ganIndex := IndexOf(STEMS, gan);
    var relation := Relate(StemElement(dayGan), StemElement(gan));
    var yinYangSame := JsRem(dayIndex, 2) == JsRem(ganIndex, 2);
    TenGodName(relation, yinYangSame)
  }

  /** Polarity of a stem: even positions (甲丙戊庚壬) are yang. */
  function Polarity(gan: string): nat
    requires IsStem(gan)
  {
    IndexOf(STEMS, gan) % 2
  }

  /** For two stems, the ten god says which relation holds between their
      elements (the pair of names) and whether they share polarity (the
      first name of the pair). */
  lemma ShiShenMeaning(dayPillar: string, pillar: string)
    requires IsStem(At(dayPillar, 0)) && IsStem(At(pillar, 0))
    ensures var d, t := StemElement(At(dayPillar, 0)), StemElement(At(pillar, 0));
      var r := ShiShen(dayPillar, pillar);
      && (r in ["比肩", "劫财"] <==> d == t)
      && (r in ["食神", "伤官"] <==> Generates(d, t))
      && (r in ["偏印", "正印"] <==> Generates(t, d))
      && (r in ["偏财", "正财"] <==> Dominates(d, t))
      && (r in ["七杀", "正官"] <==> Dominates(t, d))
      && (r in ["比肩", "食神", "偏印", "偏财", "七杀"] <==> Polarity(At(dayPillar, 0)) == Polarity(At(pillar, 0)))
  {
    var d, t := StemElement(At(dayPillar, 0)), StemElement(At(pillar, 0));
    RelateMeaning(d, t);
    TenGodFamilies(Relate(d, t), Polarity(At(dayPillar, 0)) == Polarity(At(pillar, 0)));
  }

  /** The name a ten god takes when day master and target trade places:
      食神/伤官 become 偏印/正印, 偏财/正财 become 七杀/正官, and back. */
  function Mirror(name: string): (r: string)
    ensures name in TEN_GODS ==> r in TEN_GODS
  {
    match name
    case "食神" => "偏印"
    case "伤官" => "正印"
    case "偏印" => "食神"
    case "正印" => "伤官"
    case "偏财" => "七杀"
    case "正财" => "正官"
    case "七杀" => "偏财"
    case "正官" => "正财"
    case _ => name
  }

  /** Mirroring twice gives the name back. */
  lemma MirrorInvolution(name: string)
    ensures Mirror(Mirror(name)) == name
  {
    match name
    case "食神" =>
    case "伤官" =>
    case "偏印" =>
    case "正印" =>
    case "偏财" =>
    case "正财" =>
    case "七杀" =>
    case "正官" =>
    case _ =>
  }

  /** Swapping day master and target mirrors the ten god, staying in the same
      polarity column. */
  lemma ShiShenSwap(dayPillar: string, pillar: string)
    requires IsStem(At(dayPillar, 0)) && IsStem(At(pillar, 0))
    ensures ShiShen(pillar, dayPillar) == Mirror(ShiShen(dayPillar, pillar))
  {
    var dayGan, gan := At(dayPillar, 0), At(pillar, 0);
    var same := JsRem(IndexOf(STEMS, dayGan), 2) == JsRem(IndexOf(STEMS, gan), 2);
    var relation := Relate(StemElement(dayGan), StemElement(gan));
    assert ShiShen(dayPillar, pillar) == TenGodName(relation, same);
    RelateSwap(StemElement(dayGan), StemElement(gan));
    assert ShiShen(pillar, dayPillar) == TenGodName(relation.Converse(), same);
    MirrorName(relation, same);
  }

  /** Conversing the relation mirrors the label. */
  lemma MirrorName(relation: Relation, yinYangSame: bool)
    ensures TenGodName(relation.Converse(), yinYangSame) == Mirror(TenGodName(relation, yinYangSame))
  {
    match relation
    case Same =>
    case IGenerate =>
    case GeneratesMe =>
    case IDominate =>
    case DominatesMe =>
  }
}
