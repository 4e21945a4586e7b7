/**
  The sound-element (纳音) lookup.  The table is written row by row in the
  order of the sexagenary cycle (甲子乙丑 海中金, 丙寅丁卯 炉中火, ...), but it
  is read at row floor(stem/2) and column floor(branch/2).  The model follows
  that reading: 丙寅 yields 城头土 and 戊辰 yields 长流水.
 */
module NaYin {
  import opened JsStrings
  import opened Tables

  const NAYIN_TABLE: seq<seq<string>> := [
    ["海中金", "炉中火", "大林木", "路旁土", "剑锋金", "山头火"],
    ["涧下水", "城头土", "白蜡金", "杨柳木", "泉中水", "屋上土"],
    ["霹雳火", "松柏木", "长流水", "砂中金", "山下火", "平地木"],
    ["壁上土", "金箔金", "覆灯火", "天河水", "大驿土", "钗钏金"],
    ["桑柘木", "大溪水", "沙中土", "天上火", "石榴木", "大海水"]
  ]

  /** Five rows of six three-character names. */
  lemma TableShape()
    ensures |NAYIN_TABLE| == 5
    ensures forall row :: 0 <= row < 5 ==> |NAYIN_TABLE[row]| == 6
    ensures forall row, col :: 0 <= row < 5 && 0 <= col < 6 ==> |NAYIN_TABLE[row][col]| == 3
  {
  }

  /** getNaYin.  `Math.floor(x / 2)` is Dafny's `x / 2`: for a positive
      divisor both round toward negative infinity, so a missing stem or
      branch (index -1) gives -1 and reads outside the table, which the
      source turns into "". */
  function NaYinOf(pillar: string): (r: string)
    ensures r == "" <==> !IsStem(At(pillar, 0)) || !IsBranch(At(pillar, 1))
    ensures r != "" ==> exists row, col :: 0 <= row < 5 && 0 <= col < 6 && r == NAYIN_TABLE[row][col]
  {
    var ganIndex := IndexOf(STEMS, At(pillar, 0));
    var zhiIndex := IndexOf(BRANCHES, At(pillar, 1));
    var row := ganIndex / 2;
    var col := zhiIndex / 2;
    TableShape();
    if 0 <= row < |NAYIN_TABLE| && 0 <= col < |NAYIN_TABLE[row]| then NAYIN_TABLE[row][col] else ""
  }

  /** A pillar made of the i-th stem and the j-th branch reads the cell at
      row i/2, column j/2; stem/branch parity is never consulted. */
  lemma NaYinByIndex(i: nat, j: nat)
    requires i < |STEMS| && j < |BRANCHES|
    ensures NaYinOf(STEMS[i] + BRANCHES[j]) == NAYIN_TABLE[i / 2][j / 2]
  {
    var p := STEMS[i] + BRANCHES[j];
    StemIndex(i);
    BranchIndex(j);
    assert At(p, 0) == STEMS[i] && At(p, 1) == BRANCHES[j];
    TableShape();
  }

  /** The result depends only on the stem pair and the branch pair. */
  lemma NaYinDependsOnPairs(i: nat, j: nat, i': nat, j': nat)
    requires i < |STEMS| && j < |BRANCHES| && i' < |STEMS| && j' < |BRANCHES|
    requires i / 2 == i' / 2 && j / 2 == j' / 2
    ensures NaYinOf(STEMS[i] + BRANCHES[j]) == NaYinOf(STEMS[i'] + BRANCHES[j'])
  {
    NaYinByIndex(i, j);
    NaYinByIndex(i', j');
  }

  /** Every cell of the table is the sound element of some parity-matched
      (sexagenary) pillar: the stem 2*row with the branch 2*col. */
  lemma NaYinCellsReached(row: nat, col: nat)
    requires row < 5 && col < 6
    ensures NaYinOf(STEMS[2 * row] + BRANCHES[2 * col]) == NAYIN_TABLE[row][col]
  {
    assert (2 * row) / 2 == row && (2 * col) / 2 == col;
    NaYinByIndex(2 * row, 2 * col);
  }

  /** A two-character pillar is its stem followed by its branch. */
  lemma Spelling(i: nat, j: nat, p: string)
    requires i < |STEMS| && j < |BRANCHES|
    requires |p| == 2 && [p[0]] == STEMS[i] && [p[1]] == BRANCHES[j]
    ensures NaYinOf(p) == NAYIN_TABLE[i / 2][j / 2]
  {
    assert p == STEMS[i] + BRANCHES[j];
    NaYinByIndex(i, j);
  }

  /** 甲子 and 乙丑 share the first cell, and so does the parity-mismatched
      甲丑, which no sexagenary pillar produces. */
  lemma NaYinFirstCell()
    ensures NaYinOf("甲子") == "海中金"
    ensures NaYinOf("乙丑") == "海中金"
    ensures NaYinOf("甲丑") == "海中金"
  {
    Spelling(0, 0, "甲子");
    Spelling(1, 1, "乙丑");
    Spelling(0, 1, "甲丑");
  }

  /** 丙寅 reads the cell at (1, 1), which the table's cycle-order layout
      gives to 戊寅 and 己卯. */
  lemma NaYinBingYin()
    ensures NaYinOf("丙寅") == "城头土"
  {
    Spelling(2, 2, "丙寅");
  }

  /** 戊辰 reads the cell at (2, 2), which the layout gives to 壬辰 and 癸巳. */
  lemma NaYinWuChen()
    ensures NaYinOf("戊辰") == "长流水"
  {
    Spelling(4, 4, "戊辰");
  }
}
