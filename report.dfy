/**
  The analysis text as lines, and the way the page reads the pillars back
  out of it: split the text into lines, keep the lines that include 八字：,
  drop that label, split on spaces and keep the first four pieces.
 */
module Report {
  import opened JsStrings
  import opened Tables
  import opened NaYin
  import opened TenGods
  import opened Fortune
  import opened Chart

  /** The lines of the analysis text before the narrative. */
  function HeadLines(name: string, calendarType: CalendarType, birthDate: string, birthTime: string,
                     gender: Gender, pillars: seq<string>): (r: seq<string>)
    requires |pillars| == 4
    ensures |r| == if name != "" then 8 else 7
  {
    (if name != "" then ["姓名：" + name] else [])
      + [GenderWord(gender) + "命"]
      + ["出生" + CalendarWord(calendarType) + "：" + birthDate + " " + birthTime]
      + ["八字：" + Join(pillars, " ")]
      + ["五行：" + Join(Elements(pillars), " ")]
      + ["纳音：" + Join(NaYins(pillars), " ")]
      + ["十神：" + Join(ShiShens(pillars), " ")]
      + ["生肖：" + Join(Zodiacs(pillars), " ")]
  }

  /** The lines of the analysis text, top to bottom: the head lines, the
      day-master line and the year/month line. */
  function ReportLines(name: string, calendarType: CalendarType, birthDate: string, birthTime: string,
                       gender: Gender, pillars: seq<string>): (r: seq<string>)
    requires |pillars| == 4
    ensures |r| == if name != "" then 10 else 9
  {
    HeadLines(name, calendarType, birthDate, birthTime, gender, pillars)
      + [DayMasterLine(pillars[2], gender)]
      + [YearFortune(pillars[0]) + " " + MonthFortune(pillars[1])]
  }

  /** Appending a part appends a separator and the part. */
  lemma {:induction false} JoinSnoc(xs: seq<string>, y: string, sep: string)
    requires |xs| >= 1
    ensures Join(xs + [y], sep) == Join(xs, sep) + sep + y
  {
    if |xs| > 1 {
      JoinSnoc(xs[1..], y, sep);
      assert (xs + [y])[1..] == xs[1..] + [y];
    }
  }

  /** Two more parts. */
  lemma JoinSnocTwice(xs: seq<string>, y: string, z: string, sep: string)
    requires |xs| >= 1
    ensures Join(xs + [y] + [z], sep) == Join(xs, sep) + sep + y + sep + z
  {
    JoinSnoc(xs, y, sep);
    JoinSnoc(xs + [y], z, sep);
  }

  lemma Regroup(a: string, b: string, c: string, d: string)
    ensures a + b + c + d == a + (b + c + d)
  {
  }

  /** The analysis text is its lines joined with newlines: a name line only
      for a non-empty name, then the gender line, the birth line, the five
      labelled lines and the two narrative lines. */
  lemma AnalysisLayout(name: string, calendarType: CalendarType, birthDate: string, birthTime: string,
                       gender: Gender, pillars: seq<string>)
    requires |pillars| == 4
    ensures AnalysisText(name, calendarType, birthDate, birthTime, gender, pillars)
         == Join(ReportLines(name, calendarType, birthDate, birthTime, gender, pillars), "\n")
  {
    var head := HeadLines(name, calendarType, birthDate, birthTime, gender, pillars);
    var day, rest := DayMasterLine(pillars[2], gender), YearFortune(pillars[0]) + " " + MonthFortune(pillars[1]);
    HeadLayout(name, calendarType, birthDate, birthTime, gender, pillars);
    JoinSnocTwice(head, day, rest, "\n");
    Regroup(Join(head, "\n") + "\n", day, "\n", rest);
  }

  /** Everything before the narrative is the joined head lines and a newline. */
  lemma HeadLayout(name: string, calendarType: CalendarType, birthDate: string, birthTime: string,
                   gender: Gender, pillars: seq<string>)
    requires |pillars| == 4
    ensures AnalysisText(name, calendarType, birthDate, birthTime, gender, pillars)
        == Join(HeadLines(name, calendarType, birthDate, birthTime, gender, pillars), "\n") + "\n" + FortuneAnalysis(pillars, gender)
  {
    var head := (if name != "" then ["姓名：" + name] else []) + [GenderWord(gender) + "命"];
    var t0 := (if name != "" then "姓名：" + name + "\n" else "") + (GenderWord(gender) + "命");
    assert Join(head, "\n") == t0 by {
      if name != "" {
        JoinSnoc(["姓名：" + name], GenderWord(gender) + "命", "\n");
      } else {
        assert head == [GenderWord(gender) + "命"];
      }
    }
    var b := "出生" + CalendarWord(calendarType) + "：" + birthDate + " " + birthTime;
    var p := "八字：" + Join(pillars, " ");
    var e := "五行：" + Join(Elements(pillars), " ");
    var n := "纳音：" + Join(NaYins(pillars), " ");
    var g := "十神：" + Join(ShiShens(pillars), " ");
    var z := "生肖：" + Join(Zodiacs(pillars), " ");
    JoinThreeMore(head, t0, b, p, e);
    JoinThreeMore(head + [b] + [p] + [e], t0 + "\n" + b + "\n" + p + "\n" + e, n, g, z);
  }

  /** Three more lines after a joined list of lines. */
  lemma JoinThreeMore(ls: seq<string>, t: string, a: string, b: string, c: string)
    requires |ls| >= 1 && Join(ls, "\n") == t
    ensures Join(ls + [a] + [b] + [c], "\n") == t + "\n" + a + "\n" + b + "\n" + c
  {
    var ls1, t1 := Step(ls, t, a);
    var ls2, t2 := Step(ls1, t1, b);
    var ls3, t3 := Step(ls2, t2, c);
  }

  /** One more line: the joined text grows by a newline and the line. */
  lemma Step(ls: seq<string>, t: string, line: string) returns (ls': seq<string>, t': string)
    requires |ls| >= 1 && Join(ls, "\n") == t
    ensures ls' == ls + [line] && t' == t + "\n" + line
    ensures Join(ls', "\n") == t'
  {
    ls', t' := ls + [line], t + "\n" + line;
    JoinSnoc(ls, line, "\n");
  }

  /** The label the page looks for. */
  const PILLAR_LABEL := "八字："

  /** `lines.filter(l => l.includes('八字：'))`. */
  function MarkedLines(lines: seq<string>): (r: seq<string>)
    ensures |r| <= |lines|
    ensures forall l :: l in r <==> l in lines && Contains(l, PILLAR_LABEL)
  {
    if |lines| == 0 then []
    else (if Contains(lines[0], PILLAR_LABEL) then [lines[0]] else []) + MarkedLines(lines[1..])
  }

  /** The filter keeps a marked line as often as it occurs and drops every
      other line. */
  lemma {:induction false} MarkedLinesCount(lines: seq<string>, l: string)
    ensures multiset(MarkedLines(lines))[l] == if Contains(l, PILLAR_LABEL) then multiset(lines)[l] else 0
  {
    if |lines| > 0 {
      MarkedLinesCount(lines[1..], l);
      assert lines == [lines[0]] + lines[1..];
    }
  }

  /** On one line the filter keeps it exactly when it is marked; with
      MarkedLinesAppend this fixes the result, order included, for any list. */
  lemma MarkedLine(l: string)
    ensures MarkedLines([l]) == if Contains(l, PILLAR_LABEL) then [l] else []
  {
    assert [l][1..] == [];
  }

  lemma {:induction false} MarkedLinesAppend(a: seq<string>, b: seq<string>)
    ensures MarkedLines(a + b) == MarkedLines(a) + MarkedLines(b)
  {
    if |a| > 0 {
      MarkedLinesAppend(a[1..], b);
      assert (a + b)[0] == a[0] && (a + b)[1..] == a[1..] + b;
      var head := if Contains(a[0], PILLAR_LABEL) then [a[0]] else [];
      assert MarkedLines(a + b) == head + MarkedLines(a[1..] + b);
      assert MarkedLines(a) == head + MarkedLines(a[1..]);
    } else {
      assert a + b == b;
    }
  }

  /** `.flatMap(l => l.replace('八字：', '').split(' '))`. */
  function Fields(lines: seq<string>): (r: seq<string>)
    ensures |r| >= |lines|
  {
    if |lines| == 0 then []
    else Split(ReplaceFirst(lines[0], PILLAR_LABEL, ""), ' ') + Fields(lines[1..])
  }

  /** The page's reading of the pillars out of the analysis text
      (`.slice(0, 4)` keeps at most four pieces). */
  function ParsePillars(text: string): (r: seq<string>)
    ensures |r| <= 4
  {
    var fields := Fields(MarkedLines(Split(text, '\n')));
    if |fields| <= 4 then fields else fields[..4]
  }

  /** No line break and no 八, the first character of the label. */
  predicate Plain(s: string) {
    '\n' !in s && '八' !in s
  }

  lemma PlainElements(x: string)
    ensures Plain(StemElement(x)) && Plain(BranchElement(x))
  {
    assert forall e :: e in ELEMENTS ==> Plain(e);
  }

  lemma PlainZodiac(x: string)
    ensures Plain(ZodiacOf(x))
  {
    assert forall v :: v in ZODIAC.Values ==> Plain(v);
  }

  lemma PlainFortuneDesc(x: string)
    ensures Plain(FortuneDesc(x))
  {
    assert forall v :: v in FORTUNE_TRAIT.Values ==> Plain(v);
  }

  lemma PlainNaYin(p: string)
    ensures Plain(NaYinOf(p))
  {
    assert forall row, col :: 0 <= row < 5 && 0 <= col < 6 ==> Plain(NAYIN_TABLE[row][col]);
  }

  lemma PlainShiShen(d: string, p: string)
    ensures Plain(ShiShen(d, p))
  {
    assert forall t :: t in TEN_GODS ==> Plain(t);
  }

  /** A pillar is two plain characters, neither of them a space. */
  lemma PlainPillar(p: string)
    requires IsPillar(p)
    ensures Plain(p) && ' ' !in p
    ensures Plain(At(p, 0)) && Plain(At(p, 1))
  {
    assert p == [p[0]] + [p[1]];
  }

  /** A line the page skips: one line, without the label. */
  predicate Quiet(l: string) {
    '\n' !in l && !Contains(l, PILLAR_LABEL)
  }

  lemma QuietIfPlain(l: string)
    requires Plain(l)
    ensures Quiet(l)
  {
    ContainsNeedsHead(l, PILLAR_LABEL);
  }

  lemma PlainJoin(xs: seq<string>)
    requires forall i :: 0 <= i < |xs| ==> Plain(xs[i])
    ensures Plain(Join(xs, " "))
  {
    JoinAvoids(xs, " ", '\n');
    JoinAvoids(xs, " ", '八');
  }

  /** Only marked lines survive the filter. */
  lemma {:induction false} MarkedLinesQuiet(xs: seq<string>)
    requires forall l :: l in xs ==> Quiet(l)
    ensures MarkedLines(xs) == []
  {
    if |xs| > 0 {
      assert forall l :: l in xs[1..] ==> l in xs;
      MarkedLinesQuiet(xs[1..]);
    }
  }

  /** The lines above the pillar line. */
  function LinesBefore(name: string, calendarType: CalendarType, birthDate: string, birthTime: string,
                       gender: Gender): seq<string>
  {
    (if name != "" then ["姓名：" + name] else [])
      + [GenderWord(gender) + "命"]
      + ["出生" + CalendarWord(calendarType) + "：" + birthDate + " " + birthTime]
  }

  /** The lines below the pillar line. */
  function LinesAfter(gender: Gender, pillars: seq<string>): seq<string>
    requires |pillars| == 4
  {
    [ "五行：" + Join(Elements(pillars), " "),
      "纳音：" + Join(NaYins(pillars), " "),
      "十神：" + Join(ShiShens(pillars), " "),
      "生肖：" + Join(Zodiacs(pillars), " "),
      DayMasterLine(pillars[2], gender),
      YearFortune(pillars[0]) + " " + MonthFortune(pillars[1]) ]
  }

  lemma LinesAroundLabel(name: string, calendarType: CalendarType, birthDate: string, birthTime: string,
                         gender: Gender, pillars: seq<string>)
    requires |pillars| == 4
    ensures ReportLines(name, calendarType, birthDate, birthTime, gender, pillars)
         == LinesBefore(name, calendarType, birthDate, birthTime, gender)
            + ["八字：" + Join(pillars, " ")]
            + LinesAfter(gender, pillars)
  {
    var after := LinesAfter(gender, pillars);
    Snoc6(LinesBefore(name, calendarType, birthDate, birthTime, gender) + ["八字：" + Join(pillars, " ")],
          after[0], after[1], after[2], after[3], after[4], after[5]);
  }

  lemma Snoc6(xs: seq<string>, a: string, b: string, c: string, d: string, e: string, f: string)
    ensures xs + [a] + [b] + [c] + [d] + [e] + [f] == xs + [a, b, c, d, e, f]
  {
  }

  /** The name and birth lines are quiet when what the user typed is. */
  lemma BeforeQuiet(name: string, calendarType: CalendarType, birthDate: string, birthTime: string,
                    gender: Gender)
    requires Quiet(name) && Quiet(birthDate) && Quiet(birthTime)
    ensures forall l :: l in LinesBefore(name, calendarType, birthDate, birthTime, gender) ==> Quiet(l)
  {
    var nameLines := if name != "" then ["姓名：" + name] else [];
    var genderLine := GenderWord(gender) + "命";
    var birthLine := "出生" + CalendarWord(calendarType) + "：" + birthDate + " " + birthTime;
    assert forall l :: l in nameLines ==> Quiet(l) by {
      NameLineQuiet(name);
    }
    assert Quiet(genderLine) by {
      assert Plain(genderLine);
      QuietIfPlain(genderLine);
    }
    assert Quiet(birthLine) by {
      BirthLineQuiet("出生" + CalendarWord(calendarType) + "：", birthDate, birthTime);
    }
    assert LinesBefore(name, calendarType, birthDate, birthTime, gender) == nameLines + [genderLine] + [birthLine];
  }

  lemma NameLineQuiet(name: string)
    requires Quiet(name)
    ensures Quiet("姓名：" + name)
  {
    ContainsAfterPrefix("姓名：", name, PILLAR_LABEL);
  }

  /** A label, the date, a space and the time. */
  lemma BirthLineQuiet(prefix: string, birthDate: string, birthTime: string)
    requires Plain(prefix) && Quiet(birthDate) && Quiet(birthTime)
    ensures Quiet(prefix + birthDate + " " + birthTime)
  {
    ContainsAfterPrefix(prefix, birthDate, PILLAR_LABEL);
    ContainsAcrossSeparator(prefix + birthDate, ' ', birthTime, PILLAR_LABEL);
  }

  /** Every value line below the pillar line is plain, whatever the pillars. */
  lemma ValuesPlain(pillars: seq<string>)
    requires |pillars| == 4
    ensures Plain(Join(Elements(pillars), " ")) && Plain(Join(NaYins(pillars), " "))
    ensures Plain(Join(ShiShens(pillars), " ")) && Plain(Join(Zodiacs(pillars), " "))
  {
    ElementsPlain(pillars);
    NaYinsPlain(pillars);
    ShiShensPlain(pillars);
    ZodiacsPlain(pillars);
  }

  lemma ElementsPlain(pillars: seq<string>)
    ensures Plain(Join(Elements(pillars), " "))
  {
    forall i | 0 <= i < |pillars|
      ensures Plain(Elements(pillars)[i])
    {
      PlainElements(At(pillars[i], 0));
      PlainElements(At(pillars[i], 1));
    }
    PlainJoin(Elements(pillars));
  }

  lemma NaYinsPlain(pillars: seq<string>)
    ensures Plain(Join(NaYins(pillars), " "))
  {
    forall i | 0 <= i < |pillars|
      ensures Plain(NaYins(pillars)[i])
    {
      PlainNaYin(pillars[i]);
    }
    PlainJoin(NaYins(pillars));
  }

  lemma ShiShensPlain(pillars: seq<string>)
    requires |pillars| >= 3
    ensures Plain(Join(ShiShens(pillars), " "))
  {
    forall i | 0 <= i < |pillars|
      ensures Plain(ShiShens(pillars)[i])
    {
      PlainShiShen(pillars[2], pillars[i]);
    }
    PlainJoin(ShiShens(pillars));
  }

  lemma ZodiacsPlain(pillars: seq<string>)
    ensures Plain(Join(Zodiacs(pillars), " "))
  {
    forall i | 0 <= i < |pillars|
      ensures Plain(Zodiacs(pillars)[i])
    {
      PlainZodiac(At(pillars[i], 1));
    }
    PlainJoin(Zodiacs(pillars));
  }

  lemma ValueLinesPlain(pillars: seq<string>)
    requires |pillars| == 4
    ensures Plain("五行：" + Join(Elements(pillars), " ")) && Plain("纳音：" + Join(NaYins(pillars), " "))
    ensures Plain("十神：" + Join(ShiShens(pillars), " ")) && Plain("生肖：" + Join(Zodiacs(pillars), " "))
  {
    ValuesPlain(pillars);
    LabelsPlain();
    PlainConcat("五行：", Join(Elements(pillars), " "));
    PlainConcat("纳音：", Join(NaYins(pillars), " "));
    PlainConcat("十神：", Join(ShiShens(pillars), " "));
    PlainConcat("生肖：", Join(Zodiacs(pillars), " "));
  }

  lemma LabelsPlain()
    ensures Plain("五行：") && Plain("纳音：") && Plain("十神：") && Plain("生肖：")
  {
  }

  lemma PlainConcat(a: string, b: string)
    requires Plain(a) && Plain(b)
    ensures Plain(a + b)
  {
  }

  /** The day-master line of a real day pillar is plain. */
  lemma DayLinePlain(dayPillar: string, gender: Gender)
    requires IsPillar(dayPillar)
    ensures Plain(DayMasterLine(dayPillar, gender))
  {
    var dayGan := At(dayPillar, 0);
    PlainPillar(dayPillar);
    PlainElements(dayGan);
    assert Plain(Strength(dayGan, gender));
  }

  /** The year/month line of real pillars is plain. */
  lemma TraitLinePlain(year: string, month: string)
    requires IsPillar(year) && IsPillar(month)
    ensures Plain(YearFortune(year) + " " + MonthFortune(month))
  {
    YearLinePlain(year);
    MonthLinePlain(month);
    NarrativeLabelsPlain();
    PlainConcat(YearFortune(year), " ");
    PlainConcat(YearFortune(year) + " ", MonthFortune(month));
  }

  lemma YearLinePlain(year: string)
    requires IsPillar(year)
    ensures Plain(YearFortune(year))
  {
    PlainPillar(year);
    YearElementsOfPillar(year);
    PlainElements(At(year, 0));
    PlainFortuneDesc(At(year, 1));
    NarrativeLabelsPlain();
    PlainConcat6("年柱", year, "(", YearElements(year), ")主", FortuneDesc(At(year, 1)));
  }

  lemma MonthLinePlain(month: string)
    requires IsPillar(month)
    ensures Plain(MonthFortune(month))
  {
    PlainPillar(month);
    PlainFortuneDesc(At(month, 1));
    NarrativeLabelsPlain();
    PlainConcat("月柱", month);
    PlainConcat("月柱" + month, "主");
    PlainConcat("月柱" + month + "主", FortuneDesc(At(month, 1)));
  }

  lemma NarrativeLabelsPlain()
    ensures Plain("年柱") && Plain("(") && Plain(")主") && Plain("月柱") && Plain("主") && Plain(" ")
  {
  }

  lemma PlainConcat6(a: string, b: string, c: string, d: string, e: string, f: string)
    requires Plain(a) && Plain(b) && Plain(c) && Plain(d) && Plain(e) && Plain(f)
    ensures Plain(a + b + c + d + e + f)
  {
  }

  /** For real pillars the narrative is two lines: the day-master line and
      the year/month line. */
  lemma NarrativeLines(pillars: seq<string>, gender: Gender)
    requires |pillars| >= 3
    requires IsPillar(pillars[0]) && IsPillar(pillars[1]) && IsPillar(pillars[2])
    ensures Split(FortuneAnalysis(pillars, gender), '\n')
         == [DayMasterLine(pillars[2], gender), YearFortune(pillars[0]) + " " + MonthFortune(pillars[1])]
  {
    var day, rest := DayMasterLine(pillars[2], gender), YearFortune(pillars[0]) + " " + MonthFortune(pillars[1]);
    DayLinePlain(pillars[2], gender);
    TraitLinePlain(pillars[0], pillars[1]);
    SplitAtSeparator(day, rest, '\n');
    SplitWithoutSeparator(rest, '\n');
  }

  lemma AfterQuiet(gender: Gender, pillars: seq<string>)
    requires |pillars| == 4
    requires forall i :: 0 <= i < 4 ==> IsPillar(pillars[i])
    ensures forall l :: l in LinesAfter(gender, pillars) ==> Quiet(l)
  {
    ValueLinesPlain(pillars);
    DayLinePlain(pillars[2], gender);
    TraitLinePlain(pillars[0], pillars[1]);
    SixQuiet("五行：" + Join(Elements(pillars), " "),
             "纳音：" + Join(NaYins(pillars), " "),
             "十神：" + Join(ShiShens(pillars), " "),
             "生肖：" + Join(Zodiacs(pillars), " "),
             DayMasterLine(pillars[2], gender),
             YearFortune(pillars[0]) + " " + MonthFortune(pillars[1]));
  }

  lemma SixQuiet(a: string, b: string, c: string, d: string, e: string, f: string)
    requires Plain(a) && Plain(b) && Plain(c) && Plain(d) && Plain(e) && Plain(f)
    ensures forall l :: l in [a, b, c, d, e, f] ==> Quiet(l)
  {
    forall l | l in [a, b, c, d, e, f]
      ensures Quiet(l)
    {
      QuietIfPlain(l);
    }
  }

  /** The one marked line gives back the pillars. */
  lemma PillarLine(pillars: seq<string>)
    requires |pillars| == 4
    requires forall i :: 0 <= i < 4 ==> IsPillar(pillars[i])
    ensures '\n' !in "八字：" + Join(pillars, " ")
    ensures Fields(MarkedLines(["八字：" + Join(pillars, " ")])) == pillars
  {
    var joined := Join(pillars, " ");
    var line := PILLAR_LABEL + joined;
    forall i | 0 <= i < 4
      ensures Plain(pillars[i]) && ' ' !in pillars[i]
    {
      PlainPillar(pillars[i]);
    }
    PlainJoin(pillars);
    assert PILLAR_LABEL <= line;
    assert MarkedLines([line]) == [line];
    assert ReplaceFirst(line, PILLAR_LABEL, "") == joined;
    SplitJoin(pillars, ' ');
    assert Fields([line]) == Split(joined, ' ') + Fields([]);
  }

  /** Around one marked line, only quiet lines: the filter keeps that line,
      and no line holds a line break. */
  lemma MarkedAround(before: seq<string>, line: string, after: seq<string>)
    requires forall l :: l in before ==> Quiet(l)
    requires forall l :: l in after ==> Quiet(l)
    requires '\n' !in line && Contains(line, PILLAR_LABEL)
    ensures MarkedLines(before + [line] + after) == [line]
    ensures forall i :: 0 <= i < |before + [line] + after| ==> '\n' !in (before + [line] + after)[i]
  {
    MarkedLinesAppend(before + [line], after);
    MarkedLinesAppend(before, [line]);
    MarkedLinesQuiet(before);
    MarkedLinesQuiet(after);
    assert MarkedLines([line]) == [line];
    var all := before + [line] + after;
    forall i | 0 <= i < |all|
      ensures '\n' !in all[i]
    {
      assert all[i] in before || all[i] == line || all[i] in after;
    }
  }

  /** The analysis text splits back into its lines, of which the page keeps
      the pillar line alone. */
  lemma MarkedReportLines(name: string, calendarType: CalendarType, birthDate: string, birthTime: string,
                          gender: Gender, pillars: seq<string>)
    requires |pillars| == 4
    requires forall i :: 0 <= i < 4 ==> IsPillar(pillars[i])
    requires Quiet(name) && Quiet(birthDate) && Quiet(birthTime)
    ensures MarkedLines(Split(AnalysisText(name, calendarType, birthDate, birthTime, gender, pillars), '\n'))
         == ["八字：" + Join(pillars, " ")]
  {
    var before := LinesBefore(name, calendarType, birthDate, birthTime, gender);
    var line := "八字：" + Join(pillars, " ");
    var after := LinesAfter(gender, pillars);
    LinesAroundLabel(name, calendarType, birthDate, birthTime, gender, pillars);
    BeforeQuiet(name, calendarType, birthDate, birthTime, gender);
    AfterQuiet(gender, pillars);
    PillarLine(pillars);
    assert PILLAR_LABEL <= line;
    MarkedAround(before, line, after);
    AnalysisLayout(name, calendarType, birthDate, birthTime, gender, pillars);
    SplitJoin(before + [line] + after, '\n');
  }

  /** The page's parse of a text whose one marked line is the pillar line. */
  lemma ParseMarked(text: string, pillars: seq<string>)
    requires |pillars| == 4
    requires forall i :: 0 <= i < 4 ==> IsPillar(pillars[i])
    requires MarkedLines(Split(text, '\n')) == ["八字：" + Join(pillars, " ")]
    ensures ParsePillars(text) == pillars
  {
    PillarLine(pillars);
  }

  /** Reading the pillars back out of the analysis text of four real pillars
      gives the four pillars, provided the name and the birth date and time
      the user typed hold neither a line break nor the label. */
  lemma ReportRoundTrip(name: string, calendarType: CalendarType, birthDate: string, birthTime: string,
                        gender: Gender, chart: EightChar)
    requires IsPillar(chart.year) && IsPillar(chart.month) && IsPillar(chart.day) && IsPillar(chart.hour)
    requires Quiet(name) && Quiet(birthDate) && Quiet(birthTime)
    ensures ParsePillars(AnalyzeBazi(name, calendarType, birthDate, birthTime, gender, chart).analysis) == Pillars(chart)
  {
    TextRoundTrip(name, calendarType, birthDate, birthTime, gender, Pillars(chart));
  }

  /** The same for the analysis text of any four real pillars. */
  lemma TextRoundTrip(name: string, calendarType: CalendarType, birthDate: string, birthTime: string,
                      gender: Gender, pillars: seq<string>)
    requires |pillars| == 4
    requires forall i :: 0 <= i < 4 ==> IsPillar(pillars[i])
    requires Quiet(name) && Quiet(birthDate) && Quiet(birthTime)
    ensures ParsePillars(AnalysisText(name, calendarType, birthDate, birthTime, gender, pillars)) == pillars
  {
    MarkedReportLines(name, calendarType, birthDate, birthTime, gender, pillars);
    ParseMarked(AnalysisText(name, calendarType, birthDate, birthTime, gender, pillars), pillars);
  }
}
