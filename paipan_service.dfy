/** The newer chart service: renders the chart API's structured answer as
    labelled Chinese text. Each `Write…` method appends one section to a
    `Builder`; its specification is a function `…Text` giving exactly the
    text the section appends. Lemmas then say what each section shows. */
module PaipanService {
  import opened Wrappers
  import opened Text
  import opened Domain
  import Application

  /** The four pillars, in the order every per-pillar section uses. */
  const Pillars: seq<string> := ["年", "月", "日", "时"]

  // ---------------------------------------------------------------------------
  // The response, as this service reads it
  // ---------------------------------------------------------------------------

  /** True-solar-time details; absent (nil) when the API sends none. */
  datatype ZhenInfo = ZhenInfo(Province: string, City: string, Jingdu: string, Weidu: string, Shicha: string)

  datatype BaseInfo = BaseInfo(
    Zhen: Option<ZhenInfo>,
    Sex: string,
    Name: string,
    Gongli: string,
    Nongli: string,
    Qiyun: string,
    Jiaoyun: string,
    Zhengge: string)

  /** Per-pillar lists, ordered year, month, day, hour. */
  datatype BaziInfo = BaziInfo(
    Kw: string,
    TgCgGod: seq<string>,
    Bazi: seq<string>,
    DzCg: seq<string>,
    DzCgGod: seq<string>,
    DayCs: seq<string>,
    NaYin: seq<string>)

  /** Per-大运 lists, ordered by time. `YearsInfo[k][i]` is the year pillar
      of flowing year k of 大运 i (the source's ten fields `YearsInfo0` …
      `YearsInfo9`, each a list of `YearChar` records). */
  datatype DayunInfo = DayunInfo(
    BigGod: seq<string>,
    Big: seq<string>,
    BigCs: seq<string>,
    XuSui: seq<int>,
    BigStartYear: seq<int>,
    BigEndYear: seq<int>,
    YearsInfo: seq<seq<string>>)

  datatype StartInfo = StartInfo(Jishen: seq<string>, Xz: string, Sx: string)

  /** One value per pillar. */
  datatype ByPillar<T> = ByPillar(Year: T, Month: T, Day: T, Hour: T)
  {
    /** The value of pillar i (0 year, 1 month, 2 day, 3 hour). */
    function At(i: nat): T
      requires i < 4
    {
      if i == 0 then Year else if i == 1 then Month else if i == 2 then Day else Hour
    }
  }

  /** Heavenly stem and earthly branch of one pillar. */
  datatype Ganzhi = Ganzhi(Tg: string, Dz: string)

  datatype DayunShensha = DayunShensha(Tgdz: string, Shensha: string)

  datatype DetailInfo = DetailInfo(
    Zhuxing: ByPillar<string>,
    Sizhu: ByPillar<Ganzhi>,
    Canggan: ByPillar<seq<string>>,
    Fuxing: ByPillar<seq<string>>,
    Xingyun: ByPillar<string>,
    Zizuo: ByPillar<string>,
    Kongwang: ByPillar<string>,
    Nayin: ByPillar<string>,
    Shensha: ByPillar<string>,
    Dayunshensha: seq<DayunShensha>)

  datatype Data = Data(
    BaseInfo: BaseInfo,
    BaziInfo: BaziInfo,
    DayunInfo: DayunInfo,
    StartInfo: StartInfo,
    DetailInfo: DetailInfo)

  datatype PaipanResponse = PaipanResponse(ErrCode: int, ErrMsg: string, Notice: string, Data: Data)

  /** A labelled value, as the source's anonymous `{label, value}` records. */
  datatype Field = Field(caption: string, value: string)

  // ---------------------------------------------------------------------------
  // What the source indexes without checking: the lists it reads at the
  // indices it reads them. Anything shorter is an index-out-of-range panic.
  // ---------------------------------------------------------------------------

  /** When the chart has four pillars, every per-pillar list has all four. */
  predicate BaziInfoIndexable(info: BaziInfo)
  {
    |info.Bazi| == 4 ==>
      |info.TgCgGod| >= 4 && |info.DzCg| >= 4 && |info.DzCgGod| >= 4
      && |info.DayCs| >= 4 && |info.NaYin| >= 4
  }

  /** Every per-大运 list has an entry for each 大运 in `Big`, and each of
      the ten flowing-year lists too. */
  predicate DayunInfoIndexable(d: DayunInfo)
  {
    DayunListsIndexable(d)
    && |d.YearsInfo| == 10
    && forall k :: 0 <= k < 10 ==> |d.YearsInfo[k]| >= |d.Big|
  }

  /** The per-大运 lists other than the flowing years have an entry for each 大运. */
  predicate DayunListsIndexable(d: DayunInfo)
  {
    var n := |d.Big|;
    && |d.BigGod| >= n && |d.BigCs| >= n
    && |d.XuSui| >= n && |d.BigStartYear| >= n && |d.BigEndYear| >= n
  }

  predicate Indexable(data: Data)
  {
    BaziInfoIndexable(data.BaziInfo) && DayunInfoIndexable(data.DayunInfo)
  }


  // ---------------------------------------------------------------------------
  // Labelled lines
  // ---------------------------------------------------------------------------

  /** A caption, its value and what ends the line, as three writes in a row. */
  function Labelled(caption: string, value: string, end: string): string
  {
    caption + value + end
  }

  method WriteLabelled(b: Builder, caption: string, value: string, end: string)
    modifies b
    ensures b.contents == old(b.contents) + Labelled(caption, value, end)
  {
    b.WriteString(caption);
    b.WriteString(value);
    b.WriteString(end);
    Regroup3(old(b.contents), caption, value, end);
  }

  // ---------------------------------------------------------------------------
  // writeBaseInfo
  // ---------------------------------------------------------------------------

  const BaseInfoHeader: string := "\n【基本信息】\n"

  /** The seven basic-information fields, in output order; the sex carries
      the gloss on 乾造 and 坤造. */
  function BaseInfoFields(info: BaseInfo): seq<Field>
  {
    [ Field("姓名", info.Name),
      Field("性别", info.Sex + "（乾造为男，坤造为女）"),
      Field("公历", info.Gongli),
      Field("农历", info.Nongli),
      Field("起运时间", info.Qiyun),
      Field("交运", info.Jiaoyun),
      Field("八字正格", info.Zhengge) ]
  }

  /** One basic-information line: caption, full-width colon, value, newline. */
  function FieldLine(f: Field): string
  {
    f.caption + "：" + f.value + "\n"
  }

  function FieldLines(fields: seq<Field>): seq<string>
  {
    seq(|fields|, j requires 0 <= j < |fields| => FieldLine(fields[j]))
  }

  /** What `writeBaseInfo` appends: the header, then one line per field. */
  function BaseInfoText(info: BaseInfo): string
  {
    BaseInfoHeader + Concat(FieldLines(BaseInfoFields(info)))
  }

  method WriteBaseInfo(b: Builder, info: BaseInfo)
    modifies b
    ensures b.contents == old(b.contents) + BaseInfoText(info)
  {
    b.WriteString(BaseInfoHeader);
    var infoFields := BaseInfoFields(info);
    ghost var head := b.contents;
    ghost var lines := FieldLines(infoFields);
    AppendEmpty(head);
    for j := 0 to |infoFields|
      invariant b.contents == head + Concat(lines[..j])
    {
      ghost var before := b.contents;
      var field := infoFields[j];
      b.WriteString(field.caption);
      b.WriteString("：");
      b.WriteString(field.value);
      b.WriteByte('\n');
      Regroup4(before, field.caption, "：", field.value, "\n");
      ConcatPrefixStep(lines, j);
      Regroup2(head, Concat(lines[..j]), lines[j]);
    }
    assert lines[..|infoFields|] == lines;
    Regroup2(old(b.contents), BaseInfoHeader, Concat(lines));
  }

  /** The basic information opens with its header and shows every one of the
      seven fields on a line of its own. */
  lemma BaseInfoShown(info: BaseInfo, j: nat)
    requires j < 7
    ensures BaseInfoHeader <= BaseInfoText(info)
    ensures Contains(BaseInfoText(info), FieldLine(BaseInfoFields(info)[j]))
  {
    var lines := FieldLines(BaseInfoFields(info));
    PrefixAppend(BaseInfoHeader, Concat(lines));
    ConcatContains(lines, j);
    ContainsPrepend(BaseInfoHeader, Concat(lines), lines[j]);
  }

  // ---------------------------------------------------------------------------
  // writeZhenSolarTimeInfo
  // ---------------------------------------------------------------------------

  /** What `writeZhenSolarTimeInfo` appends: nothing without true-solar-time
      details, else the place, its coordinates and the time difference. */
  function ZhenText(zhen: Option<ZhenInfo>): string
  {
    match zhen
    case None => ""
    case Some(z) =>
      "\n【真太阳时信息】\n" + "省份：" + z.Province + "\n城市：" + z.City
      + "\n经度：" + z.Jingdu + "\n纬度：" + z.Weidu + "\n时差：" + z.Shicha + "\n"
  }

  method WriteZhenSolarTimeInfo(b: Builder, zhen: Option<ZhenInfo>)
    modifies b
    ensures b.contents == old(b.contents) + ZhenText(zhen)
  {
    if zhen.None? {
      AppendEmpty(b.contents);
      return;
    }
    var z := zhen.value;
    b.WriteString("\n【真太阳时信息】\n");
    b.WriteString("省份：");
    b.WriteString(z.Province);
    b.WriteString("\n城市：");
    b.WriteString(z.City);
    b.WriteString("\n经度：");
    b.WriteString(z.Jingdu);
    b.WriteString("\n纬度：");
    b.WriteString(z.Weidu);
    b.WriteString("\n时差：");
    b.WriteString(z.Shicha);
    b.WriteString("\n");
    Regroup12(old(b.contents), "\n【真太阳时信息】\n", "省份：", z.Province, "\n城市：", z.City,
      "\n经度：", z.Jingdu, "\n纬度：", z.Weidu, "\n时差：", z.Shicha, "\n");
  }

  /** The section is empty exactly when the details are absent. */
  lemma ZhenShown(zhen: Option<ZhenInfo>)
    ensures ZhenText(zhen) == "" <==> zhen.None?
  {
    if zhen.Some? {
      assert |ZhenText(zhen)| > 0;
    }
  }

  /** Present details show the province and the city, each after its label. */
  lemma ZhenShowsPlace(z: ZhenInfo)
    ensures Contains(ZhenText(Some(z)), "省份：" + z.Province)
    ensures Contains(ZhenText(Some(z)), "\n城市：" + z.City)
  {
    var h := "\n【真太阳时信息】\n";
    var rest := "\n经度：" + z.Jingdu + "\n纬度：" + z.Weidu + "\n时差：" + z.Shicha + "\n";
    var t := h + "省份：" + z.Province + "\n城市：" + z.City;
    Regroup2(h, "省份：", z.Province);
    ContainsEnd(h, "省份：" + z.Province);
    ContainsAppend(h + "省份：" + z.Province, "省份：" + z.Province, "\n城市：");
    ContainsAppend(h + "省份：" + z.Province + "\n城市：", "省份：" + z.Province, z.City);
    Regroup2(h + "省份：" + z.Province, "\n城市：", z.City);
    ContainsEnd(h + "省份：" + z.Province, "\n城市：" + z.City);
    Regroup7(t, "\n经度：", z.Jingdu, "\n纬度：", z.Weidu, "\n时差：", z.Shicha, "\n");
    assert ZhenText(Some(z)) == t + rest;
    ContainsAppend(t, "省份：" + z.Province, rest);
    ContainsAppend(t, "\n城市：" + z.City, rest);
  }

  // ---------------------------------------------------------------------------
  // writeBaziInfo
  // ---------------------------------------------------------------------------

  const InvalidBaziText: string := "错误：未获取到有效的八字排盘数据"

  function BaziHeaderText(info: BaziInfo): string
  {
    "\n【八字排盘】\n" + "空亡位置：" + info.Kw + "\n"
  }

  /** The block of pillar i: its name, then its entry of each per-pillar list. */
  function PillarText(info: BaziInfo, i: nat): string
    requires BaziInfoIndexable(info) && |info.Bazi| == 4 && i < 4
  {
    Pillars[i] + "柱如下：\n"
    + Labelled("  干支八字：", info.Bazi[i], "\n")
    + Labelled("  天干十神：", info.TgCgGod[i], "\n")
    + Labelled("  地支藏干：", info.DzCg[i], "\n")
    + Labelled("  地支藏干十神：", info.DzCgGod[i], "\n")
    + Labelled("  十二长生衰亡：", info.DayCs[i], "\n")
    + Labelled("  纳音：", info.NaYin[i], "\n\n")
  }

  function PillarTexts(info: BaziInfo): seq<string>
    requires BaziInfoIndexable(info) && |info.Bazi| == 4
  {
    seq(4, i requires 0 <= i < 4 => PillarText(info, i))
  }

  /** What `writeBaziInfo` appends: an error line when the chart does not have
      exactly four pillars, else the header and the four pillar blocks. */
  function BaziInfoText(info: BaziInfo): string
    requires BaziInfoIndexable(info)
  {
    if |info.Bazi| != 4 then InvalidBaziText
    else BaziHeaderText(info) + Concat(PillarTexts(info))
  }

  method WritePillar(b: Builder, info: BaziInfo, i: nat)
    requires BaziInfoIndexable(info) && |info.Bazi| == 4 && i < 4
    modifies b
    ensures b.contents == old(b.contents) + PillarText(info, i)
  {
    b.WriteString(Pillars[i]);
    b.WriteString("柱如下：\n");
    WriteLabelled(b, "  干支八字：", info.Bazi[i], "\n");
    WriteLabelled(b, "  天干十神：", info.TgCgGod[i], "\n");
    WriteLabelled(b, "  地支藏干：", info.DzCg[i], "\n");
    WriteLabelled(b, "  地支藏干十神：", info.DzCgGod[i], "\n");
    WriteLabelled(b, "  十二长生衰亡：", info.DayCs[i], "\n");
    WriteLabelled(b, "  纳音：", info.NaYin[i], "\n\n");
    Regroup8(old(b.contents), Pillars[i], "柱如下：\n",
      Labelled("  干支八字：", info.Bazi[i], "\n"),
      Labelled("  天干十神：", info.TgCgGod[i], "\n"),
      Labelled("  地支藏干：", info.DzCg[i], "\n"),
      Labelled("  地支藏干十神：", info.DzCgGod[i], "\n"),
      Labelled("  十二长生衰亡：", info.DayCs[i], "\n"),
      Labelled("  纳音：", info.NaYin[i], "\n\n"));
  }

  method WriteBaziInfo(b: Builder, info: BaziInfo)
    requires BaziInfoIndexable(info)
    modifies b
    ensures b.contents == old(b.contents) + BaziInfoText(info)
  {
    if |info.Bazi| != 4 {
      b.WriteString(InvalidBaziText);
      return;
    }
    b.WriteString("\n【八字排盘】\n");
    b.WriteString("空亡位置：");
    b.WriteString(info.Kw);
    b.WriteString("\n");
    Regroup4(old(b.contents), "\n【八字排盘】\n", "空亡位置：", info.Kw, "\n");
    ghost var head := b.contents;
    ghost var blocks := PillarTexts(info);
    AppendEmpty(head);
    for i := 0 to 4  // the four entries of Pillars
      invariant b.contents == head + Concat(blocks[..i])
    {
      WritePillar(b, info, i);
      ConcatPrefixStep(blocks, i);
      Regroup2(head, Concat(blocks[..i]), blocks[i]);
    }
    assert blocks[..4] == blocks;
    Regroup2(old(b.contents), BaziHeaderText(info), Concat(blocks));
  }

  /** The section is the error line exactly when the chart does not have
      four pillars. */
  lemma BaziInfoInvalidIff(info: BaziInfo)
    requires BaziInfoIndexable(info)
    ensures BaziInfoText(info) == InvalidBaziText <==> |info.Bazi| != 4
  {
    if |info.Bazi| == 4 {
      var t := BaziInfoText(info);
      assert t == BaziHeaderText(info) + Concat(PillarTexts(info));
      assert t[0] == '\n' != InvalidBaziText[0];
    }
  }

  /** With four pillars the section is the header followed by the blocks of
      the year, month, day and hour pillars, in that order. */
  lemma BaziInfoPillarsInOrder(info: BaziInfo)
    requires BaziInfoIndexable(info) && |info.Bazi| == 4
    ensures BaziInfoText(info)
         == BaziHeaderText(info) + PillarText(info, 0) + PillarText(info, 1)
            + PillarText(info, 2) + PillarText(info, 3)
  {
    var blocks := PillarTexts(info);
    ConcatFour(blocks);
    Regroup4(BaziHeaderText(info), blocks[0], blocks[1], blocks[2], blocks[3]);
  }

  // ---------------------------------------------------------------------------
  // writeDayunInfo
  // ---------------------------------------------------------------------------

  const DayunHeader: string := "\n【大运信息】\n"

  /** A flowing year: its year pillar and its offset from the 大运's start year. */
  datatype YearOffset = YearOffset(yearChar: string, yearOffset: int)

  /** The ten flowing years of 大运 i, with offsets -1 to 8 in that order. */
  function YearsInfoFields(d: DayunInfo, i: nat): (r: seq<YearOffset>)
    requires DayunInfoIndexable(d) && i < |d.Big|
  {
    [ YearOffset(d.YearsInfo[0][i], -1),
      YearOffset(d.YearsInfo[1][i], 0),
      YearOffset(d.YearsInfo[2][i], 1),
      YearOffset(d.YearsInfo[3][i], 2),
      YearOffset(d.YearsInfo[4][i], 3),
      YearOffset(d.YearsInfo[5][i], 4),
      YearOffset(d.YearsInfo[6][i], 5),
      YearOffset(d.YearsInfo[7][i], 6),
      YearOffset(d.YearsInfo[8][i], 7),
      YearOffset(d.YearsInfo[9][i], 8) ]
  }

  /** The title line of a 大运: its number, age range and year range, all
      already rendered as decimals. */
  function DayunTitle(no: string, age: string, ageEnd: string, startYear: string, endYear: string): string
  {
    "\n第" + no + "个大运： " + age + "-" + ageEnd + "岁（" + startYear + "年-" + endYear + "年）：\n"
  }

  /** The head of 大运 i: numbered i + 1, ages XuSui[i] to XuSui[i] + 10,
      its years, then its pillar, ten god and growth phase. */
  function DayunHeadText(d: DayunInfo, i: nat): string
    requires DayunListsIndexable(d) && i < |d.Big|
  {
    DayunTitle(IntToString(i + 1), IntToString(d.XuSui[i]), IntToString(d.XuSui[i] + 10),
               IntToString(d.BigStartYear[i]), IntToString(d.BigEndYear[i]))
    + Labelled("  大运干支：", d.Big[i], "\n")
    + Labelled("  大运天干十神：", d.BigGod[i], "\n")
    + Labelled("  大运长生衰旺：", d.BigCs[i], "\n")
  }

  /** A flowing-year line: pillar, year and nominal age, both shifted by the offset. */
  function LiunianLine(y: YearOffset, startYear: int, xuSui: int): string
  {
    "  流年年柱：" + y.yearChar + " " + IntToString(startYear + y.yearOffset)
    + "年(虚岁" + IntToString(xuSui + y.yearOffset) + ")\n"
  }

  function LiunianLines(d: DayunInfo, i: nat): seq<string>
    requires DayunInfoIndexable(d) && i < |d.Big|
  {
    var ys := YearsInfoFields(d, i);
    seq(|ys|, k requires 0 <= k < |ys| => LiunianLine(ys[k], d.BigStartYear[i], d.XuSui[i]))
  }

  /** The block of 大运 i: its head, then its flowing years. */
  function DayunBlockText(d: DayunInfo, i: nat): string
    requires DayunInfoIndexable(d) && i < |d.Big|
  {
    DayunHeadText(d, i) + Concat(LiunianLines(d, i))
  }

  function DayunBlocks(d: DayunInfo): seq<string>
    requires DayunInfoIndexable(d)
  {
    seq(|d.Big|, i requires 0 <= i < |d.Big| => DayunBlockText(d, i))
  }

  /** What `writeDayunInfo` appends: the header and one block per 大运, in order. */
  function DayunInfoText(d: DayunInfo): string
    requires DayunInfoIndexable(d)
  {
    DayunHeader + Concat(DayunBlocks(d))
  }

  method WriteDayunTitle(b: Builder, no: string, age: string, ageEnd: string, startYear: string, endYear: string)
    modifies b
    ensures b.contents == old(b.contents) + DayunTitle(no, age, ageEnd, startYear, endYear)
  {
    b.WriteString("\n第");
    b.WriteString(no);
    b.WriteString("个大运： ");
    b.WriteString(age);
    b.WriteString("-");
    b.WriteString(ageEnd);
    b.WriteString("岁（");
    b.WriteString(startYear);
    b.WriteString("年-");
    b.WriteString(endYear);
    b.WriteString("年）：\n");
    Regroup11(old(b.contents), "\n第", no, "个大运： ", age, "-", ageEnd, "岁（",
      startYear, "年-", endYear, "年）：\n");
  }

  method WriteLiunianLine(b: Builder, y: YearOffset, startYear: int, xuSui: int)
    modifies b
    ensures b.contents == old(b.contents) + LiunianLine(y, startYear, xuSui)
  {
    b.WriteString("  流年年柱：");
    b.WriteString(y.yearChar);
    b.WriteString(" ");
    b.WriteString(IntToString(startYear + y.yearOffset));
    b.WriteString("年(虚岁");
    b.WriteString(IntToString(xuSui + y.yearOffset));
    b.WriteString(")\n");
    Regroup7(old(b.contents), "  流年年柱：", y.yearChar, " ", IntToString(startYear + y.yearOffset),
      "年(虚岁", IntToString(xuSui + y.yearOffset), ")\n");
  }

  /** The head of 大运 i, as the first statements of the outer loop of
      `writeDayunInfo` write it. */
  method WriteDayunHead(b: Builder, d: DayunInfo, i: nat)
    requires DayunListsIndexable(d) && i < |d.Big|
    modifies b
    ensures b.contents == old(b.contents) + DayunHeadText(d, i)
  {
    var no, age, ageEnd := IntToString(i + 1), IntToString(d.XuSui[i]), IntToString(d.XuSui[i] + 10);
    var startYear, endYear := IntToString(d.BigStartYear[i]), IntToString(d.BigEndYear[i]);
    WriteDayunTitle(b, no, age, ageEnd, startYear, endYear);
    WriteLabelled(b, "  大运干支：", d.Big[i], "\n");
    WriteLabelled(b, "  大运天干十神：", d.BigGod[i], "\n");
    WriteLabelled(b, "  大运长生衰旺：", d.BigCs[i], "\n");
    Regroup4(old(b.contents), DayunTitle(no, age, ageEnd, startYear, endYear),
      Labelled("  大运干支：", d.Big[i], "\n"),
      Labelled("  大运天干十神：", d.BigGod[i], "\n"),
      Labelled("  大运长生衰旺：", d.BigCs[i], "\n"));
  }

  /** One pass of the outer loop of `writeDayunInfo`: the head, then the
      inner loop over the ten flowing years. */
  method WriteDayunBlock(b: Builder, d: DayunInfo, i: nat)
    requires DayunInfoIndexable(d) && i < |d.Big|
    modifies b
    ensures b.contents == old(b.contents) + DayunBlockText(d, i)
  {
    WriteDayunHead(b, d, i);
    WriteLiunianLines(b, d, i);
    Regroup2(old(b.contents), DayunHeadText(d, i), Concat(LiunianLines(d, i)));
  }

  /** The inner loop of `writeDayunInfo`: the ten flowing years of 大运 i. */
  method WriteLiunianLines(b: Builder, d: DayunInfo, i: nat)
    requires DayunInfoIndexable(d) && i < |d.Big|
    modifies b
    ensures b.contents == old(b.contents) + Concat(LiunianLines(d, i))
  {
    var yearsInfoFields := YearsInfoFields(d, i);
    ghost var lines := LiunianLines(d, i);
    AppendEmpty(old(b.contents));
    for k := 0 to 10  // the ten entries of yearsInfoFields
      invariant b.contents == old(b.contents) + Concat(lines[..k])
    {
      WriteLiunianLine(b, yearsInfoFields[k], d.BigStartYear[i], d.XuSui[i]);
      ConcatPrefixStep(lines, k);
      Regroup2(old(b.contents), Concat(lines[..k]), lines[k]);
    }
    assert lines[..10] == lines;
  }

  method WriteDayunInfo(b: Builder, d: DayunInfo)
    requires DayunInfoIndexable(d)
    modifies b
    ensures b.contents == old(b.contents) + DayunInfoText(d)
  {
    b.WriteString(DayunHeader);
    ghost var head := b.contents;
    ghost var blocks := DayunBlocks(d);
    AppendEmpty(head);
    for i := 0 to |d.Big|
      invariant b.contents == head + Concat(blocks[..i])
    {
      WriteDayunBlock(b, d, i);
      ConcatPrefixStep(blocks, i);
      Regroup2(head, Concat(blocks[..i]), blocks[i]);
    }
    assert blocks[..|d.Big|] == blocks;
    Regroup2(old(b.contents), DayunHeader, Concat(blocks));
  }

  /** Flowing year k of a 大运 (k from 0 to 9) is year BigStartYear[i] + k - 1
      at nominal age XuSui[i] + k - 1, with year pillar YearsInfo[k][i]: ten
      lines, offsets -1 to 8, in increasing order. */
  lemma LiunianLineOfDayun(d: DayunInfo, i: nat, k: nat)
    requires DayunInfoIndexable(d) && i < |d.Big| && k < 10
    ensures |LiunianLines(d, i)| == 10
    ensures LiunianLines(d, i)[k]
         == "  流年年柱：" + d.YearsInfo[k][i] + " " + IntToString(d.BigStartYear[i] + k - 1)
            + "年(虚岁" + IntToString(d.XuSui[i] + k - 1) + ")\n"
  {
    var ys := YearsInfoFields(d, i);
    assert ys[k] == YearOffset(d.YearsInfo[k][i], k - 1);
  }

  /** The head of a 大运 shows its age range, from XuSui[i] to XuSui[i] + 10. */
  lemma DayunHeadShowsAgeRange(d: DayunInfo, i: nat)
    requires DayunListsIndexable(d) && i < |d.Big|
    ensures Contains(DayunHeadText(d, i), IntToString(d.XuSui[i]) + "-" + IntToString(d.XuSui[i] + 10) + "岁（")
  {
    var no, age, ageEnd := IntToString(i + 1), IntToString(d.XuSui[i]), IntToString(d.XuSui[i] + 10);
    var sy, ey := IntToString(d.BigStartYear[i]), IntToString(d.BigEndYear[i]);
    var a := "\n第" + no + "个大运： ";
    var s := age + "-" + ageEnd + "岁（";
    Regroup4(a, age, "-", ageEnd, "岁（");
    ContainsEnd(a, s);
    var t := a + s;
    ContainsAppend(t, s, sy + "年-" + ey + "年）：\n");
    Regroup4(t, sy, "年-", ey, "年）：\n");
    var title := DayunTitle(no, age, ageEnd, sy, ey);
    assert title == t + (sy + "年-" + ey + "年）：\n");
    var rest := Labelled("  大运干支：", d.Big[i], "\n") + Labelled("  大运天干十神：", d.BigGod[i], "\n")
      + Labelled("  大运长生衰旺：", d.BigCs[i], "\n");
    ContainsAppend(title, s, rest);
    Regroup3(title, Labelled("  大运干支：", d.Big[i], "\n"), Labelled("  大运天干十神：", d.BigGod[i], "\n"),
      Labelled("  大运长生衰旺：", d.BigCs[i], "\n"));
  }

  /** The section opens with its header and shows the block of every 大运. */
  lemma DayunInfoShowsBlock(d: DayunInfo, i: nat)
    requires DayunInfoIndexable(d) && i < |d.Big|
    ensures DayunHeader <= DayunInfoText(d)
    ensures Contains(DayunInfoText(d), DayunBlockText(d, i))
  {
    var blocks := DayunBlocks(d);
    PrefixAppend(DayunHeader, Concat(blocks));
    ConcatContains(blocks, i);
    ContainsPrepend(DayunHeader, Concat(blocks), blocks[i]);
  }

  // ---------------------------------------------------------------------------
  // writeStartInfo
  // ---------------------------------------------------------------------------

  /** The 吉神 of pillar i on a line of its own. */
  function JishenLine(jishen: seq<string>, i: nat): string
    requires i < 4 && i < |jishen|
  {
    "  " + Pillars[i] + "柱：" + jishen[i] + "\n"
  }

  function JishenLines(jishen: seq<string>): seq<string>
    requires |jishen| >= 4
  {
    seq(4, i requires 0 <= i < 4 => JishenLine(jishen, i))
  }

  /** The 吉神 part: one line per pillar from the first four entries when
      there are at least four, else all entries joined by "、" on one line. */
  function JishenText(jishen: seq<string>): string
  {
    if |jishen| >= 4 then "吉神：\n" + Concat(JishenLines(jishen))
    else "吉神：" + Join(jishen, "、") + "\n"
  }

  /** What `writeStartInfo` appends: header, 吉神, constellation and zodiac. */
  function StartInfoText(s: StartInfo): string
  {
    "\n【起运信息】\n" + JishenText(s.Jishen) + "星座：" + s.Xz + "\n" + "生肖：" + s.Sx + "\n"
  }

  method WriteStartInfo(b: Builder, s: StartInfo)
    modifies b
    ensures b.contents == old(b.contents) + StartInfoText(s)
  {
    b.WriteString("\n【起运信息】\n");
    ghost var afterHeader := b.contents;
    if |s.Jishen| >= 4 {
      b.WriteString("吉神：\n");
      ghost var head := b.contents;
      ghost var lines := JishenLines(s.Jishen);
      AppendEmpty(head);
      for i := 0 to 4  // the four entries of Pillars
        invariant b.contents == head + Concat(lines[..i])
      {
        ghost var before := b.contents;
        b.WriteString("  ");
        b.WriteString(Pillars[i]);
        b.WriteString("柱：");
        b.WriteString(s.Jishen[i]);
        b.WriteString("\n");
        Regroup5(before, "  ", Pillars[i], "柱：", s.Jishen[i], "\n");
        ConcatPrefixStep(lines, i);
        Regroup2(head, Concat(lines[..i]), lines[i]);
      }
      assert lines[..4] == lines;
      Regroup2(afterHeader, "吉神：\n", Concat(lines));
    } else {
      b.WriteString("吉神：");
      b.WriteString(Join(s.Jishen, "、"));
      b.WriteString("\n");
      Regroup3(afterHeader, "吉神：", Join(s.Jishen, "、"), "\n");
    }
    b.WriteString("星座：");
    b.WriteString(s.Xz);
    b.WriteString("\n");
    b.WriteString("生肖：");
    b.WriteString(s.Sx);
    b.WriteString("\n");
    Regroup8(old(b.contents), "\n【起运信息】\n", JishenText(s.Jishen), "星座：", s.Xz, "\n", "生肖：", s.Sx, "\n");
  }

  /** With at least four 吉神 the part lists the year, month, day and hour
      pillars' entries, in that order, one per line. */
  lemma JishenByPillar(jishen: seq<string>)
    requires |jishen| >= 4
    ensures JishenText(jishen)
         == "吉神：\n" + JishenLine(jishen, 0) + JishenLine(jishen, 1)
            + JishenLine(jishen, 2) + JishenLine(jishen, 3)
  {
    var lines := JishenLines(jishen);
    ConcatFour(lines);
    Regroup4("吉神：\n", lines[0], lines[1], lines[2], lines[3]);
  }

  /** Each of the first four 吉神 is shown, and with fewer than four every
      one of them is. */
  lemma JishenShown(jishen: seq<string>, i: nat)
    requires i < |jishen| && i < 4
    ensures Contains(JishenText(jishen), jishen[i])
  {
    if |jishen| >= 4 {
      var lines := JishenLines(jishen);
      var a := "  " + Pillars[i] + "柱：";
      ContainsEnd(a, jishen[i]);
      ContainsAppend(a + jishen[i], jishen[i], "\n");
      ConcatContains(lines, i);
      ContainsTrans(Concat(lines), lines[i], jishen[i]);
      ContainsPrepend("吉神：\n", Concat(lines), jishen[i]);
    } else {
      JoinContains(jishen, "、", i);
      ContainsPrepend("吉神：", Join(jishen, "、"), jishen[i]);
      ContainsAppend("吉神：" + Join(jishen, "、"), jishen[i], "\n");
    }
  }

  /** The start information shows its 吉神 part and ends with the
      constellation and zodiac lines. */
  lemma StartInfoShown(s: StartInfo)
    ensures Contains(StartInfoText(s), JishenText(s.Jishen))
    ensures EndsWith(StartInfoText(s), "星座：" + s.Xz + "\n" + "生肖：" + s.Sx + "\n")
  {
    var h := "\n【起运信息】\n";
    var j := JishenText(s.Jishen);
    var tail := "星座：" + s.Xz + "\n" + "生肖：" + s.Sx + "\n";
    Regroup6(h + j, "星座：", s.Xz, "\n", "生肖：", s.Sx, "\n");
    ContainsEnd(h, j);
    ContainsAppend(h + j, j, tail);
    EndsWithAppend(h + j, tail);
  }

  // ---------------------------------------------------------------------------
  // writeDetailInfo
  // ---------------------------------------------------------------------------

  /** A list of hidden stems or their ten gods: "|"-joined, or "无" when empty. */
  function JoinOrNone(xs: seq<string>): (r: string)
    ensures xs == [] ==> r == "无"
    ensures xs != [] ==> r == Join(xs, "|")
  {
    if |xs| > 0 then Join(xs, "|") else "无"
  }

  /** The ten detail fields of pillar i, each taken from that pillar's entry. */
  function DetailFields(d: DetailInfo, i: nat): seq<Field>
    requires i < 4
  {
    [ Field("天干", d.Sizhu.At(i).Tg),
      Field("地支", d.Sizhu.At(i).Dz),
      Field("天干透出十神", d.Zhuxing.At(i)),
      Field("星运信息", d.Xingyun.At(i)),
      Field("自坐特性", d.Zizuo.At(i)),
      Field("空亡方位", d.Kongwang.At(i)),
      Field("纳音五行", d.Nayin.At(i)),
      Field("神煞组合", d.Shensha.At(i)),
      Field("地支藏干", JoinOrNone(d.Canggan.At(i))),
      Field("藏干十神", JoinOrNone(d.Fuxing.At(i))) ]
  }

  /** One detail line: two-space indent, caption, full-width colon, value, newline. */
  function DetailLine(f: Field): string
  {
    "  " + f.caption + "：" + f.value + "\n"
  }

  function DetailLines(fields: seq<Field>): seq<string>
  {
    seq(|fields|, j requires 0 <= j < |fields| => DetailLine(fields[j]))
  }

  /** The detail block of pillar i: its title, then its ten detail lines. */
  function DetailPillarText(d: DetailInfo, i: nat): string
    requires i < 4
  {
    "\n" + Pillars[i] + "柱详细信息：\n" + Concat(DetailLines(DetailFields(d, i)))
  }

  function DetailPillarTexts(d: DetailInfo): seq<string>
  {
    seq(4, i requires 0 <= i < 4 => DetailPillarText(d, i))
  }

  /** 大运神煞 entry i, numbered i + 1. */
  function ShenshaLine(ds: seq<DayunShensha>, i: nat): string
    requires i < |ds|
  {
    "  第" + IntToString(i + 1) + "个大运天干地支：" + ds[i].Tgdz + "，对应神煞：" + ds[i].Shensha + "\n"
  }

  function ShenshaLines(ds: seq<DayunShensha>): seq<string>
  {
    seq(|ds|, i requires 0 <= i < |ds| => ShenshaLine(ds, i))
  }

  const DetailHeader: string := "\n【四柱详细信息】\n"
  const DayunShenshaHeader: string := "\n【大运神煞】\n"

  /** What `writeDetailInfo` appends: the four pillar blocks under their
      header, then the 大运神煞 entries in list order under theirs. */
  function DetailInfoText(d: DetailInfo): string
  {
    DetailHeader + Concat(DetailPillarTexts(d)) + DayunShenshaHeader + Concat(ShenshaLines(d.Dayunshensha))
  }

  /** One pass of the per-pillar loop of `writeDetailInfo`. */
  method WriteDetailPillar(b: Builder, d: DetailInfo, i: nat)
    requires i < 4
    modifies b
    ensures b.contents == old(b.contents) + DetailPillarText(d, i)
  {
    b.WriteString("\n");
    b.WriteString(Pillars[i]);
    b.WriteString("柱详细信息：\n");
    Regroup3(old(b.contents), "\n", Pillars[i], "柱详细信息：\n");
    var detailFields := DetailFields(d, i);
    ghost var head := b.contents;
    ghost var lines := DetailLines(detailFields);
    AppendEmpty(head);
    for j := 0 to 10  // the ten entries of detailFields
      invariant b.contents == head + Concat(lines[..j])
    {
      ghost var before := b.contents;
      var field := detailFields[j];
      b.WriteString("  ");
      b.WriteString(field.caption);
      b.WriteString("：");
      b.WriteString(field.value);
      b.WriteByte('\n');
      Regroup5(before, "  ", field.caption, "：", field.value, "\n");
      ConcatPrefixStep(lines, j);
      Regroup2(head, Concat(lines[..j]), lines[j]);
    }
    assert lines[..10] == lines;
    Regroup2(old(b.contents), "\n" + Pillars[i] + "柱详细信息：\n", Concat(lines));
  }

  /** One pass of the 大运神煞 loop of `writeDetailInfo`. */
  method WriteShenshaLine(b: Builder, ds: seq<DayunShensha>, i: nat)
    requires i < |ds|
    modifies b
    ensures b.contents == old(b.contents) + ShenshaLine(ds, i)
  {
    b.WriteString("  第");
    b.WriteString(IntToString(i + 1));
    b.WriteString("个大运天干地支：");
    b.WriteString(ds[i].Tgdz);
    b.WriteString("，对应神煞：");
    b.WriteString(ds[i].Shensha);
    b.WriteString("\n");
    Regroup7(old(b.contents), "  第", IntToString(i + 1), "个大运天干地支：", ds[i].Tgdz,
      "，对应神煞：", ds[i].Shensha, "\n");
  }

  /** The 大运神煞 part of `writeDetailInfo`: its header, then one line per entry. */
  method WriteDayunShensha(b: Builder, ds: seq<DayunShensha>)
    modifies b
    ensures b.contents == old(b.contents) + DayunShenshaHeader + Concat(ShenshaLines(ds))
  {
    b.WriteString(DayunShenshaHeader);
    ghost var head := b.contents;
    ghost var lines := ShenshaLines(ds);
    AppendEmpty(head);
    for i := 0 to |ds|
      invariant b.contents == head + Concat(lines[..i])
    {
      WriteShenshaLine(b, ds, i);
      ConcatPrefixStep(lines, i);
      Regroup2(head, Concat(lines[..i]), lines[i]);
    }
    assert lines[..|ds|] == lines;
  }

  method WriteDetailInfo(b: Builder, d: DetailInfo)
    modifies b
    ensures b.contents == old(b.contents) + DetailInfoText(d)
  {
    b.WriteString(DetailHeader);
    ghost var head := b.contents;
    ghost var blocks := DetailPillarTexts(d);
    AppendEmpty(head);
    for i := 0 to 4  // the four entries of Pillars
      invariant b.contents == head + Concat(blocks[..i])
    {
      WriteDetailPillar(b, d, i);
      ConcatPrefixStep(blocks, i);
      Regroup2(head, Concat(blocks[..i]), blocks[i]);
    }
    assert blocks[..4] == blocks;
    WriteDayunShensha(b, d.Dayunshensha);
    Regroup4(old(b.contents), DetailHeader, Concat(blocks), DayunShenshaHeader, Concat(ShenshaLines(d.Dayunshensha)));
  }

  /** Every pillar's hidden stems and their ten gods are shown, "|"-joined or
      "无" when there are none. */
  lemma DetailInfoShowsHiddenStems(d: DetailInfo, i: nat)
    requires i < 4
    ensures Contains(DetailInfoText(d), DetailLine(Field("地支藏干", JoinOrNone(d.Canggan.At(i)))))
    ensures Contains(DetailInfoText(d), DetailLine(Field("藏干十神", JoinOrNone(d.Fuxing.At(i)))))
  {
    var lines := DetailLines(DetailFields(d, i));
    var blocks := DetailPillarTexts(d);
    var title := "\n" + Pillars[i] + "柱详细信息：\n";
    var pre := DetailHeader + Concat(blocks);
    ConcatContains(blocks, i);
    ConcatContains(lines, 8);
    ConcatContains(lines, 9);
    forall k | 8 <= k < 10
      ensures Contains(DetailInfoText(d), lines[k])
    {
      ContainsPrepend(title, Concat(lines), lines[k]);
      ContainsTrans(Concat(blocks), blocks[i], lines[k]);
      ContainsPrepend(DetailHeader, Concat(blocks), lines[k]);
      ContainsAppend(pre, lines[k], DayunShenshaHeader);
      ContainsAppend(pre + DayunShenshaHeader, lines[k], Concat(ShenshaLines(d.Dayunshensha)));
    }
    assert lines[8] == DetailLine(Field("地支藏干", JoinOrNone(d.Canggan.At(i))));
    assert lines[9] == DetailLine(Field("藏干十神", JoinOrNone(d.Fuxing.At(i))));
  }

  /** The 大运神煞 entries are all shown, numbered from 1 in list order. */
  lemma DetailInfoShowsDayunShensha(d: DetailInfo, j: nat)
    requires j < |d.Dayunshensha|
    ensures Contains(DetailInfoText(d),
      "  第" + IntToString(j + 1) + "个大运天干地支：" + d.Dayunshensha[j].Tgdz
      + "，对应神煞：" + d.Dayunshensha[j].Shensha + "\n")
  {
    var lines := ShenshaLines(d.Dayunshensha);
    ConcatContains(lines, j);
    ContainsPrepend(DetailHeader + Concat(DetailPillarTexts(d)) + DayunShenshaHeader, Concat(lines), lines[j]);
  }

  // ---------------------------------------------------------------------------
  // formatDetailedText and handleAPIResponse
  // ---------------------------------------------------------------------------

  /** The detailed text: the sections in output order — basic information,
      true solar time, chart, 大运, start information, per-pillar details. */
  function DetailedText(data: Data): string
    requires Indexable(data)
  {
    BaseInfoText(data.BaseInfo) + ZhenText(data.BaseInfo.Zhen) + BaziInfoText(data.BaziInfo)
    + DayunInfoText(data.DayunInfo) + StartInfoText(data.StartInfo) + DetailInfoText(data.DetailInfo)
  }

  method FormatDetailedText(data: Data) returns (text: string)
    requires Indexable(data)
    ensures text == DetailedText(data)
  {
    var b := new Builder();
    WriteBaseInfo(b, data.BaseInfo);
    WriteZhenSolarTimeInfo(b, data.BaseInfo.Zhen);
    WriteBaziInfo(b, data.BaziInfo);
    WriteDayunInfo(b, data.DayunInfo);
    WriteStartInfo(b, data.StartInfo);
    WriteDetailInfo(b, data.DetailInfo);
    AppendEmpty(BaseInfoText(data.BaseInfo));
    text := b.contents;
  }

  /** The detailed text opens with the basic-information header and shows
      every basic-information field, the name and the 八字正格 among them. */
  lemma DetailedTextShowsBaseInfo(data: Data, j: nat)
    requires Indexable(data) && j < 7
    ensures BaseInfoHeader <= DetailedText(data)
    ensures Contains(DetailedText(data), FieldLine(BaseInfoFields(data.BaseInfo)[j]))
  {
    var base := BaseInfoText(data.BaseInfo);
    var rest := ZhenText(data.BaseInfo.Zhen) + BaziInfoText(data.BaziInfo)
      + DayunInfoText(data.DayunInfo) + StartInfoText(data.StartInfo) + DetailInfoText(data.DetailInfo);
    Regroup5(base, ZhenText(data.BaseInfo.Zhen), BaziInfoText(data.BaziInfo),
      DayunInfoText(data.DayunInfo), StartInfoText(data.StartInfo), DetailInfoText(data.DetailInfo));
    BaseInfoShown(data.BaseInfo, j);
    PrefixAppend(base, rest);
    PrefixTrans(BaseInfoHeader, base, base + rest);
    ContainsAppend(base, FieldLine(BaseInfoFields(data.BaseInfo)[j]), rest);
  }

  /** A chart without exactly four pillars shows the error line in place of
      the chart, and the text goes on with the remaining sections. */
  lemma DetailedTextInvalidChart(data: Data)
    requires Indexable(data) && |data.BaziInfo.Bazi| != 4
    ensures Contains(DetailedText(data), InvalidBaziText)
    ensures DayunInfoText(data.DayunInfo) + StartInfoText(data.StartInfo) + DetailInfoText(data.DetailInfo)
         == DetailedText(data)[|BaseInfoText(data.BaseInfo) + ZhenText(data.BaseInfo.Zhen) + InvalidBaziText|..]
  {
    var front := BaseInfoText(data.BaseInfo) + ZhenText(data.BaseInfo.Zhen);
    var dy, st, de := DayunInfoText(data.DayunInfo), StartInfoText(data.StartInfo), DetailInfoText(data.DetailInfo);
    ContainsEnd(front, InvalidBaziText);
    ContainsAppend(front + InvalidBaziText, InvalidBaziText, dy);
    ContainsAppend(front + InvalidBaziText + dy, InvalidBaziText, st);
    ContainsAppend(front + InvalidBaziText + dy + st, InvalidBaziText, de);
    Regroup3(front + InvalidBaziText, dy, st, de);
    DropPrefix(front + InvalidBaziText, dy + st + de);
  }

  const ErrorHeader: string := "\n【遇到错误】\n"

  /** The error reply: the error prompt, the true-solar-time warning when
      needed, then the API's message under its own header. */
  function ErrorReply(req: Request, resp: PaipanResponse): (r: string)
    ensures Application.ErrorPromptWithWarning(req, resp.ErrCode, resp.ErrMsg) <= r
    ensures EndsWith(r, ErrorHeader + resp.ErrMsg)
  {
    var w := Application.ErrorPromptWithWarning(req, resp.ErrCode, resp.ErrMsg);
    Regroup2(w, ErrorHeader, resp.ErrMsg);
    EndsWithAppend(w, ErrorHeader + resp.ErrMsg);
    w + ErrorHeader + resp.ErrMsg
  }

  /** An error reply starts with the error prompt, and right behind it comes
      the true-solar-time warning exactly when true solar time was asked for
      without a full place. */
  lemma ErrorReplyShape(req: Request, resp: PaipanResponse)
    ensures var text := ErrorReply(req, resp);
      var p := Application.FormatErrorPrompt(req, resp.ErrCode, resp.ErrMsg);
      p <= text
      && ((Application.TrueSolarTimeWarning <= text[|p|..]) <==> Application.NeedsLocationWarning(req))
  {
    var tail := ErrorHeader + resp.ErrMsg;
    var p := Application.FormatErrorPrompt(req, resp.ErrCode, resp.ErrMsg);
    var w := Application.ErrorPromptWithWarning(req, resp.ErrCode, resp.ErrMsg);
    Regroup2(w, ErrorHeader, resp.ErrMsg);
    assert tail[1] != Application.TrueSolarTimeWarning[1];
    Application.WarningFollowsPromptIff(req, resp.ErrCode, resp.ErrMsg, tail);
    PrefixAppend(w, tail);
    PrefixTrans(p, w, w + tail);
  }

  /** `handleAPIResponse`, as (text, isError, err): the error reply flagged as
      an error for a non-zero error code; for code zero the success prompt
      followed by the detailed text. The Go error result is always nil. */
  method HandleAPIResponse(req: Request, resp: PaipanResponse) returns (text: string, isError: bool, err: Option<string>)
    requires resp.ErrCode == 0 ==> Indexable(resp.Data)
    ensures isError <==> resp.ErrCode != 0
    ensures err == None
    ensures isError ==> text == ErrorReply(req, resp)
    ensures !isError ==> text == Application.FormatSuccessPrompt(req) + DetailedText(resp.Data)
  {
    err := None;
    if resp.ErrCode != 0 {
      var promptText := Application.FormatErrorPrompt(req, resp.ErrCode, resp.ErrMsg);
      if req.Zhen == 1 && (req.Province == "" || req.City == "") {
        promptText := promptText + Application.TrueSolarTimeWarning;
      }
      text := promptText + ErrorHeader + resp.ErrMsg;
      isError := true;
      return;
    }
    var promptText := Application.FormatSuccessPrompt(req);
    var formattedText := FormatDetailedText(resp.Data);
    text := promptText + formattedText;
    isError := false;
  }
}
