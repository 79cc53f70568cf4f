/** The chart request as the MCP tool receives it. */
module Domain {
  /** `bazi.Request`. The integer fields are Go `int`s; their codes are
      documented in the source (Sex 0 male / 1 female, Type 0 lunar / 1
      solar, Zhen 1 with / 2 without true solar time, Sect 1 or 2). */
  datatype Request = Request(
    Name: string,
    Sex: int,
    Type: int,
    Year: int,
    Month: int,
    Day: int,
    Hours: int,
    Minute: int,
    Sect: int,
    Zhen: int,
    Province: string,
    City: string,
    Lang: string)

  /** The name used for a request that gives none. */
  const DefaultName: string := "求测者"
}

/** The parts of the application service that both service files carry in
    identical form: the code-to-label mapping, the success and error
    prompts, the true-solar-time warning and the province/city check. */
module Application {
  import opened Text
  import opened Domain

  // ---------------------------------------------------------------------------
  // Labels for the request's integer codes
  // ---------------------------------------------------------------------------

  /** Sex code 1 reads as female; every other code as male. */
  function SexText(sex: int): (r: string)
    ensures r == "女" <==> sex == 1
    ensures r == "女" || r == "男"
  {
    if sex == 1 then "女" else "男"
  }

  /** Calendar code 1 is the solar (Gregorian) calendar; every other code the lunar one. */
  function CalendarText(calendar: int): (r: string)
    ensures r == "公历" <==> calendar == 1
    ensures r == "公历" || r == "农历"
  {
    if calendar == 1 then "公历" else "农历"
  }

  /** True solar time is considered unless the code is exactly 2. */
  function TrueTimeText(zhen: int): (r: string)
    ensures r == "否" <==> zhen == 2
    ensures r == "否" || r == "是"
  {
    if zhen == 2 then "否" else "是"
  }

  /** The birth time as `%d年%d月%d日%d时%d分`. */
  function BirthTimeText(req: Request): string
  {
    IntToString(req.Year) + "年" + IntToString(req.Month) + "月" + IntToString(req.Day) + "日"
      + IntToString(req.Hours) + "时" + IntToString(req.Minute) + "分"
  }

  // ---------------------------------------------------------------------------
  // Success and error prompts
  // ---------------------------------------------------------------------------

  const InterpretationGuide: string :=
    "\n【八字排盘结果解读指南】\n"
    + "1. 四柱结构：年柱(祖业)、月柱(父母)、日柱(自己)、时柱(子女)\n"
    + "2. 天干地支：每个柱位的天干地支组合构成命盘基础\n"
    + "3. 藏干十神：地支中隐藏的天干及其十神关系（比肩/正印等）\n"
    + "4. 五行纳音：年份对应的五行属性（如大林木、天河水等）\n"
    + "5. 大运走势：每十年大运对应的天干地支及运势变化\n"
    + "6. 神煞吉凶：包含禄神、太极、空亡等重要神煞说明\n"
    + "7. 真太阳信息：当考虑真太阳时显示经纬度及时差数据\n"
    + "8. 起运交运：标志人生重要阶段开始的关键时间点"

  /** The line that gives the birth place. */
  function LocationLine(req: Request): string
  {
    "出生地点：" + req.Province + " " + req.City + "\n"
  }

  /** The request's parameters as both prompts list them, one line each;
      only the last line has no trailing newline. */
  function ParameterLines(req: Request): (r: seq<string>)
    ensures |r| == 5
  {
    [ "姓名：" + req.Name + "\n",
      "性别：" + SexText(req.Sex) + "\n",
      "出生时间：" + BirthTimeText(req) + "\n",
      "历法类型：" + CalendarText(req.Type) + "\n",
      "是否考虑真太阳时：" + TrueTimeText(req.Zhen) ]
  }

  function ParameterSummary(req: Request): string
  {
    Concat(ParameterLines(req))
  }

  /** The greeting that opens the success prompt. */
  function SuccessBanner(req: Request): string
  {
    "✅ 成功获取 " + req.Name + " 的八字排盘结果！\n\n【基本信息】\n"
  }

  /** The success prompt up to the birth place: greeting and parameters. */
  function SuccessHead(req: Request): string
  {
    SuccessBanner(req) + ParameterSummary(req) + "\n"
  }

  /** `formatSuccessPrompt`: greeting, basic information, the birth place
      when both province and city are given, then the reading guide. */
  function FormatSuccessPrompt(req: Request): (r: string)
    ensures SuccessHead(req) <= r
    ensures EndsWith(r, InterpretationGuide)
  {
    var head := SuccessHead(req);
    PrefixAppend(head, LocationLine(req));
    PrefixTrans(head, head + LocationLine(req), head + LocationLine(req) + InterpretationGuide);
    PrefixAppend(head, InterpretationGuide);
    EndsWithAppend(head + LocationLine(req), InterpretationGuide);
    EndsWithAppend(head, InterpretationGuide);
    (if req.Province != "" && req.City != "" then SuccessHead(req) + LocationLine(req) else SuccessHead(req))
    + InterpretationGuide
  }

  /** The first line of the error prompt: the error code and message. */
  function ErrorBanner(errCode: int, errMsg: string): string
  {
    "❌ 获取八字排盘结果失败！错误码：" + IntToString(errCode) + "，错误信息：" + errMsg
  }

  /** The error prompt up to the parameters. */
  function ErrorLead(errCode: int, errMsg: string): string
  {
    ErrorBanner(errCode, errMsg) + "\n\n请检查您的输入参数是否正确：\n"
  }

  /** `formatErrorPrompt`: the API's error code and message, then the
      request's parameters for the user to check. */
  function FormatErrorPrompt(req: Request, errCode: int, errMsg: string): (r: string)
    ensures ErrorLead(errCode, errMsg) <= r
    ensures EndsWith(r, ParameterSummary(req))
  {
    PrefixAppend(ErrorLead(errCode, errMsg), ParameterSummary(req));
    EndsWithAppend(ErrorLead(errCode, errMsg), ParameterSummary(req));
    ErrorLead(errCode, errMsg) + ParameterSummary(req)
  }

  /** The request with its place removed. */
  function WithoutPlace(req: Request): Request
  {
    req.(Province := "", City := "")
  }

  /** With either part of the place missing, the success prompt does not
      depend on the place at all. */
  lemma SuccessPromptIgnoresPartialPlace(req: Request)
    requires req.Province == "" || req.City == ""
    ensures FormatSuccessPrompt(req) == FormatSuccessPrompt(WithoutPlace(req))
  {
    assert ParameterLines(WithoutPlace(req)) == ParameterLines(req);
    assert SuccessHead(WithoutPlace(req)) == SuccessHead(req);
  }

  /** With both parts of the place given, the success prompt contains the
      place line and is exactly that much longer than without a place. */
  lemma SuccessPromptLocationLine(req: Request)
    requires req.Province != "" && req.City != ""
    ensures Contains(FormatSuccessPrompt(req), LocationLine(req))
    ensures |FormatSuccessPrompt(req)| == |FormatSuccessPrompt(WithoutPlace(req))| + |LocationLine(req)|
  {
    assert ParameterLines(WithoutPlace(req)) == ParameterLines(req);
    assert SuccessHead(WithoutPlace(req)) == SuccessHead(req);
    ContainsEnd(SuccessHead(req), LocationLine(req));
    ContainsAppend(SuccessHead(req) + LocationLine(req), LocationLine(req), InterpretationGuide);
  }

  /** Whatever the success head contains, the success prompt contains. */
  lemma SuccessPromptKeepsHead(req: Request, s: string)
    requires Contains(SuccessHead(req), s)
    ensures Contains(FormatSuccessPrompt(req), s)
  {
    var head := SuccessHead(req);
    if req.Province != "" && req.City != "" {
      ContainsAppend(head, s, LocationLine(req));
      ContainsAppend(head + LocationLine(req), s, InterpretationGuide);
    } else {
      ContainsAppend(head, s, InterpretationGuide);
    }
  }

  /** Each parameter line appears in the success prompt unbroken. */
  lemma SuccessPromptShowsLine(req: Request, k: nat)
    requires k < 5
    ensures Contains(FormatSuccessPrompt(req), ParameterLines(req)[k])
  {
    var line := ParameterLines(req)[k];
    var summary := ParameterSummary(req);
    ConcatContains(ParameterLines(req), k);
    ContainsPrepend(SuccessBanner(req), summary, line);
    ContainsAppend(SuccessBanner(req) + summary, line, "\n");
    SuccessPromptKeepsHead(req, line);
  }

  /** Each parameter line appears in both prompts unbroken. */
  lemma ParameterLinesShown(req: Request, errCode: int, errMsg: string, k: nat)
    requires k < 5
    ensures Contains(FormatSuccessPrompt(req), ParameterLines(req)[k])
    ensures Contains(FormatErrorPrompt(req, errCode, errMsg), ParameterLines(req)[k])
  {
    SuccessPromptShowsLine(req, k);
    ConcatContains(ParameterLines(req), k);
    ContainsPrepend(ErrorLead(errCode, errMsg), ParameterSummary(req), ParameterLines(req)[k]);
  }

  /** The error prompt opens with the banner, the error code and the
      message, and ends with the true-solar-time label. */
  lemma ErrorPromptShape(req: Request, errCode: int, errMsg: string)
    ensures "❌ 获取八字排盘结果失败！错误码：" + IntToString(errCode) + "，错误信息：" + errMsg
      <= FormatErrorPrompt(req, errCode, errMsg)
    ensures EndsWith(FormatErrorPrompt(req, errCode, errMsg), "是否考虑真太阳时：" + TrueTimeText(req.Zhen))
  {
    var banner := ErrorBanner(errCode, errMsg);
    var lead := ErrorLead(errCode, errMsg);
    PrefixAppend(banner, "\n\n请检查您的输入参数是否正确：\n");
    PrefixAppend(lead, ParameterSummary(req));
    PrefixTrans(banner, lead, lead + ParameterSummary(req));
    var lines := ParameterLines(req);
    EndsWithAppend(Concat(lines[..4]), lines[4]);
    EndsWithPrepend(lead, ParameterSummary(req), lines[4]);
  }

  // ---------------------------------------------------------------------------
  // True-solar-time warning
  // ---------------------------------------------------------------------------

  const TrueSolarTimeWarning: string :=
    "\n⚠️ 注意：当选择考虑真太阳时(zhen=1)时，必须提供省份和城市信息！\n"

  /** True solar time is requested while the birth place is incomplete. */
  predicate NeedsLocationWarning(req: Request)
  {
    req.Zhen == 1 && (req.Province == "" || req.City == "")
  }

  /** The first part of an error reply: the error prompt, followed by the
      warning when true solar time was asked for without a full place. */
  function ErrorPromptWithWarning(req: Request, errCode: int, errMsg: string): (r: string)
    ensures FormatErrorPrompt(req, errCode, errMsg) <= r
    ensures NeedsLocationWarning(req) ==> Contains(r, TrueSolarTimeWarning)
  {
    var p := FormatErrorPrompt(req, errCode, errMsg);
    if NeedsLocationWarning(req) then
      PrefixAppend(p, TrueSolarTimeWarning);
      ContainsEnd(p, TrueSolarTimeWarning);
      p + TrueSolarTimeWarning
    else p
  }

  /** Behind the error prompt comes the warning exactly when it is needed:
      a reply that continues with `tail` starts its continuation with the
      warning iff true solar time lacked a place, provided the tail does not
      itself start with the warning. */
  lemma WarningFollowsPromptIff(req: Request, errCode: int, errMsg: string, tail: string)
    requires !(TrueSolarTimeWarning <= tail)
    ensures var p := FormatErrorPrompt(req, errCode, errMsg);
      var t := ErrorPromptWithWarning(req, errCode, errMsg) + tail;
      (TrueSolarTimeWarning <= t[|p|..]) <==> NeedsLocationWarning(req)
  {
    var p := FormatErrorPrompt(req, errCode, errMsg);
    if NeedsLocationWarning(req) {
      DropPrefixPair(p, TrueSolarTimeWarning, tail);
      PrefixAppend(TrueSolarTimeWarning, tail);
    } else {
      DropPrefix(p, tail);
    }
  }

  // ---------------------------------------------------------------------------
  // Province and city check
  // ---------------------------------------------------------------------------

  function InvalidProvinceMessage(province: string): string
  {
    "无效省份: " + province + "\n 一般最后面需要带上“省市区”等 例：\"北京市\""
  }

  function InvalidCityMessage(city: string): string
  {
    "无效城市: " + city + "\n 最后面一般不带上“县市区”等（除非带上后只有两个字）"
  }

  /** `validateInput`. The place-name matchers `IsValidProvince` and
      `IsValidCity` are given as parameters. The province is checked first,
      and only when given; the city likewise only when given. The result is
      (message, hasError). */
  function ValidateInput(req: Request, isValidProvince: string -> bool,
                         isValidCity: (string, string) -> bool): (r: (string, bool))
    ensures !r.1 <==>
      (req.Province == "" || isValidProvince(req.Province))
      && (req.City == "" || isValidCity(req.Province, req.City))
    ensures !r.1 ==> r.0 == ""
    ensures req.Province != "" && !isValidProvince(req.Province) ==>
      r == (InvalidProvinceMessage(req.Province), true)
    ensures r.1 && (req.Province == "" || isValidProvince(req.Province)) ==>
      r == (InvalidCityMessage(req.City), true) && req.City != ""
    ensures req.Province == "" && req.City == "" ==> r == ("", false)
  {
    if req.Province != "" && !isValidProvince(req.Province) then
      (InvalidProvinceMessage(req.Province), true)
    else if req.City != "" && !isValidCity(req.Province, req.City) then
      (InvalidCityMessage(req.City), true)
    // The source also stores the default name into its by-value copy of the
    // request here; the caller never sees that store.
    else ("", false)
  }

  /** The city matcher is consulted only for a non-empty city: with no city,
      any two city matchers give the same verdict. */
  lemma ValidateInputIgnoresCityMatcher(req: Request, isValidProvince: string -> bool,
                                        c1: (string, string) -> bool, c2: (string, string) -> bool)
    requires req.City == ""
    ensures ValidateInput(req, isValidProvince, c1) == ValidateInput(req, isValidProvince, c2)
  {
  }
}
