/** The older chart service. It shares the request check and the two prompts
    with the newer one (module Application) and differs in how it presents the
    API's answer: the answer's data part is JSON text, re-indented for display
    and shown as received when it cannot be re-indented. */
module BaziService {
  import opened Wrappers
  import opened Text
  import opened Domain
  import Application

  /** The answer of the older chart endpoint; `Data` is the JSON text of its
      data part, as received. */
  datatype BaziResponse = BaziResponse(ErrCode: int, ErrMsg: string, Data: string)

  /** What `json.Indent` leaves: the re-indented text, or the reason the
      input is not JSON. */
  datatype IndentResult = Indented(text: string) | IndentError(reason: string)

  /** `json.Indent(dst, src, prefix, indent)` as a function of its source,
      line prefix and indent unit. */
  type Indenter = (string, string, string) -> IndentResult

  const JSONErrorPrefix: string := "格式化JSON失败: "

  /** `formatJSONResponse`: re-indents with an empty line prefix and two
      spaces per level. It gives the indented text and no error, or the empty
      text and an error that wraps the indenter's reason. */
  function FormatJSONResponse(indent: Indenter, data: string): (r: (string, Option<string>))
    ensures r.1.None? <==> indent(data, "", "  ").Indented?
    ensures r.1.None? ==> r.0 == indent(data, "", "  ").text
    ensures r.1.Some? ==> r.0 == "" && r.1.value == JSONErrorPrefix + indent(data, "", "  ").reason
  {
    match indent(data, "", "  ")
    case Indented(text) => (text, None)
    case IndentError(reason) => ("", Some(JSONErrorPrefix + reason))
  }

  const RawDataHeader: string := "\n【原始响应数据】\n"
  const DataHeader: string := "\n【详细排盘数据】\n"
  const UnformattedDataHeader: string := "\n【详细排盘数据 (格式化失败)】\n"

  /** The data as an error reply shows it: the indented text, replaced by
      the data as received when indenting fails. */
  function ShownData(indent: Indenter, data: string): (r: string)
    ensures indent(data, "", "  ").IndentError? ==> r == data
    ensures indent(data, "", "  ").Indented? ==> r == indent(data, "", "  ").text
  {
    var (formattedJSON, formatErr) := FormatJSONResponse(indent, data);
    if formatErr.Some? then data else formattedJSON
  }

  /** The data section of a success reply: under the plain header when the
      data could be indented, else as received under a header saying so. */
  function DataSection(indent: Indenter, data: string): (r: string)
    ensures indent(data, "", "  ").IndentError? ==> r == UnformattedDataHeader + data
    ensures indent(data, "", "  ").Indented? ==> r == DataHeader + indent(data, "", "  ").text
  {
    var (formattedJSON, formatErr) := FormatJSONResponse(indent, data);
    if formatErr.Some? then UnformattedDataHeader + data else DataHeader + formattedJSON
  }

  /** The error reply: the error prompt, the true-solar-time warning when
      needed, the raw-data header and the data. */
  function ErrorReply(req: Request, resp: BaziResponse, indent: Indenter): (r: string)
    ensures Application.ErrorPromptWithWarning(req, resp.ErrCode, resp.ErrMsg) <= r
    ensures EndsWith(r, RawDataHeader + ShownData(indent, resp.Data))
  {
    var w := Application.ErrorPromptWithWarning(req, resp.ErrCode, resp.ErrMsg);
    Regroup2(w, RawDataHeader, ShownData(indent, resp.Data));
    EndsWithAppend(w, RawDataHeader + ShownData(indent, resp.Data));
    w + RawDataHeader + ShownData(indent, resp.Data)
  }

  /** The success reply: the success prompt and then exactly the data section. */
  function SuccessReply(req: Request, resp: BaziResponse, indent: Indenter): (r: string)
    ensures var p := Application.FormatSuccessPrompt(req);
      p <= r && r[|p|..] == DataSection(indent, resp.Data)
  {
    PrefixAppend(Application.FormatSuccessPrompt(req), DataSection(indent, resp.Data));
    DropPrefix(Application.FormatSuccessPrompt(req), DataSection(indent, resp.Data));
    Application.FormatSuccessPrompt(req) + DataSection(indent, resp.Data)
  }

  /** `handleAPIResponse`, as (text, isError, err): the error reply for a
      non-zero error code, the success reply for code zero, and never an
      error value. */
  function HandleAPIResponse(req: Request, resp: BaziResponse, indent: Indenter): (r: (string, bool, Option<string>))
    ensures r.1 <==> resp.ErrCode != 0
    ensures r.2 == None
    ensures r.0 == if resp.ErrCode != 0 then ErrorReply(req, resp, indent) else SuccessReply(req, resp, indent)
  {
    if resp.ErrCode != 0 then (ErrorReply(req, resp, indent), true, None)
    else (SuccessReply(req, resp, indent), false, None)
  }

  /** Every reply ends with the data: as received when it cannot be
      indented, in both branches, and indented otherwise. */
  lemma ReplyEndsWithData(req: Request, resp: BaziResponse, indent: Indenter)
    ensures EndsWith(HandleAPIResponse(req, resp, indent).0, ShownData(indent, resp.Data))
  {
    var d := ShownData(indent, resp.Data);
    if resp.ErrCode != 0 {
      EndsWithAppend(Application.ErrorPromptWithWarning(req, resp.ErrCode, resp.ErrMsg) + RawDataHeader, d);
    } else {
      var h := if indent(resp.Data, "", "  ").IndentError? then UnformattedDataHeader else DataHeader;
      assert DataSection(indent, resp.Data) == h + d;
      EndsWithAppend(h, d);
      EndsWithPrepend(Application.FormatSuccessPrompt(req), h + d, d);
    }
  }

  /** An error reply starts with the error prompt, and right behind it comes
      the true-solar-time warning exactly when true solar time was asked for
      without a full place. */
  lemma ErrorReplyShape(req: Request, resp: BaziResponse, indent: Indenter)
    ensures var text := ErrorReply(req, resp, indent);
      var p := Application.FormatErrorPrompt(req, resp.ErrCode, resp.ErrMsg);
      p <= text
      && ((Application.TrueSolarTimeWarning <= text[|p|..]) <==> Application.NeedsLocationWarning(req))
  {
    var tail := RawDataHeader + ShownData(indent, resp.Data);
    var p := Application.FormatErrorPrompt(req, resp.ErrCode, resp.ErrMsg);
    var w := Application.ErrorPromptWithWarning(req, resp.ErrCode, resp.ErrMsg);
    Regroup2(w, RawDataHeader, ShownData(indent, resp.Data));
    assert tail[1] != Application.TrueSolarTimeWarning[1];
    Application.WarningFollowsPromptIff(req, resp.ErrCode, resp.ErrMsg, tail);
    PrefixAppend(w, tail);
    PrefixTrans(p, w, w + tail);
  }

  /** The data section's header says "(格式化失败)" exactly when indenting
      failed and is the plain header exactly when it succeeded. */
  lemma DataSectionHeaders(indent: Indenter, data: string)
    ensures (UnformattedDataHeader <= DataSection(indent, data)) <==> indent(data, "", "  ").IndentError?
    ensures (DataHeader <= DataSection(indent, data)) <==> indent(data, "", "  ").Indented?
  {
    var d := ShownData(indent, data);
    var h := if indent(data, "", "  ").IndentError? then UnformattedDataHeader else DataHeader;
    assert DataSection(indent, data) == h + d;
    PrefixAppend(h, d);
    // The two headers first differ at character 8: '】' in the plain one,
    // ' ' (before "(格式化失败)") in the other.
    if indent(data, "", "  ").IndentError? {
      assert (h + d)[8] != DataHeader[8];
    } else {
      assert (h + d)[8] != UnformattedDataHeader[8];
    }
  }
}
