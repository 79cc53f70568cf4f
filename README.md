# bazi-mcp chart service, modelled in Dafny

bazi-mcp is an MCP tool. It takes a birth request (name, sex, calendar,
birth date and time, true-solar-time choice, school, and optionally province,
city and language). It posts the request as a form to an external 八字 (four
pillars) chart API and turns the API's answer into a Chinese text prompt.

This project models the parts of that path that decide what the text says:

- `text.dfy`: the generic pieces.
  - Module `Wrappers` holds `Option`.
  - Module `Text` holds `strconv.Itoa` as `IntToString` with its inverse
    `ParseInt`, `strings.Join`, and `Concat`, the text a sequence of writes
    leaves.
  - It also holds substring and suffix predicates and regrouping lemmas.
  - It holds `strings.Builder` as a class `Builder` whose `contents` only
    grows.
- `application.dfy`:
  - Module `Domain` holds the request.
  - Module `Application` holds what the two service files
    `internal/application/paipan_service.go` and
    `internal/application/bazi_service.go` carry in identical form:
    `validateInput`, `formatSuccessPrompt`, `formatErrorPrompt` and the
    true-solar-time warning.
  - These are modelled once, and both services use that model.
- `paipan_service.dfy`, module `PaipanService`: the current service.
  - Each `write…` function of the source is a method on a `Builder`. Its
    postcondition says the builder's text grows by exactly a specification
    function `…Text` of the input.
  - Lemmas about those functions state what every section shows, in which
    order and from which input.
  - `formatDetailedText` and `handleAPIResponse` are methods built on these.
- `bazi_service.dfy`, module `BaziService`: the older service.
  - It shows the answer's data as JSON text, re-indented for display.
  - Re-indenting is `json.Indent`, taken as a fallible function parameter.
- `api_client.dfy`, module `ApiClient`: `buildFormData`.
  - It is an imperative sequence of `url.Values.Set` calls on a map.
  - Its result is proved to read back as the request, with the default name
    filled in.

## Model

| member | source | states |
|---|---|---|
| Application.SexText | internal/application/paipan_service.go:92-95 | the sex label is 女 exactly for code 1 and 男 otherwise |
| Application.CalendarText | internal/application/paipan_service.go:96-99 | the calendar label is 公历 exactly for code 1 and 农历 otherwise |
| Application.TrueTimeText | internal/application/paipan_service.go:100-103 | the true-solar-time label is 否 exactly for code 2 and 是 otherwise |
| Application.FormatSuccessPrompt | internal/application/paipan_service.go:91-129 | the prompt starts with the greeting and the parameter block and ends with the reading guide; the same function serves bazi_service.go:93-131 |
| Application.FormatErrorPrompt | internal/application/paipan_service.go:132-156 | the prompt starts with the error banner and the request to check the input, and ends with the parameter lines; the same function serves bazi_service.go:134-158 |
| Application.SuccessPromptIgnoresPartialPlace | internal/application/paipan_service.go:114-116 | when province or city is missing, the success prompt is the same as for a request without any place |
| Application.SuccessPromptLocationLine | internal/application/paipan_service.go:114-116 | with both province and city, the success prompt contains the 出生地点 line and is longer by exactly that line |
| Application.SuccessPromptKeepsHead | internal/application/paipan_service.go:105-128 | whatever the greeting and parameter block contain, the success prompt contains |
| Application.SuccessPromptShowsLine | internal/application/paipan_service.go:105-112 | each of the five parameter lines (name, sex label, birth time, calendar label, true-solar-time label) appears in the success prompt |
| Application.ParameterLinesShown | internal/application/paipan_service.go:146-155 | each parameter line appears in both the success and the error prompt |
| Application.ErrorPromptShape | internal/application/paipan_service.go:146-155 | the error prompt starts with the failure banner carrying the error code and message, and ends with the true-solar-time label |
| Application.ErrorPromptWithWarning | internal/application/paipan_service.go:67-72 | the error prompt is a prefix of the result, and the warning is contained whenever true solar time is asked for without a full place |
| Application.WarningFollowsPromptIff | internal/application/paipan_service.go:67-72 | right behind the error prompt comes the warning exactly when Zhen is 1 and province or city is empty |
| Application.ValidateInput | internal/application/paipan_service.go:47-62 | no error exactly when each given place name is accepted; an unaccepted province is reported first, with its message; otherwise an unaccepted city, with its message; no place means no error |
| Application.ValidateInputIgnoresCityMatcher | internal/application/paipan_service.go:52-54 | the city matcher is consulted only for a non-empty city |
| Text.IntToString | internal/infrastructure/bazi/api_client.go:78-86 | `strconv.Itoa` (and `%d`): non-empty, starts with '-' exactly for a negative number, digits otherwise |
| Text.ParseIntToString | internal/infrastructure/bazi/api_client.go:78-86 | the decimal rendering of `strconv.Itoa` reads back as the same integer |
| Text.Join | internal/application/paipan_service.go:349 | `strings.Join` (also at lines 354 and 416): an empty list joins to the empty text, a single part to itself |
| Text.Builder.constructor | internal/application/paipan_service.go:452 | a new `strings.Builder` holds the empty text |
| Text.Builder.WriteString | internal/application/paipan_service.go:160 | `WriteString` appends the string to what the builder holds |
| Text.Builder.WriteByte | internal/application/paipan_service.go:182 | `WriteByte` appends the one character to what the builder holds |
| Text.JoinContains | internal/application/paipan_service.go:416 | every part of a `strings.Join` appears in the joined text |
| PaipanService.WriteLabelled | internal/application/paipan_service.go:203-205 | three writes in a row append caption, value and line end |
| PaipanService.WriteBaseInfo | internal/application/paipan_service.go:159-184 | appends exactly the header and one caption：value line per basic field, in the source's order |
| PaipanService.BaseInfoShown | internal/application/paipan_service.go:165-183 | the section starts with its header and shows each of the seven fields (name, sex with the 乾造/坤造 gloss, dates, start of luck, 交运, 八字正格) on a line of its own |
| PaipanService.WriteZhenSolarTimeInfo | internal/application/paipan_service.go:428-448 | appends nothing without true-solar-time details, else exactly the header, province, city, longitude, latitude and time difference |
| PaipanService.ZhenShown | internal/application/paipan_service.go:429-431 | the section is empty exactly when the details are absent |
| PaipanService.ZhenShowsPlace | internal/application/paipan_service.go:437-440 | present details show the province and the city after their labels |
| PaipanService.WritePillar | internal/application/paipan_service.go:202-221 | appends exactly one pillar block: its name, then its entries of Bazi, TgCgGod, DzCg, DzCgGod, DayCs and NaYin |
| PaipanService.WriteBaziInfo | internal/application/paipan_service.go:187-223 | appends exactly the error line when the chart does not have four pillars, else the header with the 空亡 line and the four pillar blocks |
| PaipanService.BaziInfoInvalidIff | internal/application/paipan_service.go:191-194 | the section is the error line and nothing else exactly when len(Bazi) is not 4 |
| PaipanService.BaziInfoPillarsInOrder | internal/application/paipan_service.go:196-222 | with four pillars the section is the header, then the year, month, day and hour blocks in that order, block i built from element i of every list |
| PaipanService.WriteDayunTitle | internal/application/paipan_service.go:231-241 | appends exactly the 大运 title line from its rendered number, ages and years |
| PaipanService.WriteDayunHead | internal/application/paipan_service.go:231-252 | appends exactly the head of 大运 i: number i+1, ages XuSui[i] to XuSui[i]+10, start and end year, then its pillar, ten god and growth phase |
| PaipanService.WriteLiunianLine | internal/application/paipan_service.go:273-281 | appends exactly one flowing-year line: year pillar, start year plus offset, nominal age plus offset |
| PaipanService.WriteLiunianLines | internal/application/paipan_service.go:259-282 | appends exactly the ten flowing-year lines of 大运 i, in list order |
| PaipanService.WriteDayunBlock | internal/application/paipan_service.go:229-282 | one pass of the outer loop appends exactly the head and the flowing years of 大运 i |
| PaipanService.WriteDayunInfo | internal/application/paipan_service.go:226-283 | appends exactly the header and one block per entry of Big, in order |
| PaipanService.LiunianLineOfDayun | internal/application/paipan_service.go:259-281 | 大运 i has ten flowing-year lines; line k shows YearsInfo[k][i], year BigStartYear[i]+k-1 and age XuSui[i]+k-1, so the offsets run -1 to 8 in increasing order |
| PaipanService.DayunHeadShowsAgeRange | internal/application/paipan_service.go:234-237 | the head of 大运 i shows the age range XuSui[i]-(XuSui[i]+10)岁 |
| PaipanService.DayunInfoShowsBlock | internal/application/paipan_service.go:227-229 | the section starts with its header and contains the block of every 大运 |
| PaipanService.WriteStartInfo | internal/application/paipan_service.go:399-425 | appends exactly the header, the 吉神 part, the constellation line and the zodiac line |
| PaipanService.JishenByPillar | internal/application/paipan_service.go:405-413 | with at least four 吉神 the part is one line per pillar, year to hour, from entries 0 to 3 |
| PaipanService.JishenShown | internal/application/paipan_service.go:405-418 | each of the first four 吉神 is shown in both branches; with fewer than four, all are shown, joined by 、 |
| PaipanService.StartInfoShown | internal/application/paipan_service.go:419-424 | the section contains its 吉神 part and ends with the constellation and zodiac lines |
| PaipanService.JoinOrNone | internal/application/paipan_service.go:348-357 | an empty hidden-stem list renders as 无, a non-empty one as its \|-join |
| PaipanService.WriteDetailPillar | internal/application/paipan_service.go:293-381 | appends exactly pillar i's title and its ten detail lines, each taken from pillar i's entries |
| PaipanService.WriteShenshaLine | internal/application/paipan_service.go:388-394 | appends exactly the 大运神煞 line of entry i, numbered i+1 |
| PaipanService.WriteDayunShensha | internal/application/paipan_service.go:386-395 | appends exactly the 大运神煞 header and one line per entry, in list order |
| PaipanService.WriteDetailInfo | internal/application/paipan_service.go:286-396 | appends exactly the detail header, the four pillar blocks and the 大运神煞 part |
| PaipanService.DetailInfoShowsHiddenStems | internal/application/paipan_service.go:348-381 | every pillar's 地支藏干 and 藏干十神 lines are shown, \|-joined or 无 |
| PaipanService.DetailInfoShowsDayunShensha | internal/application/paipan_service.go:387-395 | entry j of 大运神煞 is shown as 第(j+1)个大运 with its 干支 and 神煞 |
| PaipanService.FormatDetailedText | internal/application/paipan_service.go:451-473 | the text is the six sections in the source's order: basic information, true solar time, chart, 大运, start information, details |
| PaipanService.DetailedTextShowsBaseInfo | internal/application/paipan_service_test.go:90-95 | the detailed text starts with the basic-information header and contains each basic field line, the name and 八字正格 among them |
| PaipanService.DetailedTextInvalidChart | internal/application/paipan_service_test.go:99-105 | with a chart that does not have four pillars, the text contains the error line, and after it come the remaining sections |
| PaipanService.ErrorReply | internal/application/paipan_service.go:67-76 | an error reply starts with the error prompt (and the warning when due) and ends with the 遇到错误 header and the API's message |
| PaipanService.ErrorReplyShape | internal/application/paipan_service.go:67-72 | an error reply starts with the error prompt, and the warning follows exactly when Zhen is 1 and the place is incomplete |
| PaipanService.HandleAPIResponse | internal/application/paipan_service.go:65-88 | flagged as an error exactly for a non-zero code, never a Go error; an error gives the error reply; success gives the success prompt followed by the detailed text |
| BaziService.FormatJSONResponse | internal/application/bazi_service.go:161-167 | no error exactly when the data can be indented; then the indented text; else the empty text and an error that wraps the indenter's reason |
| BaziService.ShownData | internal/application/bazi_service.go:72-75 | the data as indented, or as received when indenting fails |
| BaziService.DataSection | internal/application/bazi_service.go:81-87 | the plain header and the indented data, or the 格式化失败 header and the data as received |
| BaziService.HandleAPIResponse | internal/application/bazi_service.go:63-90 | flagged as an error exactly for a non-zero code, never a Go error; the error reply or the success reply accordingly |
| BaziService.ReplyEndsWithData | internal/application/bazi_service.go:72-87 | every reply ends with the data: indented, or as received when indenting fails |
| BaziService.ErrorReplyShape | internal/application/bazi_service.go:65-70 | an error reply starts with the error prompt, and the warning follows exactly when Zhen is 1 and the place is incomplete |
| BaziService.ErrorReply | internal/application/bazi_service.go:65-76 | an error reply starts with the error prompt (and the warning when due) and ends with the 原始响应数据 header and the shown data |
| BaziService.DataSectionHeaders | internal/application/bazi_service.go:81-87 | the data section carries the 格式化失败 header exactly when indenting failed, and the plain header exactly when it succeeded |
| BaziService.SuccessReply | internal/application/bazi_service.go:80-87 | a success reply is the success prompt followed by exactly the data section |
| ApiClient.Set | internal/infrastructure/bazi/api_client.go:75-102 | `url.Values.Set`: afterwards the key holds exactly the one value |
| ApiClient.SetKeepsOthers | internal/infrastructure/bazi/api_client.go:75-102 | `Set` adds its key to the key set and leaves every other key, and its values, as they were |
| ApiClient.OptionalKeys | internal/infrastructure/bazi/api_client.go:94-102 | province, city and lang are keys exactly when their field is non-empty |
| ApiClient.FormName | internal/infrastructure/bazi/api_client.go:88-92 | the form's name is never empty: the request's own name when given, the default 求测者 when not |
| ApiClient.FixedFormOfKeys | internal/infrastructure/bazi/api_client.go:75-92 | the unconditional sets leave exactly the eleven fixed keys, each with one value |
| ApiClient.FixedFormOfValues | internal/infrastructure/bazi/api_client.go:76-92 | api_key, sex, type and year hold their values, and name holds the value of the second set |
| ApiClient.FixedFormOfMoreValues | internal/infrastructure/bazi/api_client.go:81-86 | month, day, hours, minute, zhen and sect hold their rendered values |
| ApiClient.SetIfPresent | internal/infrastructure/bazi/api_client.go:94-102 | a guarded set adds the key exactly for a non-empty value, holding it, and changes no other key |
| ApiClient.OptionalSetsKeys | internal/infrastructure/bazi/api_client.go:94-102 | the optional sets add exactly the optional keys with non-empty fields, each with one value |
| ApiClient.OptionalSetsKeepFixed | internal/infrastructure/bazi/api_client.go:94-102 | the optional sets leave every fixed key's value as it was |
| ApiClient.OptionalSetsFields | internal/infrastructure/bazi/api_client.go:94-102 | each optional key added holds the request's field |
| ApiClient.FormOfFields | internal/infrastructure/bazi/api_client.go:74-105 | the whole form: its key set, one value per key, and each key's value |
| ApiClient.BuildFormData | internal/infrastructure/bazi/api_client.go:74-105 | the form has exactly the fixed keys plus the non-empty optional ones, one value each, holds each field rendered (the name 求测者 when none is given), and reads back as the request with the default name filled in |
| ApiClient.IntFieldReadsBack | internal/infrastructure/bazi/api_client.go:78-86 | an integer field set to its decimal rendering reads back as the integer |
| ApiClient.OptionalFieldReadsBack | internal/infrastructure/bazi/api_client.go:94-102 | an optional field that is present exactly when non-empty reads back as itself |
| ApiClient.FormReadsBack | internal/infrastructure/bazi/api_client.go:74-105 | a form holding the request's fields as `buildFormData` sets them reads back as the normalized request |

## Left out

- The HTTP path is not modelled: `GetPaipanResult`, `makeAPIRequest`, JSON decoding, `NewAPIClient`'s read of `API_KEY` from the environment, and `GetBaziPaipan`'s chaining of validation, API call and reply. A client is only its key.
- `location.IsValidProvince` and `location.IsValidCity` are not part of this model. `ValidateInput` takes them as function parameters.
- The store of the default name in `validateInput` is not modelled. It writes to the function's by-value copy of the request, so no caller sees it.
- `json.Indent` is not part of this model. `BaziService` takes it as a function from source, prefix and indent to the indented text or an error reason.
- `strings.Builder.Grow` is not modelled. It reserves capacity and does not change the text.
- Go `int` is 64 bits, and the model uses unbounded integers. `IntToString` and the offsets added to `XuSui` and `BigStartYear` assume no overflow. The ages and years the API returns are far from the bounds.
- Index out of range is not modelled. Where the source indexes a list without checking (per-pillar lists once `Bazi` has four entries, per-大运 lists, the ten `YearsInfo` lists), Go panics on short input. The model requires those lengths in `BaziInfoIndexable` and `DayunInfoIndexable` instead.
- The ten fields `YearsInfo0` … `YearsInfo9` of the source are one list of ten lists, `YearsInfo`. Only the `YearChar` of each record is modelled, because only it is read.
- Some loop bodies and repeated write groups are helper methods: `WriteLabelled`, `WritePillar`, `WriteDayunTitle`, `WriteDayunHead`, `WriteLiunianLine`, `WriteLiunianLines`, `WriteDayunBlock`, `WriteDetailPillar`, `WriteShenshaLine`, `WriteDayunShensha`. Each performs the same writes in the same order as the inline source.
- The `switch i` in `writeDetailInfo` picks pillar i's fields. `DetailFields` does the same through `ByPillar.At(i)`.
- The request and response types `bazi.BaziRequest` and `bazi.BaziResponse` that bazi_service.go uses are not part of this model. `BaziService` uses `Domain.Request` and a three-field `BaziResponse` (code, message, data). The `json.RawMessage` data, a byte slice in Go, is held as text.
- `url.Values` keys are a datatype `FormKey`. Its wire names are given by `Key`. The form's wire encoding is not modelled.
- `PaipanResponse.Notice` is carried in the model but never read, as in the source.
