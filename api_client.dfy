/** The form the API client posts to the chart endpoint. */
module ApiClient {
  import opened Wrappers
  import opened Text
  import opened Domain

  /** The form's keys. Each stands for the wire name `Key` gives it. */
  datatype FormKey =
    | ApiKey | Name | Sex | Type | Year | Month | Day | Hours | Minute | Zhen | Sect
    | Province | City | Lang

  /** The name a key carries on the wire. */
  function Key(k: FormKey): string
  {
    match k
    case ApiKey => "api_key"
    case Name => "name"
    case Sex => "sex"
    case Type => "type"
    case Year => "year"
    case Month => "month"
    case Day => "day"
    case Hours => "hours"
    case Minute => "minute"
    case Zhen => "zhen"
    case Sect => "sect"
    case Province => "province"
    case City => "city"
    case Lang => "lang"
  }

  /** `url.Values`: every key maps to its list of values. */
  type Values = map<FormKey, seq<string>>

  /** `url.Values.Set`: the key holds exactly the one value afterwards,
      whatever it held before; no other key changes. */
  function Set(v: Values, key: FormKey, value: string): (r: Values)
    ensures key in r && r[key] == [value]
  {
    v[key := [value]]
  }

  /** `Set` adds its key and touches no other: every other key is present,
      with the same values, exactly when it was before. */
  lemma SetKeepsOthers(v: Values, key: FormKey, value: string, k: FormKey)
    requires k != key
    ensures Set(v, key, value).Keys == v.Keys + {key}
    ensures k in Set(v, key, value) <==> k in v
    ensures k in v ==> Set(v, key, value)[k] == v[k]
  {
  }

  /** Every key present holds exactly one value. */
  predicate SingleValued(v: Values)
  {
    forall k :: k in v ==> |v[k]| == 1
  }

  /** The client: only the API key it was created with. Reading the key from
      the environment is not part of this model. */
  datatype APIClient = APIClient(apiKey: string)

  /** The keys every form has. */
  const FixedKeys: set<FormKey> :=
    {ApiKey, Name, Sex, Type, Year, Month, Day, Hours, Minute, Zhen, Sect}

  /** The optional keys present for a request: those whose field is non-empty. */
  function OptionalKeys(req: Request): (r: set<FormKey>)
    ensures Province in r <==> req.Province != ""
    ensures City in r <==> req.City != ""
    ensures Lang in r <==> req.Lang != ""
    ensures r <= {Province, City, Lang}
  {
    (if req.Province != "" then {Province} else {})
    + (if req.City != "" then {City} else {})
    + (if req.Lang != "" then {Lang} else {})
  }

  /** The name the form carries: the request's, or the default for none. */
  function FormName(name: string): (r: string)
    ensures r != ""
    ensures name != "" ==> r == name
    ensures name == "" ==> r == DefaultName
  {
    if name != "" then name else DefaultName
  }

  /** The form after the unconditional part of `buildFormData`: the eleven
      fixed keys in the source's order, then the name set a second time. */
  function FixedForm(c: APIClient, req: Request): Values
  {
    FixedFormOf(c.apiKey, req.Name, IntToString(req.Sex), IntToString(req.Type),
                IntToString(req.Year), IntToString(req.Month), IntToString(req.Day),
                IntToString(req.Hours), IntToString(req.Minute), IntToString(req.Zhen),
                IntToString(req.Sect), FormName(req.Name))
  }

  /** The same `Set` calls over the values as already rendered. */
  function FixedFormOf(apiKey: string, name: string, sex: string, typ: string, year: string,
                       month: string, day: string, hours: string, minute: string, zhen: string,
                       sect: string, formName: string): Values
  {
    var v := Set(map[], ApiKey, apiKey);
    var v := Set(v, Name, name);
    var v := Set(v, Sex, sex);
    var v := Set(v, Type, typ);
    var v := Set(v, Year, year);
    var v := Set(v, Month, month);
    var v := Set(v, Day, day);
    var v := Set(v, Hours, hours);
    var v := Set(v, Minute, minute);
    var v := Set(v, Zhen, zhen);
    var v := Set(v, Sect, sect);
    Set(v, Name, formName)
  }

  /** The fixed part holds the eleven fixed keys, one value each, and the
      second name. */
  lemma FixedFormOfKeys(apiKey: string, name: string, sex: string, typ: string, year: string,
                        month: string, day: string, hours: string, minute: string, zhen: string,
                        sect: string, formName: string)
    ensures var v := FixedFormOf(apiKey, name, sex, typ, year, month, day, hours, minute, zhen, sect, formName);
      v.Keys == FixedKeys && SingleValued(v)
  {
  }

  /** Each fixed key holds the value set for it last: the API key, the
      second name and the first integer fields ... */
  lemma FixedFormOfValues(apiKey: string, name: string, sex: string, typ: string, year: string,
                          month: string, day: string, hours: string, minute: string, zhen: string,
                          sect: string, formName: string)
    ensures var v := FixedFormOf(apiKey, name, sex, typ, year, month, day, hours, minute, zhen, sect, formName);
      ApiKey in v && Name in v && Sex in v && Type in v && Year in v
      && v[ApiKey] == [apiKey] && v[Name] == [formName] && v[Sex] == [sex] && v[Type] == [typ]
      && v[Year] == [year]
  {
  }

  /** ... and the remaining integer fields. */
  lemma FixedFormOfMoreValues(apiKey: string, name: string, sex: string, typ: string, year: string,
                              month: string, day: string, hours: string, minute: string, zhen: string,
                              sect: string, formName: string)
    ensures var v := FixedFormOf(apiKey, name, sex, typ, year, month, day, hours, minute, zhen, sect, formName);
      Month in v && Day in v && Hours in v && Minute in v && Zhen in v && Sect in v
      && v[Month] == [month] && v[Day] == [day] && v[Hours] == [hours]
      && v[Minute] == [minute] && v[Zhen] == [zhen] && v[Sect] == [sect]
  {
  }

  /** A `Set` guarded by a non-empty value, as done for the optional keys. */
  function SetIfPresent(v: Values, key: FormKey, value: string): (r: Values)
    ensures r.Keys == v.Keys + (if value != "" then {key} else {})
    ensures value != "" ==> r[key] == [value]
    ensures forall k :: k in v && k != key ==> r[k] == v[k]
    ensures SingleValued(v) ==> SingleValued(r)
  {
    if value != "" then Set(v, key, value) else v
  }

  /** The optional part of `buildFormData`, applied to a form. */
  function OptionalSets(v: Values, req: Request): Values
  {
    var v := SetIfPresent(v, Province, req.Province);
    var v := SetIfPresent(v, City, req.City);
    SetIfPresent(v, Lang, req.Lang)
  }

  /** The form `buildFormData` returns. */
  function FormOf(c: APIClient, req: Request): Values
  {
    OptionalSets(FixedForm(c, req), req)
  }

  /** `buildFormData`: one `Set` per key, in the source's order, so the name
      is set twice and the second value wins. */
  method BuildFormData(c: APIClient, req: Request) returns (formData: Values)
    ensures formData == FormOf(c, req)
    ensures formData.Keys == FixedKeys + OptionalKeys(req)
    ensures SingleValued(formData)
    ensures formData[ApiKey] == [c.apiKey]
    ensures formData[Name] == [FormName(req.Name)]
    ensures req.Name == "" ==> formData[Name] == [DefaultName]
    ensures formData[Sex] == [IntToString(req.Sex)] && formData[Type] == [IntToString(req.Type)]
    ensures formData[Year] == [IntToString(req.Year)] && formData[Month] == [IntToString(req.Month)]
    ensures formData[Day] == [IntToString(req.Day)] && formData[Hours] == [IntToString(req.Hours)]
    ensures formData[Minute] == [IntToString(req.Minute)]
    ensures formData[Zhen] == [IntToString(req.Zhen)] && formData[Sect] == [IntToString(req.Sect)]
    ensures req.Province != "" ==> formData[Province] == [req.Province]
    ensures req.City != "" ==> formData[City] == [req.City]
    ensures req.Lang != "" ==> formData[Lang] == [req.Lang]
    ensures RequestOfForm(formData) == Some(Normalized(req))
  {
    formData := map[];
    formData := Set(formData, ApiKey, c.apiKey);
    formData := Set(formData, Name, req.Name);
    formData := Set(formData, Sex, IntToString(req.Sex));
    formData := Set(formData, Type, IntToString(req.Type));
    formData := Set(formData, Year, IntToString(req.Year));
    formData := Set(formData, Month, IntToString(req.Month));
    formData := Set(formData, Day, IntToString(req.Day));
    formData := Set(formData, Hours, IntToString(req.Hours));
    formData := Set(formData, Minute, IntToString(req.Minute));
    formData := Set(formData, Zhen, IntToString(req.Zhen));
    formData := Set(formData, Sect, IntToString(req.Sect));

    if req.Name != "" {
      formData := Set(formData, Name, req.Name);
    } else {
      formData := Set(formData, Name, DefaultName);
    }
    assert formData == FixedForm(c, req);

    if req.Province != "" {
      formData := Set(formData, Province, req.Province);
    }
    if req.City != "" {
      formData := Set(formData, City, req.City);
    }
    if req.Lang != "" {
      formData := Set(formData, Lang, req.Lang);
    }
    FormOfFields(c, req);
    FormReadsBack(formData, req);
  }

  /** Onto a form of the fixed keys, the optional part adds exactly the
      optional keys whose field is non-empty, each with a single value. */
  lemma OptionalSetsKeys(v0: Values, req: Request)
    requires v0.Keys == FixedKeys && SingleValued(v0)
    ensures var v := OptionalSets(v0, req);
      v.Keys == FixedKeys + OptionalKeys(req) && SingleValued(v)
  {
  }

  /** The optional part leaves every fixed key's value as it was. */
  lemma OptionalSetsKeepFixed(v0: Values, req: Request)
    requires v0.Keys == FixedKeys
    ensures var v := OptionalSets(v0, req);
      forall k :: k in FixedKeys ==> k in v && v[k] == v0[k]
  {
    OptionalKeysNotFixed();
  }

  /** Each optional key it adds holds that field of the request. */
  lemma OptionalSetsFields(v0: Values, req: Request)
    ensures var v := OptionalSets(v0, req);
      (req.Province != "" ==> v[Province] == [req.Province])
      && (req.City != "" ==> v[City] == [req.City])
      && (req.Lang != "" ==> v[Lang] == [req.Lang])
  {
  }

  /** The whole form: the fixed keys as above, and each optional key present
      exactly when its field is non-empty, holding that field. */
  lemma FormOfFields(c: APIClient, req: Request)
    ensures var v := FormOf(c, req);
      v.Keys == FixedKeys + OptionalKeys(req) && SingleValued(v)
      && v[ApiKey] == [c.apiKey] && v[Name] == [FormName(req.Name)]
      && v[Sex] == [IntToString(req.Sex)] && v[Type] == [IntToString(req.Type)]
      && v[Year] == [IntToString(req.Year)] && v[Month] == [IntToString(req.Month)]
      && v[Day] == [IntToString(req.Day)] && v[Hours] == [IntToString(req.Hours)]
      && v[Minute] == [IntToString(req.Minute)]
      && v[Zhen] == [IntToString(req.Zhen)] && v[Sect] == [IntToString(req.Sect)]
      && (req.Province != "" ==> v[Province] == [req.Province])
      && (req.City != "" ==> v[City] == [req.City])
      && (req.Lang != "" ==> v[Lang] == [req.Lang])
  {
    FixedFormOfKeys(c.apiKey, req.Name, IntToString(req.Sex), IntToString(req.Type),
                    IntToString(req.Year), IntToString(req.Month), IntToString(req.Day),
                    IntToString(req.Hours), IntToString(req.Minute), IntToString(req.Zhen),
                    IntToString(req.Sect), FormName(req.Name));
    FixedFormOfValues(c.apiKey, req.Name, IntToString(req.Sex), IntToString(req.Type),
                      IntToString(req.Year), IntToString(req.Month), IntToString(req.Day),
                      IntToString(req.Hours), IntToString(req.Minute), IntToString(req.Zhen),
                      IntToString(req.Sect), FormName(req.Name));
    FixedFormOfMoreValues(c.apiKey, req.Name, IntToString(req.Sex), IntToString(req.Type),
                          IntToString(req.Year), IntToString(req.Month), IntToString(req.Day),
                          IntToString(req.Hours), IntToString(req.Minute), IntToString(req.Zhen),
                          IntToString(req.Sect), FormName(req.Name));
    OptionalSetsKeys(FixedForm(c, req), req);
    OptionalSetsKeepFixed(FixedForm(c, req), req);
    OptionalSetsFields(FixedForm(c, req), req);
  }

  // ---------------------------------------------------------------------------
  // Reading a form back
  // ---------------------------------------------------------------------------

  /** The single value of a key, if the key holds exactly one. */
  function Single(form: Values, key: FormKey): (r: Option<string>)
    ensures r.Some? <==> key in form && |form[key]| == 1
    ensures r.Some? ==> form[key] == [r.value]
  {
    if key in form && |form[key]| == 1 then Some(form[key][0]) else None
  }

  /** The single value of a key read as a decimal integer. */
  function SingleInt(form: Values, key: FormKey): (r: Option<int>)
    ensures r.Some? ==> Single(form, key).Some? && ParseInt(Single(form, key).value) == r
  {
    if Single(form, key).None? then None else ParseInt(Single(form, key).value)
  }

  /** An optional key's value, the empty string when absent. */
  function OptionalValue(form: Values, key: FormKey): (r: string)
    ensures key !in form ==> r == ""
    ensures key in form && |form[key]| == 1 ==> r == form[key][0]
  {
    if Single(form, key).None? then "" else Single(form, key).value
  }

  /** The fixed keys other than the API key, each single-valued and the
      integer ones decimal. */
  predicate Readable(form: Values)
  {
    Single(form, Name).Some?
    && SingleInt(form, Sex).Some? && SingleInt(form, Type).Some?
    && SingleInt(form, Year).Some? && SingleInt(form, Month).Some?
    && SingleInt(form, Day).Some? && SingleInt(form, Hours).Some?
    && SingleInt(form, Minute).Some? && SingleInt(form, Sect).Some?
    && SingleInt(form, Zhen).Some?
  }

  /** The request a form describes, as the receiving end would read it: every
      fixed key single-valued, the integer keys decimal, absent optional keys
      read as empty. */
  function RequestOfForm(form: Values): (r: Option<Request>)
    ensures r.Some? <==> Readable(form)
    ensures r.Some? ==> Some(r.value.Name) == Single(form, Name)
  {
    if !Readable(form) then None
    else
      Some(Request(Single(form, Name).value,
                   SingleInt(form, Sex).value, SingleInt(form, Type).value,
                   SingleInt(form, Year).value, SingleInt(form, Month).value,
                   SingleInt(form, Day).value, SingleInt(form, Hours).value,
                   SingleInt(form, Minute).value, SingleInt(form, Sect).value,
                   SingleInt(form, Zhen).value,
                   OptionalValue(form, Province), OptionalValue(form, City),
                   OptionalValue(form, Lang)))
  }

  /** A request as the form carries it: with the default name when it has none. */
  function Normalized(req: Request): (r: Request)
    ensures r.Name != ""
    ensures req.Name != "" ==> r == req
  {
    req.(Name := FormName(req.Name))
  }

  /** An integer field written as its decimal rendering reads back as itself. */
  lemma IntFieldReadsBack(form: Values, key: FormKey, i: int)
    requires key in form && form[key] == [IntToString(i)]
    ensures SingleInt(form, key) == Some(i)
  {
    ParseIntToString(i);
  }

  /** The optional keys are not among the fixed ones. */
  lemma OptionalKeysNotFixed()
    ensures Province !in FixedKeys && City !in FixedKeys && Lang !in FixedKeys
  {
  }

  /** An optional field, present exactly when non-empty, reads back as itself. */
  lemma OptionalFieldReadsBack(form: Values, key: FormKey, v: string)
    requires key in form <==> v != ""
    requires v != "" ==> form[key] == [v]
    ensures OptionalValue(form, key) == v
  {
  }

  /** A form holding the request's fields as single decimal or text values
      reads back as the request. */
  lemma FormReadsBack(form: Values, req: Request)
    requires form.Keys == FixedKeys + OptionalKeys(req)
    requires form[Name] == [FormName(req.Name)]
    requires form[Sex] == [IntToString(req.Sex)] && form[Type] == [IntToString(req.Type)]
    requires form[Year] == [IntToString(req.Year)] && form[Month] == [IntToString(req.Month)]
    requires form[Day] == [IntToString(req.Day)] && form[Hours] == [IntToString(req.Hours)]
    requires form[Minute] == [IntToString(req.Minute)]
    requires form[Zhen] == [IntToString(req.Zhen)] && form[Sect] == [IntToString(req.Sect)]
    requires req.Province != "" ==> form[Province] == [req.Province]
    requires req.City != "" ==> form[City] == [req.City]
    requires req.Lang != "" ==> form[Lang] == [req.Lang]
    ensures RequestOfForm(form) == Some(Normalized(req))
  {
    IntFieldReadsBack(form, Sex, req.Sex);
    IntFieldReadsBack(form, Type, req.Type);
    IntFieldReadsBack(form, Year, req.Year);
    IntFieldReadsBack(form, Month, req.Month);
    IntFieldReadsBack(form, Day, req.Day);
    IntFieldReadsBack(form, Hours, req.Hours);
    IntFieldReadsBack(form, Minute, req.Minute);
    IntFieldReadsBack(form, Sect, req.Sect);
    IntFieldReadsBack(form, Zhen, req.Zhen);
    OptionalKeysNotFixed();
    OptionalFieldReadsBack(form, Province, req.Province);
    OptionalFieldReadsBack(form, City, req.City);
    OptionalFieldReadsBack(form, Lang, req.Lang);
  }
}
