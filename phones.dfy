/** The phone-catalogue editor (src/pages/Phones.tsx): the form, picking a search
    hit into it, and the guards and payloads of search, save, delete and CSV upload.
    `JSON.parse`, `JSON.stringify`, `Number` and `encodeURIComponent` are library
    behaviour and are passed in as functions. */
module Phones {
  import opened Wrappers
  import opened Text
  import opened JsonValue
  import opened Http

  /** `safeString`: `null` and `undefined` become "", anything else goes through
      `String`, so strings come back unchanged. */
  function SafeString(v: Option<Json>): (r: string)
    ensures v.None? || v == Some(JNull) ==> r == ""
    ensures v.Some? && v.value.JStr? ==> r == v.value.s
    ensures v.Some? && !v.value.JNull? ==> r == JsString(v.value)
  {
    match v
    case None => ""
    case Some(JNull) => ""
    case Some(j) => JsString(j)
  }

  /** `canSave`: both brand and model have something besides whitespace. */
  function CanSave(brand: string, model: string): (r: bool)
    ensures r <==> !AllWhitespace(brand) && !AllWhitespace(model)
  {
    TrimEmptyIffAllWhitespace(brand);
    TrimEmptyIffAllWhitespace(model);
    |Trim(brand)| > 0 && |Trim(model)| > 0
  }

  /** The editor's text fields. */
  datatype PhoneForm = PhoneForm(
    selectedId: string, brand: string, model: string, variant: string,
    price: string, image: string, link: string, extraJson: string)

  /** The form after `resetForm`: no selection, empty fields, extras "{}". */
  const EmptyForm := PhoneForm("", "", "", "", "", "", "", "{}")

  /** The metadata keys that have a field of their own. */
  const KnownKeys: set<string> := {"brand", "model", "variant", "price", "image", "link"}

  /** The metadata entries left for the extras text. */
  function ExtrasOf(md: map<string, Json>): (extras: map<string, Json>)
    ensures extras.Keys == md.Keys - KnownKeys
    ensures forall k :: k in extras ==> extras[k] == md[k]
  {
    map k | k in md && k !in KnownKeys :: md[k]
  }

  /** The loop of `pickMatch` that copies every entry whose key is not a known
      field into `extras`. */
  method CollectExtras(md: map<string, Json>) returns (extras: map<string, Json>)
    ensures extras == ExtrasOf(md)
    ensures extras.Keys == md.Keys - KnownKeys
    ensures forall k :: k in extras ==> extras[k] == md[k]
  {
    extras := map[];
    var rest := md.Keys;
    while rest != {}
      invariant rest <= md.Keys
      invariant extras.Keys == (md.Keys - rest) - KnownKeys
      invariant forall k :: k in extras ==> k in md && extras[k] == md[k]
      decreases rest
    {
      var k :| k in rest;
      if k !in KnownKeys {
        extras := extras[k := md[k]];
      }
      rest := rest - {k};
    }
  }

  /** The check `if (extras && typeof extras !== "object") throw`: a truthy value
      that is not an object is refused. */
  predicate ExtrasAccepted(v: Json) {
    !(Truthy(v) && !IsObjectType(v))
  }

  /** Besides objects, the check lets through `null`, arrays and the falsy
      primitives `false`, `0` and `""`; it refuses `true`, other numbers and other
      strings. */
  lemma ExtrasAcceptedCases(v: Json)
    ensures ExtrasAccepted(v) <==>
      v.JObj? || v.JNull? || v.JArr? || v == JBool(false) || v == JNum("0") || v == JStr("")
  {
  }

  /** The extras as `savePhone` reads them: "{}" for a blank text, otherwise the
      parse if it succeeds and passes the check; `None` is the error path. */
  function ParseExtras(text: string, parse: string -> Option<Json>): (r: Option<Json>)
    ensures AllWhitespace(text) ==> r == Some(JObj(map[]))
    ensures !AllWhitespace(text) ==>
      r == if parse(text).Some? && ExtrasAccepted(parse(text).value) then parse(text) else None
  {
    TrimEmptyIffAllWhitespace(text);
    if Trim(text) == "" then Some(JObj(map[]))
    else
      match parse(text)
      case None => None
      case Some(v) => if Truthy(v) && !IsObjectType(v) then None else Some(v)
  }

  /** `value.trim() || undefined`. */
  function TrimmedOrAbsent(value: string): (r: Option<string>)
    ensures r.None? <==> AllWhitespace(value)
    ensures r.Some? ==> r.value == Trim(value)
  {
    TrimEmptyIffAllWhitespace(value);
    if Trim(value) == "" then None else Some(Trim(value))
  }

  /** The body of `/admin/vector/phones/upsert`; an absent field is one the object
      literal set to `undefined`. A price is a number, carried as its `String` text. */
  datatype UpsertPayload = UpsertPayload(
    id: Option<string>, brand: string, model: string, variant: Option<string>,
    image: Option<string>, link: Option<string>, metadata: Json, price: Option<string>)

  /** `{...fields, key: value}` when the value is defined; an `undefined` value
      adds no key. */
  function OptionalField(fields: map<string, Json>, key: string, value: Option<string>): (r: map<string, Json>)
    ensures r.Keys == if value.Some? then fields.Keys + {key} else fields.Keys
    ensures forall k :: k in fields && k != key ==> r[k] == fields[k]
    ensures value.Some? ==> r[key] == JStr(value.value)
  {
    if value.Some? then fields[key := JStr(value.value)] else fields
  }

  /** The payload as it goes over the wire: fields that are `undefined` are dropped. */
  function PayloadJson(p: UpsertPayload): (j: Json)
    ensures j.JObj? && "brand" in j.fields && "model" in j.fields && "metadata" in j.fields
    ensures j.fields["brand"] == JStr(p.brand) && j.fields["model"] == JStr(p.model)
    ensures j.fields["metadata"] == p.metadata
    ensures ("id" in j.fields <==> p.id.Some?) && ("price" in j.fields <==> p.price.Some?)
    ensures ("variant" in j.fields <==> p.variant.Some?) && ("image" in j.fields <==> p.image.Some?)
    ensures "link" in j.fields <==> p.link.Some?
    ensures p.id.Some? ==> j.fields["id"] == JStr(p.id.value)
    ensures p.price.Some? ==> j.fields["price"] == JNum(p.price.value)
  {
    var fields := map["brand" := JStr(p.brand), "model" := JStr(p.model), "metadata" := p.metadata];
    var fields := OptionalField(fields, "id", p.id);
    var fields := OptionalField(fields, "variant", p.variant);
    var fields := OptionalField(fields, "image", p.image);
    var fields := OptionalField(fields, "link", p.link);
    JObj(if p.price.Some? then fields["price" := JNum(p.price.value)] else fields)
  }

  /** Why `savePhone` stops before sending anything. */
  datatype SaveError = AdminUnsupported | BrandModelRequired | InvalidExtras | PriceNotNumber

  /** The guards of `savePhone`, in their order, and the payload they let through.
      `toNumber` is `Number` on the trimmed price, `None` standing for NaN. */
  function SavePayload(supported: bool, form: PhoneForm, parse: string -> Option<Json>,
                       toNumber: string -> Option<string>): (r: Result<UpsertPayload, SaveError>)
    ensures r == Failure(AdminUnsupported) <==> !supported
    ensures r == Failure(BrandModelRequired) <==> supported && !CanSave(form.brand, form.model)
    ensures r == Failure(InvalidExtras) <==>
      supported && CanSave(form.brand, form.model) && ParseExtras(form.extraJson, parse).None?
    ensures r == Failure(PriceNotNumber) <==>
      && supported && CanSave(form.brand, form.model) && ParseExtras(form.extraJson, parse).Some?
      && !AllWhitespace(form.price) && toNumber(Trim(form.price)).None?
    ensures r.Success? ==>
      && r.value.brand == Trim(form.brand) && r.value.model == Trim(form.model)
      && r.value.brand != "" && r.value.model != ""
      && r.value.id == (if form.selectedId != "" then Some(form.selectedId) else None)
      && r.value.variant == TrimmedOrAbsent(form.variant)
      && r.value.image == TrimmedOrAbsent(form.image)
      && r.value.link == TrimmedOrAbsent(form.link)
      && Some(r.value.metadata) == ParseExtras(form.extraJson, parse)
      && (r.value.price.Some? <==> !AllWhitespace(form.price))
      && (r.value.price.Some? ==> r.value.price == toNumber(Trim(form.price)))
  {
    TrimEmptyIffAllWhitespace(form.price);
    if !supported then Failure(AdminUnsupported)
    else if !CanSave(form.brand, form.model) then Failure(BrandModelRequired)
    else
      match ParseExtras(form.extraJson, parse)
      case None => Failure(InvalidExtras)
      case Some(extras) =>
        var payload := UpsertPayload(
          if form.selectedId != "" then Some(form.selectedId) else None,
          Trim(form.brand), Trim(form.model), TrimmedOrAbsent(form.variant),
          TrimmedOrAbsent(form.image), TrimmedOrAbsent(form.link), extras, None);
        var p := Trim(form.price);
        if p == "" then Success(payload)
        else
          match toNumber(p)
          case None => Failure(PriceNotNumber)
          case Some(n) => Success(payload.(price := Some(n)))
  }

  const SearchPath := "/admin/vector/phones/search"
  const UpsertPath := "/admin/vector/phones/upsert"
  const UploadPath := "/admin/vector/phones/upload-csv"

  /** The request of `runSearch`: none for a blank query, otherwise the trimmed
      query and `top_k` 10. */
  function SearchRequest(searchQ: string): (r: Option<Request>)
    ensures r.None? <==> AllWhitespace(searchQ)
    ensures r.Some? ==> r.value == Post(SearchPath, JObj(map["q" := JStr(Trim(searchQ)), "top_k" := JNum("10")]))
  {
    TrimEmptyIffAllWhitespace(searchQ);
    var q := Trim(searchQ);
    if q == "" then None else Some(Post(SearchPath, JObj(map["q" := JStr(q), "top_k" := JNum("10")])))
  }

  /** The requests of the refresh a save, delete or upload ends with (the same
      `runSearch`), which runs only when there is a query. */
  function RefreshRequests(searchQ: string): (r: seq<Request>)
    ensures r == [] <==> AllWhitespace(searchQ)
  {
    match SearchRequest(searchQ)
    case None => []
    case Some(req) => [req]
  }

  /** The request of `deletePhone`, or `None` when its guards stop it. */
  function DeleteRequest(supported: bool, selectedId: string, encode: string -> string): (r: Option<Request>)
    ensures r.None? <==> !supported || selectedId == ""
    ensures r.Some? ==> r.value == Delete("/admin/vector/phones/" + encode(selectedId))
  {
    if !supported || selectedId == "" then None
    else Some(Delete("/admin/vector/phones/" + encode(selectedId)))
  }

  /** The request of `uploadCsv`, or `None` when its guards stop it; the CSV text
      is sent untrimmed. */
  function UploadRequest(supported: bool, csvText: string): (r: Option<Request>)
    ensures r.None? <==> !supported || AllWhitespace(csvText)
    ensures r.Some? ==> r.value == Post(UploadPath, JObj(map["csv" := JStr(csvText)]))
  {
    TrimEmptyIffAllWhitespace(csvText);
    if !supported || Trim(csvText) == "" then None
    else Some(Post(UploadPath, JObj(map["csv" := JStr(csvText)])))
  }

  /** Whether the vector service answered in a mode that supports editing. */
  function SupportsAdmin(mode: Option<string>): (r: bool)
    ensures !r <==> mode == Some("fallback_search")
  {
    mode != Some("fallback_search")
  }

  /** The parts of a `/search` response the editor keeps. */
  datatype SearchResponse = SearchResponse(matches: Option<seq<VectorMatch>>, mode: Option<string>)

  datatype VectorMatch = VectorMatch(id: string, metadata: Option<map<string, Json>>)

  /** The id an upsert answers with, `res.data?.id`. */
  datatype UpsertResponse = UpsertResponse(id: Option<Json>)

  /** A file chosen for upload: its name, and its text unless reading it failed. */
  datatype CsvFile = CsvFile(name: string, content: Option<string>)

  /** A hit's metadata, empty when it has none. */
  function MetadataOf(m: VectorMatch): map<string, Json> {
    m.metadata.GetOr(map[])
  }

  /** The form `pickMatch` fills from a hit: its id, the known fields through
      `SafeString`, and the remaining metadata stringified into the extras text. */
  function PickedForm(m: VectorMatch, stringify: map<string, Json> -> string): (f: PhoneForm)
    ensures f.selectedId == m.id
    ensures f.extraJson == stringify(ExtrasOf(MetadataOf(m)))
    ensures m.metadata.None? ==> f == PhoneForm(m.id, "", "", "", "", "", "", stringify(map[]))
    ensures m.metadata.Some? && "brand" in m.metadata.value && m.metadata.value["brand"].JStr? ==>
      f.brand == m.metadata.value["brand"].s
  {
    var md := MetadataOf(m);
    PhoneForm(m.id, SafeString(Lookup(md, "brand")), SafeString(Lookup(md, "model")),
              SafeString(Lookup(md, "variant")), SafeString(Lookup(md, "price")),
              SafeString(Lookup(md, "image")), SafeString(Lookup(md, "link")),
              stringify(ExtrasOf(md)))
  }

  /** Picking a hit and saving it sends its extra metadata back unchanged, for any
      `stringify` whose text `parse` reads back, and keeps its id. So the extras
      check never refuses a picked form. */
  lemma {:induction false} PickedExtrasSurviveSave(supported: bool, m: VectorMatch,
                                 stringify: map<string, Json> -> string,
                                 parse: string -> Option<Json>, toNumber: string -> Option<string>)
    requires parse(stringify(ExtrasOf(MetadataOf(m)))) == Some(JObj(ExtrasOf(MetadataOf(m))))
    requires !AllWhitespace(stringify(ExtrasOf(MetadataOf(m))))
    ensures SavePayload(supported, PickedForm(m, stringify), parse, toNumber) != Failure(InvalidExtras)
    ensures var r := SavePayload(supported, PickedForm(m, stringify), parse, toNumber);
      r.Success? ==> r.value.metadata == JObj(ExtrasOf(MetadataOf(m)))
                     && r.value.id == (if m.id != "" then Some(m.id) else None)
  {
    var f := PickedForm(m, stringify);
    assert f.extraJson == stringify(ExtrasOf(MetadataOf(m)));
    assert ParseExtras(f.extraJson, parse) == Some(JObj(ExtrasOf(MetadataOf(m))));
  }

  /** The Save button is enabled only when `savePhone` would pass its first two guards. */
  lemma SaveButtonMatchesGuards(saveLoading: bool, supported: bool, form: PhoneForm,
                                parse: string -> Option<Json>, toNumber: string -> Option<string>)
    requires !(saveLoading || !CanSave(form.brand, form.model) || !supported)
    ensures SavePayload(supported, form, parse, toNumber) != Failure(AdminUnsupported)
    ensures SavePayload(supported, form, parse, toNumber) != Failure(BrandModelRequired)
  {
  }

  /** The Delete and Upload buttons are enabled only when their handlers' guards pass. */
  lemma DeleteAndUploadButtonsMatchGuards(deleteLoading: bool, csvUploading: bool, supported: bool,
                                          selectedId: string, csvText: string, encode: string -> string)
    ensures !(deleteLoading || selectedId == "" || !supported) ==> DeleteRequest(supported, selectedId, encode).Some?
    ensures !(csvUploading || Trim(csvText) == "" || !supported) ==> UploadRequest(supported, csvText).Some?
  {
    TrimEmptyIffAllWhitespace(csvText);
  }

  /** The editor's state. */
  class PhoneEditor {
    var vectorAdminSupported: bool
    var searchQ: string
    var searchLoading: bool
    var matches: seq<VectorMatch>
    var form: PhoneForm
    var saveLoading: bool
    var deleteLoading: bool
    var csvFileName: string
    var csvText: string
    var csvUploading: bool
    var requests: seq<Request>

    constructor ()
      ensures vectorAdminSupported && searchQ == "" && !searchLoading && matches == []
      ensures form == EmptyForm && !saveLoading && !deleteLoading
      ensures csvFileName == "" && csvText == "" && !csvUploading && requests == []
    {
      vectorAdminSupported := true;
      searchQ, searchLoading, matches := "", false, [];
      form, saveLoading, deleteLoading := EmptyForm, false, false;
      csvFileName, csvText, csvUploading := "", "", false;
      requests := [];
    }

    twostate predicate SearchStateUnchanged()
      reads this
    {
      vectorAdminSupported == old(vectorAdminSupported) && searchQ == old(searchQ)
      && searchLoading == old(searchLoading) && matches == old(matches)
    }

    twostate predicate OtherStateUnchanged()
      reads this
    {
      saveLoading == old(saveLoading) && deleteLoading == old(deleteLoading)
      && csvFileName == old(csvFileName) && csvText == old(csvText) && csvUploading == old(csvUploading)
    }

    /** `resetForm`. */
    method ResetForm()
      modifies this
      ensures form == EmptyForm
      ensures requests == old(requests) && SearchStateUnchanged() && OtherStateUnchanged()
    {
      form := EmptyForm;
    }

    /** `pickMatch`: the form becomes `PickedForm(m, stringify)`. */
    method PickMatch(m: VectorMatch, stringify: map<string, Json> -> string)
      modifies this
      ensures form == PickedForm(m, stringify)
      ensures requests == old(requests) && SearchStateUnchanged() && OtherStateUnchanged()
    {
      var md := MetadataOf(m);
      var extras := CollectExtras(md);
      form := PhoneForm(m.id, SafeString(Lookup(md, "brand")), SafeString(Lookup(md, "model")),
                        SafeString(Lookup(md, "variant")), SafeString(Lookup(md, "price")),
                        SafeString(Lookup(md, "image")), SafeString(Lookup(md, "link")),
                        stringify(extras));
    }

    /** `runSearch`. A blank query changes nothing. Otherwise the search is posted;
        an answer replaces the hits and decides whether editing is supported. */
    method RunSearch(response: Option<SearchResponse>)
      modifies this
      ensures requests == old(requests) + RefreshRequests(old(searchQ))
      ensures searchLoading == (if SearchRequest(old(searchQ)).Some? then false else old(searchLoading))
      ensures matches == (if SearchRequest(old(searchQ)).Some? && response.Some?
                          then response.value.matches.GetOr([]) else old(matches))
      ensures vectorAdminSupported == (if SearchRequest(old(searchQ)).Some? && response.Some?
                                       then SupportsAdmin(response.value.mode) else old(vectorAdminSupported))
      ensures searchQ == old(searchQ)
      ensures form == old(form)
      ensures OtherStateUnchanged()
    {
      var req := SearchRequest(searchQ);
      if req.Some? {
        searchLoading := true;
        requests := requests + [req.value];
        if response.Some? {
          matches := response.value.matches.GetOr([]);
          vectorAdminSupported := SupportsAdmin(response.value.mode);
        }
        searchLoading := false;
      }
    }

    /** The state a refresh leaves: `ran` says whether the search was started and
        `refresh` is its answer. */
    twostate predicate Refreshed(ran: bool, refresh: Option<SearchResponse>)
      reads this
    {
      && searchQ == old(searchQ)
      && searchLoading == (if ran then false else old(searchLoading))
      && matches == (if ran && refresh.Some? then refresh.value.matches.GetOr([]) else old(matches))
      && vectorAdminSupported == (if ran && refresh.Some? then SupportsAdmin(refresh.value.mode)
                                  else old(vectorAdminSupported))
    }

    /** The part of `savePhone` after its guards: the payload is upserted; an answer
        with an id selects it, and the search is refreshed. */
    method Upsert(payload: UpsertPayload, response: Option<UpsertResponse>, refresh: Option<SearchResponse>)
      modifies this
      ensures requests == old(requests) + [Post(UpsertPath, PayloadJson(payload))]
                          + (if response.Some? then RefreshRequests(old(searchQ)) else [])
      ensures !saveLoading
      ensures form == (if response.Some? && response.value.id.Some? && Truthy(response.value.id.value)
                       then old(form).(selectedId := JsString(response.value.id.value)) else old(form))
      ensures Refreshed(response.Some? && SearchRequest(old(searchQ)).Some?, refresh)
      ensures deleteLoading == old(deleteLoading)
      ensures csvFileName == old(csvFileName) && csvText == old(csvText) && csvUploading == old(csvUploading)
    {
      saveLoading := true;
      requests := requests + [Post(UpsertPath, PayloadJson(payload))];
      if response.Some? {
        var newId := response.value.id;
        if newId.Some? && Truthy(newId.value) {
          form := form.(selectedId := JsString(newId.value));
        }
        RunSearch(refresh);
      }
      saveLoading := false;
    }

    /** `savePhone`. When a guard stops it nothing changes; otherwise it goes on as
        `Upsert` with the payload the guards let through. */
    method SavePhone(parse: string -> Option<Json>, toNumber: string -> Option<string>,
                     response: Option<UpsertResponse>, refresh: Option<SearchResponse>)
      modifies this
      ensures SavePayload(old(vectorAdminSupported), old(form), parse, toNumber).Failure? ==>
        requests == old(requests) && form == old(form) && SearchStateUnchanged() && saveLoading == old(saveLoading)
      ensures SavePayload(old(vectorAdminSupported), old(form), parse, toNumber).Success? ==>
        requests == old(requests)
                    + [Post(UpsertPath, PayloadJson(SavePayload(old(vectorAdminSupported), old(form), parse, toNumber).value))]
                    + (if response.Some? then RefreshRequests(old(searchQ)) else [])
      ensures SavePayload(old(vectorAdminSupported), old(form), parse, toNumber).Success? ==> !saveLoading
      ensures SavePayload(old(vectorAdminSupported), old(form), parse, toNumber).Success? ==>
        form == (if response.Some? && response.value.id.Some? && Truthy(response.value.id.value)
                 then old(form).(selectedId := JsString(response.value.id.value)) else old(form))
      ensures SavePayload(old(vectorAdminSupported), old(form), parse, toNumber).Success? ==>
        Refreshed(response.Some? && SearchRequest(old(searchQ)).Some?, refresh)
      ensures searchQ == old(searchQ) && deleteLoading == old(deleteLoading)
      ensures csvFileName == old(csvFileName) && csvText == old(csvText) && csvUploading == old(csvUploading)
    {
      var payload := SavePayload(vectorAdminSupported, form, parse, toNumber);
      if payload.Success? {
        Upsert(payload.value, response, refresh);
      }
    }

    /** `deletePhone`. When a guard stops it nothing changes. Otherwise the selected
        item is deleted; success resets the form and refreshes the search. */
    method DeletePhone(encode: string -> string, ok: bool, refresh: Option<SearchResponse>)
      modifies this
      ensures DeleteRequest(old(vectorAdminSupported), old(form).selectedId, encode).None? ==>
        requests == old(requests) && form == old(form) && SearchStateUnchanged()
        && deleteLoading == old(deleteLoading)
      ensures DeleteRequest(old(vectorAdminSupported), old(form).selectedId, encode).Some? ==>
        requests == old(requests) + [DeleteRequest(old(vectorAdminSupported), old(form).selectedId, encode).value]
                    + (if ok then RefreshRequests(old(searchQ)) else [])
      ensures DeleteRequest(old(vectorAdminSupported), old(form).selectedId, encode).Some? ==>
        !deleteLoading && form == (if ok then EmptyForm else old(form))
      ensures DeleteRequest(old(vectorAdminSupported), old(form).selectedId, encode).Some? ==>
        Refreshed(ok && SearchRequest(old(searchQ)).Some?, refresh)
      ensures searchQ == old(searchQ) && saveLoading == old(saveLoading)
      ensures csvFileName == old(csvFileName) && csvText == old(csvText) && csvUploading == old(csvUploading)
    {
      var req := DeleteRequest(vectorAdminSupported, form.selectedId, encode);
      if req.Some? {
        deleteLoading := true;
        requests := requests + [req.value];
        if ok {
          ResetForm();
          RunSearch(refresh);
        }
        deleteLoading := false;
      }
    }

    /** `onPickCsv`: no file clears the name and text; a file sets its name, and its
        text, or "" when it could not be read. */
    method PickCsv(file: Option<CsvFile>)
      modifies this
      ensures csvFileName == (if file.Some? then file.value.name else "")
      ensures csvText == (if file.Some? then file.value.content.GetOr("") else "")
      ensures requests == old(requests) && form == old(form) && SearchStateUnchanged()
      ensures saveLoading == old(saveLoading) && deleteLoading == old(deleteLoading) && csvUploading == old(csvUploading)
    {
      if file.None? {
        csvFileName := "";
        csvText := "";
        return;
      }
      csvFileName := file.value.name;
      csvText := file.value.content.GetOr("");
    }

    /** The Clear button of the CSV picker. */
    method ClearCsv()
      modifies this
      ensures csvFileName == "" && csvText == ""
      ensures requests == old(requests) && form == old(form) && SearchStateUnchanged()
      ensures saveLoading == old(saveLoading) && deleteLoading == old(deleteLoading) && csvUploading == old(csvUploading)
    {
      csvFileName := "";
      csvText := "";
    }

    /** Typing into the search box. */
    method SetSearchQ(q: string)
      modifies this
      ensures searchQ == q
      ensures requests == old(requests) && form == old(form) && OtherStateUnchanged()
      ensures vectorAdminSupported == old(vectorAdminSupported) && searchLoading == old(searchLoading)
      ensures matches == old(matches)
    {
      searchQ := q;
    }

    /** `uploadCsv`. When a guard stops it nothing changes. Otherwise the CSV is
        posted; success refreshes the search. */
    method UploadCsv(ok: bool, refresh: Option<SearchResponse>)
      modifies this
      ensures UploadRequest(old(vectorAdminSupported), old(csvText)).None? ==>
        requests == old(requests) && SearchStateUnchanged() && csvUploading == old(csvUploading)
      ensures UploadRequest(old(vectorAdminSupported), old(csvText)).Some? ==>
        requests == old(requests) + [UploadRequest(old(vectorAdminSupported), old(csvText)).value]
                    + (if ok then RefreshRequests(old(searchQ)) else [])
      ensures UploadRequest(old(vectorAdminSupported), old(csvText)).Some? ==> !csvUploading
      ensures UploadRequest(old(vectorAdminSupported), old(csvText)).Some? ==>
        Refreshed(ok && SearchRequest(old(searchQ)).Some?, refresh)
      ensures form == old(form) && searchQ == old(searchQ)
      ensures saveLoading == old(saveLoading) && deleteLoading == old(deleteLoading)
      ensures csvFileName == old(csvFileName) && csvText == old(csvText)
    {
      var req := UploadRequest(vectorAdminSupported, csvText);
      if req.Some? {
        csvUploading := true;
        requests := requests + [req.value];
        if ok {
          RunSearch(refresh);
        }
        csvUploading := false;
      }
    }
  }
}
