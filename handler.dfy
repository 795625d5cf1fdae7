/** The Worker's `fetch` handler: HTTP method dispatch, form-field validation,
    directive construction, the upload and the mapping of every outcome to a
    status code and a JSON body. Request parsing and the upload are inputs:
    the outcome of `request.formData()` and the host's reply. */
module Handler {
  import opened Wrappers
  import opened Config
  import opened Directive
  import opened Upload

  /** A value of a multipart form field: a text value or an uploaded file. */
  datatype FormEntry = Text(value: string) | File(name: string)

  /** The outcome of `request.formData()`: the `image` and `type` fields
      (None when the field is absent), or the message of the exception it threw. */
  datatype FormParse =
    | Parsed(image: Option<FormEntry>, typ: Option<FormEntry>)
    | Unparseable(message: string)

  /** The header set every response carries. */
  const CorsHeaders: seq<(string, string)> := [
    ("Content-Type", "application/json"),
    ("Access-Control-Allow-Origin", "*"),
    ("Access-Control-Allow-Methods", "POST, OPTIONS"),
    ("Access-Control-Allow-Headers", "Content-Type")
  ]

  const MethodNotSupported := "Phương thức không được hỗ trợ"
  const MissingFields := "Thiếu file ảnh hoặc type"
  const UploadSucceeded := "Upload thành công"

  /** The string a file converts to when used as a property key. */
  const FileKey := "[object File]"

  /** The JSON body of a response. A `fileName` of None is the undefined
      `name` of a text value, which JSON serialisation leaves out. */
  datatype Body =
    | NoBody
    | ErrorBody(error: string)
    | SuccessBody(message: string, fileName: Option<string>, typ: string,
                  fullUrl: string, thumbUrl: string, imageId: string)

  datatype Response = Response(status: int, headers: seq<(string, string)>, body: Body)

  /** The arguments of the call to `uploadToCloudflareImages`. */
  datatype UploadCall = UploadCall(file: FormEntry, metadata: Metadata, typ: string)

  /** Where the handler goes once the form is read: an early response, or
      the upload. */
  datatype Step = Respond(response: Response) | CallUpload(call: UploadCall)

  /** JavaScript truthiness of `formData.get(name)`: an absent field (null)
      and an empty text value are falsy, any file is truthy. */
  predicate Truthy(v: Option<FormEntry>): (b: bool)
    ensures b <==> v.Some? && v.value != Text("")
  {
    match v
    case None => false
    case Some(Text(s)) => s != ""
    case Some(File(_)) => true
  }

  /** The property key a form value stands for in `config.image_types[type]`:
      a text value is its own key, and a file converts to a key that is neither
      a catalog entry nor an `Object.prototype` member. */
  function PropertyKey(e: FormEntry): (k: string)
    ensures k == ProductKey <==> e == Text(ProductKey)
    ensures k in InheritedNames <==> e.Text? && e.value in InheritedNames
    ensures e.Text? ==> k == e.value
  {
    match e
    case Text(s) => s
    case File(_) => FileKey
  }

  /** `file.name`: the name of a file, undefined for a text value. */
  function FileName(e: FormEntry): (n: Option<string>)
    ensures n.Some? <==> e.File?
    ensures e.File? ==> n == Some(e.name)
  {
    match e
    case File(name) => Some(name)
    case Text(_) => None
  }

  function ErrorResponse(status: int, message: string): Response {
    Response(status, CorsHeaders, ErrorBody(message))
  }

  /** Everything the handler decides before the upload. The upload is reached
      only for a POST whose form holds a file or non-empty `image` and the
      `type` "product"; every other request is answered here. */
  function Dispatch(verb: string, form: FormParse): (s: Step)
    ensures verb == "OPTIONS" ==> s == Respond(Response(204, CorsHeaders, NoBody))
    ensures verb != "OPTIONS" && verb != "POST" ==>
      s == Respond(ErrorResponse(405, MethodNotSupported))
    ensures verb == "POST" && form.Unparseable? ==>
      s == Respond(ErrorResponse(500, form.message))
    ensures verb == "POST" && form.Parsed? && !(Truthy(form.image) && Truthy(form.typ)) ==>
      s == Respond(ErrorResponse(400, MissingFields))
    ensures verb == "POST" && form.Parsed? && Truthy(form.image) && Truthy(form.typ)
            && form.typ.value != Text(ProductKey) ==>
      s.Respond? && s.response.status == 500 &&
      s.response.body.ErrorBody? &&
      s.response.body.error ==
        if form.typ.value.Text? && form.typ.value.value in InheritedNames then NoWidthMessage
        else NoFullSizeMessage
    ensures s.CallUpload? <==>
      verb == "POST" && form.Parsed? && Truthy(form.image) && form.typ == Some(Text(ProductKey))
    ensures s.CallUpload? ==>
      && s.call.file == form.image.value
      && s.call.typ == ProductKey
      && s.call.metadata.typ == ProductKey
      && |s.call.metadata.draw| == 1
      && s.call.metadata.draw[0] == Draw(WatermarkSettings.url, WatermarkSettings.opacity, 576, 10, 10)
  {
    if verb == "OPTIONS" then Respond(Response(204, CorsHeaders, NoBody))
    else if verb != "POST" then Respond(ErrorResponse(405, MethodNotSupported))
    else
      match form
      case Unparseable(message) => Respond(ErrorResponse(500, message))
      case Parsed(image, typ) =>
        if !Truthy(image) || !Truthy(typ) then Respond(ErrorResponse(400, MissingFields))
        else
          match BuildMetadata(PropertyKey(typ.value))
          case Failure(message) => Respond(ErrorResponse(500, message))
          case Success(metadata) => CallUpload(UploadCall(image.value, metadata, typ.value.value))
  }

  /** The response once the host has replied to the upload. */
  function Finish(call: UploadCall, accounts: Accounts, reply: HostReply): (r: Response)
    ensures r.headers == CorsHeaders
    ensures r.status == 200 <==> reply.Succeeded?
    ensures reply.Succeeded? ==>
      r.body == SuccessBody(UploadSucceeded, FileName(call.file), call.typ,
                            UrlsFor(accounts.deliveryAccountId, reply.id).fullUrl,
                            UrlsFor(accounts.deliveryAccountId, reply.id).thumbUrl,
                            reply.id)
    ensures reply.Rejected? ==> r == ErrorResponse(500, FailurePrefix + reply.firstMessage)
    ensures reply.Threw? ==> r == ErrorResponse(500, reply.message)
  {
    match UploadResult(accounts.deliveryAccountId, reply)
    case Success(u) =>
      Response(200, CorsHeaders, SuccessBody(UploadSucceeded, FileName(call.file), call.typ,
                                             u.fullUrl, u.thumbUrl, u.imageId))
    case Failure(message) => ErrorResponse(500, message)
  }

  /** The whole handler as a total function of the HTTP method, the parsed
      form, the account configuration and the host's reply to the upload (the
      reply is read only when the upload is made). */
  function Handle(verb: string, form: FormParse, accounts: Accounts, reply: HostReply): (r: Response)
    ensures r.headers == CorsHeaders
    ensures r.status in {200, 204, 400, 405, 500}
    ensures r.status == 204 <==> verb == "OPTIONS"
    ensures r.status == 204 <==> r.body == NoBody
    ensures r.status == 405 <==> verb != "OPTIONS" && verb != "POST"
    ensures r.status == 400 <==>
      verb == "POST" && form.Parsed? && !(Truthy(form.image) && Truthy(form.typ))
    ensures r.status == 200 <==>
      verb == "POST" && form.Parsed? && Truthy(form.image) &&
      form.typ == Some(Text(ProductKey)) && reply.Succeeded?
    ensures r.status in {400, 405, 500} <==> r.body.ErrorBody?
    ensures r.status == 200 ==>
      && r.body.SuccessBody?
      && r.body.message == UploadSucceeded
      && r.body.fileName == FileName(form.image.value)
      && r.body.typ == ProductKey
      && r.body.imageId == reply.id
      && ImageIdOf(accounts.deliveryAccountId, FullVariant, r.body.fullUrl) == Some(reply.id)
      && ImageIdOf(accounts.deliveryAccountId, ThumbVariant, r.body.thumbUrl) == Some(reply.id)
    ensures verb == "POST" && form.Parsed? && Truthy(form.image) &&
            form.typ == Some(Text(ProductKey)) && reply.Rejected? ==>
      r == ErrorResponse(500, FailurePrefix + reply.firstMessage)
    ensures verb == "POST" && form.Parsed? && Truthy(form.image) &&
            form.typ == Some(Text(ProductKey)) && reply.Threw? ==>
      r == ErrorResponse(500, reply.message)
    ensures Dispatch(verb, form).CallUpload? ==> r == Finish(Dispatch(verb, form).call, accounts, reply)
    ensures Dispatch(verb, form).Respond? ==> r == Dispatch(verb, form).response
  {
    match Dispatch(verb, form)
    case Respond(response) => response
    case CallUpload(call) => Finish(call, accounts, reply)
  }

  /** An answer given before the upload does not depend on the host's reply:
      for these requests the upload is never made. */
  lemma {:induction false} EarlyAnswerIgnoresReply(verb: string, form: FormParse, accounts: Accounts,
                                                   reply1: HostReply, reply2: HostReply)
    requires Dispatch(verb, form).Respond?
    ensures Handle(verb, form, accounts, reply1) == Handle(verb, form, accounts, reply2)
            == Dispatch(verb, form).response
  {
  }

  /** A `type` that is present but names no catalog entry is answered with
      500, the status of a caught exception, not with the 400 of a missing
      field; the body carries the TypeError's message. */
  lemma {:induction false} UnknownTypeIsServerError(image: FormEntry, key: string, accounts: Accounts, reply: HostReply)
    requires Truthy(Some(image)) && key != "" && key != ProductKey
    ensures var r := Handle("POST", Parsed(Some(image), Some(Text(key))), accounts, reply);
      r.status == 500 && r.body.ErrorBody? &&
      r.body.error == if key in InheritedNames then NoWidthMessage else NoFullSizeMessage
  {
  }

  /** Two successful uploads answered with different image ids give different
      URLs, for both variants. */
  lemma {:induction false} DistinctImagesDistinctUrls(verb: string, form: FormParse, accounts: Accounts,
                                                      id1: string, id2: string)
    requires verb == "POST" && form.Parsed? && Truthy(form.image) && form.typ == Some(Text(ProductKey))
    requires id1 != id2
    ensures var b1 := Handle(verb, form, accounts, Succeeded(id1)).body;
            var b2 := Handle(verb, form, accounts, Succeeded(id2)).body;
      b1.fullUrl != b2.fullUrl && b1.thumbUrl != b2.thumbUrl
  {
  }
}
