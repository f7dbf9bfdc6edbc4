/**
 * Content negotiation and the JSON reply of rest (rest/content.go). The codecs
 * (gorilla/schema for forms, encoding/json, mime.ParseMediaType and multipart
 * parsing) are not modelled: a Request carries what each of them answers for it.
 */
module Content {
  import opened Wrappers
  import opened Types
  import opened Http
  import Context

  /** What mime.ParseMediaType makes of a non-empty Content-Type value. */
  datatype MediaType = Parsed(mediaType: string) | ParseFailed(reason: string)

  /** A decoded request value, left abstract. */
  datatype Payload = Payload(id: nat)

  /** What a codec makes of the request for the declared request type. */
  datatype Decoded = DecodeOk(payload: Payload) | DecodeFailed(reason: string)

  datatype FileHeader = FileHeader(filename: string, size: int)

  /** The Value and File maps of a parsed multipart form. */
  datatype MultipartData = MultipartData(value: map<string, seq<string>>, file: map<string, seq<FileHeader>>)

  datatype Request = Request(
    verb: string,                         // r.Method
    contentType: string,                  // r.Header.Get("Content-Type")
    media: MediaType,                     // mime.ParseMediaType(contentType)
    form: Decoded,                        // schema decoding of r.Form
    json: Decoded,                        // JSON decoding of r.Body
    multipartForm: Option<MultipartData>) // r.MultipartForm after parsing; nil when parsing failed

  /** The value handed to the handler as its request parameter. */
  datatype ReqValue = DecodedValue(payload: Payload) | FormValue(form: MultipartData)

  datatype Decoder = FormDecoder | JSONDecoder | MultipartCopy

  /** The choice populateRequest makes before any codec runs. */
  datatype Negotiation = NoDecoding | Decode(decoder: Decoder) | Reject(err: Context.Error)

  /** What populateRequest leaves behind: a request value (none for a nil type), an error, or a panic. */
  datatype Population =
    | Populated(value: Option<ReqValue>)
    | PopulateFailed(err: Context.Error)
    | PopulatePanic(msg: string)

  const JSONMediaType := "application/json"
  const MultipartMediaType := "multipart/form-data"

  /** GET and DELETE carry their parameters in the URL. */
  predicate ReadsQuery(verb: string)
  {
    verb == "GET" || verb == "DELETE"
  }

  /** The decision chain of populateRequest (rest/content.go:46-76), each outcome with the inputs that lead to it. */
  function Negotiate(r: Request, reqT: Option<Ty>): (n: Negotiation)
    ensures n == NoDecoding <==> reqT == None
    ensures n == Decode(FormDecoder) <==>
      reqT != None &&
      (ReadsQuery(r.verb) ||
       (r.contentType != "" && r.media.Parsed? &&
        r.media.mediaType != JSONMediaType && r.media.mediaType != MultipartMediaType))
    ensures n == Reject(Context.ErrContentType) <==>
      reqT != None && !ReadsQuery(r.verb) && r.contentType == ""
    ensures (n.Reject? && n.err.MediaTypeError?) <==>
      reqT != None && !ReadsQuery(r.verb) && r.contentType != "" && r.media.ParseFailed?
    ensures n.Reject? && n.err.MediaTypeError? ==> n.err.reason == r.media.reason
    ensures n == Decode(JSONDecoder) <==>
      reqT != None && !ReadsQuery(r.verb) && r.contentType != "" && r.media == Parsed(JSONMediaType)
    ensures n == Reject(Context.ErrMultipartMismatch) <==>
      reqT != None && reqT != Some(MultipartFormType) &&
      !ReadsQuery(r.verb) && r.contentType != "" && r.media == Parsed(MultipartMediaType)
    ensures n == Decode(MultipartCopy) <==>
      reqT == Some(MultipartFormType) &&
      !ReadsQuery(r.verb) && r.contentType != "" && r.media == Parsed(MultipartMediaType)
  {
    if reqT == None then NoDecoding
    else if ReadsQuery(r.verb) then Decode(FormDecoder)
    else if r.contentType == "" then Reject(Context.ErrContentType)
    else match r.media
      case ParseFailed(reason) => Reject(Context.MediaTypeError(reason))
      case Parsed(ct) =>
        if ct == JSONMediaType then Decode(JSONDecoder)
        else if ct == MultipartMediaType then
          if reqT != Some(MultipartFormType) then Reject(Context.ErrMultipartMismatch)
          else Decode(MultipartCopy)
        else Decode(FormDecoder)
  }

  /** GET and DELETE decode the query whatever the Content-Type says. */
  lemma QueryIgnoresContentType(r: Request, reqT: Option<Ty>, ct: string, media: MediaType)
    requires ReadsQuery(r.verb) && reqT != None
    ensures Negotiate(r.(contentType := ct, media := media), reqT) == Negotiate(r, reqT) == Decode(FormDecoder)
  {
  }

  /** The result of a codec run on the request. */
  function CodecResult(d: Decoded): (p: Population)
    ensures p.Populated? <==> d.DecodeOk?
    ensures d.DecodeOk? ==> p == Populated(Some(DecodedValue(d.payload)))
    ensures d.DecodeFailed? ==> p == PopulateFailed(Context.DecodeError(d.reason))
  {
    match d
    case DecodeOk(v) => Populated(Some(DecodedValue(v)))
    case DecodeFailed(reason) => PopulateFailed(Context.DecodeError(reason))
  }

  /** populateRequest (rest/content.go:46-80): the negotiated decoder run on the request. */
  function Populate(r: Request, reqT: Option<Ty>): (p: Population)
    ensures p == Populated(None) <==> reqT == None
    ensures p.PopulatePanic? <==> Negotiate(r, reqT) == Decode(MultipartCopy) && r.multipartForm.None?
    ensures p.PopulatePanic? ==> p.msg == NilDereference
    ensures p.PopulateFailed? && !p.err.DecodeError? ==> Negotiate(r, reqT) == Reject(p.err)
  {
    match Negotiate(r, reqT)
    case NoDecoding => Populated(None)
    case Reject(e) => PopulateFailed(e)
    case Decode(FormDecoder) => CodecResult(r.form)
    case Decode(JSONDecoder) => CodecResult(r.json)
    case Decode(MultipartCopy) =>
      match r.multipartForm
      case None => PopulatePanic(NilDereference)
      case Some(data) => Populated(Some(FormValue(data)))
  }

  /** A rejected request type or Content-Type fails before a codec runs, and with exactly the negotiated error. */
  lemma RejectBeforeDecoding(r: Request, reqT: Option<Ty>)
    ensures Negotiate(r, reqT).Reject? <==> Populate(r, reqT).PopulateFailed? && !Populate(r, reqT).err.DecodeError?
    ensures Negotiate(r, reqT).Reject? ==> Populate(r, reqT) == PopulateFailed(Negotiate(r, reqT).err)
  {
  }

  /** Only a codec's own failure surfaces as a decode error, and only when that codec was chosen. */
  lemma DecodeErrorFromChosenCodec(r: Request, reqT: Option<Ty>, reason: string)
    ensures Populate(r, reqT) == PopulateFailed(Context.DecodeError(reason)) <==>
      (Negotiate(r, reqT) == Decode(FormDecoder) && r.form == DecodeFailed(reason)) ||
      (Negotiate(r, reqT) == Decode(JSONDecoder) && r.json == DecodeFailed(reason))
  {
  }

  /** The multipart form the handler receives is the request's own Value and File maps. */
  lemma MultipartCopied(r: Request)
    requires Negotiate(r, Some(MultipartFormType)) == Decode(MultipartCopy)
    ensures r.multipartForm.Some? ==> Populate(r, Some(MultipartFormType)) == Populated(Some(FormValue(r.multipartForm.value)))
    ensures r.multipartForm.None? ==> Populate(r, Some(MultipartFormType)) == PopulatePanic(NilDereference)
  {
  }

  /** A *multipart.Form target, whose two fields populateRequestMultiForm overwrites. */
  class MultipartForm {
    var value: map<string, seq<string>>
    var file: map<string, seq<FileHeader>>

    constructor ()
      ensures value == map[] && file == map[]
    {
      value := map[];
      file := map[];
    }

    /** populateRequestMultiForm (rest/content.go:27-36): copy the parsed form's maps; a nil form panics. */
    method PopulateFrom(r: Request) returns (p: Population)
      modifies this
      ensures r.multipartForm.None? ==>
        p == PopulatePanic(NilDereference) && value == old(value) && file == old(file)
      ensures r.multipartForm.Some? ==>
        value == r.multipartForm.value.value && file == r.multipartForm.value.file &&
        p == Populated(Some(FormValue(MultipartData(value, file))))
    {
      if r.multipartForm.None? {
        return PopulatePanic(NilDereference);
      }
      value := r.multipartForm.value.value;
      file := r.multipartForm.value.file;
      p := Populated(Some(FormValue(MultipartData(value, file))));
    }
  }

  /** populateRequest run on a fresh target, as the adapter does after reflect.New. */
  method PopulateRequest(r: Request, reqT: Option<Ty>) returns (p: Population)
    ensures p == Populate(r, reqT)
  {
    var n := Negotiate(r, reqT);
    match n
    case NoDecoding =>
      p := Populated(None);
    case Reject(e) =>
      p := PopulateFailed(e);
    case Decode(FormDecoder) =>
      p := CodecResult(r.form);
    case Decode(JSONDecoder) =>
      p := CodecResult(r.json);
    case Decode(MultipartCopy) =>
      var mf := new MultipartForm();
      p := mf.PopulateFrom(r);
  }

  /** A handler's response value, left abstract. */
  datatype Rsp = Rsp(id: nat)

  /** What json.Marshal makes of a response value. */
  datatype Marshalled = Marshalled(data: string) | MarshalFailed(reason: string)

  /** The calls respond makes on success, in its order: status, body, and only then the header. */
  function RespondTrace(data: string): (t: seq<Event>)
    ensures |t| == 3 && t[0] == HeaderWritten(StatusOK) && t[1] == BodyWritten(data)
    ensures t[2] == HeaderSet("Content-Type", JSONMediaType)
  {
    [HeaderWritten(StatusOK), BodyWritten(data), HeaderSet("Content-Type", JSONMediaType)]
  }

  /** respond (rest/content.go:83-96): a marshal failure writes nothing; success writes the JSON reply. */
  method Respond(w: ResponseWriter, rsp: Rsp, marshal: Rsp -> Marshalled) returns (err: Option<string>)
    modifies w
    ensures marshal(rsp).MarshalFailed? ==> err == Some(marshal(rsp).reason) && w.events == old(w.events)
    ensures marshal(rsp).Marshalled? ==> err == None && w.events == old(w.events) + RespondTrace(marshal(rsp).data)
  {
    match marshal(rsp)
    case MarshalFailed(reason) =>
      return Some(reason);
    case Marshalled(data) =>
      w.WriteHeader(StatusOK);
      w.Write(data);
      w.SetHeader("Content-Type", JSONMediaType);
      return None;
  }

  /** After a committing call, nothing later in the trace changes which handler-set headers are sent. */
  lemma {:induction false} SentHeadersFrozen(pre: seq<Event>, e: Event, post: seq<Event>)
    requires Commits(e)
    ensures SentHeaders(pre + [e] + post) == SentHeaders(pre)
    decreases |pre|
  {
    if pre == [] {
      assert (pre + [e] + post)[0] == e;
    } else {
      assert (pre + [e] + post)[0] == pre[0];
      assert (pre + [e] + post)[1..] == pre[1..] + [e] + post;
      SentHeadersFrozen(pre[1..], e, post);
    }
  }

  /**
   * The Content-Type that respond sets is never sent: the handler-set headers that go
   * out are those set before respond. (The server may still add a sniffed Content-Type
   * of its own, which is not modelled.)
   */
  lemma RespondContentTypeNotSent(pre: seq<Event>, data: string)
    ensures SentHeaders(pre + RespondTrace(data)) == SentHeaders(pre)
    ensures "Content-Type" !in SentHeaders(pre) ==> "Content-Type" !in SentHeaders(pre + RespondTrace(data))
  {
    assert pre + RespondTrace(data) == pre + [HeaderWritten(StatusOK)] + [BodyWritten(data), HeaderSet("Content-Type", JSONMediaType)];
    SentHeadersFrozen(pre, HeaderWritten(StatusOK), [BodyWritten(data), HeaderSet("Content-Type", JSONMediaType)]);
  }
}
