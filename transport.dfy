/** The transport facade of `Client`: the four HTTP verbs, how each maps a
    response status to a return value or an error, what goes on the wire
    (the payload sanitized unless the caller opts out), and how callers dig a
    collection out of the `{"result": {...}}` envelope. The HTTP session is
    not modelled: a call is the request it sends and the response it is given. */
module Transport {
  import opened JsonModel
  import opened Sanitizer

  datatype Verb = GET | POST | PUT | DELETE

  /** `error_json['error']['code']` and `['message']`, as the text `format` gives them. */
  datatype ErrorBody = ErrorBody(code: string, message: string)

  /** What the session hands back: the status, the decoded body, and the error
      envelope read from the body (None when `response.json()` is falsy). */
  datatype Response = Response(status: int, body: Json, error: Option<ErrorBody>)

  /** A successful call returns the decoded body or one of the fixed strings. */
  datatype Reply = Data(json: Json) | Notice(text: string)

  datatype Failure =
    | HttpError(text: string)   // the HTTPError raised from a non-empty error envelope
    | StatusCheck(status: int)  // left to the transport's raise_for_status
    | Malformed                 // KeyError, TypeError or IndexError on an unexpected shape
    | MissingRef                // ref_or_raise refused an argument

  datatype Result<T> = Ok(value: T) | Err(failure: Failure)

  /** What goes on the wire. */
  datatype Request = Request(verb: Verb, url: string, payload: Option<Json>)

  const NoDataText: string := "No data to display"
  const UpdatedText: string := "Successfully updated!"
  const RemovedText: string := "Successfully removed!"

  /** The statuses each verb accepts. */
  predicate Accepted(verb: Verb, status: int) {
    match verb
    case GET => status == 200 || status == 204
    case POST => status == 201
    case PUT => status == 204
    case DELETE => status == 204
  }

  /** `"{0}: {1}".format(code, message)` */
  function ErrorText(e: ErrorBody): string {
    e.code + ": " + e.message
  }

  /** The one error mapping all four verbs share. */
  function Failed(resp: Response): Failure {
    match resp.error
    case Some(e) => HttpError(ErrorText(e))
    case None => StatusCheck(resp.status)
  }

  /** The status branches of `get`, `post`, `put` and `delete`. */
  function Classify(verb: Verb, resp: Response): (r: Result<Reply>)
    ensures r.Ok? <==> Accepted(verb, resp.status)
    ensures r.Err? ==> r.failure == Failed(resp)
    ensures r.Ok? ==> match verb
                      case GET => r.value == if resp.status == 200 then Data(resp.body) else Notice(NoDataText)
                      case POST => r.value == Data(resp.body)
                      case PUT => r.value == Notice(UpdatedText)
                      case DELETE => r.value == Notice(RemovedText)
  {
    if !Accepted(verb, resp.status) then Err(Failed(resp))
    else match verb
      case GET => if resp.status == 200 then Ok(Data(resp.body)) else Ok(Notice(NoDataText))
      case POST => Ok(Data(resp.body))
      case PUT => Ok(Notice(UpdatedText))
      case DELETE => Ok(Notice(RemovedText))
  }

  /** Outside the statuses a verb accepts, every verb fails the same way. */
  lemma SharedErrorMapping(v1: Verb, v2: Verb, resp: Response)
    requires !Accepted(v1, resp.status) && !Accepted(v2, resp.status)
    ensures Classify(v1, resp) == Classify(v2, resp)
    ensures resp.error.Some? ==> Classify(v1, resp) == Err(HttpError(resp.error.value.code + ": " + resp.error.value.message))
  {
  }

  /** Index of the first ": " in s, or |s| when there is none. */
  function FirstSeparator(s: string): (i: nat)
    ensures i <= |s|
    ensures i + 2 <= |s| ==> s[i] == ':' && s[i + 1] == ' '
  {
    if |s| < 2 then |s|
    else if s[0] == ':' && s[1] == ' ' then 0
    else 1 + FirstSeparator(s[1..])
  }

  /** Reads an error text back into its code and message. */
  function ParseErrorText(s: string): Option<ErrorBody> {
    var i := FirstSeparator(s);
    if i + 2 <= |s| then Some(ErrorBody(s[..i], s[i + 2..])) else None
  }

  lemma {:induction false} SeparatorFollowsCode(code: string, rest: string)
    requires ':' !in code
    ensures FirstSeparator(code + ": " + rest) == |code|
  {
    if code != [] {
      assert (code + ": " + rest)[1..] == code[1..] + ": " + rest;
      SeparatorFollowsCode(code[1..], rest);
    }
  }

  /** The raised text carries the server's code and message unchanged: both
      can be read back from it whenever the code has no colon. */
  lemma ErrorTextRoundTrip(e: ErrorBody)
    requires ':' !in e.code
    ensures ParseErrorText(ErrorText(e)) == Some(e)
  {
    SeparatorFollowsCode(e.code, e.message);
    var s := ErrorText(e);
    assert s[..|e.code|] == e.code;
    assert s[|e.code| + 2..] == e.message;
  }

  /** `session.get(url)`. */
  function GetRequest(url: string): Request {
    Request(GET, url, None)
  }

  /** `post`: the payload is always sanitized first. */
  function PostRequest(url: string, payload: map<string, Json>): (req: Request)
    requires ShapedFields(payload)
    ensures req.verb == POST && req.url == url
    ensures req.payload.Some? && req.payload.value.JObj?
    ensures req.payload.value.fields == SanitizeObject(payload)
    ensures forall k :: k in req.payload.value.fields <==> k in payload && !Falsy(payload[k])
  {
    Request(POST, url, Some(JObj(SanitizeObject(payload))))
  }

  /** `put`: the payload is sanitized unless `sanitize_override` is set. */
  function PutRequest(url: string, payload: map<string, Json>, sanitizeOverride: bool): (req: Request)
    requires sanitizeOverride || ShapedFields(payload)
    ensures req.verb == PUT && req.url == url
    ensures req.payload.Some? && req.payload.value.JObj?
    ensures sanitizeOverride ==> req.payload.value.fields == payload
    ensures !sanitizeOverride ==> req.payload.value.fields == SanitizeObject(payload)
    ensures !sanitizeOverride ==> forall k :: k in req.payload.value.fields <==> k in payload && !Falsy(payload[k])
  {
    Request(PUT, url, Some(JObj(if sanitizeOverride then payload else SanitizeObject(payload))))
  }

  /** `session.delete(url)`. */
  function DeleteRequest(url: string): Request {
    Request(DELETE, url, None)
  }

  /** `put` sends the caller's payload unchanged exactly when it skips the
      sanitizer or the payload holds no falsy value anywhere. */
  lemma PutSendsPayloadVerbatimIff(url: string, payload: map<string, Json>, sanitizeOverride: bool)
    requires sanitizeOverride || ShapedFields(payload)
    ensures PutRequest(url, payload, sanitizeOverride).payload == Some(JObj(payload))
            <==> sanitizeOverride || NoFalsyFields(payload)
  {
    SanitizeObjectFixedPoint(payload);
  }

  /** `body['result'][key]`. */
  function ResultField(body: Json, key: string): Option<Json> {
    match Field(body, "result")
    case Some(result) => Field(result, key)
    case None => None
  }

  /** The list a caller iterates over in `for x in reply['result'][key]`.
      The "No data to display" string cannot be indexed by a key. */
  function Collection(reply: Reply, key: string): Result<seq<Json>> {
    match reply
    case Notice(_) => Err(Malformed)
    case Data(body) =>
      match ResultField(body, key)
      case Some(JArr(items)) => Ok(items)
      case _ => Err(Malformed)
  }

  function MapSeq<E>(items: seq<Json>, build: Json -> E): seq<E> {
    seq(|items|, i requires 0 <= i < |items| => build(items[i]))
  }

  /** A GET whose `result[key]` collection is turned into entities one by one. */
  function Fetched<E>(resp: Response, key: string, build: Json -> E): Result<seq<E>> {
    match Classify(GET, resp)
    case Err(f) => Err(f)
    case Ok(reply) =>
      match Collection(reply, key)
      case Err(f) => Err(f)
      case Ok(items) => Ok(MapSeq(items, build))
  }

  /** Every outcome of a collection GET, by status: one entity per element of
      the collection, in order, on 200; a shape error on 204 or on a body
      without the collection; the shared error mapping otherwise. */
  lemma FetchedByStatus<E>(resp: Response, key: string, build: Json -> E)
    ensures resp.status == 200 && ResultField(resp.body, key).Some? && ResultField(resp.body, key).value.JArr? ==>
      var items := ResultField(resp.body, key).value.items;
      var r := Fetched(resp, key, build);
      r.Ok? && |r.value| == |items| && forall i | 0 <= i < |items| :: r.value[i] == build(items[i])
    ensures resp.status == 200 && !(ResultField(resp.body, key).Some? && ResultField(resp.body, key).value.JArr?) ==>
      Fetched(resp, key, build) == Err(Malformed)
    ensures resp.status == 204 ==> Fetched(resp, key, build) == Err(Malformed)
    ensures resp.status != 200 && resp.status != 204 ==> Fetched(resp, key, build) == Err(Failed(resp))
  {
  }

  /** `all := []; for x in items: all.append(Entity(x))`. */
  method DecodeEach<E>(items: seq<Json>, build: Json -> E) returns (r: seq<E>)
    ensures |r| == |items|
    ensures forall i | 0 <= i < |items| :: r[i] == build(items[i])
  {
    r := [];
    var n := 0;
    while n < |items|
      invariant n <= |items|
      invariant |r| == n
      invariant forall i | 0 <= i < n :: r[i] == build(items[i])
    {
      r := r + [build(items[n])];
      n := n + 1;
    }
  }

  /** `json = self.get(url)` followed by the decode loop over `json['result'][key]`. */
  method FetchCollection<E>(resp: Response, key: string, build: Json -> E) returns (r: Result<seq<E>>)
    ensures r == Fetched(resp, key, build)
  {
    var reply := Classify(GET, resp);
    if reply.Err? {
      return Err(reply.failure);
    }
    var items := Collection(reply.value, key);
    if items.Err? {
      return Err(items.failure);
    }
    var all := DecodeEach(items.value, build);
    assert all == MapSeq(items.value, build);
    r := Ok(all);
  }
}
