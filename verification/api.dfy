/** The call primitive every resource wrapper goes through: build the request
    path, inject the client's key into the parameters, and turn the response
    into either the parsed body or a raised error. The HTTP round trip itself
    is an input: the model receives the response status, its raw body and what
    `JSON.parse` made of that body. */
module Api {
  import opened Wrappers
  import opened Json
  import opened Errors
  import opened Credentials

  const Host := "https://mandrillapp.com"
  const PathPrefix := "/api/1.0/"
  const PathSuffix := ".json"
  const KeyParam := "key"
  const UnexpectedPrefix := "We received an unexpected error: "

  /** The POST the client sends: the host its session is bound to, the path,
      the headers and the parameter object that is serialised as the JSON
      body. */
  datatype Request = Request(host: string, path: string, headers: map<string, string>,
                             params: map<string, Json>)

  /** What the transport returned. */
  datatype Response = Response(status: int, body: string, parsed: Parsed)

  /** How a call ends: the parsed body is returned, a `Mandrill::Error` (or a
      subclass) is raised, or an exception from outside the client's taxonomy
      (`JSON::ParserError`, `TypeError`, `NoMethodError`) escapes. */
  datatype Outcome = Returned(value: Json) | Raised(error: MandrillError) | Escaped

  /** The generic error raised for a body the client cannot interpret. */
  function Unexpected(body: string): (e: MandrillError)
    ensures e.kind == Error && e.message.JString?
    ensures |e.message.s| == |UnexpectedPrefix| + |body|
    ensures e.message.s[..|UnexpectedPrefix|] == UnexpectedPrefix
    ensures e.message.s[|UnexpectedPrefix|..] == body
  {
    MandrillError(Error, JString(UnexpectedPrefix + body))
  }

  /** The request path for an operation name such as `messages/send`. */
  function RequestPath(url: string): (p: string)
    ensures |p| == |PathPrefix| + |url| + |PathSuffix|
    ensures p[..|PathPrefix|] == PathPrefix
    ensures p[|PathPrefix|..|PathPrefix| + |url|] == url
    ensures p[|PathPrefix| + |url|..] == PathSuffix
  {
    PathPrefix + url + PathSuffix
  }

  /** The operation a request path names, if it has the client's shape. */
  function OperationOf(path: string): (u: Option<string>)
    ensures u.Some? ==> |path| == |PathPrefix| + |u.value| + |PathSuffix|
  {
    if |path| >= |PathPrefix| + |PathSuffix|
       && path[..|PathPrefix|] == PathPrefix
       && path[|path| - |PathSuffix|..] == PathSuffix
    then Some(path[|PathPrefix|..|path| - |PathSuffix|])
    else None
  }

  /** Reading the operation back from a path recovers exactly the operation
      the path was built from, and only paths built that way have one. */
  lemma PathRoundTrip(url: string, path: string)
    ensures OperationOf(path) == Some(url) <==> RequestPath(url) == path
  {
    if OperationOf(path) == Some(url) {
      assert path == path[..|PathPrefix|] + path[|PathPrefix|..|path| - |PathSuffix|]
                     + path[|path| - |PathSuffix|..];
    }
  }

  /** Distinct operations are posted to distinct paths. */
  lemma RequestPathInjective(u1: string, u2: string)
    requires RequestPath(u1) == RequestPath(u2)
    ensures u1 == u2
  {
    PathRoundTrip(u1, RequestPath(u1));
    PathRoundTrip(u2, RequestPath(u2));
  }

  /** The request `call` posts: the key parameter is set to the client's key,
      replacing any caller-supplied value, and every other parameter is passed
      through untouched. */
  function BuildRequest(client: Client, url: string, params: map<string, Json>): (r: Request)
    ensures r.host == Host
    ensures OperationOf(r.path) == Some(url)
    ensures r.headers == map["Content-Type" := "application/json"]
    ensures r.params.Keys == params.Keys + {KeyParam}
    ensures r.params[KeyParam] == JString(client.apikey)
    ensures forall k :: k in params && k != KeyParam ==> r.params[k] == params[k]
  {
    PathRoundTrip(url, RequestPath(url));
    Request(Host, RequestPath(url), map["Content-Type" := "application/json"],
            params[KeyParam := JString(client.apikey)])
  }

  /** `cast_error`: interpret a non-success body. It never returns normally.
      An unparsable body, a body whose `status` is not `"error"`, or one
      whose `name` is missing, `null` or `false` raises the generic error
      quoting the raw body; a recognised name raises its class and an
      unrecognised one the base class, both carrying the server's `message`.
      A parsed string also raises the generic error (indexing a Ruby string by
      `'status'` never yields `"error"`); any other non-object value makes the
      indexing itself fail, and that failure escapes. */
  function CastError(body: string, parsed: Parsed): (r: Outcome)
    ensures !r.Returned?
    ensures r.Escaped? <==> parsed.Parsed? && !parsed.value.JObject? && !parsed.value.JString?
    ensures r.Raised? ==> r.error.kind !in Unmapped
    ensures r.Raised? && r.error.kind != Error ==>
              && parsed.Parsed? && parsed.value.JObject?
              && Field(parsed.value.fields, "status") == JString("error")
              && Field(parsed.value.fields, "name").JString?
              && NameOf(r.error.kind) == Some(Field(parsed.value.fields, "name").s)
              && r.error.message == Field(parsed.value.fields, "message")
    ensures parsed.Parsed? && parsed.value.JString? ==> r == Raised(Unexpected(body))
    ensures parsed.Parsed? && parsed.value.JObject?
            && Field(parsed.value.fields, "status") == JString("error")
            && Truthy(Field(parsed.value.fields, "name")) ==>
              var name := Field(parsed.value.fields, "name");
              r == Raised(MandrillError(
                     if name.JString? && name.s in ErrorMap then ErrorMap[name.s] else Error,
                     Field(parsed.value.fields, "message")))
  {
    match parsed
    case ParserError => Raised(Unexpected(body))
    case Parsed(JString(_)) => Raised(Unexpected(body))
    case Parsed(JObject(fields)) =>
      if Field(fields, "status") != JString("error") || !Truthy(Field(fields, "name")) then
        Raised(Unexpected(body))
      else
        var message := Field(fields, "message");
        (match Lookup(Field(fields, "name"))
         case Some(kind) => Raised(MandrillError(kind, message))
         case None => Raised(MandrillError(Error, message)))
    case Parsed(_) => Escaped
  }

  /** `call(url, params)`: the request that is posted, and how the call ends
      for a given response. */
  datatype Exchange = Exchange(request: Request, outcome: Outcome)

  function Call(client: Client, url: string, params: map<string, Json>, response: Response): (x: Exchange)
    ensures x.request == BuildRequest(client, url, params)
    ensures x.outcome.Returned? <==> response.status == 200 && response.parsed.Parsed?
    ensures x.outcome.Returned? ==> x.outcome.value == response.parsed.value
    ensures response.status == 200 && response.parsed.ParserError? ==> x.outcome == Escaped
    ensures response.status != 200 ==> x.outcome == CastError(response.body, response.parsed)
  {
    var outcome :=
      if response.status != 200 then CastError(response.body, response.parsed)
      else (match response.parsed
            case Parsed(v) => Returned(v)
            case ParserError => Escaped);
    Exchange(BuildRequest(client, url, params), outcome)
  }

  /** Every recognised server error name raises exactly its class, carrying
      the server's message, whatever other fields the body has. */
  lemma KnownNameRaisesItsClass(kind: ErrorKind, body: string, fields: map<string, Json>)
    requires NameOf(kind).Some?
    requires Field(fields, "status") == JString("error")
    requires Field(fields, "name") == JString(NameOf(kind).value)
    ensures CastError(body, Parsed(JObject(fields)))
            == Raised(MandrillError(kind, Field(fields, "message")))
  {
    NameOfInvertsErrorMap(NameOf(kind).value, kind);
  }

  /** Any other truthy name, the empty string and non-string values such as
      `42` or `true` included, raises the base class with the server's
      message. */
  lemma UnknownNameRaisesBaseError(body: string, fields: map<string, Json>)
    requires Field(fields, "status") == JString("error")
    requires Truthy(Field(fields, "name"))
    requires !(Field(fields, "name").JString? && Field(fields, "name").s in ErrorMap)
    ensures CastError(body, Parsed(JObject(fields)))
            == Raised(MandrillError(Error, Field(fields, "message")))
  {
  }

  /** Bodies the client cannot interpret all raise the generic error quoting
      the raw body: an unparsable body, an object whose status is not
      `"error"`, and an object whose name is falsy. */
  lemma MalformedBodyIsUnexpected(body: string, parsed: Parsed)
    requires || parsed.ParserError?
             || (parsed.Parsed? && parsed.value.JObject?
                 && (|| Field(parsed.value.fields, "status") != JString("error")
                     || !Truthy(Field(parsed.value.fields, "name"))))
    ensures CastError(body, parsed) == Raised(Unexpected(body))
  {
  }

  /** A failed call never hands anything back to the caller, whatever the
      body says. */
  lemma NonSuccessNeverReturns(client: Client, url: string, params: map<string, Json>,
                               response: Response)
    requires response.status != 200
    ensures !Call(client, url, params, response).outcome.Returned?
    ensures Call(client, url, params, response).outcome.Raised?
            || (response.parsed.Parsed? && !response.parsed.value.JObject?
                && !response.parsed.value.JString?)
  {
  }
}
