/**
 * The serverless handler of api/gemini.js: it hardens every response with
 * security headers, admits only POST, checks the body's shape, the `contents`
 * array and the serialised size, checks the server-held API key, forwards the
 * body to the upstream generative API and relays its answer, and redacts
 * errors into fixed messages.
 *
 * The handler's response object is updated step by step (`setHeader`,
 * `status`, `json`, `end`); here it is a small state record whose member
 * functions are those steps, and the handler is a function from the request,
 * the environment and the scripted upstream outcome to the final record.
 */
module Gateway {
  import opened Wrappers
  import opened JsStrings
  import opened Json
  import opened Http

  const MaxPayloadSize: nat := 10000
  const KeyPrefix := "AIza"
  const Endpoint := "https://generativelanguage.googleapis.com/v1beta/models/gemini-2.5-pro:generateContent?key="

  const InvalidBodyMessage := "Invalid request body"
  const InvalidContentsMessage := "Missing or invalid contents array"
  const TooLargeMessage := "Request payload too large"
  const InternalErrorMessage := "Internal server error"
  const ProcessingErrorMessage := "An error occurred while processing your request"
  const KeyMissingError := "API key is not configured on the server."
  const KeyFormatError := "Invalid API key format."

  /** A header value: `setHeader` takes a string or an array of strings. */
  datatype HeaderValue = Single(text: string) | List(items: seq<string>)

  /** What the response was ended with: nothing yet, `end(text)` or `json(value)`. */
  datatype Body = NoBody | Text(text: string) | JsonBody(json: Json)

  /**
   * An inbound request. `forwardedFor` and `remoteAddress` are what the
   * handler derives a client identity from; `body` is the parsed body
   * (`None` when it is `undefined`).
   */
  datatype Request = Request(verb: string, body: Option<Json>, forwardedFor: Option<string>, remoteAddress: string)

  /** The call made to the upstream API: the URL carrying the key, and the body sent. */
  datatype UpstreamCall = UpstreamCall(url: string, body: Json)

  /** What `await response.json()` yields: a value, or the error it throws. */
  datatype ParsedBody = Parsed(json: Json) | Unparseable(message: string)

  /** The scripted outcome of the upstream `fetch`: it throws, or it answers with a status and a body. */
  datatype UpstreamOutcome = Threw(message: string) | Replied(status: int, body: ParsedBody)

  /** The state of the handler's `res` object, plus the upstream call it made, if any. */
  datatype Response = Response(status: int, headers: map<string, HeaderValue>, body: Body, upstream: Option<UpstreamCall>)
  {
    function SetHeader(name: string, value: HeaderValue): Response {
      this.(headers := headers[name := value])
    }

    function WithStatus(code: int): Response {
      this.(status := code)
    }

    function End(text: string): Response {
      this.(body := Text(text))
    }

    function SendJson(value: Json): Response {
      this.(body := JsonBody(value))
    }

    function Called(call: UpstreamCall): Response {
      this.(upstream := Some(call))
    }
  }

  /** A response object as the platform hands it to the handler. */
  const Fresh := Response(200, map[], NoBody, None)

  /** The four hardening headers, as set at the top of the handler. */
  predicate HasSecurityHeaders(headers: map<string, HeaderValue>) {
    && "X-Content-Type-Options" in headers && headers["X-Content-Type-Options"] == Single("nosniff")
    && "X-Frame-Options" in headers && headers["X-Frame-Options"] == Single("DENY")
    && "X-XSS-Protection" in headers && headers["X-XSS-Protection"] == Single("1; mode=block")
    && "Referrer-Policy" in headers && headers["Referrer-Policy"] == Single("strict-origin-when-cross-origin")
  }

  function Secured(res: Response): (r: Response)
    ensures HasSecurityHeaders(r.headers)
  {
    res.SetHeader("X-Content-Type-Options", Single("nosniff"))
       .SetHeader("X-Frame-Options", Single("DENY"))
       .SetHeader("X-XSS-Protection", Single("1; mode=block"))
       .SetHeader("Referrer-Policy", Single("strict-origin-when-cross-origin"))
  }

  /** The body guard passes: the parsed body is present, truthy, and of JavaScript type "object". */
  predicate BodyIsObject(body: Option<Json>) {
    body.Some? && Truthy(body.value) && IsObjectType(body.value)
  }

  /** The contents guard passes: the body has a `contents` member and it is an array. */
  predicate HasContentsArray(body: Json) {
    var contents := Member(body, "contents");
    contents.Some? && contents.value.Arr?
  }

  /** The key checks inside the `try`: the key, or the message of the error they throw. */
  function CheckKey(apiKey: Option<string>): Result<string, string> {
    if apiKey.None? || apiKey.value == "" then Failure(KeyMissingError)
    else if !StartsWith(apiKey.value, KeyPrefix) then Failure(KeyFormatError)
    else Success(apiKey.value)
  }

  /** The classification in the `catch` block. */
  predicate IsInternalError(message: string) {
    Includes(message, "API key") || Includes(message, "Invalid") || Includes(message, "not configured")
  }

  function Catch(res: Response, message: string): Response {
    if IsInternalError(message) then res.WithStatus(500).SendJson(ErrorBody(InternalErrorMessage))
    else res.WithStatus(500).SendJson(ErrorBody(ProcessingErrorMessage))
  }

  /** The `try` block: key checks, the upstream call and the relay of its answer. */
  function Forward(res: Response, body: Json, apiKey: Option<string>, upstream: UpstreamOutcome): Response {
    match CheckKey(apiKey)
    case Failure(message) => Catch(res, message)
    case Success(key) =>
      var called := res.Called(UpstreamCall(Endpoint + key, body));
      match upstream
      case Threw(message) => Catch(called, message)
      case Replied(_, Unparseable(message)) => Catch(called, message)
      case Replied(status, Parsed(data)) =>
        if !IsOk(status) then called.WithStatus(status).SendJson(data)
        else called.WithStatus(200).SendJson(data)
  }

  /**
   * The handler. `payloadSize` is `JSON.stringify(req.body).length`, `apiKey`
   * is the environment's `GEMINI_API_KEY` and `now` is `Date.now()`; the
   * client identity and `now` feed rate-limit values that are never checked.
   */
  function Handle(req: Request, payloadSize: nat, apiKey: Option<string>, now: int, upstream: UpstreamOutcome): (r: Response)
    ensures HasSecurityHeaders(r.headers)
    ensures r.upstream.Some? ==> req.body.Some? && r.upstream.value.body == req.body.value
    ensures r.upstream.Some? ==> r.status == 500 || upstream.Replied?
  {
    var res := Secured(Fresh);
    if req.verb != "POST" then
      res.SetHeader("Allow", List(["POST"])).WithStatus(405).End("Method " + req.verb + " Not Allowed")
    else if !BodyIsObject(req.body) then
      res.WithStatus(400).SendJson(ErrorBody(InvalidBodyMessage))
    else if !HasContentsArray(req.body.value) then
      res.WithStatus(400).SendJson(ErrorBody(InvalidContentsMessage))
    else if payloadSize > MaxPayloadSize then
      res.WithStatus(413).SendJson(ErrorBody(TooLargeMessage))
    else
      Forward(res, req.body.value, apiKey, upstream)
  }

  /* ---------------- Properties of the handler ---------------- */

  /** Both errors the key checks throw are classified as internal, so their detail is never shown. */
  lemma KeyErrorsAreInternal()
    ensures IsInternalError(KeyMissingError) && IsInternalError(KeyFormatError)
  {
    assert KeyMissingError[0..7] == "API key";
    IncludesAt(KeyMissingError, "API key", 0);
    assert KeyFormatError[8..15] == "API key";
    IncludesAt(KeyFormatError, "API key", 8);
  }

  /** Any verb but POST: 405 with `Allow: ['POST']`, and upstream is never called. */
  lemma NonPostRejected(req: Request, payloadSize: nat, apiKey: Option<string>, now: int, upstream: UpstreamOutcome)
    requires req.verb != "POST"
    ensures var r := Handle(req, payloadSize, apiKey, now, upstream);
      && r.status == 405
      && "Allow" in r.headers && r.headers["Allow"] == List(["POST"])
      && r.body == Text("Method " + req.verb + " Not Allowed")
      && r.upstream.None?
  {
  }

  /** The `Allow` header is set exactly when the verb is refused. */
  lemma AllowOnlyWhenRefused(req: Request, payloadSize: nat, apiKey: Option<string>, now: int, upstream: UpstreamOutcome)
    ensures "Allow" in Handle(req, payloadSize, apiKey, now, upstream).headers <==> req.verb != "POST"
  {
  }

  /** A missing, falsy or non-object body: 400 'Invalid request body'. */
  lemma InvalidBodyRejected(req: Request, payloadSize: nat, apiKey: Option<string>, now: int, upstream: UpstreamOutcome)
    requires req.verb == "POST" && !BodyIsObject(req.body)
    ensures var r := Handle(req, payloadSize, apiKey, now, upstream);
      r.status == 400 && r.body == JsonBody(ErrorBody(InvalidBodyMessage)) && r.upstream.None?
  {
  }

  /** An object body whose `contents` is missing or not an array: 400 'Missing or invalid contents array'. */
  lemma InvalidContentsRejected(req: Request, payloadSize: nat, apiKey: Option<string>, now: int, upstream: UpstreamOutcome)
    requires req.verb == "POST" && BodyIsObject(req.body) && !HasContentsArray(req.body.value)
    ensures var r := Handle(req, payloadSize, apiKey, now, upstream);
      r.status == 400 && r.body == JsonBody(ErrorBody(InvalidContentsMessage)) && r.upstream.None?
  {
  }

  /**
   * The size ceiling is strict: a well-formed body longer than 10000
   * characters gets 413, and one of exactly 10000 characters goes on to the
   * key checks.
   */
  lemma PayloadCeiling(req: Request, payloadSize: nat, apiKey: Option<string>, now: int, upstream: UpstreamOutcome)
    requires req.verb == "POST" && BodyIsObject(req.body) && HasContentsArray(req.body.value)
    ensures var r := Handle(req, payloadSize, apiKey, now, upstream);
      && (payloadSize > MaxPayloadSize ==>
            r.status == 413 && r.body == JsonBody(ErrorBody(TooLargeMessage)) && r.upstream.None?)
      && (payloadSize == MaxPayloadSize ==> r.status != 413 || upstream.Replied?)
  {
  }

  /**
   * A missing or empty key, or one without the 'AIza' prefix: 500 with exactly
   * 'Internal server error', and upstream is never called.
   */
  lemma KeyFailuresRedacted(req: Request, payloadSize: nat, apiKey: Option<string>, now: int, upstream: UpstreamOutcome)
    requires req.verb == "POST" && BodyIsObject(req.body) && HasContentsArray(req.body.value)
    requires payloadSize <= MaxPayloadSize
    requires apiKey.None? || !StartsWith(apiKey.value, KeyPrefix)
    ensures var r := Handle(req, payloadSize, apiKey, now, upstream);
      r.status == 500 && r.body == JsonBody(ErrorBody(InternalErrorMessage)) && r.upstream.None?
  {
    KeyErrorsAreInternal();
  }

  /**
   * With every guard passed and a well-formed key, upstream is called with the
   * key in the URL and the body unchanged, and its answer is relayed: a
   * success as 200 with the upstream data, a failure with the upstream status
   * and body unchanged.
   */
  lemma UpstreamRelayed(req: Request, payloadSize: nat, key: string, now: int, status: int, data: Json)
    requires req.verb == "POST" && BodyIsObject(req.body) && HasContentsArray(req.body.value)
    requires payloadSize <= MaxPayloadSize
    requires StartsWith(key, KeyPrefix)
    ensures var r := Handle(req, payloadSize, Some(key), now, Replied(status, Parsed(data)));
      && r.upstream == Some(UpstreamCall(Endpoint + key, req.body.value))
      && r.status == (if IsOk(status) then 200 else status)
      && r.body == JsonBody(data)
  {
  }

  /**
   * When the upstream call throws, or its answer is not JSON, the response is
   * a 500 carrying one of two fixed messages: never the error's own text.
   */
  lemma UpstreamErrorsRedacted(req: Request, payloadSize: nat, key: string, now: int, upstream: UpstreamOutcome, message: string)
    requires req.verb == "POST" && BodyIsObject(req.body) && HasContentsArray(req.body.value)
    requires payloadSize <= MaxPayloadSize
    requires StartsWith(key, KeyPrefix)
    requires upstream == Threw(message) || (upstream.Replied? && upstream.body == Unparseable(message))
    ensures var r := Handle(req, payloadSize, Some(key), now, upstream);
      && r.status == 500
      && r.upstream == Some(UpstreamCall(Endpoint + key, req.body.value))
      && r.body == JsonBody(ErrorBody(if IsInternalError(message) then InternalErrorMessage else ProcessingErrorMessage))
  {
  }

  /**
   * The client identity and the clock feed rate-limit values that are never
   * checked: two requests that differ only in them get the same response.
   */
  lemma RateLimitNeverRejects(req: Request, forwardedFor: Option<string>, remoteAddress: string, payloadSize: nat,
                              apiKey: Option<string>, now: int, later: int, upstream: UpstreamOutcome)
    ensures Handle(req, payloadSize, apiKey, now, upstream)
         == Handle(req.(forwardedFor := forwardedFor, remoteAddress := remoteAddress), payloadSize, apiKey, later, upstream)
  {
  }

  /* ---------------- The guards as an ordered list ---------------- */

  /** One guard of the validation pipeline: whether it fails, and the response it then gives. */
  datatype Guard = Guard(fails: bool, status: int, body: Body)

  /** The guards in the order the handler applies them. */
  function Guards(req: Request, payloadSize: nat, apiKey: Option<string>): seq<Guard> {
    [ Guard(req.verb != "POST", 405, Text("Method " + req.verb + " Not Allowed")),
      Guard(!BodyIsObject(req.body), 400, JsonBody(ErrorBody(InvalidBodyMessage))),
      Guard(req.body.None? || !HasContentsArray(req.body.value), 400, JsonBody(ErrorBody(InvalidContentsMessage))),
      Guard(payloadSize > MaxPayloadSize, 413, JsonBody(ErrorBody(TooLargeMessage))),
      Guard(CheckKey(apiKey).Failure?, 500, JsonBody(ErrorBody(InternalErrorMessage))) ]
  }

  /** The first failing guard of a list, if any. */
  function FirstFailing(guards: seq<Guard>): (g: Option<Guard>)
    ensures g.Some? <==> exists i :: 0 <= i < |guards| && guards[i].fails
    ensures g.Some? ==> g.value.fails
  {
    if |guards| == 0 then None
    else if guards[0].fails then Some(guards[0])
    else (assert forall i :: 1 <= i < |guards| ==> guards[i] == guards[1..][i - 1];
          FirstFailing(guards[1..]))
  }

  /** The first failing guard is the one at the lowest failing index. */
  lemma {:induction false} FirstFailingAt(guards: seq<Guard>, i: nat)
    requires i < |guards| && guards[i].fails
    requires forall j :: 0 <= j < i ==> !guards[j].fails
    ensures FirstFailing(guards) == Some(guards[i])
  {
    if i > 0 {
      FirstFailingAt(guards[1..], i - 1);
    }
  }

  /**
   * The guards apply in order and the first failing one decides the status
   * and body; upstream is called exactly when none fails, and then with the
   * request body unchanged.
   */
  lemma GuardsDecide(req: Request, payloadSize: nat, apiKey: Option<string>, now: int, upstream: UpstreamOutcome)
    ensures var r := Handle(req, payloadSize, apiKey, now, upstream);
      match FirstFailing(Guards(req, payloadSize, apiKey))
      case Some(g) => r.status == g.status && r.body == g.body && r.upstream.None?
      case None =>
        req.body.Some? && apiKey.Some? && r.upstream == Some(UpstreamCall(Endpoint + apiKey.value, req.body.value))
  {
    var gs := Guards(req, payloadSize, apiKey);
    KeyErrorsAreInternal();
    if req.verb != "POST" {
      FirstFailingAt(gs, 0);
    } else if !BodyIsObject(req.body) {
      FirstFailingAt(gs, 1);
    } else if !HasContentsArray(req.body.value) {
      FirstFailingAt(gs, 2);
    } else if payloadSize > MaxPayloadSize {
      FirstFailingAt(gs, 3);
    } else if CheckKey(apiKey).Failure? {
      FirstFailingAt(gs, 4);
    } else {
      assert forall i :: 0 <= i < |gs| ==> !gs[i].fails;
    }
  }
}
