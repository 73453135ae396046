# Grounded outreach-email generator: gateway and two-stage page logic

This project models the two pieces of decision logic of a small web app.
The app drafts cold outreach emails about a company from fresh web-search
results:

- **The gateway** (`api/gemini.js`, module `Gateway`). It is a serverless
  handler that sits between the page and the upstream generative API. It
  puts four hardening headers on every response. It admits only `POST`,
  then checks the body's shape, its `contents` array, its serialised size
  and the server-held API key. It then forwards the body upstream and
  relays the answer. Any error is redacted into one of two fixed
  messages. The handler is a pure function `Handle` from an abstract
  request to an abstract response. The response is a small record whose
  member functions are the handler's steps (`setHeader`, `status`,
  `json`, `end`).
- **The page's click handler** (`app.js`, modules `Extraction`,
  `Display` and `Orchestrator`). It trims and validates three form
  fields, then sends a search request. From the reply it extracts
  `companyInfo`, the grounding metadata and a numbered list of sources.
  It then sends an email-generation request and renders the draft
  followed by search diagnostics. The button is a `Page` object whose
  methods are the handler's steps between `await` points: `Click`,
  `SearchReplied` and `EmailReplied`. A finished run always ends with
  `Settle`, which is the `finally` block. The `forEach` loops are
  methods with loop invariants, each proved equal to a reference
  function (`ExtractFinding` against `Extract`, `BuildDisplayText`
  against `DisplayText`). `Run` gives the whole click as one function,
  and `Page.ClickThrough` is proved to agree with it.

Supporting modules:

- `JsStrings` holds the JavaScript string operations used: `trim`,
  `includes`, `startsWith`, `substring(0, n)`, `join`, and how template
  literals render numbers and `undefined`.
- `Json` models parsed JSON values and JavaScript truthiness.
- `Gemini` holds the request and response shapes and the scripted
  `fetch` outcomes.
- `Pipeline` connects the page's payloads to the gateway.

The network, the clock, the environment and the form's DOM are
parameters. The upstream `fetch` (in the gateway) and the two `/api/gemini`
calls (in the page) are scripted outcomes passed in as values.

Three facts about the code are worth stating, because they are easy to
assume otherwise:

- **No de-duplication.** The code does not de-duplicate sources: it pushes
  one entry for every grounding chunk that has a web URI, so
  `Extraction.OneSourcePerChunk` and `Extraction.TwoChunksTwoEntries` state that
  duplicates are kept.
- **No rate limiting.** The gateway computes the client identity, the time
  and the window values but never checks them, so it rejects nothing for
  rate. `Gateway.RateLimitNeverRejects` states that they do not affect the
  response.
- **Fixed email count.** The email prompt always says "Create 2 emails",
  whatever the number of prospects; `Orchestrator.EmailGuidelines` holds
  that fixed text.

## Model

| member | source | states |
|---|---|---|
| Gateway.Secured | api/gemini.js:6-9 | the response carries `X-Content-Type-Options: nosniff`, `X-Frame-Options: DENY`, `X-XSS-Protection: 1; mode=block` and `Referrer-Policy: strict-origin-when-cross-origin` |
| Gateway.Handle | api/gemini.js:4-95 | every response, whatever the branch, carries the four hardening headers; upstream is called only with the request's own body; when upstream is called, the status is 500 or upstream answered |
| Gateway.NonPostRejected | api/gemini.js:12-15 | any verb but POST gives 405, `Allow: ['POST']` and the body `Method <verb> Not Allowed`, and upstream is not called |
| Gateway.AllowOnlyWhenRefused | api/gemini.js:12-15 | the `Allow` header is present exactly when the verb is not POST |
| Gateway.InvalidBodyRejected | api/gemini.js:28-30 | a missing, falsy or non-object body gives 400 `Invalid request body`, and upstream is not called |
| Gateway.InvalidContentsRejected | api/gemini.js:33-35 | an object body whose `contents` is missing or not an array gives 400 `Missing or invalid contents array`, and upstream is not called |
| Gateway.PayloadCeiling | api/gemini.js:38-43 | a serialised length above 10000 gives 413 `Request payload too large` and no upstream call; a length of exactly 10000 passes the size guard, so a 413 can then only be upstream's own |
| Gateway.KeyErrorsAreInternal | api/gemini.js:50-90 | both messages the key checks throw contain `API key`, so the catch block classifies them as internal |
| Gateway.KeyFailuresRedacted | api/gemini.js:45-90 | a missing or empty key, or one not starting with `AIza`, gives 500 with exactly `Internal server error`, and upstream is not called |
| Gateway.UpstreamRelayed | api/gemini.js:59-79 | with all guards passed and a well-formed key, upstream is called at the endpoint URL ending in the key, with the body unchanged; a non-ok answer is relayed with its own status and body, an ok one as 200 with its data |
| Gateway.UpstreamErrorsRedacted | api/gemini.js:81-93 | when the upstream call throws or its answer is not JSON, the response is 500 with one of the two fixed messages, chosen by the `includes` classification, never the error's own text |
| Gateway.RateLimitNeverRejects | api/gemini.js:17-25 | two requests that differ only in client identity and time get the same response |
| Gateway.FirstFailing | api/gemini.js:12-57 | a guard is returned exactly when some guard in the list fails, and the one returned fails |
| Gateway.FirstFailingAt | api/gemini.js:12-57 | the guard returned is the failing one at the lowest index |
| Gateway.GuardsDecide | api/gemini.js:12-62 | the guards apply in the order method, body, contents, size, key; the first failing one decides status and body with no upstream call; upstream is called, with the body unchanged, exactly when none fails |
| JsStrings.TrimStart | app.js:125-127 | the result is the suffix left after a run of leading whitespace, and starts with a non-whitespace character |
| JsStrings.TrimEnd | app.js:125-127 | the result is the prefix left before a run of trailing whitespace, and ends with a non-whitespace character |
| JsStrings.Trim | app.js:125-127 | the result is no longer than the input and neither starts nor ends with whitespace |
| JsStrings.TrimSlice | app.js:125-127 | the trimmed text is the slice of the input that starts where the leading whitespace run ends, and everything before and after that slice is whitespace |
| JsStrings.TrimEmptyIff | app.js:125-131 | a trimmed field is empty exactly when the field held only whitespace |
| JsStrings.IncludesAt | api/gemini.js:85-87 | `includes` is true whenever the substring occurs at some index |
| JsStrings.IncludesFindsInfix | api/gemini.js:85-87 | when `includes` is true the substring occurs at some index |
| JsStrings.Prefix | app.js:331 | `substring(0, n)` keeps `min(n, length)` characters taken from the front |
| Extraction.ExtractFinding | app.js:222-244 | the reassigned locals and the `forEach` that pushes produce exactly the reference extraction |
| Extraction.CompanyInfoDefault | app.js:222-230 | `companyInfo` is `No recent information found.` unless the first candidate has a first part, in which case it is that part's text |
| Extraction.SourcesAppend | app.js:235-242 | visiting chunks in two runs pushes the first run's entries, then the second's |
| Extraction.OneSourcePerChunk | app.js:234-242 | the source list has exactly one entry per chunk with a web URI |
| Extraction.SourceForChunk | app.js:235-242 | a chunk with a web URI gives the entry at the index equal to the number of such chunks before it, with that URI and with its title or `Source` |
| Extraction.SourceFromChunk | app.js:235-242 | every entry comes from a chunk with a web URI, at the position the chunk order gives it |
| Extraction.TwoChunksTwoEntries | app.js:235-242 | any two chunks with a web URI, the same URI or not, give two distinct entries in chunk order, each built from its own chunk, so a repeated URI is listed twice |
| Extraction.DuplicatesKept | app.js:235-242 | an example: the two-chunk list with `http://a.com` titled `A` and again titled `A-dup` gives exactly those two entries |
| Display.BuildDisplayText | app.js:320-343 | the `+=` sequence produces exactly the reference text, and fails where building it throws |
| Display.AppendSources | app.js:334-339 | nothing is appended without sources; otherwise the sources header and the numbered lines are appended |
| Display.AppendSourceLines | app.js:336-338 | the `forEach` appends the link line of every source, numbered from 1, in order |
| Display.SourceNumbered | app.js:336-338 | the line for source `k` (from 0) is numbered `k + 1` and sits after the lines of the sources before it |
| Display.StartsWithEmailText | app.js:320-321 | any rendered text starts with the email candidate's text verbatim |
| Display.NoMetadataStatus | app.js:340-343 | without search metadata, the email text is followed by the `WEB SEARCH STATUS` block and nothing else |
| Display.QueriesShown | app.js:328-330 | with search metadata, the rendered text contains the search queries joined by `, ` |
| Display.PreviewShown | app.js:331 | with search metadata, the rendered text contains at most the first 200 characters of `companyInfo`, followed by `...` |
| Display.SourcesRendered | app.js:334-338 | with search metadata, the rendered text contains every source's link line with its number |
| Display.DiagnosticsThrow | app.js:324-331 | with metadata but no queries list, or with `companyInfo` undefined, building the text throws |
| Orchestrator.ReadForm | app.js:125-131 | the run is refused exactly when some raw field holds only whitespace; otherwise the result holds the three trimmed fields |
| Orchestrator.ValidateRefusesBlank | app.js:125-135 | validation refuses the fields exactly when one of them holds only whitespace |
| Orchestrator.SearchPrompt | app.js:176-182 | the search instruction names the trimmed company verbatim |
| Orchestrator.EmailPrompt | app.js:251-280 | the email instruction contains the company, the company info, the names and the titles verbatim |
| Orchestrator.SearchPayloadFields | app.js:186-201 | the search payload is one user message naming the company, with temperature 0.3, topP 1, topK 1 and the Google Search tool |
| Orchestrator.EmailPayloadFields | app.js:282-292 | the email payload is one user message holding all four fields, with temperature 0.7, topP 1, topK 1 and no tools |
| Orchestrator.AfterEmail | app.js:301-353 | the email stage always ends the run, rendered or failed |
| Orchestrator.Page.constructor | app.js:7-12 | the page as loaded: Idle, result hidden, button enabled with its own label |
| Orchestrator.Page.Click | app.js:116-171 | after a finished run a click reloads the page to Idle; from Idle, refused fields show the validation message and send nothing, and accepted ones enter Searching, disable the button, show `Generating...` and send the search request |
| Orchestrator.Page.Reload | app.js:119-121 | the reload leaves the page as loaded |
| Orchestrator.Page.Submit | app.js:124-171 | refused fields show the validation message and leave the button as it was; accepted ones enter Searching with the loading view and send the search request for the trimmed company |
| Orchestrator.Page.Start | app.js:130-171 | with no input the validation message is shown and the button is left as it was; with the trimmed input the page enters Searching, disables the button, shows `Generating...` and the loading view, and sends the search request for the company |
| Orchestrator.Page.Settle | app.js:354-360 | whatever the outcome, the result is shown and the button ends enabled with `Let's do another!` |
| Orchestrator.Page.SearchReplied | app.js:207-299 | a readable search reply enters Generating with the extracted finding and sends the email request; any other reply ends the run with the generic error |
| Orchestrator.Page.EmailReplied | app.js:295-360 | the email reply ends the run in the phase `AfterEmail` gives, with the button enabled and labelled `Let's do another!` |
| Orchestrator.Page.ClickThrough | app.js:116-361 | a click from Idle carried through both replies sends the requests `Run` gives and ends in `Run`'s phase; once validation passed, the button ends enabled with `Let's do another!` |
| Orchestrator.RefusedRunStaysIdle | app.js:130-135 | refused fields leave the run Idle, and nothing is sent |
| Orchestrator.AcceptedRunLeavesIdle | app.js:136-360 | accepted fields always take the run out of Idle |
| Orchestrator.BlankFieldStopsRun | app.js:125-135 | a run stays Idle and sends nothing exactly when some field holds only whitespace |
| Orchestrator.RunFinishes | app.js:204-360 | a run ends Idle after a validation message, or Rendered, or Failed |
| Orchestrator.RunRequests | app.js:186-299 | a run sends nothing when validation fails; otherwise it first sends the search request for the trimmed company; the email request, built from the trimmed fields and the extraction, is sent exactly when the search reply was read |
| Orchestrator.RenderedStartsWithDraft | app.js:310-345 | a rendered run's text starts with the text of the email candidate's first part |
| Orchestrator.MalformedDraftFails | app.js:310-349 | no candidates gives the missing-candidates message; a first candidate without `content`, `parts` or `parts[0]` gives the invalid-structure message |
| Orchestrator.UnreadReplyFails | app.js:204-353 | a failed or unreadable reply at either stage ends the run with the generic message |
| Pipeline.PayloadShapeAccepted | api/gemini.js:27-35 | every payload the page builds passes the gateway's body and `contents` checks |
| Pipeline.PageRequestForwarded | api/gemini.js:45-68 | a page request within the size ceiling, sent to a gateway whose key starts with `AIza`, is forwarded to the upstream URL for that key with its body unchanged |

## Left out

- DOM access, CSS class changes and the `innerText`/`innerHTML` writes are not modelled. What remains is the resulting strings (`View`) and an abstract button state (`Caption`, `disabled`).
- The page's initial button label is abstracted as `Caption.Initial`, because index.html is not part of this model.
- The loading-message rotation and `setInterval`/`clearInterval` are cosmetic timers, so the model has a single `Loading` view.
- Screenshot upload, paste handling, `FileReader` and `toBase64` are browser I/O that the pipeline does not use.
- `SYSTEM_PROMPT_TEMPLATE` is an unused prompt constant with no logic.
- `console` logging is not modelled.
- `fetch` (to `/api/gemini` and to the upstream API), `Date.now()` and `process.env.GEMINI_API_KEY` are parameters or scripted outcomes. A reply whose body is not JSON is `Malformed` or `Unparseable`.
- `JSON.stringify(req.body).length` is the parameter `payloadSize`. The model does not compute serialised lengths.
- JSON numbers are `real`. Number formatting other than the source index in a link is not modelled.
- The gateway's error relay does not decode the upstream JSON into the page's response datatype; `Pipeline` connects the two sides only on the way in.
- Strings are sequences of code points. `substring(0, 200)` counts UTF-16 units in JavaScript, which differs from this model for text outside the Basic Multilingual Plane.
- The emoji markers in the rendered diagnostics are modelled as the characters the file stores at those points. These are mis-decoded emoji, not the emoji themselves.
- `window.location.reload()` is modelled only as a return to Idle.
- Replies from `/api/gemini` are assumed to follow the response schema of `Gemini.GenerateResponse`, and a JSON `null` field is read as absent. The model therefore does not capture two behaviours. First, a `null` text is printed as `null` rather than `undefined`. Second, some shapes throw into the generic error: a `null` first candidate, a `null` grounding chunk, or a `groundingChunks` that is not an array.
- Orchestrator.EmailPrompt: states that the four fields occur in the prompt, not the positions at which they occur.
