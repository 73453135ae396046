/**
 * The click handler of app.js's "generate" button, as a state machine:
 * Idle, then either a validation message (still Idle) or Searching, then
 * Generating, then Rendered or Failed; "Let's do another!" reloads the page
 * back to Idle. The two `fetch` calls are scripted `Reply` values; each
 * await point ends one method of `Page`.
 */
module Orchestrator {
  import opened Wrappers
  import opened JsStrings
  import opened Http
  import opened Gemini
  import opened Extraction
  import opened Display

  const ValidationMessage := "Please fill out all required fields: Company Domain, Prospect Name(s), and Job Title(s)."
  const GenericErrorMessage :=
    "An error occurred. Please check the console for details. (This usually happens if the API key is invalid or the API is busy)."
  const InvalidStructureMessage := "Received an invalid response structure from the API. Check the console for details."
  const MissingCandidatesMessage :=
    "Received an unexpected response from the API. The 'candidates' field is missing. Check the console for details."

  const SearchTemperature := 0.3
  const EmailTemperature := 0.7

  /** The three trimmed form fields. */
  datatype Input = Input(companyDomain: string, firstNames: string, jobTitles: string)

  /** Some raw field holds nothing but whitespace. */
  predicate AnyBlank(companyRaw: string, namesRaw: string, titlesRaw: string) {
    AllWhitespace(companyRaw) || AllWhitespace(namesRaw) || AllWhitespace(titlesRaw)
  }

  /** Trims the fields and refuses the run when any of them is left empty. */
  function Validate(companyRaw: string, namesRaw: string, titlesRaw: string): Option<Input> {
    var companyDomain, firstNames, jobTitles := Trim(companyRaw), Trim(namesRaw), Trim(titlesRaw);
    if companyDomain == "" || firstNames == "" || jobTitles == "" then None
    else Some(Input(companyDomain, firstNames, jobTitles))
  }

  /** The handler's first step: read the three inputs, trim them, and stop when one is empty. */
  method ReadForm(companyRaw: string, namesRaw: string, titlesRaw: string) returns (fields: Option<Input>)
    ensures fields.None? <==> AnyBlank(companyRaw, namesRaw, titlesRaw)
    ensures fields.Some? ==> fields.value == Input(Trim(companyRaw), Trim(namesRaw), Trim(titlesRaw))
    ensures fields == Validate(companyRaw, namesRaw, titlesRaw)
  {
    ValidateRefusesBlank(companyRaw, namesRaw, titlesRaw);
    var companyDomain := Trim(companyRaw);
    var firstNames := Trim(namesRaw);
    var jobTitles := Trim(titlesRaw);
    if companyDomain == "" || firstNames == "" || jobTitles == "" {
      return None;
    }
    return Some(Input(companyDomain, firstNames, jobTitles));
  }

  /* ---------------- Prompts and payloads ---------------- */

  const SearchLead := "Find the 3 most recent and relevant pieces of information about "
  const SearchFocus :=
    ". Focus on:\n"
    + "        - Recent news, announcements, or press releases\n"
    + "        - Product launches or updates\n"
    + "        - Earnings reports or financial news\n"
    + "        - Upcoming events or conferences\n"
    + "        \n"
    + "        Return only the most current and relevant information in a concise format."

  /** The search stage's instruction; it names the company verbatim. */
  function SearchPrompt(companyDomain: string): (r: string)
    ensures InfixAt(r, companyDomain, |SearchLead|)
  {
    InfixInMiddle(SearchLead, companyDomain, SearchFocus);
    SearchLead + companyDomain + SearchFocus
  }

  const EmailLead := "Based on this current information about "
  const EmailAfterCompany := ":\n\n"
  const EmailAfterInfo := "\n\nGenerate personalized cold outbound emails for these prospects:\n- Names: "
  const EmailAfterNames := "\n- Job titles: "
  const EmailGuidelines :=
    "\n\nFollow these guidelines:\n"
    + "1. Use the current company information above\n"
    + "2. Create 2 emails (one for each prospect)\n"
    + "3. Keep each email under 100 words\n"
    + "4. Make them casual and human-sounding\n"
    + "5. Reference specific details from the company info\n"
    + "6. Sign each email as \"Gage\"\n"
    + "\n"
    + "Format the output as:\n"
    + "### **Prospect #1: [name], [title]**\n"
    + "Source: [relevant source from the info above]\n"
    + "\n"
    + "```\n[subject line]\n```\n"
    + "\n"
    + "```\n[email body]\n```\n"
    + "\n"
    + "### **Prospect #2: [name], [title]**\n"
    + "[repeat format]"

  /** The email stage's instruction, piece by piece. */
  function EmailPromptParts(companyDomain: string, companyInfo: string, firstNames: string, jobTitles: string): seq<string> {
    [EmailLead, companyDomain, EmailAfterCompany, companyInfo, EmailAfterInfo, firstNames, EmailAfterNames, jobTitles,
     EmailGuidelines]
  }

  /** The email stage's instruction; it holds the company, the company info, the names and the titles verbatim. */
  function EmailPrompt(companyDomain: string, companyInfo: string, firstNames: string, jobTitles: string): (r: string)
    ensures Contains(r, companyDomain) && Contains(r, companyInfo) && Contains(r, firstNames) && Contains(r, jobTitles)
  {
    var parts := EmailPromptParts(companyDomain, companyInfo, firstNames, jobTitles);
    ConcatPart(parts, 1);
    ConcatPart(parts, 3);
    ConcatPart(parts, 5);
    ConcatPart(parts, 7);
    Concat(parts)
  }

  function UserContent(text: string): RequestContent {
    RequestContent("user", [text])
  }

  /** Low temperature and the Google Search tool. */
  function SearchPayload(companyDomain: string): Payload {
    Payload([UserContent(SearchPrompt(companyDomain))], GenerationConfig(SearchTemperature, 1, 1), Some([GoogleSearch]))
  }

  /** Higher temperature and no tools; `companyInfo` goes in as a template literal renders it. */
  function EmailPayload(input: Input, finding: Finding): Payload {
    var prompt := EmailPrompt(input.companyDomain, JsText(finding.companyInfo), input.firstNames, input.jobTitles);
    Payload([UserContent(prompt)], GenerationConfig(EmailTemperature, 1, 1), None)
  }

  /** The two POSTs to the gateway a run can make, named by what their payloads are built from. */
  datatype Request = SearchRequest(companyDomain: string) | EmailRequest(input: Input, finding: Finding)

  function PayloadOf(request: Request): Payload {
    match request
    case SearchRequest(companyDomain) => SearchPayload(companyDomain)
    case EmailRequest(input, finding) => EmailPayload(input, finding)
  }

  /** The search payload: one user message naming the company, temperature 0.3, and the Google Search tool. */
  lemma SearchPayloadFields(companyDomain: string)
    ensures var p := PayloadOf(SearchRequest(companyDomain));
      && |p.contents| == 1 && p.contents[0].role == "user" && |p.contents[0].texts| == 1
      && Contains(p.contents[0].texts[0], companyDomain)
      && p.config == GenerationConfig(0.3, 1, 1) && p.tools == Some([GoogleSearch])
  {
    assert InfixAt(SearchPrompt(companyDomain), companyDomain, |SearchLead|);
  }

  /**
   * The email payload: one user message holding the company, the company
   * info as a template literal renders it, the names and the titles;
   * temperature 0.7 and no tools.
   */
  lemma EmailPayloadFields(input: Input, finding: Finding)
    ensures var p := PayloadOf(EmailRequest(input, finding));
      && |p.contents| == 1 && p.contents[0].role == "user" && |p.contents[0].texts| == 1
      && Contains(p.contents[0].texts[0], input.companyDomain)
      && Contains(p.contents[0].texts[0], JsText(finding.companyInfo))
      && Contains(p.contents[0].texts[0], input.firstNames)
      && Contains(p.contents[0].texts[0], input.jobTitles)
      && p.config == GenerationConfig(0.7, 1, 1) && p.tools.None?
  {
  }

  /* ---------------- The stages as functions ---------------- */

  datatype Phase =
    | Idle
    | Searching(input: Input)
    | Generating(input: Input, finding: Finding)
    | Rendered(html: string)
    | Failed(message: string)

  /**
   * A stage's reply as the handler reads it: data only when the status is ok
   * and the body parses; otherwise it throws and the `catch` takes over.
   */
  function ReadReply(reply: Reply): Option<GenerateResponse> {
    match reply
    case Received(status, Data(data)) => if IsOk(status) then Some(data) else None
    case _ => None
  }

  function AfterSearch(reply: Reply): Result<Finding, string> {
    match ReadReply(reply)
    case None => Failure(GenericErrorMessage)
    case Some(data) => Success(Extract(data))
  }

  function AfterEmail(finding: Finding, reply: Reply): (p: Phase)
    ensures p.Rendered? || p.Failed?
  {
    match ReadReply(reply)
    case None => Failed(GenericErrorMessage)
    case Some(data) =>
      match FirstCandidate(data)
      case None => Failed(MissingCandidatesMessage)
      case Some(candidate) =>
        match FirstPart(candidate)
        case None => Failed(InvalidStructureMessage)
        case Some(part) =>
          match DisplayText(part.text, finding)
          case None => Failed(GenericErrorMessage)
          case Some(text) => Rendered(text)
  }

  /** What one click from Idle does: the requests it sends, and the phase it ends in. */
  datatype RunResult = RunResult(requests: seq<Request>, phase: Phase)

  function Run(companyRaw: string, namesRaw: string, titlesRaw: string, search: Reply, email: Reply): RunResult {
    match Validate(companyRaw, namesRaw, titlesRaw)
    case None => RunResult([], Idle)
    case Some(input) =>
      var searchRequest := SearchRequest(input.companyDomain);
      match AfterSearch(search)
      case Failure(message) => RunResult([searchRequest], Failed(message))
      case Success(finding) => RunResult([searchRequest, EmailRequest(input, finding)], AfterEmail(finding, email))
  }

  /* ---------------- The page ---------------- */

  /** What the result area shows: hidden, the loading messages, a plain message, or rendered HTML. */
  datatype View = Hidden | Loading | Message(text: string) | Markup(html: string)

  /** The button's text: the page's own, "Generating...", or "Let's do another!". */
  datatype Caption = Initial | Busy | DoAnother
  {
    function Text(initialText: string): string {
      match this
      case Initial => initialText
      case Busy => "Generating..."
      case DoAnother => "Let's do another!"
    }
  }

  class Page {
    var caption: Caption
    var disabled: bool
    var view: View
    var phase: Phase

    ghost predicate Valid()
      reads this
    {
      match phase
      case Idle => !disabled && caption == Initial && (view == Hidden || view == Message(ValidationMessage))
      case Searching(_) => disabled && caption == Busy && view == Loading
      case Generating(_, _) => disabled && caption == Busy && view == Loading
      case Rendered(html) => !disabled && caption == DoAnother && view == Markup(html)
      case Failed(message) => !disabled && caption == DoAnother && view == Message(message)
    }

    /** The page as loaded. */
    constructor ()
      ensures Valid() && phase == Idle && view == Hidden
    {
      caption := Initial;
      disabled := false;
      view := Hidden;
      phase := Idle;
    }

    /**
     * A click (the browser delivers none while the button is disabled):
     * reload after a finished run; otherwise validate and, if the fields are
     * filled in, enter Searching and send the search request.
     */
    method Click(companyRaw: string, namesRaw: string, titlesRaw: string) returns (request: Option<Request>)
      requires Valid() && !disabled
      modifies this
      ensures Valid()
      ensures old(phase).Rendered? || old(phase).Failed? ==>
        request.None? && phase == Idle && caption == Initial && !disabled && view == Hidden
      ensures old(phase) == Idle ==>
        match Validate(companyRaw, namesRaw, titlesRaw)
        case None =>
          request.None? && phase == Idle && caption == old(caption) && !disabled && view == Message(ValidationMessage)
        case Some(input) =>
          && request == Some(SearchRequest(input.companyDomain))
          && phase == Searching(input) && disabled && caption == Busy && view == Loading
    {
      if caption == DoAnother {
        Reload();
        return None;
      }
      request := Submit(companyRaw, namesRaw, titlesRaw);
    }

    /** `window.location.reload()`: the page starts over, as loaded. */
    method Reload()
      requires Valid() && (phase.Rendered? || phase.Failed?)
      modifies this
      ensures Valid() && phase == Idle && caption == Initial && !disabled && view == Hidden
    {
      caption, disabled, view, phase := Initial, false, Hidden, Idle;
    }

    /** Trim and check the fields; when all are filled in, show the loading state and send the search request. */
    method Submit(companyRaw: string, namesRaw: string, titlesRaw: string) returns (request: Option<Request>)
      requires Valid() && phase == Idle
      modifies this
      ensures Valid()
      ensures match Validate(companyRaw, namesRaw, titlesRaw)
        case None =>
          request.None? && phase == Idle && caption == old(caption) && !disabled && view == Message(ValidationMessage)
        case Some(input) =>
          && request == Some(SearchRequest(input.companyDomain))
          && phase == Searching(input) && disabled && caption == Busy && view == Loading
    {
      var fields := ReadForm(companyRaw, namesRaw, titlesRaw);
      request := Start(fields);
    }

    /** Show the validation message for refused fields; otherwise show the loading state and send the search request. */
    method Start(fields: Option<Input>) returns (request: Option<Request>)
      requires Valid() && phase == Idle
      modifies this
      ensures Valid()
      ensures match fields
        case None =>
          request.None? && phase == Idle && caption == old(caption) && !disabled && view == Message(ValidationMessage)
        case Some(input) =>
          && request == Some(SearchRequest(input.companyDomain))
          && phase == Searching(input) && disabled && caption == Busy && view == Loading
    {
      if fields.None? {
        view := Message(ValidationMessage);
        return None;
      }
      var input := fields.value;
      view := Loading;
      disabled := true;
      caption := Busy;
      phase := Searching(input);
      request := Some(SearchRequest(input.companyDomain));
    }

    /** The end of a run: the result is shown, then the `finally` block re-enables the button. */
    method Settle(outcome: Phase)
      requires outcome.Rendered? || outcome.Failed?
      modifies this
      ensures Valid() && phase == outcome
      ensures !disabled && caption == DoAnother
    {
      view := if outcome.Rendered? then Markup(outcome.html) else Message(outcome.message);
      phase := outcome;
      disabled := false;
      caption := DoAnother;
    }

    /** The search reply arrives: extract the finding and send the email payload, or fail. */
    method SearchReplied(reply: Reply) returns (request: Option<Request>)
      requires Valid() && phase.Searching?
      modifies this
      ensures Valid()
      ensures match AfterSearch(reply)
        case Success(finding) =>
          && request == Some(EmailRequest(old(phase).input, finding))
          && phase == Generating(old(phase).input, finding) && disabled && caption == Busy
        case Failure(message) =>
          request.None? && phase == Failed(message) && !disabled && caption == DoAnother
    {
      var input := phase.input;
      if reply.NetworkFailure? || !IsOk(reply.status) || reply.body.Malformed? {
        Settle(Failed(GenericErrorMessage));
        return None;
      }
      var finding := ExtractFinding(reply.body.response);
      phase := Generating(input, finding);
      request := Some(EmailRequest(input, finding));
    }

    /** The email reply arrives: render the draft with its diagnostics, or show an error; either way the run is over. */
    method EmailReplied(reply: Reply)
      requires Valid() && phase.Generating?
      modifies this
      ensures Valid() && phase == AfterEmail(old(phase).finding, reply)
      ensures !disabled && caption == DoAnother
    {
      var finding := phase.finding;
      if reply.NetworkFailure? || !IsOk(reply.status) || reply.body.Malformed? {
        Settle(Failed(GenericErrorMessage));
        return;
      }
      var emailData := reply.body.response;
      if emailData.candidates.Some? && |emailData.candidates.value| > 0 {
        var candidate := emailData.candidates.value[0];
        if candidate.content.None? || candidate.content.value.parts.None? || |candidate.content.value.parts.value| == 0 {
          Settle(Failed(InvalidStructureMessage));
          return;
        }
        var emailText := candidate.content.value.parts.value[0].text;
        var displayText := BuildDisplayText(emailText, finding);
        if displayText.None? {
          // building the diagnostics threw; the `catch` shows the generic message
          Settle(Failed(GenericErrorMessage));
          return;
        }
        Settle(Rendered(displayText.value));
      } else {
        Settle(Failed(MissingCandidatesMessage));
      }
    }

    /**
     * One click from Idle, carried through both replies: it sends what `Run`
     * says and ends in `Run`'s phase; once validation passes the button always
     * ends enabled and labelled "Let's do another!".
     */
    method ClickThrough(companyRaw: string, namesRaw: string, titlesRaw: string, search: Reply, email: Reply)
      returns (requests: seq<Request>)
      requires Valid() && phase == Idle
      modifies this
      ensures Valid()
      ensures requests == Run(companyRaw, namesRaw, titlesRaw, search, email).requests
      ensures phase == Run(companyRaw, namesRaw, titlesRaw, search, email).phase
      ensures phase == Idle ==> !disabled && caption == old(caption) && view == Message(ValidationMessage)
      ensures phase != Idle ==> !disabled && caption == DoAnother
    {
      var first := Click(companyRaw, namesRaw, titlesRaw);
      if first.None? {
        return [];
      }
      requests := [first.value];
      var second := SearchReplied(search);
      if second.None? {
        return;
      }
      requests := requests + [second.value];
      EmailReplied(email);
    }
  }

  /* ---------------- Properties of a run ---------------- */

  /** Validation refuses the fields exactly when one of them holds only whitespace. */
  lemma ValidateRefusesBlank(companyRaw: string, namesRaw: string, titlesRaw: string)
    ensures Validate(companyRaw, namesRaw, titlesRaw).None?
        <==> AnyBlank(companyRaw, namesRaw, titlesRaw)
  {
    TrimEmptyIff(companyRaw);
    TrimEmptyIff(namesRaw);
    TrimEmptyIff(titlesRaw);
  }

  /** Refused fields leave the run Idle, and nothing is sent. */
  lemma RefusedRunStaysIdle(companyRaw: string, namesRaw: string, titlesRaw: string, search: Reply, email: Reply)
    requires Validate(companyRaw, namesRaw, titlesRaw).None?
    ensures var r := Run(companyRaw, namesRaw, titlesRaw, search, email);
      r.phase == Idle && r.requests == []
  {
  }

  /** Accepted fields always take the run out of Idle. */
  lemma AcceptedRunLeavesIdle(companyRaw: string, namesRaw: string, titlesRaw: string, search: Reply, email: Reply)
    requires Validate(companyRaw, namesRaw, titlesRaw).Some?
    ensures !Run(companyRaw, namesRaw, titlesRaw, search, email).phase.Idle?
  {
  }

  /** A run stops at validation, sending nothing, exactly when some field holds only whitespace. */
  lemma BlankFieldStopsRun(companyRaw: string, namesRaw: string, titlesRaw: string, search: Reply, email: Reply)
    ensures var r := Run(companyRaw, namesRaw, titlesRaw, search, email);
      && (r.phase.Idle? <==> AnyBlank(companyRaw, namesRaw, titlesRaw))
      && (r.phase.Idle? ==> r.requests == [])
  {
    ValidateRefusesBlank(companyRaw, namesRaw, titlesRaw);
    if Validate(companyRaw, namesRaw, titlesRaw).None? {
      RefusedRunStaysIdle(companyRaw, namesRaw, titlesRaw, search, email);
    } else {
      AcceptedRunLeavesIdle(companyRaw, namesRaw, titlesRaw, search, email);
    }
  }

  /** A run always ends: in Idle after a validation message, or in Rendered or Failed. */
  lemma RunFinishes(companyRaw: string, namesRaw: string, titlesRaw: string, search: Reply, email: Reply)
    ensures var p := Run(companyRaw, namesRaw, titlesRaw, search, email).phase;
      p == Idle || p.Rendered? || p.Failed?
  {
  }

  /**
   * The requests a run sends: none when validation fails, else first the
   * search request for the trimmed company, then, only when the search reply
   * was read, the email request built from the trimmed fields and what was
   * extracted from that reply.
   */
  lemma RunRequests(companyRaw: string, namesRaw: string, titlesRaw: string, search: Reply, email: Reply)
    ensures var r := Run(companyRaw, namesRaw, titlesRaw, search, email);
      var input := Validate(companyRaw, namesRaw, titlesRaw);
      && (r.requests == [] <==> input.None?)
      && (input.Some? ==> |r.requests| >= 1 && r.requests[0] == SearchRequest(Trim(companyRaw)))
      && (|r.requests| == 2 <==> input.Some? && ReadReply(search).Some?)
      && (|r.requests| == 2 ==> r.requests[1] == EmailRequest(input.value, Extract(ReadReply(search).value)))
      && |r.requests| <= 2
  {
  }

  /** A rendered run shows the email candidate's text first, verbatim. */
  lemma RenderedStartsWithDraft(finding: Finding, reply: Reply)
    requires AfterEmail(finding, reply).Rendered?
    ensures var data := ReadReply(reply);
      && data.Some? && FirstCandidate(data.value).Some? && FirstPart(FirstCandidate(data.value).value).Some?
      && StartsWith(AfterEmail(finding, reply).html, JsText(FirstPart(FirstCandidate(data.value).value).value.text))
  {
    var part := FirstPart(FirstCandidate(ReadReply(reply).value).value).value;
    StartsWithEmailText(part.text, finding);
  }

  /**
   * An email reply without candidates, or whose first candidate lacks
   * `content`, `parts` or `parts[0]`, ends the run with an error message
   * rather than rendered text.
   */
  lemma MalformedDraftFails(finding: Finding, status: int, data: GenerateResponse)
    requires IsOk(status)
    requires FirstCandidate(data).None? || FirstPart(FirstCandidate(data).value).None?
    ensures AfterEmail(finding, Received(status, Data(data)))
         == if FirstCandidate(data).None? then Failed(MissingCandidatesMessage) else Failed(InvalidStructureMessage)
  {
  }

  /** A failed or unreadable reply at either stage ends the run with the generic message. */
  lemma UnreadReplyFails(companyRaw: string, namesRaw: string, titlesRaw: string, search: Reply, email: Reply)
    requires Validate(companyRaw, namesRaw, titlesRaw).Some?
    requires ReadReply(search).None? || ReadReply(email).None?
    ensures Run(companyRaw, namesRaw, titlesRaw, search, email).phase == Failed(GenericErrorMessage)
  {
  }
}
