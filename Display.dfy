/**
 * The text app.js renders after the email stage (app.js:320-343): the
 * email candidate's text, then either a block of search diagnostics with a
 * numbered list of sources, or a block saying no search metadata was found.
 */
module Display {
  import opened Wrappers
  import opened JsStrings
  import opened Gemini
  import opened Extraction

  /*
   * The markers are the characters the file stores at these points: emoji
   * whose UTF-8 bytes were once read as Windows-1252 and saved again.
   */
  const CheckMarker := "\U{00E2}\U{0153}\U{2026}"
  const SearchMarker := "\U{00F0}\U{0178}\U{201D}"
  const BooksMarker := "\U{00F0}\U{0178}\U{201C}\U{0161}"
  const LinkMarker := "\U{00F0}\U{0178}\U{201D}\U{2014}"
  const CrossMarker := "\U{00E2}\U{0152}"

  /** How much of `companyInfo` the diagnostics show (`substring(0, 200)`). */
  const InfoPreviewLength: nat := 200

  const ResultsHeader := "\n\n--- WEB SEARCH RESULTS ---\n" + CheckMarker + " Web search was performed successfully\n"
  const SourcesHeader := "\n" + LinkMarker + " Sources:\n"
  const StatusBlock := "\n\n--- WEB SEARCH STATUS ---\n" + CrossMarker + " No web search metadata found\n"

  function QueriesLine(queries: seq<string>): string {
    SearchMarker + " Search queries used: " + Join(queries, ", ") + "\n"
  }

  function InfoLine(info: string): string {
    BooksMarker + " Company info found: " + Prefix(info, InfoPreviewLength) + "...\n"
  }

  const LinkOpen := ". <a href=\""
  const LinkAttributes := "\" target=\"_blank\" class=\"text-blue-400 hover:text-blue-300 underline\">"
  const LinkClose := "</a>\n"

  /** One numbered source as an HTML link. */
  function SourceLine(n: nat, s: Source): string {
    NatToString(n) + LinkOpen + s.url + LinkAttributes + s.title + LinkClose
  }

  /** The lines for `sources`, numbered from `first`. */
  function Lines(sources: seq<Source>, first: nat): seq<string> {
    seq(|sources|, i requires 0 <= i < |sources| => SourceLine(first + i, sources[i]))
  }

  function SourceLines(sources: seq<Source>, first: nat): string {
    Concat(Lines(sources, first))
  }

  /** The source list: empty without sources, else a header and the numbered lines. */
  function SourcesList(sources: seq<Source>): string {
    if sources == [] then "" else SourcesHeader + SourceLines(sources, 1)
  }

  /**
   * The reference for `displayText`; `None` when building it throws (the
   * metadata has no `webSearchQueries` to join, or `companyInfo` is
   * `undefined` and has no `substring`).
   */
  function DisplayText(emailText: Option<string>, finding: Finding): Option<string> {
    match finding.metadata
    case None => Some(JsText(emailText) + StatusBlock)
    case Some(metadata) =>
      if metadata.webSearchQueries.None? || finding.companyInfo.None? then None
      else
        Some(JsText(emailText) + ResultsHeader + QueriesLine(metadata.webSearchQueries.value)
             + InfoLine(finding.companyInfo.value) + SourcesList(finding.sources))
  }

  /** `displayText` as app.js grows it, with `+=`. */
  method BuildDisplayText(emailText: Option<string>, finding: Finding) returns (text: Option<string>)
    ensures text == DisplayText(emailText, finding)
  {
    var displayText := JsText(emailText);
    if finding.metadata.Some? {
      displayText := displayText + "\n\n--- WEB SEARCH RESULTS ---\n";
      displayText := displayText + CheckMarker + " Web search was performed successfully\n";
      Regroup3(JsText(emailText), "\n\n--- WEB SEARCH RESULTS ---\n", CheckMarker, " Web search was performed successfully\n");
      if finding.metadata.value.webSearchQueries.None? {
        return None;
      }
      var queries := finding.metadata.value.webSearchQueries.value;
      ghost var sofar := displayText;
      displayText := displayText + SearchMarker + " Search queries used: " + Join(queries, ", ") + "\n";
      Regroup4(sofar, SearchMarker, " Search queries used: ", Join(queries, ", "), "\n");
      if finding.companyInfo.None? {
        return None;
      }
      var companyInfo := finding.companyInfo.value;
      sofar := displayText;
      displayText := displayText + BooksMarker + " Company info found: " + Prefix(companyInfo, 200) + "...\n";
      Regroup4(sofar, BooksMarker, " Company info found: ", Prefix(companyInfo, 200), "...\n");
      displayText := AppendSources(displayText, finding.sources);
    } else {
      displayText := displayText + "\n\n--- WEB SEARCH STATUS ---\n";
      displayText := displayText + CrossMarker + " No web search metadata found\n";
      Regroup3(JsText(emailText), "\n\n--- WEB SEARCH STATUS ---\n", CrossMarker, " No web search metadata found\n");
    }
    text := Some(displayText);
  }

  /** The source links app.js appends when there are sources: a header, then one numbered line per source. */
  method AppendSources(displayText: string, sourceUrls: seq<Source>) returns (r: string)
    ensures r == displayText + SourcesList(sourceUrls)
  {
    r := displayText;
    if |sourceUrls| > 0 {
      r := r + "\n" + LinkMarker + " Sources:\n";
      Regroup3(displayText, "\n", LinkMarker, " Sources:\n");
      r := AppendSourceLines(r, sourceUrls);
    }
  }

  /** The `forEach` over the sources: each one appended as a link numbered from 1. */
  method AppendSourceLines(text: string, sourceUrls: seq<Source>) returns (r: string)
    ensures r == text + SourceLines(sourceUrls, 1)
  {
    r := text;
    for index := 0 to |sourceUrls|
      invariant r == text + SourceLines(sourceUrls[..index], 1)
    {
      SourceLinesGrow(sourceUrls, index);
      Assoc(text, SourceLines(sourceUrls[..index], 1), SourceLine(index + 1, sourceUrls[index]));
      r := r + SourceLine(index + 1, sourceUrls[index]);
    }
    assert sourceUrls[..|sourceUrls|] == sourceUrls;
  }

  /** One more source adds one more line, numbered after the others. */
  lemma SourceLinesGrow(sources: seq<Source>, i: nat)
    requires i < |sources|
    ensures SourceLines(sources[..i + 1], 1) == SourceLines(sources[..i], 1) + SourceLine(i + 1, sources[i])
  {
    var lines := Lines(sources[..i + 1], 1);
    assert lines[..i] == Lines(sources[..i], 1);
  }

  /* ---------------- Properties ---------------- */

  lemma {:induction false} ConcatAppend(a: seq<string>, b: seq<string>)
    ensures Concat(a + b) == Concat(a) + Concat(b)
    decreases |b|
  {
    if b == [] {
      assert a + b == a;
    } else {
      assert (a + b)[..|a + b| - 1] == a + b[..|b| - 1];
      ConcatAppend(a, b[..|b| - 1]);
    }
  }

  /**
   * Sources are numbered from 1 in their order: the list is the lines before
   * source `k`, then source `k` numbered `k + 1`, then the rest.
   */
  lemma SourceNumbered(sources: seq<Source>, k: nat)
    requires k < |sources|
    ensures SourceLines(sources, 1)
         == SourceLines(sources[..k], 1) + SourceLine(k + 1, sources[k]) + SourceLines(sources[k + 1..], k + 2)
  {
    var before, after := Lines(sources[..k], 1), Lines(sources[k + 1..], k + 2);
    assert Lines(sources, 1) == before + [SourceLine(k + 1, sources[k])] + after;
    ConcatAppend(before + [SourceLine(k + 1, sources[k])], after);
    ConcatAppend(before, [SourceLine(k + 1, sources[k])]);
    assert [SourceLine(k + 1, sources[k])][..0] == [];
  }

  /** Whatever is rendered starts with the email candidate's text, verbatim. */
  lemma StartsWithEmailText(emailText: Option<string>, finding: Finding)
    requires DisplayText(emailText, finding).Some?
    ensures StartsWith(DisplayText(emailText, finding).value, JsText(emailText))
  {
  }

  /** Without search metadata, the email text is followed by the status block and nothing else. */
  lemma NoMetadataStatus(emailText: Option<string>, finding: Finding)
    requires finding.metadata.None?
    ensures DisplayText(emailText, finding) == Some(JsText(emailText) + StatusBlock)
  {
  }

  /** With search metadata, the rendered text lists the queries joined by ", ". */
  lemma QueriesShown(emailText: Option<string>, finding: Finding)
    requires finding.metadata.Some? && finding.metadata.value.webSearchQueries.Some? && finding.companyInfo.Some?
    ensures DisplayText(emailText, finding).Some?
    ensures Contains(DisplayText(emailText, finding).value, Join(finding.metadata.value.webSearchQueries.value, ", "))
  {
    var head := JsText(emailText) + ResultsHeader;
    var pre, joined := SearchMarker + " Search queries used: ", Join(finding.metadata.value.webSearchQueries.value, ", ");
    var rest := InfoLine(finding.companyInfo.value) + SourcesList(finding.sources);
    InfixWithin(head, pre, joined, "\n", rest);
    Assoc(head + QueriesLine(finding.metadata.value.webSearchQueries.value), InfoLine(finding.companyInfo.value),
          SourcesList(finding.sources));
  }

  /** With search metadata, the rendered text shows at most the first 200 characters of `companyInfo`, then "...". */
  lemma PreviewShown(emailText: Option<string>, finding: Finding)
    requires finding.metadata.Some? && finding.metadata.value.webSearchQueries.Some? && finding.companyInfo.Some?
    ensures DisplayText(emailText, finding).Some?
    ensures Contains(DisplayText(emailText, finding).value, Prefix(finding.companyInfo.value, InfoPreviewLength) + "...\n")
  {
    var head := JsText(emailText) + ResultsHeader + QueriesLine(finding.metadata.value.webSearchQueries.value);
    var caption, preview := BooksMarker + " Company info found: ", Prefix(finding.companyInfo.value, InfoPreviewLength);
    InfixAfter(head, caption, preview + "...\n", SourcesList(finding.sources));
    Assoc(caption, preview, "...\n");
  }

  /** With search metadata and sources, the line of every source is rendered, numbered from 1 in source order. */
  lemma SourcesRendered(emailText: Option<string>, finding: Finding, k: nat)
    requires finding.metadata.Some? && finding.metadata.value.webSearchQueries.Some? && finding.companyInfo.Some?
    requires k < |finding.sources|
    ensures DisplayText(emailText, finding).Some?
    ensures Contains(DisplayText(emailText, finding).value, SourceLine(k + 1, finding.sources[k]))
  {
    var sources := finding.sources;
    var text := DisplayText(emailText, finding).value;
    var diagnostics := JsText(emailText) + ResultsHeader + QueriesLine(finding.metadata.value.webSearchQueries.value)
                       + InfoLine(finding.companyInfo.value);
    assert text == diagnostics + (SourcesHeader + SourceLines(sources, 1));
    SourceNumbered(sources, k);
    var before, line, after := SourceLines(sources[..k], 1), SourceLine(k + 1, sources[k]), SourceLines(sources[k + 1..], k + 2);
    InfixInMiddle(before, line, after);
    Assoc(diagnostics, SourcesHeader, SourceLines(sources, 1));
    InfixExtend(diagnostics + SourcesHeader, SourceLines(sources, 1), "", line, |before|);
    assert text == diagnostics + SourcesHeader + SourceLines(sources, 1) + "";
  }

  /** With metadata but no queries list, or no text for `companyInfo`, building the text throws. */
  lemma DiagnosticsThrow(emailText: Option<string>, finding: Finding)
    requires finding.metadata.Some?
    requires finding.metadata.value.webSearchQueries.None? || finding.companyInfo.None?
    ensures DisplayText(emailText, finding).None?
  {
  }
}
