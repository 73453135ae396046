/**
 * The search stage's extraction (app.js:222-244): `companyInfo` from the
 * first part of the first candidate, `searchMetadata` from that candidate,
 * and `sourceUrls`, one `{url, title}` entry pushed per grounding chunk that
 * has a web URI, in chunk order and without de-duplication.
 */
module Extraction {
  import opened Wrappers
  import opened Gemini

  const NoInfo := "No recent information found."
  const DefaultTitle := "Source"

  datatype Source = Source(url: string, title: string)

  /**
   * What the search stage hands to the email stage. `companyInfo` is `None`
   * when the first part has no text (JavaScript's `undefined`).
   */
  datatype Finding = Finding(companyInfo: Option<string>, metadata: Option<GroundingMetadata>, sources: seq<Source>)

  /** The chunk carries a web reference whose URI is present and non-empty (a truthy `uri`). */
  predicate HasUri(c: Chunk) {
    c.web.Some? && c.web.value.uri.Some? && c.web.value.uri.value != ""
  }

  /** The chunk's title when it is present and non-empty, otherwise the default title. */
  function TitleOf(w: Web): string {
    if w.title.Some? && w.title.value != "" then w.title.value else DefaultTitle
  }

  function SourceOf(c: Chunk): Source
    requires HasUri(c)
  {
    Source(c.web.value.uri.value, TitleOf(c.web.value))
  }

  /** The reference for `sourceUrls`: what the pushes leave after visiting `chunks` in order. */
  function Sources(chunks: seq<Chunk>): seq<Source> {
    if chunks == [] then []
    else
      var last := chunks[|chunks| - 1];
      Sources(chunks[..|chunks| - 1]) + (if HasUri(last) then [SourceOf(last)] else [])
  }

  /** How many chunks carry a web URI, counted from the front. */
  function CountWithUri(chunks: seq<Chunk>): nat {
    if chunks == [] then 0 else (if HasUri(chunks[0]) then 1 else 0) + CountWithUri(chunks[1..])
  }

  /** The reference for the whole extraction. */
  function Extract(data: GenerateResponse): Finding {
    match FirstCandidate(data)
    case None => Finding(Some(NoInfo), None, [])
    case Some(c) =>
      var info := match FirstPart(c) case Some(p) => p.text case None => Some(NoInfo);
      var sources :=
        match c.groundingMetadata
        case Some(GroundingMetadata(_, Some(chunks))) => Sources(chunks)
        case _ => [];
      Finding(info, c.groundingMetadata, sources)
  }

  /** The extraction as app.js runs it: reassigned locals and a `forEach` that pushes. */
  method ExtractFinding(data: GenerateResponse) returns (finding: Finding)
    ensures finding == Extract(data)
  {
    var companyInfo: Option<string> := Some(NoInfo);
    var searchMetadata: Option<GroundingMetadata> := None;
    var sourceUrls: seq<Source> := [];
    if data.candidates.Some? && |data.candidates.value| > 0 {
      var searchCandidate := data.candidates.value[0];
      if searchCandidate.content.Some? && searchCandidate.content.value.parts.Some?
         && |searchCandidate.content.value.parts.value| > 0
      {
        companyInfo := searchCandidate.content.value.parts.value[0].text;
      }
      searchMetadata := searchCandidate.groundingMetadata;
      if searchMetadata.Some? && searchMetadata.value.groundingChunks.Some? {
        var chunks := searchMetadata.value.groundingChunks.value;
        for i := 0 to |chunks|
          invariant sourceUrls == Sources(chunks[..i])
        {
          var chunk := chunks[i];
          assert chunks[..i + 1][..i] == chunks[..i];
          if chunk.web.Some? && chunk.web.value.uri.Some? && chunk.web.value.uri.value != "" {
            var title := if chunk.web.value.title.Some? && chunk.web.value.title.value != ""
                         then chunk.web.value.title.value else "Source";
            sourceUrls := sourceUrls + [Source(chunk.web.value.uri.value, title)];
          }
        }
        assert chunks[..|chunks|] == chunks;
      }
    }
    finding := Finding(companyInfo, searchMetadata, sourceUrls);
  }

  /* ---------------- Properties ---------------- */

  /**
   * `companyInfo` is the sentinel unless the first candidate has a first
   * part, in which case it is that part's text.
   */
  lemma CompanyInfoDefault(data: GenerateResponse)
    ensures var hasPart := data.candidates.Some? && |data.candidates.value| > 0
              && data.candidates.value[0].content.Some? && data.candidates.value[0].content.value.parts.Some?
              && |data.candidates.value[0].content.value.parts.value| > 0;
      Extract(data).companyInfo
        == if hasPart then data.candidates.value[0].content.value.parts.value[0].text else Some(NoInfo)
  {
  }

  /** Visiting chunks in two runs pushes the first run's entries, then the second's. */
  lemma {:induction false} SourcesAppend(a: seq<Chunk>, b: seq<Chunk>)
    ensures Sources(a + b) == Sources(a) + Sources(b)
    decreases |b|
  {
    if b == [] {
      assert a + b == a;
    } else {
      assert (a + b)[..|a + b| - 1] == a + b[..|b| - 1];
      SourcesAppend(a, b[..|b| - 1]);
    }
  }

  /** Exactly one entry per chunk with a web URI: nothing is de-duplicated. */
  lemma {:induction false} OneSourcePerChunk(chunks: seq<Chunk>)
    ensures |Sources(chunks)| == CountWithUri(chunks)
    decreases |chunks|
  {
    if chunks != [] {
      assert chunks == [chunks[0]] + chunks[1..];
      SourcesAppend([chunks[0]], chunks[1..]);
      assert [chunks[0]][..0] == [];
      OneSourcePerChunk(chunks[1..]);
    }
  }

  /**
   * A chunk with a web URI yields the entry whose index is the number of
   * such chunks before it, with that URI and with its title or 'Source'.
   */
  lemma SourceForChunk(chunks: seq<Chunk>, i: nat)
    requires i < |chunks| && HasUri(chunks[i])
    ensures var k := |Sources(chunks[..i])|;
      && k < |Sources(chunks)|
      && Sources(chunks)[k].url == chunks[i].web.value.uri.value
      && Sources(chunks)[k].title
           == (if chunks[i].web.value.title.Some? && chunks[i].web.value.title.value != ""
               then chunks[i].web.value.title.value else "Source")
  {
    assert chunks == chunks[..i + 1] + chunks[i + 1..];
    SourcesAppend(chunks[..i + 1], chunks[i + 1..]);
    assert chunks[..i + 1][..i] == chunks[..i];
  }

  /** Every entry comes from a chunk with a web URI, at the position its chunk order gives it. */
  lemma {:induction false} SourceFromChunk(chunks: seq<Chunk>, k: nat)
    requires k < |Sources(chunks)|
    ensures exists i :: 0 <= i < |chunks| && HasUri(chunks[i]) && |Sources(chunks[..i])| == k
                        && Sources(chunks)[k] == SourceOf(chunks[i])
    decreases |chunks|
  {
    var n := |chunks| - 1;
    var init := chunks[..n];
    assert chunks[..n] == init;
    if k < |Sources(init)| {
      SourceFromChunk(init, k);
      var i :| 0 <= i < |init| && HasUri(init[i]) && |Sources(init[..i])| == k && Sources(init)[k] == SourceOf(init[i]);
      assert init[..i] == chunks[..i];
      assert chunks[i] == init[i];
    } else {
      assert HasUri(chunks[n]) && Sources(chunks)[k] == SourceOf(chunks[n]);
    }
  }

  /**
   * Any two chunks with a web URI, whatever their URIs, give two distinct
   * entries, in chunk order, each built from its own chunk: a repeated URI is
   * listed twice.
   */
  lemma TwoChunksTwoEntries(chunks: seq<Chunk>, i: nat, j: nat)
    requires i < j < |chunks| && HasUri(chunks[i]) && HasUri(chunks[j])
    ensures var ki, kj := |Sources(chunks[..i])|, |Sources(chunks[..j])|;
      && ki < kj < |Sources(chunks)|
      && Sources(chunks)[ki] == SourceOf(chunks[i])
      && Sources(chunks)[kj] == SourceOf(chunks[j])
  {
    SourceForChunk(chunks, i);
    SourceForChunk(chunks, j);
    assert chunks[..j] == chunks[..i + 1] + chunks[i + 1..j];
    SourcesAppend(chunks[..i + 1], chunks[i + 1..j]);
    assert chunks[..i + 1] == chunks[..i] + [chunks[i]];
    SourcesAppend(chunks[..i], [chunks[i]]);
    assert [chunks[i]][..0] == [];
  }

  /** An example: two chunks with the same URI give two entries, each keeping its own title. */
  lemma DuplicatesKept()
    ensures var chunks := [Chunk(Some(Web(Some("http://a.com"), Some("A")))),
                           Chunk(Some(Web(Some("http://a.com"), Some("A-dup"))))];
      Sources(chunks) == [Source("http://a.com", "A"), Source("http://a.com", "A-dup")]
  {
    var chunks := [Chunk(Some(Web(Some("http://a.com"), Some("A")))),
                   Chunk(Some(Web(Some("http://a.com"), Some("A-dup"))))];
    assert chunks[..1][..0] == [];
    assert chunks[..1] == [chunks[0]];
  }
}
