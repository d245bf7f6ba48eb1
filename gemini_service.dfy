/** The response adapter (services/geminiService.ts): cutting the JSON payload
    out of the model's markdown reply, the empty-list fallback when it does not
    parse, the citation list built from the grounding metadata, and the fetch
    procedure that ties them together. The SDK call and `JSON.parse` are
    inputs: the outcome of the request, and a partial parser. */
module GeminiService {
  import opened Wrappers
  import opened Seqs
  import opened Types

  // ---------------------------------------------------------------------
  // extractJson: the regular expression /```json\s*([\s\S]*?)\s*```/
  // ---------------------------------------------------------------------

  /** JavaScript's `\s`: the ASCII white space, no-break space and the
      Unicode space separators, line and paragraph separators and the BOM. */
  predicate IsSpace(c: char) {
    || c == ' ' || c == '\t' || c == '\n' || c == '\r'
    || c == '\U{000B}' || c == '\U{000C}' || c == '\U{00A0}' || c == '\U{1680}'
    || ('\U{2000}' <= c <= '\U{200A}')
    || c == '\U{2028}' || c == '\U{2029}' || c == '\U{202F}' || c == '\U{205F}'
    || c == '\U{3000}' || c == '\U{FEFF}'
  }

  const Opener: string := "```json"
  const Closer: string := "```"

  /** `pat` occurs in `text` starting at index `k`. */
  predicate OccursAt(text: string, pat: string, k: nat) {
    k + |pat| <= |text| && text[k..k + |pat|] == pat
  }

  /** Every character of `text[from..to]` is white space. */
  ghost predicate AllSpace(text: string, from: nat, to: nat)
    requires from <= to <= |text|
  {
    forall m :: from <= m < to ==> IsSpace(text[m])
  }

  /** The first occurrence of `pat` at or after index `k`. */
  function IndexFrom(text: string, pat: string, k: nat): (r: Option<nat>)
    ensures r.Some? ==> k <= r.value && OccursAt(text, pat, r.value)
    ensures r.Some? ==> forall m :: k <= m < r.value ==> !OccursAt(text, pat, m)
    ensures r.None? ==> forall m :: k <= m ==> !OccursAt(text, pat, m)
    decreases |text| - k
  {
    if k + |pat| > |text| then None
    else if text[k..k + |pat|] == pat then Some(k)
    else IndexFrom(text, pat, k + 1)
  }

  /** The index of the first non-space character at or after `k` (a greedy `\s*`). */
  function SkipSpace(text: string, k: nat): (r: nat)
    requires k <= |text|
    ensures k <= r <= |text|
    ensures forall m :: k <= m < r ==> IsSpace(text[m])
    ensures r == |text| || !IsSpace(text[r])
    decreases |text| - k
  {
    if k < |text| && IsSpace(text[k]) then SkipSpace(text, k + 1) else k
  }

  /** `s` without its trailing white space. */
  function TrimEnd(s: string): (r: string)
    ensures |r| <= |s| && r == s[..|r|]
    ensures forall m :: |r| <= m < |s| ==> IsSpace(s[m])
    ensures r == [] || !IsSpace(r[|r| - 1])
  {
    if s != [] && IsSpace(s[|s| - 1]) then TrimEnd(s[..|s| - 1]) else s
  }

  /** extractJson: the first capture group of the fence pattern when it
      matches, the whole text otherwise. The pattern can only match at the
      first occurrence of "```json" (two occurrences cannot overlap, and a
      later one would leave an earlier one a closing fence); its first `\s*`
      takes all the white space after the opener, the lazy group then runs to
      the first "```" after that, and the second `\s*` gives back the group's
      trailing white space. */
  function ExtractJson(text: string): string {
    match IndexFrom(text, Opener, 0)
    case None => text
    case Some(i) =>
      var a := SkipSpace(text, i + |Opener|);
      match IndexFrom(text, Closer, a)
      case None => text
      case Some(c) => TrimEnd(text[a..c])
  }

  /** The fence pattern matches `text` starting at `i`, with the capture
      group `text[a..b]` and the closing fence at `c`: "```json", white space,
      the group, white space, "```". */
  ghost predicate FenceMatch(text: string, i: nat, a: nat, b: nat, c: nat) {
    && OccursAt(text, Opener, i)
    && i + |Opener| <= a <= b <= c
    && OccursAt(text, Closer, c)
    && AllSpace(text, i + |Opener|, a)
    && AllSpace(text, b, c)
  }

  ghost predicate NoFence(text: string) {
    forall i: nat, a: nat, b: nat, c: nat :: !FenceMatch(text, i, a, b, c)
  }

  /** The match a backtracking engine reports: the leftmost start, then the
      longest first `\s*`, then the shortest (lazy) group. */
  ghost predicate PreferredMatch(text: string, i: nat, a: nat, b: nat, c: nat) {
    && FenceMatch(text, i, a, b, c)
    && forall i': nat, a': nat, b': nat, c': nat :: FenceMatch(text, i', a', b', c') ==>
         i < i' || (i == i' && (a' < a || (a' == a && b <= b')))
  }

  /** Without a "```json" there is no match. */
  lemma NoOpenerNoFence(text: string)
    requires IndexFrom(text, Opener, 0).None?
    ensures NoFence(text)
  {
    forall i: nat, a: nat, b: nat, c: nat ensures !FenceMatch(text, i, a, b, c) { }
  }

  /** Without a "```" after the first "```json" and its white space there is
      no match: an earlier "```" would sit inside that white space. */
  lemma NoCloserNoFence(text: string, i: nat)
    requires IndexFrom(text, Opener, 0) == Some(i)
    requires IndexFrom(text, Closer, SkipSpace(text, i + |Opener|)).None?
    ensures NoFence(text)
  {
    var a := SkipSpace(text, i + |Opener|);
    forall i': nat, a': nat, b': nat, c': nat ensures !FenceMatch(text, i', a', b', c') {
      if i + |Opener| <= c' < a {
        assert IsSpace(text[c']);
      }
    }
  }

  /** The last character of the trimmed group is not white space. */
  lemma TrimmedGroupEndsInText(text: string, a: nat, c: nat)
    requires a <= c <= |text|
    ensures var b := a + |TrimEnd(text[a..c])|;
      b <= c && (a < b ==> !IsSpace(text[b - 1]))
  {
    var t := TrimEnd(text[a..c]);
    if t != [] {
      assert text[a + |t| - 1] == t[|t| - 1];
    }
  }

  /** The trimmed group is the slice of the text it was trimmed from. */
  lemma TrimmedGroupIsSlice(text: string, a: nat, c: nat)
    requires a <= c <= |text|
    ensures TrimEnd(text[a..c]) == text[a..a + |TrimEnd(text[a..c])|]
  {
    var t := TrimEnd(text[a..c]);
    assert text[a..c][..|t|] == text[a..a + |t|];
  }

  /** What ExtractJson finds is a match of the pattern. */
  lemma FoundGroupMatches(text: string, i: nat, c: nat)
    requires IndexFrom(text, Opener, 0) == Some(i)
    requires IndexFrom(text, Closer, SkipSpace(text, i + |Opener|)) == Some(c)
    ensures var a := SkipSpace(text, i + |Opener|);
      FenceMatch(text, i, a, a + |TrimEnd(text[a..c])|, c)
  {
    var a := SkipSpace(text, i + |Opener|);
    var b := a + |TrimEnd(text[a..c])|;
    forall m | b <= m < c ensures IsSpace(text[m]) {
      assert text[m] == text[a..c][m - a];
    }
  }

  /** ...no other match is preferred to it... */
  lemma FoundGroupBeats(text: string, i: nat, c: nat, i': nat, a': nat, b': nat, c': nat)
    requires IndexFrom(text, Opener, 0) == Some(i)
    requires IndexFrom(text, Closer, SkipSpace(text, i + |Opener|)) == Some(c)
    requires FenceMatch(text, i', a', b', c')
    ensures var a := SkipSpace(text, i + |Opener|);
      var b := a + |TrimEnd(text[a..c])|;
      i < i' || (i == i' && (a' < a || (a' == a && b <= b')))
  {
    var a := SkipSpace(text, i + |Opener|);
    TrimmedGroupEndsInText(text, a, c);
  }

  /** ...and it is the match the engine prefers... */
  lemma FoundGroupIsPreferred(text: string, i: nat, c: nat)
    requires IndexFrom(text, Opener, 0) == Some(i)
    requires IndexFrom(text, Closer, SkipSpace(text, i + |Opener|)) == Some(c)
    ensures var a := SkipSpace(text, i + |Opener|);
      var b := a + |TrimEnd(text[a..c])|;
      PreferredMatch(text, i, a, b, c)
  {
    var a := SkipSpace(text, i + |Opener|);
    var b := a + |TrimEnd(text[a..c])|;
    FoundGroupMatches(text, i, c);
    forall i': nat, a': nat, b': nat, c': nat
      ensures FenceMatch(text, i', a', b', c') ==>
                i < i' || (i == i' && (a' < a || (a' == a && b <= b')))
    {
      if FenceMatch(text, i', a', b', c') {
        FoundGroupBeats(text, i, c, i', a', b', c');
      }
    }
  }

  /** ...whose capture group is what ExtractJson returns. */
  lemma FoundGroupIsResult(text: string, i: nat, c: nat)
    requires IndexFrom(text, Opener, 0) == Some(i)
    requires IndexFrom(text, Closer, SkipSpace(text, i + |Opener|)) == Some(c)
    ensures var a := SkipSpace(text, i + |Opener|);
      ExtractJson(text) == text[a..a + |TrimEnd(text[a..c])|]
  {
    var a := SkipSpace(text, i + |Opener|);
    assert ExtractJson(text) == TrimEnd(text[a..c]);
    TrimmedGroupIsSlice(text, a, c);
  }

  /** ExtractJson against the regular expression: with no match it returns
      the text unchanged, and otherwise it returns the capture group of the
      match the engine prefers. */
  lemma ExtractJsonFollowsPattern(text: string)
    ensures NoFence(text) ==> ExtractJson(text) == text
    ensures !NoFence(text) ==>
      exists i: nat, a: nat, b: nat, c: nat :: PreferredMatch(text, i, a, b, c) && ExtractJson(text) == text[a..b]
  {
    match IndexFrom(text, Opener, 0)
    case None =>
      NoOpenerNoFence(text);
    case Some(i) =>
      var a := SkipSpace(text, i + |Opener|);
      match IndexFrom(text, Closer, a)
      case None =>
        NoCloserNoFence(text, i);
      case Some(c) =>
        var b := a + |TrimEnd(text[a..c])|;
        FoundGroupIsPreferred(text, i, c);
        FoundGroupIsResult(text, i, c);
        assert FenceMatch(text, i, a, b, c);
  }

  /** A closing fence inside a group would end a shorter match. */
  lemma CloserInGroupEndsMatch(text: string, i: nat, a: nat, b: nat, c: nat, m: nat)
    requires FenceMatch(text, i, a, b, c)
    ensures OccursAt(text[a..b], Closer, m) ==> FenceMatch(text, i, a, a + m, a + m)
  {
    if OccursAt(text[a..b], Closer, m) {
      forall k | 0 <= k < |Closer| ensures text[a + m + k] == Closer[k] {
        assert text[a..b][m..m + |Closer|][k] == text[a + m + k];
      }
      assert text[a + m..a + m + |Closer|] == Closer;
    }
  }

  /** White space at either end of a group would let a longer first `\s*`
      or a shorter group match. */
  lemma SpaceAtGroupEndsMatches(text: string, i: nat, a: nat, b: nat, c: nat)
    requires FenceMatch(text, i, a, b, c)
    ensures a < b && IsSpace(text[a]) ==> FenceMatch(text, i, a + 1, b, c)
    ensures a < b && IsSpace(text[b - 1]) ==> FenceMatch(text, i, a, b - 1, c)
  {
  }

  /** What the pattern's preference order implies about a captured group: it
      holds no closing fence and neither starts nor ends with white space
      (otherwise a longer first `\s*` or a shorter group would also match). */
  lemma {:induction false} ExtractedBodyShape(text: string)
    requires !NoFence(text)
    ensures forall m :: !OccursAt(ExtractJson(text), Closer, m)
    ensures var body := ExtractJson(text);
      body == [] || (!IsSpace(body[0]) && !IsSpace(body[|body| - 1]))
  {
    ExtractJsonFollowsPattern(text);
    var i: nat, a: nat, b: nat, c: nat :| PreferredMatch(text, i, a, b, c) && ExtractJson(text) == text[a..b];
    forall m: nat ensures !OccursAt(text[a..b], Closer, m) {
      CloserInGroupEndsMatch(text, i, a, b, c, m);
    }
    SpaceAtGroupEndsMatches(text, i, a, b, c);
  }

  lemma OpenerStartsWithCloser(s: string, i: nat)
    requires OccursAt(s, Opener, i)
    ensures OccursAt(s, Closer, i)
  {
    assert s[i..i + |Closer|] == s[i..i + |Opener|][..|Closer|];
  }

  /** extractJson is idempotent: a captured group holds no fence, so a second
      pass finds nothing to cut. */
  lemma {:induction false} ExtractJsonIdempotent(text: string)
    ensures ExtractJson(ExtractJson(text)) == ExtractJson(text)
  {
    ExtractJsonFollowsPattern(text);
    if !NoFence(text) {
      var body := ExtractJson(text);
      ExtractedBodyShape(text);
      forall i: nat, a: nat, b: nat, c: nat ensures !FenceMatch(body, i, a, b, c) {
        if OccursAt(body, Opener, i) {
          OpenerStartsWithCloser(body, i);
        }
      }
      ExtractJsonFollowsPattern(body);
    }
  }

  // ---------------------------------------------------------------------
  // The response as the SDK hands it over, and the citations taken from it
  // ---------------------------------------------------------------------

  /** The parts of an SDK response the adapter reads; every one of them may
      be absent. */
  datatype WebChunk = WebChunk(uri: Option<string>, title: Option<string>)
  datatype GroundingChunk = GroundingChunk(web: Option<WebChunk>)
  datatype GroundingMetadata = GroundingMetadata(groundingChunks: Option<seq<GroundingChunk>>)
  datatype Candidate = Candidate(groundingMetadata: Option<GroundingMetadata>)
  datatype GenerateContentResponse = GenerateContentResponse(
    text: Option<string>,
    candidates: Option<seq<Candidate>>)

  /** JavaScript truthiness of an optional string: present and non-empty. */
  predicate Truthy(s: Option<string>) {
    s.Some? && s.value != ""
  }

  /** `response.text || ""` */
  function ResponseText(response: GenerateContentResponse): string {
    response.text.GetOr("")
  }

  /** `response.candidates?.[0]?.groundingMetadata?.groundingChunks || []` */
  function GroundingChunks(response: GenerateContentResponse): (chunks: seq<GroundingChunk>)
    ensures response.candidates.None? ==> chunks == []
    ensures response.candidates == Some([]) ==> chunks == []
    ensures response.candidates.Some? && |response.candidates.value| > 0 ==>
      var meta := response.candidates.value[0].groundingMetadata;
      chunks == if meta.Some? && meta.value.groundingChunks.Some? then meta.value.groundingChunks.value else []
  {
    match response.candidates
    case None => []
    case Some(cs) =>
      if |cs| == 0 then []
      else match cs[0].groundingMetadata
        case None => []
        case Some(meta) => meta.groundingChunks.GetOr([])
  }

  /** `chunk => chunk.web` */
  function WebOf(chunk: GroundingChunk): Option<WebChunk> {
    chunk.web
  }

  /** `web => web && web.uri && web.title` */
  predicate IsCitable(web: Option<WebChunk>) {
    web.Some? && Truthy(web.value.uri) && Truthy(web.value.title)
  }

  /** `web => ({ title: web.title, uri: web.uri })`, which only ever sees
      the entries the filter let through. */
  function ToSource(web: Option<WebChunk>): GroundingSource
    requires IsCitable(web)
  {
    GroundingSource(web.value.title.value, web.value.uri.value)
  }

  /** The map/filter/map chain that turns grounding chunks into sources. */
  function Sources(chunks: seq<GroundingChunk>): (sources: seq<GroundingSource>)
    ensures |sources| <= |chunks|
    ensures forall s :: s in sources ==> s.title != "" && s.uri != ""
  {
    var webs := Map(WebOf, chunks);
    var cited := Filter(IsCitable, webs);
    assert forall i :: 0 <= i < |cited| ==> cited[i] in cited;
    var sources := Map(ToSource, cited);
    assert forall s :: s in sources ==> s.title != "" && s.uri != "" by {
      forall s | s in sources ensures s.title != "" && s.uri != "" {
        MapContains(ToSource, cited, s);
      }
    }
    sources
  }

  /** Chunk `chunk` cites source `s`: it has a web entry with that very URI
      and title, both non-empty. */
  predicate Cites(chunk: GroundingChunk, s: GroundingSource) {
    chunk.web == Some(WebChunk(Some(s.uri), Some(s.title))) && s.uri != "" && s.title != ""
  }

  /** `sources` lists, in order, one source for every chunk that has
      something to cite, namely the source it cites; a chunk without a web
      entry, a URI or a title contributes nothing. */
  ghost predicate CitedInOrder(sources: seq<GroundingSource>, chunks: seq<GroundingChunk>)
    decreases |chunks|
  {
    if chunks == [] then sources == []
    else if IsCitable(chunks[0].web) then
      && sources != []
      && Cites(chunks[0], sources[0])
      && CitedInOrder(sources[1..], chunks[1..])
    else CitedInOrder(sources, chunks[1..])
  }

  /** At most one list of sources is cited in order by the chunks. */
  lemma {:induction false} CitedInOrderDetermines(
    sources: seq<GroundingSource>, others: seq<GroundingSource>, chunks: seq<GroundingChunk>)
    requires CitedInOrder(sources, chunks) && CitedInOrder(others, chunks)
    ensures sources == others
    decreases |chunks|
  {
    if chunks != [] {
      if IsCitable(chunks[0].web) {
        CitedInOrderDetermines(sources[1..], others[1..], chunks[1..]);
        assert sources == [sources[0]] + sources[1..];
        assert others == [others[0]] + others[1..];
      } else {
        CitedInOrderDetermines(sources, others, chunks[1..]);
      }
    }
  }

  lemma CitesIsCitable(chunk: GroundingChunk, s: GroundingSource)
    ensures Cites(chunk, s) <==> IsCitable(chunk.web) && ToSource(chunk.web) == s
  {
  }

  /** The sources are, in the chunks' order, the sources the citable chunks
      cite: one per such chunk, so a source cited twice is listed twice. */
  lemma {:induction false} SourcesInOrder(chunks: seq<GroundingChunk>)
    ensures CitedInOrder(Sources(chunks), chunks)
    decreases |chunks|
  {
    if chunks != [] {
      var c := chunks[0];
      SourcesInOrder(chunks[1..]);
      assert Map(WebOf, chunks) == [c.web] + Map(WebOf, chunks[1..]);
      assert Map(WebOf, chunks)[1..] == Map(WebOf, chunks[1..]);
      if IsCitable(c.web) {
        CitesIsCitable(c, ToSource(c.web));
        assert Sources(chunks) == [ToSource(c.web)] + Sources(chunks[1..]);
      } else {
        assert Sources(chunks) == Sources(chunks[1..]);
      }
    }
  }

  /** A source is listed exactly when some grounding chunk cites it: chunks
      without a web entry, a URI or a title are the only ones dropped. */
  lemma {:induction false} SourcesAreTheCitations(chunks: seq<GroundingChunk>, s: GroundingSource)
    ensures s in Sources(chunks) <==> exists i :: 0 <= i < |chunks| && Cites(chunks[i], s)
  {
    var webs := Map(WebOf, chunks);
    var cited := Filter(IsCitable, webs);
    MapContains(ToSource, cited, s);
    if s in Sources(chunks) {
      var k :| 0 <= k < |cited| && ToSource(cited[k]) == s;
      FilterKeepsExactly(IsCitable, webs, cited[k]);
      MapContains(WebOf, chunks, cited[k]);
      var i :| 0 <= i < |chunks| && WebOf(chunks[i]) == cited[k];
      CitesIsCitable(chunks[i], s);
    }
    if i :| 0 <= i < |chunks| && Cites(chunks[i], s) {
      CitesIsCitable(chunks[i], s);
      assert webs[i] == chunks[i].web;
      FilterKeepsExactly(IsCitable, webs, chunks[i].web);
      var k :| 0 <= k < |cited| && cited[k] == chunks[i].web;
      assert Sources(chunks)[k] == s;
    }
  }

  // ---------------------------------------------------------------------
  // fetchPromotions
  // ---------------------------------------------------------------------

  /** Why a fetch rejects: no API key ("API Key is missing. Please check
      your environment variables."), or the error the SDK request failed
      with, passed on unchanged. The dashboard shows neither message. */
  datatype FetchError = MissingApiKey | RequestFailed(cause: string)

  /** fetchPromotions, as one sequential step. The API key from the
      environment, the settled SDK request (a response, or the error it was
      rejected with), `JSON.parse` (a partial parser: `None` where it would
      throw) and the clock reading for `new Date()` are inputs. */
  method FetchPromotions(
    apiKey: Option<string>,
    request: Result<GenerateContentResponse, string>,
    parse: string -> Option<seq<Promotion>>,
    now: Timestamp)
    returns (result: Result<PromoDataState, FetchError>)
    // A missing or empty key fails before the request is consulted.
    ensures !Truthy(apiKey) ==> result == Failure(MissingApiKey)
    // A failed request is re-thrown as it is.
    ensures Truthy(apiKey) && request.Failure? ==> result == Failure(RequestFailed(request.error))
    // A response always gives a state: a parse failure never escapes.
    ensures Truthy(apiKey) && request.Success? ==> result.Success?
    ensures result.Success? ==>
      && request.Success?
      && var parsed := parse(ExtractJson(ResponseText(request.value)));
      && (parsed.None? ==> result.value.promotions == [])
      && (parsed.Some? ==> result.value.promotions == parsed.value)
      && result.value.sources == Sources(GroundingChunks(request.value))
      && result.value.lastUpdated == Some(now)
  {
    if !Truthy(apiKey) {
      return Failure(MissingApiKey);
    }
    match request
    case Failure(cause) =>
      result := Failure(RequestFailed(cause));
    case Success(response) =>
      var text := ResponseText(response);
      var jsonString := ExtractJson(text);
      var promotions: seq<Promotion> := [];
      var parsed := parse(jsonString);
      if parsed.Some? {
        promotions := parsed.value;
      }
      var sources := Sources(GroundingChunks(response));
      result := Success(PromoDataState(promotions, sources, Some(now)));
  }
}
