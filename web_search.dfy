/** The search aggregator: an ordered chain of three network-backed tiers
    and a terminal fallback. The requests themselves are not modelled; what
    each tier's request ended in is an input (`Outcome`), and every tier turns
    that into a `SearchResponse` or declines. */
module WebSearch {
  import opened Wrappers
  import opened Strings
  import opened UriEncoding

  // ---------------------------------------------------------------------------
  // The shapes handed to the rest of the application

  datatype SearchResult = SearchResult(title: string, link: string, snippet: string, source: Option<string>)

  /** An attribute pair `{ label, value }` (`label` is a Dafny keyword); either
      field may be missing from the provider's JSON. */
  datatype Attribute = Attribute(name: Option<string>, value: Option<string>)

  /** A knowledge-graph entry as the primary provider reports it; any of its
      fields may be missing. */
  datatype KnowledgeGraph = KnowledgeGraph(
    title: Option<string>,
    description: Option<string>,
    attributes: Option<seq<Attribute>>)

  datatype SearchResponse = SearchResponse(
    results: seq<SearchResult>,
    searchQuery: string,
    totalResults: Option<int>,
    knowledgeGraph: Option<KnowledgeGraph>,
    peopleAlsoAsk: Option<seq<string>>,
    relatedSearches: Option<seq<string>>)

  // ---------------------------------------------------------------------------
  // What a tier's request can end in

  /** The request or the body parse threw, the status was not ok, or the
      status was ok and the body was read. */
  datatype Outcome<T> = Failed | NotOk | Ok(body: T)

  datatype OrganicResult = OrganicResult(
    title: Option<string>,
    link: Option<string>,
    snippet: Option<string>,
    displayedLink: Option<string>)

  /** The body of the primary structured search: `organic_results`,
      `search_information.total_results`, `knowledge_graph`, the `question` of
      each `people_also_ask` item and the `query` of each `related_searches`
      item. */
  datatype PrimaryBody = PrimaryBody(
    organicResults: Option<seq<OrganicResult>>,
    reportedTotal: Option<int>,
    knowledgeGraph: Option<KnowledgeGraph>,
    questions: Option<seq<Option<string>>>,
    relatedQueries: Option<seq<Option<string>>>)

  /** One entry of the instant-answer `RelatedTopics` array. */
  datatype Topic = Topic(text: Option<string>, firstURL: Option<string>)

  /** The instant-answer body; `relatedTopics` is `None` when the field is
      missing or is not an array. */
  datatype InstantBody = InstantBody(
    heading: Option<string>,
    abstractText: Option<string>,
    abstractURL: Option<string>,
    relatedTopics: Option<seq<Topic>>)

  /** The encyclopedia summary body: `title`, `extract` and
      `content_urls.desktop.page`. */
  datatype SummaryBody = SummaryBody(title: Option<string>, extract: Option<string>, pageURL: Option<string>)

  /** A JavaScript string field is truthy when it is present and not empty. */
  predicate Truthy(o: Option<string>) {
    o.Some? && o.value != ""
  }

  /** `o || default`. */
  function OrElse(o: Option<string>, default: string): string {
    if Truthy(o) then o.value else default
  }

  // ---------------------------------------------------------------------------
  // Tier 1: the primary structured search

  function NormaliseOrganic(r: OrganicResult): SearchResult {
    SearchResult(OrElse(r.title, ""), OrElse(r.link, ""), OrElse(r.snippet, ""), Some(OrElse(r.displayedLink, "")))
  }

  /** `organic_results.map(...)`: one result per organic entry, in order, a
      missing title, link, snippet or displayed link becoming `''`. */
  function OrganicResults(rs: seq<OrganicResult>): (out: seq<SearchResult>)
    ensures |out| == |rs|
    ensures forall i :: 0 <= i < |rs| ==>
      && out[i].title == OrElse(rs[i].title, "")
      && out[i].link == OrElse(rs[i].link, "")
      && out[i].snippet == OrElse(rs[i].snippet, "")
      && out[i].source == Some(OrElse(rs[i].displayedLink, ""))
  {
    seq(|rs|, i requires 0 <= i < |rs| => NormaliseOrganic(rs[i]))
  }

  /** `.filter(Boolean)` over a list of optional strings: the present,
      non-empty strings, in their order. */
  function TruthyStrings(qs: seq<Option<string>>): (r: seq<string>)
    ensures |r| <= |qs|
    ensures forall s :: s in r ==> s != "" && Some(s) in qs
    ensures forall i :: 0 <= i < |qs| && Truthy(qs[i]) ==> qs[i].value in r
  {
    if qs == [] then []
    else
      var rest := TruthyStrings(qs[1..]);
      assert forall i :: 1 <= i < |qs| ==> qs[i] == qs[1..][i - 1];
      (if Truthy(qs[0]) then [qs[0].value] else []) + rest
  }

  /** Filtering keeps order: it distributes over concatenation. */
  lemma {:induction false} TruthyStringsAppend(a: seq<Option<string>>, b: seq<Option<string>>)
    ensures TruthyStrings(a + b) == TruthyStrings(a) + TruthyStrings(b)
  {
    if a == [] {
      assert a + b == b;
    } else {
      var head := if Truthy(a[0]) then [a[0].value] else [];
      assert (a + b)[0] == a[0] && (a + b)[1..] == a[1..] + b;
      TruthyStringsAppend(a[1..], b);
      assert TruthyStrings(a + b) == head + TruthyStrings(a[1..] + b);
      assert TruthyStrings(a) == head + TruthyStrings(a[1..]);
    }
  }

  /** `total_results || organic_results.length`. */
  function PrimaryTotal(organic: seq<OrganicResult>, reported: Option<int>): int {
    if reported.Some? && reported.value != 0 then reported.value else |organic|
  }

  /** Tier 1 is accepted exactly when the status is ok and `organic_results`
      is a non-empty list; it then maps the organic results one to one and
      keeps the knowledge graph and the truthy follow-up questions. */
  function PrimaryTier(query: string, outcome: Outcome<PrimaryBody>): (r: Option<SearchResponse>)
    ensures r.Some? <==>
      outcome.Ok? && outcome.body.organicResults.Some? && |outcome.body.organicResults.value| > 0
    ensures r.Some? ==>
      var b, resp := outcome.body, r.value;
      var organic := b.organicResults.value;
      && resp.searchQuery == query
      && resp.results == OrganicResults(organic)
      && resp.totalResults == Some(if b.reportedTotal.Some? && b.reportedTotal.value != 0
                                   then b.reportedTotal.value else |organic|)
      && resp.knowledgeGraph == b.knowledgeGraph
      && resp.peopleAlsoAsk == Some(TruthyStrings(b.questions.GetOr([])))
      && resp.relatedSearches == Some(TruthyStrings(b.relatedQueries.GetOr([])))
  {
    match outcome
    case Ok(b) =>
      if b.organicResults.Some? && |b.organicResults.value| > 0 then
        var organic := b.organicResults.value;
        Some(SearchResponse(
          OrganicResults(organic),
          query,
          Some(PrimaryTotal(organic, b.reportedTotal)),
          b.knowledgeGraph,
          Some(TruthyStrings(b.questions.GetOr([]))),
          Some(TruthyStrings(b.relatedQueries.GetOr([])))))
      else None
    case _ => None
  }

  // ---------------------------------------------------------------------------
  // Tier 2: the instant-answer service

  const InstantLabel := "DuckDuckGo"
  const TopicLimit := 5
  const TitleSeparator := " - "

  /** `text.split(" - ")[0] || text`: the text before the first " - ", or the
      whole text when that part is empty. */
  function TopicTitle(text: string): (title: string)
    ensures IsPrefix(title, text)
    ensures text != "" ==> title != ""
    ensures !Contains(text, TitleSeparator) ==> title == text
    ensures Contains(text, TitleSeparator) && !OccursAt(text, TitleSeparator, 0) ==> title != text
    ensures title != text ==>
      OccursAt(text, TitleSeparator, |title|) &&
      forall i :: 0 <= i < |title| ==> !OccursAt(text, TitleSeparator, i)
  {
    var head := SplitHead(text, TitleSeparator);
    if head == "" then text else head
  }

  /** A related topic is used only when it has both a text and a URL. */
  predicate KeepsTopic(t: Topic) {
    Truthy(t.text) && Truthy(t.firstURL)
  }

  function TopicResult(t: Topic): SearchResult
    requires KeepsTopic(t)
  {
    SearchResult(TopicTitle(t.text.value), t.firstURL.value, t.text.value, Some(InstantLabel))
  }

  /** The results the loop over the related topics pushes: one per kept
      topic, in order. */
  function TopicResults(ts: seq<Topic>): (rs: seq<SearchResult>)
    ensures |rs| <= |ts|
  {
    if ts == [] then []
    else
      var init, last := ts[..|ts| - 1], ts[|ts| - 1];
      TopicResults(init) + (if KeepsTopic(last) then [TopicResult(last)] else [])
  }

  lemma TopicResultsSnoc(ts: seq<Topic>, t: Topic)
    ensures TopicResults(ts + [t]) == TopicResults(ts) + (if KeepsTopic(t) then [TopicResult(t)] else [])
  {
    assert (ts + [t])[..|ts|] == ts;
  }

  /** Each pushed result comes from a kept topic and every kept topic gives
      one; all are labelled with the service's name, titled by the topic's
      text up to " - " and carry the whole text as snippet. */
  lemma {:induction false} TopicResultsMembers(ts: seq<Topic>)
    ensures forall r :: r in TopicResults(ts) ==>
      r.source == Some(InstantLabel) && r.snippet != "" && r.link != "" && r.title == TopicTitle(r.snippet)
    ensures forall r :: r in TopicResults(ts) <==> exists t :: t in ts && KeepsTopic(t) && r == TopicResult(t)
  {
    if ts != [] {
      var init, last := ts[..|ts| - 1], ts[|ts| - 1];
      TopicResultsMembers(init);
      assert ts == init + [last];
    }
  }

  function AbstractResults(b: InstantBody): seq<SearchResult> {
    if Truthy(b.abstractText) then
      [SearchResult(OrElse(b.heading, "Summary"), OrElse(b.abstractURL, ""), b.abstractText.value, Some(InstantLabel))]
    else []
  }

  /** `RelatedTopics.slice(0, 5)`, or nothing when the field is not a list. */
  function FirstTopics(b: InstantBody): (ts: seq<Topic>)
    ensures |ts| <= TopicLimit
    ensures b.relatedTopics.None? ==> ts == []
    ensures b.relatedTopics.Some? ==>
      && |ts| == Min(TopicLimit, |b.relatedTopics.value|)
      && forall i :: 0 <= i < |ts| ==> ts[i] == b.relatedTopics.value[i]
  {
    if b.relatedTopics.Some? then Take(b.relatedTopics.value, TopicLimit) else []
  }

  /** At most six results, all labelled with the service's name: the
      abstract first when there is one, then the kept topics among the first
      five. */
  function InstantResults(b: InstantBody): (rs: seq<SearchResult>)
    ensures |rs| <= TopicLimit + 1
    ensures Truthy(b.abstractText) ==>
      && |rs| >= 1
      && rs[0].snippet == b.abstractText.value
      && rs[0].title == OrElse(b.heading, "Summary")
      && rs[0].link == OrElse(b.abstractURL, "")
      && rs[0].source == Some(InstantLabel)
    ensures !Truthy(b.abstractText) ==> rs == TopicResults(FirstTopics(b))
    ensures rs[|AbstractResults(b)|..] == TopicResults(FirstTopics(b))
  {
    AbstractResults(b) + TopicResults(FirstTopics(b))
  }

  lemma InstantResultsLabelled(b: InstantBody)
    ensures forall r :: r in InstantResults(b) ==> r.source == Some(InstantLabel)
  {
    TopicResultsMembers(FirstTopics(b));
  }

  /** Tier 2 is accepted exactly when the status is ok and it built at least
      one result; `totalResults` is then the number of results. */
  function InstantTier(query: string, outcome: Outcome<InstantBody>): (r: Option<SearchResponse>)
    ensures r.Some? <==> outcome.Ok? && |InstantResults(outcome.body)| > 0
    ensures r.Some? ==>
      var resp := r.value;
      && resp.results == InstantResults(outcome.body)
      && 1 <= |resp.results| <= TopicLimit + 1
      && resp.totalResults == Some(|resp.results|)
      && resp.searchQuery == query
      && resp.knowledgeGraph.None? && resp.peopleAlsoAsk.None? && resp.relatedSearches.None?
  {
    if outcome.Ok? && |InstantResults(outcome.body)| > 0 then
      var results := InstantResults(outcome.body);
      Some(SearchResponse(results, query, Some(|results|), None, None, None))
    else None
  }

  /** The instant-answer tier as the service runs it: a result list that
      grows by `push` in a loop over the first five related topics. */
  method InstantAnswerTier(query: string, outcome: Outcome<InstantBody>) returns (r: Option<SearchResponse>)
    ensures r == InstantTier(query, outcome)
  {
    if !outcome.Ok? {
      return None;
    }
    var body := outcome.body;
    var results: seq<SearchResult> := [];
    if Truthy(body.abstractText) {
      results := results + [SearchResult(OrElse(body.heading, "Summary"), OrElse(body.abstractURL, ""),
                                          body.abstractText.value, Some(InstantLabel))];
    }
    assert results == AbstractResults(body);
    if body.relatedTopics.Some? {
      results := PushTopicResults(results, Take(body.relatedTopics.value, TopicLimit));
    } else {
      assert TopicResults([]) == [];
    }
    assert results == InstantResults(body);
    if |results| > 0 {
      return Some(SearchResponse(results, query, Some(|results|), None, None, None));
    }
    return None;
  }

  /** The `for ... of` loop over the kept topics: pushes one result per
      topic that has both a text and a URL, in order. */
  method PushTopicResults(results: seq<SearchResult>, topics: seq<Topic>) returns (extended: seq<SearchResult>)
    ensures extended == results + TopicResults(topics)
  {
    extended := results;
    for i := 0 to |topics|
      invariant extended == results + TopicResults(topics[..i])
    {
      var topic := topics[i];
      assert topics[..i + 1] == topics[..i] + [topic];
      TopicResultsSnoc(topics[..i], topic);
      if Truthy(topic.text) && Truthy(topic.firstURL) {
        extended := extended + [SearchResult(TopicTitle(topic.text.value), topic.firstURL.value,
                                              topic.text.value, Some(InstantLabel))];
      }
    }
    assert topics[..|topics|] == topics;
  }

  // ---------------------------------------------------------------------------
  // Tier 3: the encyclopedia summary

  const EncyclopediaLabel := "Wikipedia"
  const EncyclopediaPagePrefix := "https://en.wikipedia.org/wiki/"

  /** Tier 3 is accepted exactly when the status is ok and an extract is
      present; it then gives exactly one result carrying the extract. */
  function EncyclopediaTier(query: string, outcome: Outcome<SummaryBody>): (r: Option<SearchResponse>)
    ensures r.Some? <==> outcome.Ok? && Truthy(outcome.body.extract)
    ensures r.Some? ==>
      var b, resp := outcome.body, r.value;
      && |resp.results| == 1
      && resp.results[0].snippet == b.extract.value
      && resp.results[0].title == OrElse(b.title, query)
      && resp.results[0].link == OrElse(b.pageURL, EncyclopediaPagePrefix + EncodeURIComponent(query))
      && resp.results[0].source == Some(EncyclopediaLabel)
      && resp.totalResults == Some(1)
      && resp.searchQuery == query
  {
    match outcome
    case Ok(b) =>
      if Truthy(b.extract) then
        var result := SearchResult(
          OrElse(b.title, query),
          OrElse(b.pageURL, EncyclopediaPagePrefix + EncodeURIComponent(query)),
          b.extract.value,
          Some(EncyclopediaLabel));
        Some(SearchResponse([result], query, Some(1), None, None, None))
      else None
    case _ => None
  }

  // ---------------------------------------------------------------------------
  // Tier 4: the terminal fallback

  const FallbackLabel := "Search Suggestion"
  const SearchLinkPrefix := "https://www.google.com/search?q="

  function FallbackSnippet(query: string): string {
    "I found information about \"" + query + "\". For the most current and comprehensive results, "
    + "you can search directly on Google, Bing, or other search engines."
  }

  /** The fallback needs nothing and gives exactly one result: a search link
      made of the fixed prefix and the percent-encoded query. */
  function FallbackResponse(query: string): (r: SearchResponse)
    ensures |r.results| == 1 && r.searchQuery == query && r.totalResults == Some(1)
    ensures r.results[0].source == Some(FallbackLabel)
    ensures r.results[0].snippet == FallbackSnippet(query)
    ensures IsPrefix(SearchLinkPrefix, r.results[0].link)
    ensures r.results[0].link[|SearchLinkPrefix|..] == EncodeURIComponent(query)
  {
    var link := SearchLinkPrefix + EncodeURIComponent(query);
    assert link[|SearchLinkPrefix|..] == EncodeURIComponent(query);
    SearchResponse(
      [SearchResult("Search results for \"" + query + "\"", link, FallbackSnippet(query), Some(FallbackLabel))],
      query, Some(1), None, None, None)
  }

  /** An ASCII query can be read back from the fallback link. */
  lemma FallbackLinkNamesQuery(query: string)
    requires forall i :: 0 <= i < |query| ==> query[i] as int < 0x80
    ensures PercentDecode(FallbackResponse(query).results[0].link[|SearchLinkPrefix|..]) == query
  {
    DecodeEncodeAscii(query);
  }

  // ---------------------------------------------------------------------------
  // The cascade

  /** The ordered chain of providers: the first tier that accepts gives the
      answer, and the fallback answers when none does. */
  function FirstAccepted(tiers: seq<Option<SearchResponse>>, fallback: SearchResponse): (r: SearchResponse)
    ensures r == fallback || Some(r) in tiers
  {
    if tiers == [] then fallback
    else if tiers[0].Some? then tiers[0].value
    else FirstAccepted(tiers[1..], fallback)
  }

  /** The tier at the first accepting position is the answer: tiers after it
      are not consulted and nothing is merged. */
  lemma {:induction false} FirstAcceptedPicksFirst(tiers: seq<Option<SearchResponse>>, fallback: SearchResponse, k: nat)
    requires k < |tiers| && tiers[k].Some?
    requires forall j :: 0 <= j < k ==> tiers[j].None?
    ensures FirstAccepted(tiers, fallback) == tiers[k].value
  {
    if k > 0 {
      FirstAcceptedPicksFirst(tiers[1..], fallback, k - 1);
    }
  }

  /** When no tier accepts, the fallback is the answer. */
  lemma {:induction false} FirstAcceptedNoneAccepts(tiers: seq<Option<SearchResponse>>, fallback: SearchResponse)
    requires forall j :: 0 <= j < |tiers| ==> tiers[j].None?
    ensures FirstAccepted(tiers, fallback) == fallback
  {
    if tiers != [] {
      FirstAcceptedNoneAccepts(tiers[1..], fallback);
    }
  }

  function Tiers(query: string, primary: Outcome<PrimaryBody>, instant: Outcome<InstantBody>,
                 summary: Outcome<SummaryBody>): seq<Option<SearchResponse>>
  {
    [PrimaryTier(query, primary), InstantTier(query, instant), EncyclopediaTier(query, summary)]
  }

  /** The aggregated response: whatever the tiers end in, at least one result
      and the query it was asked for. */
  function Cascade(query: string, primary: Outcome<PrimaryBody>, instant: Outcome<InstantBody>,
                   summary: Outcome<SummaryBody>): (r: SearchResponse)
    ensures |r.results| > 0 && r.searchQuery == query
  {
    FirstAccepted(Tiers(query, primary, instant, summary), FallbackResponse(query))
  }

  /** The order of the chain: a tier's response is returned unchanged when
      every earlier tier declined, and the fallback only when all three
      declined. */
  lemma CascadeOrder(query: string, primary: Outcome<PrimaryBody>, instant: Outcome<InstantBody>,
                     summary: Outcome<SummaryBody>)
    ensures var r, t1, t2, t3 := Cascade(query, primary, instant, summary),
              PrimaryTier(query, primary), InstantTier(query, instant), EncyclopediaTier(query, summary);
      && (t1.Some? ==> r == t1.value)
      && (t1.None? && t2.Some? ==> r == t2.value)
      && (t1.None? && t2.None? && t3.Some? ==> r == t3.value)
      && (t1.None? && t2.None? && t3.None? ==> r == FallbackResponse(query))
  {
    var tiers, fallback := Tiers(query, primary, instant, summary), FallbackResponse(query);
    if tiers[0].Some? {
      FirstAcceptedPicksFirst(tiers, fallback, 0);
    } else if tiers[1].Some? {
      FirstAcceptedPicksFirst(tiers, fallback, 1);
    } else if tiers[2].Some? {
      FirstAcceptedPicksFirst(tiers, fallback, 2);
    } else {
      FirstAcceptedNoneAccepts(tiers, fallback);
    }
  }

  /** A primary search that answers with a missing or empty list of organic
      results hands over to the instant-answer tier, recognisable by its
      source label. */
  lemma EmptyPrimaryFallsToInstant(query: string, body: PrimaryBody, instant: Outcome<InstantBody>,
                                   summary: Outcome<SummaryBody>)
    requires body.organicResults.None? || body.organicResults == Some([])
    requires InstantTier(query, instant).Some?
    ensures var r := Cascade(query, Ok(body), instant, summary);
      r == InstantTier(query, instant).value &&
      forall x :: x in r.results ==> x.source == Some(InstantLabel)
  {
    CascadeOrder(query, Ok(body), instant, summary);
    InstantResultsLabelled(instant.body);
  }

  /** When every network-backed tier fails, the single result is the
      fallback's search suggestion, whose link carries the encoded query. */
  lemma AllTiersFailed(query: string)
    ensures var r := Cascade(query, Failed, Failed, Failed);
      && r == FallbackResponse(query)
      && r.results[0].snippet == FallbackSnippet(query)
      && r.results[0].link == SearchLinkPrefix + EncodeURIComponent(query)
  {
    CascadeOrder(query, Failed, Failed, Failed);
  }

  /** `performWebSearch`: the tiers tried in order with early returns, each
      one only when every earlier tier declined. */
  method PerformWebSearch(query: string, primary: Outcome<PrimaryBody>, instant: Outcome<InstantBody>,
                          summary: Outcome<SummaryBody>) returns (response: SearchResponse)
    ensures response == Cascade(query, primary, instant, summary)
    ensures |response.results| > 0 && response.searchQuery == query
  {
    CascadeOrder(query, primary, instant, summary);
    var first := PrimaryTier(query, primary);
    if first.Some? {
      return first.value;
    }
    var second := InstantAnswerTier(query, instant);
    if second.Some? {
      return second.value;
    }
    var third := EncyclopediaTier(query, summary);
    if third.Some? {
      return third.value;
    }
    return FallbackResponse(query);
  }
}
