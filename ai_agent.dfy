/** The agent service: the classifier that decides whether a question is
    worth a web search, the short answer drawn from a search response, the
    context handed to the language model and its rendering as prompt text. */
module AiAgent {
  import opened Wrappers
  import opened Strings
  import opened WebSearch

  // ---------------------------------------------------------------------------
  // The search-intent classifier

  const WebSearchKeywords: seq<string> := [
    "what is", "who is", "when did", "where is", "how to", "why does",
    "current", "latest", "recent", "news", "today", "now", "2024", "2025",
    "price", "cost", "compare", "best", "top", "review", "rating",
    "definition", "meaning", "explain", "tell me about"]

  const NoSearchKeywords: seq<string> := [
    "hello", "hi", "hey", "thanks", "thank you", "please", "help",
    "calculate", "math", "solve", "code", "write", "create", "generate"]

  /** The alternatives of `/^(what|...|did)\s/i`. */
  const FactualOpeners: seq<string> := [
    "what", "who", "when", "where", "how", "why", "which", "can", "is", "are", "do", "does", "did"]

  /** The alternatives of `/(current|...|2025)/i`. */
  const TimeSensitiveTerms: seq<string> := [
    "current", "latest", "recent", "today", "now", "new", "2024", "2025"]

  /** The alternatives of `/(compare|...|suggest)/i`. */
  const ComparisonTerms: seq<string> := [
    "compare", "best", "top", "better", "vs", "versus", "recommend", "suggest"]

  const LongQuestionUnits := 50

  /** `question.toLowerCase().trim()`. */
  function Normalised(question: string): string {
    Trim(Lower(question))
  }

  predicate IsVetoed(question: string) {
    ContainsAny(Normalised(question), NoSearchKeywords)
  }

  predicate HasSearchKeyword(question: string) {
    ContainsAny(Normalised(question), WebSearchKeywords)
  }

  /** `question.length > 50`, counted in UTF-16 code units. */
  predicate IsLongQuestion(question: string) {
    Utf16Length(question) > LongQuestionUnits
  }

  /** The question starts, ignoring ASCII case, with `word` followed by one
      white-space character. */
  predicate OpensWith(question: string, word: string) {
    |question| > |word| && Lower(question[..|word|]) == word && IsJsSpace(question[|word|])
  }

  predicate IsFactualQuestion(question: string) {
    exists j :: 0 <= j < |FactualOpeners| && OpensWith(question, FactualOpeners[j])
  }

  /** An unanchored case-insensitive alternation of ASCII words matches
      exactly when one of the words occurs in the ASCII-lower-cased text. */
  predicate IsTimeSensitive(question: string) {
    ContainsAny(Lower(question), TimeSensitiveTerms)
  }

  predicate IsComparison(question: string) {
    ContainsAny(Lower(question), ComparisonTerms)
  }

  /** `shouldUseWebSearch`: a veto word anywhere in the normalised question
      forbids the search; otherwise the search is used exactly when one of
      the four trigger signals holds. The length signal never decides the
      result on its own. */
  function ShouldUseWebSearch(question: string): (r: bool)
    ensures IsVetoed(question) ==> !r
    ensures r ==> HasSearchKeyword(question) || IsFactualQuestion(question) ||
                  IsTimeSensitive(question) || IsComparison(question)
    ensures (!IsVetoed(question) &&
             (HasSearchKeyword(question) || IsFactualQuestion(question) ||
              IsTimeSensitive(question) || IsComparison(question))) ==> r
  {
    if IsVetoed(question) then false
    else
      var hasSearchKeywords := HasSearchKeyword(question);
      var isLongQuestion := IsLongQuestion(question);
      var isFactualQuestion := IsFactualQuestion(question);
      var isTimeSensitive := IsTimeSensitive(question);
      var isComparison := IsComparison(question);
      if !hasSearchKeywords && !isLongQuestion && !isFactualQuestion && !isTimeSensitive && !isComparison then false
      else hasSearchKeywords || isFactualQuestion || isTimeSensitive || isComparison
  }

  /** Neither starts nor ends with white space. */
  predicate Bare(k: string) {
    |k| > 0 && !IsJsSpace(k[0]) && !IsJsSpace(k[|k| - 1])
  }

  lemma TrimKeepsAny(s: string, ks: seq<string>)
    requires forall j :: 0 <= j < |ks| ==> Bare(ks[j])
    ensures ContainsAny(Trim(s), ks) <==> ContainsAny(s, ks)
  {
    forall j | 0 <= j < |ks|
      ensures Contains(Trim(s), ks[j]) <==> Contains(s, ks[j])
    {
      TrimKeepsOccurrences(s, ks[j]);
    }
  }

  lemma VetoWordsAreBare()
    ensures forall j :: 0 <= j < |NoSearchKeywords| ==> Bare(NoSearchKeywords[j])
  {
  }

  lemma SearchWordsAreBare()
    ensures forall j :: 0 <= j < |WebSearchKeywords| ==> Bare(WebSearchKeywords[j])
  {
  }

  /** The `trim` in the normalisation never changes a keyword test: no
      keyword starts or ends with white space (`Bare`). */
  lemma TrimIsIrrelevant(question: string)
    ensures IsVetoed(question) <==> ContainsAny(Lower(question), NoSearchKeywords)
    ensures HasSearchKeyword(question) <==> ContainsAny(Lower(question), WebSearchKeywords)
  {
    VetoWordsAreBare();
    SearchWordsAreBare();
    TrimKeepsAny(Lower(question), NoSearchKeywords);
    TrimKeepsAny(Lower(question), WebSearchKeywords);
  }

  /** A text that neither starts nor ends with white space is its own trim. */
  lemma TrimOfBare(s: string)
    requires Bare(s)
    ensures Trim(s) == s
  {
    assert ContentStart(s) == 0;
    assert ContentEnd(s) == |s|;
  }

  /** The veto is a substring test, so it fires inside other words: "this"
      and "which" both contain "hi", and any question that uses either is
      refused, whatever else it holds. */
  lemma VetoInsideWord(q: string)
    requires Contains(Normalised(q), "this") || Contains(Normalised(q), "which")
    ensures IsVetoed(q)
    ensures !ShouldUseWebSearch(q)
  {
    var n := Normalised(q);
    if Contains(n, "this") {
      var i :| 0 <= i <= |n| - 4 && OccursAt(n, "this", i);
      assert n[i + 1..i + 3] == n[i..i + 4][1..3];
      assert OccursAt(n, NoSearchKeywords[1], i + 1);
    } else {
      var i :| 0 <= i <= |n| - 5 && OccursAt(n, "which", i);
      assert n[i + 1..i + 3] == n[i..i + 5][1..3];
      assert OccursAt(n, NoSearchKeywords[1], i + 1);
    }
  }

  /** "What is this?" opens like a factual question and holds the search
      keyword "what is", yet it is refused through the "hi" in "this". */
  lemma WhatIsThisIsRefused()
    ensures HasSearchKeyword("What is this?") && IsFactualQuestion("What is this?")
    ensures !ShouldUseWebSearch("What is this?")
  {
    var q := "What is this?";
    var n := Lower(q);
    assert n == "what is this?";
    TrimOfBare(n);
    assert OccursAt(n, "this", 8);
    VetoInsideWord(q);
    assert OccursAt(n, WebSearchKeywords[0], 0);
    assert OpensWith(q, FactualOpeners[0]);
  }

  // ---------------------------------------------------------------------------
  // The answer summary

  const AnswerUnits := 500
  const TopResultCount := 3

  predicate HasGraphDescription(response: SearchResponse) {
    response.knowledgeGraph.Some? && Truthy(response.knowledgeGraph.value.description)
  }

  /** The snippets of the first three results, in order. */
  function TopSnippets(results: seq<SearchResult>): (snippets: seq<string>)
    ensures |snippets| == Min(TopResultCount, |results|)
    ensures forall i :: 0 <= i < |snippets| ==> snippets[i] == results[i].snippet
  {
    seq(Min(TopResultCount, |results|), i requires 0 <= i < Min(TopResultCount, |results|) => results[i].snippet)
  }

  function NoResultsAnswer(query: string): string {
    "I found information about \"" + query + "\". Please see the sources below for detailed information."
  }

  /** `generateAnswerFromSearch`: a knowledge-graph description is taken
      verbatim; otherwise the answer is the longest prefix of whole
      characters, within 500 UTF-16 code units, of the first three snippets joined by single spaces;
      without results it is a fixed sentence naming the query. */
  function GenerateAnswerFromSearch(response: SearchResponse): (answer: string)
    ensures HasGraphDescription(response) ==> answer == response.knowledgeGraph.value.description.value
    ensures !HasGraphDescription(response) && |response.results| > 0 ==>
      var joined := Join(TopSnippets(response.results), " ");
      && IsPrefix(answer, joined)
      && Utf16Length(answer) <= AnswerUnits
      && (Utf16Length(joined) <= AnswerUnits ==> answer == joined)
      && (answer != joined ==> Utf16Length(answer) + Utf16Width(joined[|answer|]) > AnswerUnits)
    ensures !HasGraphDescription(response) && |response.results| == 0 ==>
      answer == NoResultsAnswer(response.searchQuery)
  {
    if HasGraphDescription(response) then response.knowledgeGraph.value.description.value
    else if |response.results| > 0 then TakeUnits(Join(TopSnippets(response.results), " "), AnswerUnits)
    else NoResultsAnswer(response.searchQuery)
  }

  /** On text of the Basic Multilingual Plane the answer is the first 500
      characters of the joined snippets. */
  lemma AnswerIsFirstCharacters(response: SearchResponse)
    requires !HasGraphDescription(response) && |response.results| > 0
    requires InPlane(Join(TopSnippets(response.results), " "))
    ensures var joined := Join(TopSnippets(response.results), " ");
      GenerateAnswerFromSearch(response) == joined[..Min(AnswerUnits, |joined|)]
  {
    TakeUnitsInPlane(Join(TopSnippets(response.results), " "), AnswerUnits);
  }

  // ---------------------------------------------------------------------------
  // The context handed to the language model

  /** A source with its attribution stripped. */
  datatype Source = Source(title: string, link: string, snippet: string)

  datatype FeaturedSnippet = FeaturedSnippet(text: string, sourceTitle: string, sourceLink: string)

  datatype WebSearchContext = WebSearchContext(
    searchQuery: string,
    answer: string,
    sources: seq<Source>,
    knowledgeGraph: Option<KnowledgeGraph>,
    featuredSnippet: Option<FeaturedSnippet>,
    peopleAlsoAsk: Option<seq<string>>,
    confidence: real)

  const Confidence: real := 0.85

  /** `Math.round(confidence * 100)`, on exact reals. */
  function Percent(confidence: real): int {
    (confidence * 100.0 + 0.5).Floor
  }

  /** The context built from a search response: none for an empty result
      list; otherwise one stripped source per result in the same order, the
      query, knowledge graph and follow-up questions copied unchanged, the
      generated answer and the fixed confidence, shown as 85%. */
  function ContextFromResponse(response: SearchResponse): (ctx: Option<WebSearchContext>)
    ensures ctx.None? <==> |response.results| == 0
    ensures ctx.Some? ==>
      var c := ctx.value;
      && |c.sources| == |response.results|
      && (forall i :: 0 <= i < |c.sources| ==>
            c.sources[i] == Source(response.results[i].title, response.results[i].link, response.results[i].snippet))
      && c.searchQuery == response.searchQuery
      && c.knowledgeGraph == response.knowledgeGraph
      && c.peopleAlsoAsk == response.peopleAlsoAsk
      && c.featuredSnippet.None?
      && c.answer == GenerateAnswerFromSearch(response)
      && c.confidence == Confidence && Percent(c.confidence) == 85
  {
    if |response.results| == 0 then None
    else
      var sources := seq(|response.results|, i requires 0 <= i < |response.results| =>
        Source(response.results[i].title, response.results[i].link, response.results[i].snippet));
      Some(WebSearchContext(
        response.searchQuery, GenerateAnswerFromSearch(response), sources,
        response.knowledgeGraph, None, response.peopleAlsoAsk, Confidence))
  }

  /** `performWebSearch`: search, then build the context. The aggregator
      always returns results, so the context is always there and names the
      question. */
  method PerformWebSearch(question: string, primary: Outcome<PrimaryBody>, instant: Outcome<InstantBody>,
                          summary: Outcome<SummaryBody>) returns (ctx: Option<WebSearchContext>)
    ensures ctx == ContextFromResponse(Cascade(question, primary, instant, summary))
    ensures ctx.Some? && ctx.value.searchQuery == question && |ctx.value.sources| > 0
  {
    var response := WebSearch.PerformWebSearch(question, primary, instant, summary);
    ctx := ContextFromResponse(response);
  }

  // ---------------------------------------------------------------------------
  // The prompt block

  const ResultsHeader := "\n\n[WEB SEARCH RESULTS - Use this information to enhance your answer]\n"
  const GraphHeading := "Knowledge Graph:\n"
  const AttributesHeading := "Attributes:\n"
  const QuestionsHeading := "Related Questions:\n"
  const LineBreak := "\n"
  const ClosingMarker := "[END WEB SEARCH RESULTS]\n"

  // The instructions to the model, one constant per appended sentence.
  const InstructionsRole := "INSTRUCTIONS: You are an advanced AI assistant with access to real-time web search results. "
  const InstructionsTask := "Your task is to synthesize the web search information with your knowledge to provide: "
  const InstructionsAims := "1) A comprehensive, accurate, and up-to-date answer, 2) Clear citations to sources when appropriate, "
  const InstructionsMoreAims := "3) A natural, conversational tone, 4) Additional context or related information when helpful. "
  const InstructionsAdvice := "Be thorough but concise. Prioritize accuracy and cite sources. If information conflicts, mention it."

  const SourceLimit := 5
  const QuestionLimit := 3

  /** One piece of the context: the initial text or one append of a fixed
      text or of a template filled in with a value of the context; a
      `SourceEntry` stands for the three appends of one source entry. */
  datatype Block =
    | Text(text: string)
    | QueryLine(query: string)
    | ConfidenceLine(percent: int)
    | GraphTitle(title: Option<string>)
    | GraphDescription(description: Option<string>)
    | AttributeLine(attribute: Attribute)
    | Summary(answer: string)
    | SourcesHeading(count: nat)
    | SourceEntry(number: nat, source: Source)
    | QuestionEntry(number: nat, question: string)

  /** `${value}` of a field that may be missing. */
  function Show(o: Option<string>): string {
    if o.Some? then o.value else "undefined"
  }

  function AttributeLineText(a: Attribute): string {
    "  - " + Show(a.name) + ": " + Show(a.value) + "\n"
  }

  function SourceEntryText(number: nat, s: Source): string {
    (NatToString(number) + ". " + s.title + "\n") + ("   " + s.snippet + "\n") + ("   " + s.link + "\n\n")
  }

  function QuestionEntryText(number: nat, q: string): string {
    "  " + NatToString(number) + ". " + q + "\n"
  }

  /** The text one block appends. A source entry is written by three
      appends, and its text is their concatenation. */
  function RenderBlock(b: Block): string {
    match b
    case Text(text) => text
    case QueryLine(query) => "Search Query: " + query + "\n"
    case ConfidenceLine(percent) => "Confidence: " + IntToString(percent) + "%\n\n"
    case GraphTitle(title) => "Title: " + Show(title) + "\n"
    case GraphDescription(description) => "Description: " + Show(description) + "\n"
    case AttributeLine(a) => AttributeLineText(a)
    case Summary(answer) => "Web Search Summary:\n" + answer + "\n\n"
    case SourcesHeading(count) => "Sources (" + NatToString(count) + "):\n"
    case SourceEntry(number, s) => SourceEntryText(number, s)
    case QuestionEntry(number, q) => QuestionEntryText(number, q)
  }

  function Render(bs: seq<Block>): string {
    if bs == [] then "" else Render(bs[..|bs| - 1]) + RenderBlock(bs[|bs| - 1])
  }

  lemma RenderSnoc(bs: seq<Block>, b: Block)
    ensures Render(bs + [b]) == Render(bs) + RenderBlock(b)
  {
    assert (bs + [b])[..|bs|] == bs;
  }

  lemma {:induction false} RenderAppend(a: seq<Block>, b: seq<Block>)
    ensures Render(a + b) == Render(a) + Render(b)
    decreases |b|
  {
    if b == [] {
      assert a + b == a;
    } else {
      var init, last := b[..|b| - 1], b[|b| - 1];
      assert b == init + [last];
      assert a + b == (a + init) + [last];
      RenderAppend(a, init);
      RenderSnoc(a + init, last);
      RenderSnoc(init, last);
      AppendAssoc(Render(a), Render(init), RenderBlock(last));
    }
  }

  function AttributeLines(attrs: seq<Attribute>): seq<Block> {
    seq(|attrs|, i requires 0 <= i < |attrs| => AttributeLine(attrs[i]))
  }

  function SourceEntries(sources: seq<Source>): seq<Block> {
    seq(|sources|, i requires 0 <= i < |sources| => SourceEntry(i + 1, sources[i]))
  }

  function QuestionEntries(questions: seq<string>): seq<Block> {
    seq(|questions|, i requires 0 <= i < |questions| => QuestionEntry(i + 1, questions[i]))
  }

  function AttributeBlocks(attributes: Option<seq<Attribute>>): seq<Block> {
    match attributes
    case None => []
    case Some(attrs) => [Text(AttributesHeading)] + AttributeLines(attrs)
  }

  function GraphBlocks(kg: Option<KnowledgeGraph>): seq<Block> {
    match kg
    case None => []
    case Some(g) =>
      [Text(GraphHeading), GraphTitle(g.title), GraphDescription(g.description)]
      + AttributeBlocks(g.attributes) + [Text(LineBreak)]
  }

  predicate HasRelatedQuestions(ws: WebSearchContext) {
    ws.peopleAlsoAsk.Some? && |ws.peopleAlsoAsk.value| > 0
  }

  function QuestionBlocks(ws: WebSearchContext): seq<Block> {
    if HasRelatedQuestions(ws) then
      [Text(QuestionsHeading)] + QuestionEntries(Take(ws.peopleAlsoAsk.value, QuestionLimit)) + [Text(LineBreak)]
    else []
  }

  function HeaderBlocks(ws: WebSearchContext): seq<Block> {
    [Text(ResultsHeader), QueryLine(ws.searchQuery), ConfidenceLine(Percent(ws.confidence))]
  }

  function SummaryBlocks(ws: WebSearchContext): seq<Block> {
    [Summary(ws.answer), SourcesHeading(|ws.sources|)]
  }

  const ClosingBlocks: seq<Block> := [
    Text(ClosingMarker), Text(InstructionsRole), Text(InstructionsTask),
    Text(InstructionsAims), Text(InstructionsMoreAims), Text(InstructionsAdvice)]

  /** The blocks of the formatted context, in the order they are appended. */
  function Layout(ws: WebSearchContext): seq<Block> {
    HeaderBlocks(ws)
    + GraphBlocks(ws.knowledgeGraph)
    + SummaryBlocks(ws)
    + SourceEntries(Take(ws.sources, SourceLimit))
    + QuestionBlocks(ws)
    + ClosingBlocks
  }

  /** Appending one more block to text that already ends with `Render(done)`. */
  lemma RenderStep(prefix: string, done: seq<Block>, b: Block)
    ensures prefix + Render(done) + RenderBlock(b) == prefix + Render(done + [b])
  {
    RenderSnoc(done, b);
    AppendAssoc(prefix, Render(done), RenderBlock(b));
  }

  lemma RenderSingle(b: Block)
    ensures Render([b]) == RenderBlock(b)
  {
    assert [b][..0] == [];
  }

  lemma RenderPair(x: Block, y: Block)
    ensures Render([x, y]) == RenderBlock(x) + RenderBlock(y)
  {
    RenderSingle(x);
    assert [x, y] == [x] + [y];
    RenderSnoc([x], y);
  }

  lemma RenderTriple(x: Block, y: Block, z: Block)
    ensures Render([x, y, z]) == RenderBlock(x) + RenderBlock(y) + RenderBlock(z)
  {
    RenderPair(x, y);
    assert [x, y, z] == [x, y] + [z];
    RenderSnoc([x, y], z);
  }

  lemma GraphText(g: KnowledgeGraph)
    ensures Render(GraphBlocks(Some(g))) ==
      GraphHeading + ("Title: " + Show(g.title) + "\n") + ("Description: " + Show(g.description) + "\n")
      + Render(AttributeBlocks(g.attributes)) + LineBreak
  {
    var head := [Text(GraphHeading), GraphTitle(g.title), GraphDescription(g.description)];
    var attrs := AttributeBlocks(g.attributes);
    assert GraphBlocks(Some(g)) == (head + attrs) + [Text(LineBreak)];
    RenderTriple(head[0], head[1], head[2]);
    RenderAppend(head, attrs);
    RenderSnoc(head + attrs, Text(LineBreak));
  }

  lemma AttributeText(attrs: seq<Attribute>)
    ensures Render(AttributeBlocks(Some(attrs))) == AttributesHeading + Render(AttributeLines(attrs))
  {
    RenderSingle(Text(AttributesHeading));
    RenderAppend([Text(AttributesHeading)], AttributeLines(attrs));
  }

  lemma QuestionText(asked: seq<string>)
    ensures Render([Text(QuestionsHeading)] + QuestionEntries(asked) + [Text(LineBreak)]) ==
      QuestionsHeading + Render(QuestionEntries(asked)) + LineBreak
  {
    RenderSingle(Text(QuestionsHeading));
    RenderAppend([Text(QuestionsHeading)], QuestionEntries(asked));
    RenderSnoc([Text(QuestionsHeading)] + QuestionEntries(asked), Text(LineBreak));
  }

  lemma ClosingText()
    ensures Render(ClosingBlocks) ==
      ClosingMarker + InstructionsRole + InstructionsTask + InstructionsAims + InstructionsMoreAims + InstructionsAdvice
  {
    var m, r, t := Text(ClosingMarker), Text(InstructionsRole), Text(InstructionsTask);
    var a, n, v := Text(InstructionsAims), Text(InstructionsMoreAims), Text(InstructionsAdvice);
    RenderTriple(m, r, t);
    assert [m, r, t, a] == [m, r, t] + [a];
    RenderSnoc([m, r, t], a);
    assert [m, r, t, a, n] == [m, r, t, a] + [n];
    RenderSnoc([m, r, t, a], n);
    assert ClosingBlocks == [m, r, t, a, n] + [v];
    RenderSnoc([m, r, t, a, n], v);
  }

  /** The text of the layout is the texts of its sections, in order. */
  lemma LayoutText(ws: WebSearchContext)
    ensures Render(Layout(ws)) ==
      Render(HeaderBlocks(ws)) + Render(GraphBlocks(ws.knowledgeGraph)) + Render(SummaryBlocks(ws))
      + Render(SourceEntries(Take(ws.sources, SourceLimit))) + Render(QuestionBlocks(ws)) + Render(ClosingBlocks)
  {
    var h, g, m, s, q := HeaderBlocks(ws), GraphBlocks(ws.knowledgeGraph), SummaryBlocks(ws),
      SourceEntries(Take(ws.sources, SourceLimit)), QuestionBlocks(ws);
    RenderAppend(h, g);
    RenderAppend(h + g, m);
    RenderAppend(h + g + m, s);
    RenderAppend(h + g + m + s, q);
    RenderAppend(h + g + m + s + q, ClosingBlocks);
  }

  /** The texts the loops of the formatter accumulate: each entry in turn,
      numbered by its position from 1. */
  function AttributesText(attrs: seq<Attribute>): string {
    if attrs == [] then "" else AttributesText(attrs[..|attrs| - 1]) + AttributeLineText(attrs[|attrs| - 1])
  }

  function SourcesText(sources: seq<Source>): string {
    if sources == [] then ""
    else SourcesText(sources[..|sources| - 1]) + SourceEntryText(|sources|, sources[|sources| - 1])
  }

  function QuestionsText(questions: seq<string>): string {
    if questions == [] then ""
    else QuestionsText(questions[..|questions| - 1]) + QuestionEntryText(|questions|, questions[|questions| - 1])
  }

  lemma AttributeLinesSnoc(attrs: seq<Attribute>)
    requires attrs != []
    ensures AttributeLines(attrs) == AttributeLines(attrs[..|attrs| - 1]) + [AttributeLine(attrs[|attrs| - 1])]
  {
  }

  lemma SourceEntriesSnoc(sources: seq<Source>)
    requires sources != []
    ensures SourceEntries(sources) ==
      SourceEntries(sources[..|sources| - 1]) + [SourceEntry(|sources|, sources[|sources| - 1])]
  {
  }

  lemma QuestionEntriesSnoc(questions: seq<string>)
    requires questions != []
    ensures QuestionEntries(questions) ==
      QuestionEntries(questions[..|questions| - 1]) + [QuestionEntry(|questions|, questions[|questions| - 1])]
  {
  }

  lemma {:induction false} AttributesTextRenders(attrs: seq<Attribute>)
    ensures Render(AttributeLines(attrs)) == AttributesText(attrs)
  {
    if attrs != [] {
      var init, last := attrs[..|attrs| - 1], attrs[|attrs| - 1];
      AttributesTextRenders(init);
      AttributeLinesSnoc(attrs);
      RenderSnoc(AttributeLines(init), AttributeLine(last));
    }
  }

  lemma {:induction false} SourcesTextRenders(sources: seq<Source>)
    ensures Render(SourceEntries(sources)) == SourcesText(sources)
  {
    if sources != [] {
      var init, last := sources[..|sources| - 1], sources[|sources| - 1];
      SourcesTextRenders(init);
      SourceEntriesSnoc(sources);
      RenderSnoc(SourceEntries(init), SourceEntry(|sources|, last));
    }
  }

  lemma {:induction false} QuestionsTextRenders(questions: seq<string>)
    ensures Render(QuestionEntries(questions)) == QuestionsText(questions)
  {
    if questions != [] {
      var init, last := questions[..|questions| - 1], questions[|questions| - 1];
      QuestionsTextRenders(init);
      QuestionEntriesSnoc(questions);
      RenderSnoc(QuestionEntries(init), QuestionEntry(|questions|, last));
    }
  }

  /** One line per attribute, in order. */
  method AppendAttributes(context: string, attrs: seq<Attribute>) returns (extended: string)
    ensures extended == context + Render(AttributeLines(attrs))
  {
    extended := context;
    for i := 0 to |attrs|
      invariant extended == context + AttributesText(attrs[..i])
    {
      var attr := attrs[i];
      extended := extended + ("  - " + Show(attr.name) + ": " + Show(attr.value) + "\n");
      assert attrs[..i + 1][..i] == attrs[..i];
      AppendAssoc(context, AttributesText(attrs[..i]), AttributeLineText(attr));
    }
    assert attrs[..|attrs|] == attrs;
    AttributesTextRenders(attrs);
  }

  /** The knowledge-graph section: heading, title, description, the
      attribute lines when there are attributes, then an empty line. */
  method AppendKnowledgeGraph(context: string, g: KnowledgeGraph) returns (extended: string)
    ensures extended == context + Render(GraphBlocks(Some(g)))
  {
    var heading := GraphHeading;
    var title := "Title: " + Show(g.title) + "\n";
    var description := "Description: " + Show(g.description) + "\n";
    extended := context + heading;
    extended := extended + title;
    extended := extended + description;
    AppendAssoc(context, heading, title);
    AppendAssoc(context, heading + title, description);
    ghost var part := heading + title + description;
    if g.attributes.Some? {
      var attrs := g.attributes.value;
      extended := extended + AttributesHeading;
      extended := AppendAttributes(extended, attrs);
      AppendAssoc(context, part, AttributesHeading);
      AppendAssoc(context, part + AttributesHeading, Render(AttributeLines(attrs)));
      AppendAssoc(part, AttributesHeading, Render(AttributeLines(attrs)));
      AttributeText(attrs);
      part := part + Render(AttributeBlocks(g.attributes));
    } else {
      assert part + Render(AttributeBlocks(g.attributes)) == part;
      part := part + Render(AttributeBlocks(g.attributes));
    }
    extended := extended + LineBreak;
    AppendAssoc(context, part, LineBreak);
    GraphText(g);
  }

  /** One numbered entry per source: title, then snippet and link indented. */
  method AppendSources(context: string, shown: seq<Source>) returns (extended: string)
    ensures extended == context + Render(SourceEntries(shown))
  {
    extended := context;
    for i := 0 to |shown|
      invariant extended == context + SourcesText(shown[..i])
    {
      var source := shown[i];
      var title := NatToString(i + 1) + ". " + source.title + "\n";
      var snippet := "   " + source.snippet + "\n";
      var link := "   " + source.link + "\n\n";
      ghost var start := extended;
      extended := extended + title;
      extended := extended + snippet;
      extended := extended + link;
      AppendAssoc(start, title, snippet);
      AppendAssoc(start, title + snippet, link);
      assert shown[..i + 1][..i] == shown[..i];
      AppendAssoc(context, SourcesText(shown[..i]), SourceEntryText(i + 1, source));
    }
    assert shown[..|shown|] == shown;
    SourcesTextRenders(shown);
  }

  /** One numbered line per follow-up question. */
  method AppendQuestionEntries(context: string, asked: seq<string>) returns (extended: string)
    ensures extended == context + Render(QuestionEntries(asked))
  {
    extended := context;
    for i := 0 to |asked|
      invariant extended == context + QuestionsText(asked[..i])
    {
      var q := asked[i];
      extended := extended + ("  " + NatToString(i + 1) + ". " + q + "\n");
      assert asked[..i + 1][..i] == asked[..i];
      AppendAssoc(context, QuestionsText(asked[..i]), QuestionEntryText(i + 1, q));
    }
    assert asked[..|asked|] == asked;
    QuestionsTextRenders(asked);
  }

  /** The follow-up question section: heading, numbered questions, then an
      empty line. */
  method AppendQuestions(context: string, asked: seq<string>) returns (extended: string)
    ensures extended == context + Render([Text(QuestionsHeading)] + QuestionEntries(asked) + [Text(LineBreak)])
  {
    extended := context + QuestionsHeading;
    extended := AppendQuestionEntries(extended, asked);
    extended := extended + LineBreak;
    AppendAssoc(context, QuestionsHeading, Render(QuestionEntries(asked)));
    AppendAssoc(context, QuestionsHeading + Render(QuestionEntries(asked)), LineBreak);
    QuestionText(asked);
  }

  /** The closing marker followed by the instructions to the model. */
  method AppendClosing(context: string) returns (extended: string)
    ensures extended == context + Render(ClosingBlocks)
  {
    extended := context + ClosingMarker;
    extended := extended + InstructionsRole;
    extended := extended + InstructionsTask;
    extended := extended + InstructionsAims;
    extended := extended + InstructionsMoreAims;
    extended := extended + InstructionsAdvice;
    var m, r, t, a, n := ClosingMarker, InstructionsRole, InstructionsTask, InstructionsAims, InstructionsMoreAims;
    AppendAssoc(context, m, r);
    AppendAssoc(context, m + r, t);
    AppendAssoc(context, m + r + t, a);
    AppendAssoc(context, m + r + t + a, n);
    AppendAssoc(context, m + r + t + a + n, InstructionsAdvice);
    ClosingText();
  }

  /** The header: the results marker, the query and the confidence. */
  method StartContext(ws: WebSearchContext) returns (context: string)
    ensures context == Render(HeaderBlocks(ws))
  {
    context := ResultsHeader;
    context := context + ("Search Query: " + ws.searchQuery + "\n");
    context := context + ("Confidence: " + IntToString(Percent(ws.confidence)) + "%\n\n");
    RenderTriple(Text(ResultsHeader), QueryLine(ws.searchQuery), ConfidenceLine(Percent(ws.confidence)));
  }

  /** The answer summary and the heading that counts all sources. */
  method AppendSummary(context: string, ws: WebSearchContext) returns (extended: string)
    ensures extended == context + Render(SummaryBlocks(ws))
  {
    var summary := "Web Search Summary:\n" + ws.answer + "\n\n";
    var count := "Sources (" + NatToString(|ws.sources|) + "):\n";
    extended := context + summary;
    extended := extended + count;
    RenderPair(Summary(ws.answer), SourcesHeading(|ws.sources|));
    AppendAssoc(context, summary, count);
  }

  /** `formatWebSearchContext`: the prompt text, built by appending each
      section to one string in the order of `Layout`. */
  method FormatWebSearchContext(ws: WebSearchContext) returns (context: string)
    ensures context == Render(Layout(ws))
  {
    context := StartContext(ws);
    ghost var written := context;
    if ws.knowledgeGraph.Some? {
      context := AppendKnowledgeGraph(context, ws.knowledgeGraph.value);
    } else {
      assert context == written + Render(GraphBlocks(ws.knowledgeGraph));
    }
    written := written + Render(GraphBlocks(ws.knowledgeGraph));
    context := AppendSummary(context, ws);
    written := written + Render(SummaryBlocks(ws));
    context := AppendSources(context, Take(ws.sources, SourceLimit));
    written := written + Render(SourceEntries(Take(ws.sources, SourceLimit)));
    if ws.peopleAlsoAsk.Some? && |ws.peopleAlsoAsk.value| > 0 {
      context := AppendQuestions(context, Take(ws.peopleAlsoAsk.value, QuestionLimit));
    } else {
      assert context == written + Render(QuestionBlocks(ws));
    }
    context := AppendClosing(context);
    LayoutText(ws);
  }
}
