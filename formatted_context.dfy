/** What the context text produced by `formatWebSearchContext` shows: the
    blocks of its layout, asked for their sources, questions, knowledge-graph
    entries and framing. */
module FormattedContext {
  import opened Wrappers
  import opened Strings
  import opened WebSearch
  import opened AiAgent


  function Found<T>(o: Option<T>): seq<T> {
    if o.Some? then [o.value] else []
  }

  /** The values `pick` finds in the blocks, in order. */
  function Select<T>(bs: seq<Block>, pick: Block -> Option<T>): seq<T> {
    if bs == [] then [] else Select(bs[..|bs| - 1], pick) + Found(pick(bs[|bs| - 1]))
  }

  lemma {:induction false} SelectAppend<T>(a: seq<Block>, b: seq<Block>, pick: Block -> Option<T>)
    ensures Select(a + b, pick) == Select(a, pick) + Select(b, pick)
    decreases |b|
  {
    if b == [] {
      assert a + b == a;
    } else {
      var init := b[..|b| - 1];
      assert (a + b)[..|a + b| - 1] == a + init;
      SelectAppend(a, init, pick);
    }
  }

  lemma {:induction false} SelectMissing<T>(bs: seq<Block>, pick: Block -> Option<T>)
    requires forall i :: 0 <= i < |bs| ==> pick(bs[i]).None?
    ensures Select(bs, pick) == []
  {
    if bs != [] {
      SelectMissing(bs[..|bs| - 1], pick);
    }
  }

  /** The layout is its sections, in order, for any question asked of it. */
  lemma SelectLayout<T>(ws: WebSearchContext, pick: Block -> Option<T>)
    ensures Select(Layout(ws), pick) ==
      Select(HeaderBlocks(ws), pick) + Select(GraphBlocks(ws.knowledgeGraph), pick) + Select(SummaryBlocks(ws), pick)
      + Select(SourceEntries(Take(ws.sources, SourceLimit)), pick) + Select(QuestionBlocks(ws), pick)
      + Select(ClosingBlocks, pick)
  {
    var h, g, m, s, q := HeaderBlocks(ws), GraphBlocks(ws.knowledgeGraph), SummaryBlocks(ws),
      SourceEntries(Take(ws.sources, SourceLimit)), QuestionBlocks(ws);
    SelectAppend(h, g, pick);
    SelectAppend(h + g, m, pick);
    SelectAppend(h + g + m, s, pick);
    SelectAppend(h + g + m + s, q, pick);
    SelectAppend(h + g + m + s + q, ClosingBlocks, pick);
  }

  /** Each element paired with its position counted from 1. */
  function Numbered<T>(xs: seq<T>): (r: seq<(nat, T)>)
    ensures |r| == |xs|
  {
    seq(|xs|, i requires 0 <= i < |xs| => (i + 1, xs[i]))
  }

  function NumberedSource(b: Block): Option<(nat, Source)> {
    if b.SourceEntry? then Some((b.number, b.source)) else None
  }

  function AnnouncedCount(b: Block): Option<nat> {
    if b.SourcesHeading? then Some(b.count) else None
  }

  function NumberedQuestion(b: Block): Option<(nat, string)> {
    if b.QuestionEntry? then Some((b.number, b.question)) else None
  }

  function ShownTitle(b: Block): Option<Option<string>> {
    if b.GraphTitle? then Some(b.title) else None
  }

  function ListedAttribute(b: Block): Option<Attribute> {
    if b.AttributeLine? then Some(b.attribute) else None
  }

  lemma {:induction false} SourceEntriesAreNumbered(sources: seq<Source>)
    ensures Select(SourceEntries(sources), NumberedSource) == Numbered(sources)
  {
    if sources != [] {
      var init := sources[..|sources| - 1];
      SourceEntriesAreNumbered(init);
      SourceEntriesSnoc(sources);
      SelectAppend(SourceEntries(init), [SourceEntry(|sources|, sources[|sources| - 1])], NumberedSource);
      assert Numbered(sources) == Numbered(init) + [(|sources|, sources[|sources| - 1])];
    }
  }

  lemma {:induction false} QuestionEntriesAreNumbered(questions: seq<string>)
    ensures Select(QuestionEntries(questions), NumberedQuestion) == Numbered(questions)
  {
    if questions != [] {
      var init := questions[..|questions| - 1];
      QuestionEntriesAreNumbered(init);
      QuestionEntriesSnoc(questions);
      SelectAppend(QuestionEntries(init), [QuestionEntry(|questions|, questions[|questions| - 1])], NumberedQuestion);
      assert Numbered(questions) == Numbered(init) + [(|questions|, questions[|questions| - 1])];
    }
  }

  lemma {:induction false} AttributeLinesList(attrs: seq<Attribute>)
    ensures Select(AttributeLines(attrs), ListedAttribute) == attrs
  {
    if attrs != [] {
      var init := attrs[..|attrs| - 1];
      AttributeLinesList(init);
      AttributeLinesSnoc(attrs);
      SelectAppend(AttributeLines(init), [AttributeLine(attrs[|attrs| - 1])], ListedAttribute);
      assert attrs == init + [attrs[|attrs| - 1]];
    }
  }

  /** No block of the knowledge-graph section is a source or question entry
      or a source count. */
  lemma GraphBlocksKinds(kg: Option<KnowledgeGraph>)
    ensures forall i :: 0 <= i < |GraphBlocks(kg)| ==>
      GraphBlocks(kg)[i].Text? || GraphBlocks(kg)[i].GraphTitle? ||
      GraphBlocks(kg)[i].GraphDescription? || GraphBlocks(kg)[i].AttributeLine?
  {
    if kg.Some? && kg.value.attributes.Some? {
      var attrs := kg.value.attributes.value;
      assert forall i :: 0 <= i < |AttributeLines(attrs)| ==> AttributeLines(attrs)[i].AttributeLine?;
    }
  }

  lemma QuestionBlocksKinds(ws: WebSearchContext)
    ensures forall i :: 0 <= i < |QuestionBlocks(ws)| ==>
      QuestionBlocks(ws)[i].Text? || QuestionBlocks(ws)[i].QuestionEntry?
  {
  }

  lemma SelectOne<T>(b: Block, pick: Block -> Option<T>)
    ensures Select([b], pick) == Found(pick(b))
  {
    assert [b][..0] == [];
  }

  // Each section, asked by a `pick` that finds nothing in blocks of its kinds.

  lemma HeaderQuiet<T>(ws: WebSearchContext, pick: Block -> Option<T>)
    requires forall b: Block :: pick(b).Some? ==> !b.Text? && !b.QueryLine? && !b.ConfidenceLine?
    ensures Select(HeaderBlocks(ws), pick) == []
  {
    SelectMissing(HeaderBlocks(ws), pick);
  }

  lemma GraphQuiet<T>(kg: Option<KnowledgeGraph>, pick: Block -> Option<T>)
    requires forall b: Block :: pick(b).Some? ==>
      !b.Text? && !b.GraphTitle? && !b.GraphDescription? && !b.AttributeLine?
    ensures Select(GraphBlocks(kg), pick) == []
  {
    GraphBlocksKinds(kg);
    SelectMissing(GraphBlocks(kg), pick);
  }

  lemma SummaryQuiet<T>(ws: WebSearchContext, pick: Block -> Option<T>)
    requires forall b: Block :: pick(b).Some? ==> !b.Summary? && !b.SourcesHeading?
    ensures Select(SummaryBlocks(ws), pick) == []
  {
    SelectMissing(SummaryBlocks(ws), pick);
  }

  lemma SourcesQuiet<T>(sources: seq<Source>, pick: Block -> Option<T>)
    requires forall b: Block :: pick(b).Some? ==> !b.SourceEntry?
    ensures Select(SourceEntries(sources), pick) == []
  {
    SelectMissing(SourceEntries(sources), pick);
  }

  lemma QuestionsQuiet<T>(ws: WebSearchContext, pick: Block -> Option<T>)
    requires forall b: Block :: pick(b).Some? ==> !b.Text? && !b.QuestionEntry?
    ensures Select(QuestionBlocks(ws), pick) == []
  {
    QuestionBlocksKinds(ws);
    SelectMissing(QuestionBlocks(ws), pick);
  }

  lemma ClosingQuiet<T>(pick: Block -> Option<T>)
    requires forall b: Block :: pick(b).Some? ==> !b.Text?
    ensures Select(ClosingBlocks, pick) == []
  {
    SelectMissing(ClosingBlocks, pick);
  }

  // The sections that do show something.

  lemma SummarySelect<T>(ws: WebSearchContext, pick: Block -> Option<T>)
    ensures Select(SummaryBlocks(ws), pick) ==
      Found(pick(Summary(ws.answer))) + Found(pick(SourcesHeading(|ws.sources|)))
  {
    SelectOne(Summary(ws.answer), pick);
    assert SummaryBlocks(ws)[..1] == [Summary(ws.answer)];
  }

  lemma QuestionSelect<T>(ws: WebSearchContext, pick: Block -> Option<T>)
    requires forall b: Block :: pick(b).Some? ==> !b.Text?
    ensures Select(QuestionBlocks(ws), pick) ==
      if HasRelatedQuestions(ws) then Select(QuestionEntries(Take(ws.peopleAlsoAsk.value, QuestionLimit)), pick)
      else []
  {
    if HasRelatedQuestions(ws) {
      var entries := QuestionEntries(Take(ws.peopleAlsoAsk.value, QuestionLimit));
      SelectAppend([Text(QuestionsHeading)], entries, pick);
      SelectAppend([Text(QuestionsHeading)] + entries, [Text(LineBreak)], pick);
      SelectOne(Text(QuestionsHeading), pick);
      SelectOne(Text(LineBreak), pick);
    }
  }

  lemma SelectThree<T>(x: Block, y: Block, z: Block, pick: Block -> Option<T>)
    ensures Select([x, y, z], pick) == Found(pick(x)) + Found(pick(y)) + Found(pick(z))
  {
    assert [x, y, z][..2] == [x, y];
    assert [x, y][..1] == [x];
    SelectOne(x, pick);
  }

  lemma AttributeSelect<T>(attributes: Option<seq<Attribute>>, pick: Block -> Option<T>)
    requires forall b: Block :: pick(b).Some? ==> !b.Text?
    ensures Select(AttributeBlocks(attributes), pick) ==
      if attributes.Some? then Select(AttributeLines(attributes.value), pick) else []
  {
    if attributes.Some? {
      SelectAppend([Text(AttributesHeading)], AttributeLines(attributes.value), pick);
      SelectOne(Text(AttributesHeading), pick);
    }
  }

  lemma SelectFramed<T>(head: seq<Block>, mid: seq<Block>, last: Block, pick: Block -> Option<T>)
    ensures Select(head + mid + [last], pick) == Select(head, pick) + Select(mid, pick) + Found(pick(last))
  {
    SelectAppend(head, mid, pick);
    SelectAppend(head + mid, [last], pick);
    SelectOne(last, pick);
  }

  lemma GraphSelect<T>(g: KnowledgeGraph, pick: Block -> Option<T>)
    requires forall b: Block :: pick(b).Some? ==> !b.Text? && !b.GraphDescription?
    ensures Select(GraphBlocks(Some(g)), pick) ==
      Found(pick(GraphTitle(g.title))) + Select(AttributeBlocks(g.attributes), pick)
  {
    var x, y, z := Text(GraphHeading), GraphTitle(g.title), GraphDescription(g.description);
    var attrs := AttributeBlocks(g.attributes);
    assert GraphBlocks(Some(g)) == [x, y, z] + attrs + [Text(LineBreak)];
    SelectFramed([x, y, z], attrs, Text(LineBreak), pick);
    SelectThree(x, y, z, pick);
  }

  /** The layout asked by a `pick`, from what each section shows. */
  lemma LayoutSelect<T>(ws: WebSearchContext, pick: Block -> Option<T>,
                        h: seq<T>, g: seq<T>, m: seq<T>, s: seq<T>, q: seq<T>, c: seq<T>)
    requires Select(HeaderBlocks(ws), pick) == h
    requires Select(GraphBlocks(ws.knowledgeGraph), pick) == g
    requires Select(SummaryBlocks(ws), pick) == m
    requires Select(SourceEntries(Take(ws.sources, SourceLimit)), pick) == s
    requires Select(QuestionBlocks(ws), pick) == q
    requires Select(ClosingBlocks, pick) == c
    ensures Select(Layout(ws), pick) == h + g + m + s + q + c
  {
    SelectLayout(ws, pick);
  }

  // Where in the layout a `pick` that finds blocks of one section only
  // finds anything.

  lemma OnlySourceEntries<T>(ws: WebSearchContext, pick: Block -> Option<T>)
    requires forall b: Block :: pick(b).Some? ==> b.SourceEntry?
    ensures Select(Layout(ws), pick) == Select(SourceEntries(Take(ws.sources, SourceLimit)), pick)
  {
    var shown := Select(SourceEntries(Take(ws.sources, SourceLimit)), pick);
    HeaderQuiet(ws, pick);
    GraphQuiet(ws.knowledgeGraph, pick);
    SummaryQuiet(ws, pick);
    QuestionsQuiet(ws, pick);
    ClosingQuiet(pick);
    LayoutSelect(ws, pick, [], [], [], shown, [], []);
    assert [] + [] + [] + shown + [] + [] == shown;
  }

  lemma OnlySourceCount<T>(ws: WebSearchContext, pick: Block -> Option<T>)
    requires forall b: Block :: pick(b).Some? ==> b.SourcesHeading?
    ensures Select(Layout(ws), pick) == Found(pick(SourcesHeading(|ws.sources|)))
  {
    var shown := Found(pick(SourcesHeading(|ws.sources|)));
    HeaderQuiet(ws, pick);
    GraphQuiet(ws.knowledgeGraph, pick);
    SummarySelect(ws, pick);
    SourcesQuiet(Take(ws.sources, SourceLimit), pick);
    QuestionsQuiet(ws, pick);
    ClosingQuiet(pick);
    LayoutSelect(ws, pick, [], [], shown, [], [], []);
    assert [] + [] + shown + [] + [] + [] == shown;
  }

  lemma OnlyQuestionEntries<T>(ws: WebSearchContext, pick: Block -> Option<T>)
    requires forall b: Block :: pick(b).Some? ==> b.QuestionEntry?
    ensures Select(Layout(ws), pick) == Select(QuestionBlocks(ws), pick)
  {
    var shown := Select(QuestionBlocks(ws), pick);
    HeaderQuiet(ws, pick);
    GraphQuiet(ws.knowledgeGraph, pick);
    SummaryQuiet(ws, pick);
    SourcesQuiet(Take(ws.sources, SourceLimit), pick);
    ClosingQuiet(pick);
    LayoutSelect(ws, pick, [], [], [], [], shown, []);
    assert [] + [] + [] + [] + shown + [] == shown;
  }

  lemma OnlyGraphEntries<T>(ws: WebSearchContext, pick: Block -> Option<T>)
    requires forall b: Block :: pick(b).Some? ==> b.GraphTitle? || b.AttributeLine?
    ensures Select(Layout(ws), pick) == Select(GraphBlocks(ws.knowledgeGraph), pick)
  {
    var shown := Select(GraphBlocks(ws.knowledgeGraph), pick);
    HeaderQuiet(ws, pick);
    SummaryQuiet(ws, pick);
    SourcesQuiet(Take(ws.sources, SourceLimit), pick);
    QuestionsQuiet(ws, pick);
    ClosingQuiet(pick);
    LayoutSelect(ws, pick, [], shown, [], [], [], []);
    assert [] + shown + [] + [] + [] + [] == shown;
  }

  /** The context lists at most five sources, numbered 1, 2, ... in the
      order of `sources`, while its "Sources (N)" heading counts all of them. */
  lemma FormattedSources(ws: WebSearchContext)
    ensures Select(Layout(ws), NumberedSource) == Numbered(Take(ws.sources, SourceLimit))
    ensures |Select(Layout(ws), NumberedSource)| <= SourceLimit
    ensures Select(Layout(ws), AnnouncedCount) == [|ws.sources|]
  {
    OnlySourceEntries(ws, NumberedSource);
    SourceEntriesAreNumbered(Take(ws.sources, SourceLimit));
    OnlySourceCount(ws, AnnouncedCount);
  }

  /** Follow-up questions appear only when there are some, at most three
      of them, numbered in order. */
  lemma FormattedQuestions(ws: WebSearchContext)
    ensures HasRelatedQuestions(ws) ==>
      Select(Layout(ws), NumberedQuestion) == Numbered(Take(ws.peopleAlsoAsk.value, QuestionLimit))
    ensures !HasRelatedQuestions(ws) ==> Select(Layout(ws), NumberedQuestion) == []
    ensures |Select(Layout(ws), NumberedQuestion)| <= QuestionLimit
    ensures |Select(Layout(ws), NumberedQuestion)| > 0 <==> HasRelatedQuestions(ws)
  {
    OnlyQuestionEntries(ws, NumberedQuestion);
    QuestionSelect(ws, NumberedQuestion);
    if HasRelatedQuestions(ws) {
      QuestionEntriesAreNumbered(Take(ws.peopleAlsoAsk.value, QuestionLimit));
    }
  }

  /** The knowledge-graph section appears exactly when there is a knowledge
      graph, and then shows its title and lists every attribute, in order. */
  lemma FormattedKnowledgeGraph(ws: WebSearchContext)
    ensures ws.knowledgeGraph.None? ==> Select(Layout(ws), ShownTitle) == []
    ensures ws.knowledgeGraph.Some? ==> Select(Layout(ws), ShownTitle) == [ws.knowledgeGraph.value.title]
    ensures Select(Layout(ws), ListedAttribute) ==
      if ws.knowledgeGraph.Some? && ws.knowledgeGraph.value.attributes.Some?
      then ws.knowledgeGraph.value.attributes.value else []
  {
    OnlyGraphEntries(ws, ShownTitle);
    GraphTitleShown(ws.knowledgeGraph);
    OnlyGraphEntries(ws, ListedAttribute);
    GraphAttributesListed(ws.knowledgeGraph);
  }

  lemma GraphTitleShown(kg: Option<KnowledgeGraph>)
    ensures Select(GraphBlocks(kg), ShownTitle) == if kg.Some? then [kg.value.title] else []
  {
    if kg.Some? {
      GraphSelect(kg.value, ShownTitle);
      AttributeSelect(kg.value.attributes, ShownTitle);
      if kg.value.attributes.Some? {
        SelectMissing(AttributeLines(kg.value.attributes.value), ShownTitle);
      }
    }
  }

  lemma GraphAttributesListed(kg: Option<KnowledgeGraph>)
    ensures Select(GraphBlocks(kg), ListedAttribute) ==
      if kg.Some? && kg.value.attributes.Some? then kg.value.attributes.value else []
  {
    if kg.Some? {
      GraphSelect(kg.value, ListedAttribute);
      AttributeSelect(kg.value.attributes, ListedAttribute);
      if kg.value.attributes.Some? {
        AttributeLinesList(kg.value.attributes.value);
      }
    }
  }

  /** Text that starts with `head` and ends with `tail` keeps doing so
      whatever is written between them. */
  lemma Framed(head: string, h: string, g: string, m: string, s: string, q: string, tail: string)
    requires IsPrefix(head, h)
    ensures IsPrefix(head, h + g + m + s + q + tail)
    ensures IsSuffix(tail, h + g + m + s + q + tail)
  {
    var body := h + g + m + s + q;
    AppendAssoc(h, g + m + s + q, tail);
    assert h + g + m + s + q + tail == h + (g + m + s + q + tail);
    assert (h + (g + m + s + q + tail))[..|h|] == h;
    SuffixOfAppend(body, tail);
  }

  lemma HeaderOpens(ws: WebSearchContext)
    ensures IsPrefix(ResultsHeader, Render(HeaderBlocks(ws)))
  {
    var q, c := QueryLine(ws.searchQuery), ConfidenceLine(Percent(ws.confidence));
    RenderTriple(Text(ResultsHeader), q, c);
    AppendAssoc(ResultsHeader, RenderBlock(q), RenderBlock(c));
    PrefixOfAppend(ResultsHeader, RenderBlock(q) + RenderBlock(c));
  }

  /** The context opens with the results marker and closes with the end
      marker followed by the instructions. */
  lemma FormattedFraming(ws: WebSearchContext)
    ensures IsPrefix(ResultsHeader, Render(Layout(ws)))
    ensures IsSuffix(ClosingMarker + InstructionsRole + InstructionsTask + InstructionsAims
                     + InstructionsMoreAims + InstructionsAdvice, Render(Layout(ws)))
  {
    LayoutText(ws);
    ClosingText();
    HeaderOpens(ws);
    Framed(ResultsHeader, Render(HeaderBlocks(ws)), Render(GraphBlocks(ws.knowledgeGraph)), Render(SummaryBlocks(ws)),
      Render(SourceEntries(Take(ws.sources, SourceLimit))), Render(QuestionBlocks(ws)), Render(ClosingBlocks));
  }
}
