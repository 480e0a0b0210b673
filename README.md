# Web-search-augmented answering: a Dafny model

This project models the two services behind the chat assistant's web search:

- **The agent service** (`AiAgentService`). It decides from the wording of a
  question whether a web search is worth doing. It turns the search response
  into a `WebSearchContext`: a short answer, the sources with their
  attribution stripped, the knowledge graph, follow-up questions and a fixed
  confidence of 0.85. It also renders that context as the prompt text handed
  to the language model.
- **The search aggregator** (`WebSearchService.performWebSearch`). It asks
  three providers in a fixed order: the primary structured search, an
  instant-answer service and an encyclopedia summary. Each provider's
  loosely typed response is normalised into `SearchResult`s. The first
  provider that yields results wins, and a synthetic search-suggestion result
  is returned when none does.

The network is not modelled. Each provider's request is an input of type
`Outcome<Body>`:

- `Failed`: the request or the body parse threw.
- `NotOk`: the status was not ok.
- `Ok(body)`: the body was read. Every JSON field in it that may be missing
  is an `Option`.

A JavaScript string field is *truthy* when it is present and non-empty.
`a || b` on such fields is `OrElse`.

Modules:

| file | module | contents |
|---|---|---|
| `wrappers.dfy` | `Wrappers` | `Option` |
| `strings.dfy` | `Strings` | the string built-ins the code uses: `trim`, ASCII lower-casing, `includes`, `split(sep)[0]`, `join`, `substring` on whole characters, counted in UTF-16 code units, decimal rendering of numbers |
| `uri_encoding.dfy` | `UriEncoding` | `encodeURIComponent` over UTF-8, with a decoder that inverts it on ASCII text |
| `web_search.dfy` | `WebSearch` | the result and response shapes, the four tiers, the cascade as a function, and the service method with its early returns |
| `ai_agent.dfy` | `AiAgent` | the classifier, the answer summary, the context construction, and the formatter as methods that append to one string |
| `formatted_context.dfy` | `FormattedContext` | what the formatted text shows: its sources, questions, knowledge-graph entries and framing |

The formatter is described by a list of `Block`s (`Layout`). A block is the
initial text of the context, one fixed or templated append, or, for
`SourceEntry`, the three appends that write one source's title, snippet and
link (lib/services/ai-agent.ts:166-168). `Render` is the text the blocks
produce.
`FormatWebSearchContext` is proved to return `Render(Layout(ws))`. The
properties of the output are then stated over the blocks of the layout, using
`Select`, which collects what a given kind of block carries, in order.

Notes on the code's behaviour:

- The fallback result's snippet says *"I found information about …"*.
- A missing API key falls back to a built-in key, so the primary tier is
  always asked.
- The agent's `performWebSearch` returns `null` for an empty result list.
  The model keeps that branch and proves that, after the aggregator, it is
  never taken.
- The "500 characters" of the answer are UTF-16 code units, the unit
  `substring` counts.

## Model

| member | source | states |
|---|---|---|
| `Strings.Trim` | lib/services/ai-agent.ts:47 | `trim()` returns the segment of the string between the leading and the trailing runs of JavaScript white space, and that segment neither starts nor ends with white space |
| `Strings.TrimKeepsOccurrences` | lib/services/ai-agent.ts:47-57 | trimming never changes whether a word with non-space ends occurs in a string |
| `Strings.TakeUnits` | lib/services/ai-agent.ts:132 | `substring(0, n)` on whole characters: the longest prefix of whole characters within `n` UTF-16 code units; it is a prefix, it fits, it is the whole string when that fits, and one more character would not fit |
| `Strings.TakeUnitsInPlane` | lib/services/ai-agent.ts:132 | on text of the Basic Multilingual Plane, `substring(0, n)` keeps exactly the first `n` characters |
| `Strings.SplitHead` | lib/services/web-search.ts:94 | `split(sep)[0]` is the prefix before the first occurrence of the separator, and is the whole text exactly when the separator does not occur |
| `Strings.NatToString` | lib/services/ai-agent.ts:164 | `${n}` writes decimal digits without a leading zero whose value is `n` |
| `UriEncoding.EncodeURIComponent` | lib/services/web-search.ts:154 | the encoding holds only unreserved characters and `%`, and is never shorter than its input |
| `UriEncoding.EncodeUnreservedIsIdentity` | lib/services/web-search.ts:154 | a query of unreserved characters is its own encoding |
| `UriEncoding.DecodeEncodeAscii` | lib/services/web-search.ts:154 | percent-decoding undoes `encodeURIComponent` on ASCII text |
| `WebSearch.OrganicResults` | lib/services/web-search.ts:48-53 | one result per organic entry, in order; a missing title, link or snippet becomes `''`, and the source is the displayed link or `''` |
| `WebSearch.TruthyStrings` | lib/services/web-search.ts:57-58 | `filter(Boolean)` keeps exactly the present, non-empty questions and never adds one |
| `WebSearch.TruthyStringsAppend` | lib/services/web-search.ts:57-58 | the filter keeps order: it distributes over concatenation |
| `WebSearch.PrimaryTier` | lib/services/web-search.ts:43-61 | tier 1 answers exactly when the status is ok and `organic_results` is non-empty; it then gives the normalised results, the query, the reported total or else the organic count, the knowledge graph, and the truthy follow-up questions and related searches |
| `WebSearch.TopicTitle` | lib/services/web-search.ts:94 | a topic's title is a prefix of its text; it is the text before the first `" - "` when that part is non-empty, and the whole text otherwise |
| `WebSearch.FirstTopics` | lib/services/web-search.ts:90-91 | `slice(0, 5)`: the first `min(5, n)` related topics, in order, and none when the field is missing |
| `WebSearch.TopicResultsMembers` | lib/services/web-search.ts:90-100 | a topic result exists exactly for each topic with both a text and a URL; each is labelled "DuckDuckGo", has the full text as snippet and the split text as title |
| `WebSearch.InstantResults` | lib/services/web-search.ts:79-101 | at most six results: the abstract first when there is one, titled by the heading or "Summary", linked to the abstract URL or `""` and labelled "DuckDuckGo"; then the kept topics; only the kept topics when there is no abstract |
| `WebSearch.InstantResultsLabelled` | lib/services/web-search.ts:82-98 | every instant-answer result is labelled "DuckDuckGo" |
| `WebSearch.InstantTier` | lib/services/web-search.ts:77-110 | tier 2 answers exactly when the status is ok and at least one result was built; `totalResults` is then the number of results |
| `WebSearch.InstantAnswerTier` | lib/services/web-search.ts:77-110 | the push loop over the first five topics builds exactly the tier-2 response |
| `WebSearch.PushTopicResults` | lib/services/web-search.ts:91-99 | the `for ... of` loop appends, in order, one labelled result for each topic with a text and a URL, and nothing else |
| `WebSearch.EncyclopediaTier` | lib/services/web-search.ts:126-143 | tier 3 answers exactly when the status is ok and an extract is present, with one result carrying the extract, the page title or the query, the page link or a built link, the label "Wikipedia", and a total of 1 |
| `WebSearch.FallbackResponse` | lib/services/web-search.ts:150-161 | the fallback gives one result labelled "Search Suggestion" whose link is the search prefix followed by the encoded query, with a total of 1 |
| `WebSearch.FallbackLinkNamesQuery` | lib/services/web-search.ts:154 | an ASCII query can be read back from the fallback link |
| `WebSearch.FirstAccepted` | lib/services/web-search.ts:29-161 | the chain answers with the fallback or with one of the tiers' responses, never a mix |
| `WebSearch.FirstAcceptedPicksFirst` | lib/services/web-search.ts:29-161 | the first accepting tier is the answer; later tiers are not consulted |
| `WebSearch.FirstAcceptedNoneAccepts` | lib/services/web-search.ts:149-161 | when no tier accepts, the fallback is the answer |
| `WebSearch.Cascade` | lib/services/web-search.ts:29-161 | whatever the providers do, the response has at least one result and names the query it was asked for |
| `WebSearch.CascadeOrder` | lib/services/web-search.ts:43-149 | tier 1's response when it accepts; tier 2's when tier 1 declines and tier 2 accepts; tier 3's when only it accepts; the fallback when all three decline |
| `WebSearch.EmptyPrimaryFallsToInstant` | lib/services/web-search.ts:46-109 | an ok primary response whose `organic_results` is missing or empty hands over to the instant-answer tier, whose results are all labelled "DuckDuckGo" |
| `WebSearch.AllTiersFailed` | lib/services/web-search.ts:149-161 | when every provider fails, the answer is the suggestion with the search link for the encoded query |
| `WebSearch.PerformWebSearch` | lib/services/web-search.ts:29-161 | the service's early returns give the cascade's response: non-empty, for the query |
| `AiAgent.ShouldUseWebSearch` | lib/services/ai-agent.ts:46-82 | a veto word anywhere in the lower-cased, trimmed question gives false; true implies a search keyword, a factual opener, a time-sensitive term or a comparison term; without a veto, any of those four gives true; so the length signal never decides alone |
| `AiAgent.TrimIsIrrelevant` | lib/services/ai-agent.ts:47-57 | the `trim` never changes a keyword test, in both directions, because no keyword starts or ends with white space |
| `AiAgent.VetoInsideWord` | lib/services/ai-agent.ts:38-52 | the veto is a substring test: every question whose normalised form contains "this" or "which" holds "hi" and is refused |
| `AiAgent.WhatIsThisIsRefused` | lib/services/ai-agent.ts:38-82 | "What is this?" holds the search keyword "what is" and opens like a factual question, yet is refused |
| `AiAgent.TopSnippets` | lib/services/ai-agent.ts:131-132 | the snippets of the first `min(3, n)` results: element `i` is the snippet of result `i` |
| `AiAgent.GenerateAnswerFromSearch` | lib/services/ai-agent.ts:124-136 | a non-empty knowledge-graph description is the answer verbatim; otherwise, with results, the answer is the longest prefix of whole characters within 500 UTF-16 code units of the first three snippets joined by spaces; with no results it is the fixed sentence naming the query |
| `AiAgent.AnswerIsFirstCharacters` | lib/services/ai-agent.ts:129-133 | on text of the Basic Multilingual Plane, that answer is the first 500 characters of the join |
| `AiAgent.ContextFromResponse` | lib/services/ai-agent.ts:93-111 | no context exactly when there are no results; otherwise one stripped source per result in the same order, the query, knowledge graph and follow-up questions copied unchanged, the generated answer, a confidence of 0.85 shown as 85% |
| `AiAgent.PerformWebSearch` | lib/services/ai-agent.ts:87-114 | the context is built from the aggregator's response, so it is always present, names the question and has at least one source |
| `AiAgent.StartContext` | lib/services/ai-agent.ts:142-144 | the header: the results marker, the query line and the confidence line |
| `AiAgent.AppendAttributes` | lib/services/ai-agent.ts:153-155 | the attribute loop appends one line per attribute, in order |
| `AiAgent.AppendKnowledgeGraph` | lib/services/ai-agent.ts:147-158 | the knowledge-graph section: heading, title, description, the attributes when present, then an empty line |
| `AiAgent.AppendSummary` | lib/services/ai-agent.ts:161-164 | the answer summary and the heading that counts all sources |
| `AiAgent.AppendSources` | lib/services/ai-agent.ts:165-169 | the source loop appends entries numbered from 1, each with title, snippet and link |
| `AiAgent.AppendQuestionEntries` | lib/services/ai-agent.ts:174-176 | the question loop appends numbered lines, in order |
| `AiAgent.AppendQuestions` | lib/services/ai-agent.ts:172-178 | the follow-up section: heading, numbered questions, then an empty line |
| `AiAgent.AppendClosing` | lib/services/ai-agent.ts:180-185 | the closing marker followed by the five instruction sentences |
| `AiAgent.FormatWebSearchContext` | lib/services/ai-agent.ts:141-188 | the text built by the appends is the rendering of the layout: header, knowledge graph when present, summary, the first five sources, the follow-up section when there are questions, closing |
| `AiAgent.LayoutText` | lib/services/ai-agent.ts:141-188 | the text of the layout is the texts of its sections, in order |
| `FormattedContext.FormattedSources` | lib/services/ai-agent.ts:164-169 | the context lists at most five sources, numbered 1 to k in the input order, while its "Sources (N)" heading reports the full count |
| `FormattedContext.FormattedQuestions` | lib/services/ai-agent.ts:172-178 | follow-up questions appear exactly when there are some, at most three, numbered in order |
| `FormattedContext.FormattedKnowledgeGraph` | lib/services/ai-agent.ts:147-158 | the knowledge-graph title appears exactly when there is a knowledge graph, and its attributes are all listed in order, and only then |
| `FormattedContext.FormattedFraming` | lib/services/ai-agent.ts:142-185 | the text starts with the results marker and ends with the closing marker followed by the instructions |

## Left out

- Network requests, `response.json()`, request headers, `async`/`await` and all logging. Each provider's request is an `Outcome` input; a thrown exception is `Failed`.
- The outer `catch` of the aggregator (lib/services/web-search.ts:162-176). In the model nothing outside the per-tier blocks can throw. `encodeURIComponent` throws only on a lone surrogate, and a Dafny `char` cannot hold one. Tier 1 builds its request with `URLSearchParams`, which replaces a lone surrogate and does not throw, so tier 1 can still answer such a query. When tier 1 declines on such a query, JavaScript behaves differently from the model: tiers 2 and 3 throw and decline, line 154 throws, line 168 throws again inside the `catch`, the service's promise rejects, and the agent returns `null` (lib/services/ai-agent.ts:115-117). The guarantees of `WebSearch.Cascade`, `WebSearch.PerformWebSearch` and `AiAgent.PerformWebSearch` therefore hold only for well-formed Unicode queries.
- The API key and the base URL (lib/services/web-search.ts:23-24) and the request parameters. They are configuration that shapes only the request.
- `getEnhancedSystemPrompt` (lib/services/ai-agent.ts:193-211). It returns a constant string.
- Unicode `toLowerCase`. Lower-casing is modelled on ASCII letters only. The `/i` patterns are made of ASCII words, so ASCII case folding is what they match.
- `AiAgent.Percent`: `Math.round(confidence * 100)` is computed on exact reals, not on IEEE doubles.
- `UriEncoding.DecodeEncodeAscii`: the round trip is proved for ASCII queries only. The decoder does not reassemble multi-byte UTF-8 sequences.
- `AiAgent.AnswerIsFirstCharacters`: "the first 500 characters" is proved only for text in the Basic Multilingual Plane.
- `Strings.TakeUnits` cuts only between whole characters, and so does `AiAgent.GenerateAnswerFromSearch`, which uses it for the answer. When a surrogate pair straddles unit `n`, the model drops the whole character. JavaScript's `substring` keeps its high surrogate, which a Dafny string cannot hold. On such input the model's answer is one code unit shorter than the source's.
- `AiAgent.GenerateAnswerFromSearch`: when a surrogate pair straddles code unit 500 of the joined snippets, the model's answer ends before that character and is one code unit shorter than the source's, which ends with the pair's high surrogate.
- A missing knowledge-graph field inside the template strings renders as `undefined`, as JavaScript does; this includes an attribute's missing `label` or `value`. A field that holds some other JSON value is not modelled.
- `featuredSnippet` of `WebSearchContext` (lib/services/ai-agent.ts:22-25). Nothing in the code fills it, so the model always leaves it empty.
- A primary-provider `knowledge_graph` that is present but falsy. It is modelled as absent, which matches `data.knowledge_graph || null`.
- `WebSearch.PrimaryTier`: a reported total that is `NaN` is not modelled. Totals are integers, so only 0 counts as falsy.
