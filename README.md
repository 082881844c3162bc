# Buffett's Brain query router, in Dafny

Buffett's Brain answers investment questions from a knowledge base of
Warren Buffett's letters and Charlie Munger's talks. It adds web search
when the knowledge base is not enough. This project models the router at
its core: `process_query` and `evaluate_rag_relevance` in `src/app3.py`.

- **Classification.** A query is *time-sensitive* when one of ten literal
  keywords is a substring of the lower-cased query (`Classifier`).
- **Knowledge-base step.** For a query that is not time-sensitive, the
  router retrieves passages, joins them with blank lines and asks a scoring
  model how relevant they are. The prompt shows the first 1500 characters
  of the passages and the whole query. The reply is parsed into a score in
  [1, 10] (`Relevance`):
  - parsing keeps the digit characters among the first three characters,
    reads them as one decimal number and clamps it;
  - no digit, or a failed call, gives the fail-open score 7;
  - a minus sign is not a digit, so "-5" scores 5;
  - "8/10" reads as 81 and scores 10.
  A score of at least 5 keeps the knowledge-base block. Below 5, a low-score
  notice is added and search is requested. A retriever failure becomes an
  error block and also requests search.
- **Search step.** When requested, the search results become one block of
  numbered fragments. Only dictionaries with non-empty content count, and
  each keeps its 1-based position in the result list. A search failure
  becomes an error block; no qualifying result adds nothing.
- **Synthesis.** The blocks are joined by a `---` separator line into the
  combined context, or become "No relevant information found." when there
  are none. The context and the question go to the synthesizer. A
  synthesizer failure is returned as text.

The four external providers (retriever, scorer, search, synthesizer) are
inputs: each is an `Outcome`, either the value it returned or the message of
the exception it raised. `Router.ProcessQuery` is the imperative router. It
returns the answer, the combined context and the provider calls it made, in
order. It is proved to follow the reference definition `Router.Route`, and
the routing guarantees are lemmas about `Route` (`RoutingProperties`). The
queries of the routing tests are proved as concrete cases (`RoutingCases`),
together with three end-to-end runs of the router: a knowledge-base answer
to the circle-of-competence question, a search-only answer to a price
question with one search result, and a retriever failure.

The clamping test (`tests/test_query_routing.py`, lines 63-69) clamps the
integer -5 to 1. A reader might expect the scorer reply "-5" to score 1 as
well, but the parsing code drops the minus sign and scores it 5. The model
follows the code: see `Relevance.MinusSignDropped` and
`RoutingCases.ReplyMinusFiveScoresFive`.

Files: `text.dfy` (string helpers), `providers.dfy` (provider outcomes),
`classifier.dfy`, `relevance.dfy`,
`router.dfy`, `routing_properties.dfy`, `cases.dfy`.

## Model

| member | source | states |
|---|---|---|
| Text.LowerChar | src/app3.py:111 | a capital becomes the same letter in lower case, every other character is unchanged, and the result is never a capital |
| Text.Lower | src/app3.py:111 | lower-casing keeps the length and maps every character through ASCII lower-casing |
| Text.LowerIdempotent | src/app3.py:111 | lower-casing twice is lower-casing once |
| Text.LowerAppend | src/app3.py:111 | lower-casing distributes over concatenation |
| Text.Contains | src/app3.py:112 | the `in` test on strings: true exactly when the pattern occurs at some index |
| Text.ContainsWithin | src/app3.py:112 | an occurrence survives text added before and after |
| Text.ContainsLower | src/app3.py:111-112 | an occurrence of a pattern without capitals survives lower-casing of the text |
| Text.NotContainsByPair | src/app3.py:112 | a pattern is absent when two of its adjacent characters never stand side by side in the text |
| Text.NoPairsAppend | src/app3.py:112 | the absence of letter pairs holds for a concatenation when it holds for the parts and at the seam |
| Text.Join | src/app3.py:121 | `sep.join`: empty for no parts, the part itself for one part, and it always starts with the first part |
| Text.JoinTwo | src/app3.py:162 | two parts are joined as first, separator, second |
| Text.IsDigit | src/app3.py:90 | `str.isdigit` on one character, restricted to ASCII: the characters '0' to '9'; used by `Text.Digits` and `Relevance.ParseScore` |
| Text.Digits | src/app3.py:90 | `filter(str.isdigit, …)` keeps only digits, never lengthens the text, and is empty exactly when the text has no digit |
| Text.DigitsAppend | src/app3.py:90 | digit filtering distributes over concatenation |
| Text.DigitsOfDigits | src/app3.py:90 | a text of digits only passes the filter unchanged |
| Text.DecimalValue | src/app3.py:90 | `int(...)` on a string of decimal digits; `Text.Decimal` reads back through it, and `Relevance.DigitHeadParses` states that the parsed score is its clamped value |
| Text.Decimal | src/app3.py:126 | the decimal text of a number: digits only, no leading zero, reads back as the number, one character exactly below 10 |
| Classifier.AnyOccurs | src/app3.py:112 | `any(k in s for k in keywords)`: true exactly when some keyword occurs |
| Classifier.IsTimeSensitive | src/app3.py:107-112 | time-sensitive exactly when one of the ten keywords occurs in the lower-cased query |
| Classifier.KeywordsAreLowerCase | src/app3.py:107-110 | no keyword has a capital letter |
| Classifier.TimeSensitiveIgnoresCase | src/app3.py:111-112 | lower-casing the query first never changes the classification |
| Classifier.KeywordMakesTimeSensitive | src/app3.py:107-112 | a keyword written verbatim anywhere in the query makes it time-sensitive |
| Classifier.TimeSensitiveWithin | src/app3.py:112 | a time-sensitive query stays time-sensitive inside any surrounding text |
| Classifier.NotTimeSensitiveByPairs | src/app3.py:107-112 | a query is not time-sensitive when, for each keyword, one pair of its adjacent letters never occurs in the lower-cased query |
| Relevance.Preview | src/app3.py:73 | the scorer sees a prefix of the context of length min(1500, length) |
| Relevance.EvaluationPrompt | src/app3.py:70-86 | the prompt contains the context preview and the whole query |
| Relevance.PromptIgnoresContextBeyondPreview | src/app3.py:73 | contexts that agree on their first 1500 characters give the same prompt |
| Relevance.Clamp | src/app3.py:91 | `min(max(n, 1), 10)`: in [1, 10], the identity inside, 1 below and 10 above |
| Relevance.ReplyHead | src/app3.py:90 | parsing looks at a prefix of the reply of length min(3, length) |
| Relevance.ParseScore | src/app3.py:90-93 | every reply parses to a score in [1, 10]; a reply without a digit in its first three characters gives 7 |
| Relevance.DigitHeadParses | src/app3.py:90-91 | a reply that opens with one to three digits, with no other digit in its first three characters, scores the clamped decimal value of those digits |
| Relevance.EvaluateRelevance | src/app3.py:88-93 | the score is in [1, 10]; a failed scorer call gives 7 and is not propagated; a reply gives its parsed score |
| Relevance.WellFormedReply | src/app3.py:86-91 | a reply that is a score 1..10, followed by text whose first two characters are not digits, parses back to that score |
| Relevance.ParseIgnoresTail | src/app3.py:90 | nothing after the third character affects the score |
| Relevance.ParseDependsOnlyOnLeadingDigits | src/app3.py:90 | replies with the same digits among their first three characters get the same score |
| Relevance.MinusSignDropped | src/app3.py:90-91 | a leading minus sign is ignored and only uses up one of the three characters |
| Router.Qualifies | src/app3.py:146-149 | a search result yields a fragment when it is a dictionary with non-empty content; `Router.PositionsComplete` and `Router.NoFragmentsIffNoneQualifies` state its role |
| Router.SourceFragment | src/app3.py:150-152 | one search fragment: bold "Source", the 1-based position, the content and the URL; `Router.FragmentAt` states which result and number it gets |
| Router.Fragments | src/app3.py:143-153 | the fragments of a result list; its meaning is stated by `Router.FragmentsCount`, `Router.FragmentAt`, `Router.PositionsIncrease` and `Router.PositionsComplete` |
| Router.QualifyingPositions | src/app3.py:145-149 | the positions of the qualifying results; `Router.PositionsIncrease` and `Router.PositionsComplete` state that they are exactly those positions, in increasing order |
| Router.FragmentsCount | src/app3.py:145-152 | one search fragment per qualifying result |
| Router.FragmentAt | src/app3.py:145-152 | the j-th fragment is built from the j-th qualifying result and numbered with that result's 1-based position |
| Router.PositionsIncrease | src/app3.py:145 | fragments keep the order of the results |
| Router.PositionsComplete | src/app3.py:146-152 | every dictionary with non-empty content gets a fragment |
| Router.NoFragmentsIffNoneQualifies | src/app3.py:143-157 | there are no fragments exactly when no result is a dictionary with non-empty content |
| Router.CollectFragments | src/app3.py:143-153 | the loop over the results produces exactly the fragments of the reference definition |
| Router.KnowledgeBlock | src/app3.py:125-127 | the knowledge-base block: bold label, the score out of 10, the joined passages; `RoutingProperties.HighScoreKeepsKnowledgeBase` states when it is produced |
| Router.LowScoreBlock | src/app3.py:129-131 | the low-score notice showing the score out of 10; `RoutingProperties.LowScoreFallsBackToSearch` states when it is produced |
| Router.RetrievalErrorBlock | src/app3.py:134-135 | the retriever's error message behind a bold label; `RoutingProperties.RetrievalFailureForcesSearch` states when it is produced |
| Router.SearchErrorBlock | src/app3.py:159-160 | the search error message behind a bold label; `RoutingProperties.SearchFailureIsFinal` states that it comes last |
| Router.SynthesisError | src/app3.py:188-189 | the synthesizer's error message behind the warning label; `Router.ProcessQuery` states that a failed synthesis returns it |
| Router.SearchBlocks | src/app3.py:139-160 | the blocks of the search step; `RoutingProperties.SearchBlockPresence` and `RoutingProperties.SearchBlocksLabelled` state what they are |
| Router.KnowledgeStage | src/app3.py:114-136 | reference definition of the classification and knowledge-base step; `RoutingProperties.HighScoreKeepsKnowledgeBase`, `LowScoreFallsBackToSearch`, `RetrievalFailureForcesSearch` and `KnowledgeBlocksLabelled` state its outcomes |
| Router.Route | src/app3.py:114-160 | reference definition of the routing stage; the `RoutingProperties` lemmas state which providers it calls and which blocks it produces |
| Router.CombinedContext | src/app3.py:162 | the context handed to the synthesizer; `RoutingProperties.NoInformationOnlyWhenNothingFound` and `RoutingProperties.TwoBlocksJoined` state its two forms |
| Router.SearchStep | src/app3.py:139-160 | the search step appends the search error block, the header block of fragments, or nothing, as the reference definition says |
| Router.KnowledgeStep | src/app3.py:114-136 | the classification and knowledge-base step produces the blocks, the search flag and the provider calls of the reference definition |
| Router.ProcessQuery | src/app3.py:96-189 | the context is the routed blocks joined by the separator line, or the fallback text; calls are the routed calls then synthesis; the answer is the synthesized text or the error text |
| RoutingProperties.TimeSensitiveGoesStraightToSearch | src/app3.py:115-117 | a time-sensitive query calls only search, its blocks are the search blocks, and retriever and scorer outcomes make no difference |
| RoutingProperties.RetrieverCalledIffNotTimeSensitive | src/app3.py:114-120 | the retriever is called exactly when the query is not time-sensitive |
| RoutingProperties.SearchCalledIff | src/app3.py:114-141 | search is called exactly when the query is time-sensitive, retrieval failed, or the score is below 5 |
| RoutingProperties.HighScoreKeepsKnowledgeBase | src/app3.py:124-127 | a score of at least 5 gives the single knowledge-base block, and the calls are retriever then scorer only |
| RoutingProperties.LowScoreFallsBackToSearch | src/app3.py:128-132 | a score below 5 gives the low-score notice followed by the search blocks, and search is called last |
| RoutingProperties.RetrievalFailureForcesSearch | src/app3.py:134-136 | a retriever failure gives the error block followed by the search blocks, and search is called |
| RoutingProperties.SearchFailureIsFinal | src/app3.py:159-160 | when search is called and fails, its error block is the last block and search the last call |
| RoutingProperties.ResultsShape | src/app3.py:103-160 | at most two blocks; none only for a time-sensitive query; a second block always comes from search |
| RoutingProperties.SearchBlocksLabelled | src/app3.py:155-160 | every search-step block opens with a bold label |
| RoutingProperties.KnowledgeBlocksLabelled | src/app3.py:125-135 | every knowledge-base-step block opens with a bold label |
| RoutingProperties.BlocksAreLabelled | src/app3.py:125-160 | every routed block opens with a bold label |
| RoutingProperties.NoInformationOnlyWhenNothingFound | src/app3.py:162 | the context is the fallback text exactly when there are no blocks, which needs a time-sensitive query |
| RoutingProperties.TwoBlocksJoined | src/app3.py:162 | two blocks are combined as first, separator line, second |
| RoutingProperties.ScorerSeesContextPreview | src/app3.py:120-122 | a scorer call happens only after a successful retrieval, and its prompt contains the preview of the joined passages and the query |
| RoutingProperties.SearchBlockPresence | src/app3.py:143-157 | a successful search adds a block exactly when some result qualifies, and that block is the header followed by the joined fragments |
| RoutingCases.StockPriceTodayIsTimeSensitive | tests/test_query_routing.py:24 | the BRK.A stock price query is time-sensitive |
| RoutingCases.YesterdayIsTimeSensitive | tests/test_query_routing.py:25 | the yesterday query is time-sensitive |
| RoutingCases.CurrentPriceIsTimeSensitive | tests/test_query_routing.py:26 | the Apple current price query is time-sensitive |
| RoutingCases.CapitalisedRecentIsTimeSensitive | tests/test_query_routing.py:27 | "Recent news …" is time-sensitive although the keyword is capitalised |
| RoutingCases.InvestmentPhilosophyIsNotTimeSensitive | tests/test_query_routing.py:28 | the investment philosophy query is not time-sensitive |
| RoutingCases.CompetencePrincipleIsNotTimeSensitive | tests/test_query_routing.py:29 | the circle of competence query is not time-sensitive |
| RoutingCases.MungerIsNotTimeSensitive | tests/test_query_routing.py:30 | the Munger cryptocurrency query is not time-sensitive |
| RoutingCases.KnowHoldsNow | src/app3.py:112 | substring matching flags "know" as containing "now" |
| RoutingCases.CircleIsNotTimeSensitive | src/app3.py:107-112 | the circle of competence principle question is not time-sensitive |
| RoutingCases.ClampCases | tests/test_query_routing.py:63-69 | -5, 0, 1, 5, 10, 15, 100 clamp to 1, 1, 1, 5, 10, 10, 10 |
| RoutingCases.ThresholdBoundary | tests/test_query_routing.py:50-61 | a reply of "5" gives the single knowledge-base block showing 5/10 and no search; "4" gives the low-score notice first and searches |
| RoutingCases.ReplyEightScoresEight | src/app3.py:90-91 | "8" scores 8 |
| RoutingCases.ReplyTenScoresTen | src/app3.py:90-91 | "10" scores 10 |
| RoutingCases.ReplyZeroClampsToOne | src/app3.py:90-91 | "0" scores 1 |
| RoutingCases.ReplyFifteenClampsToTen | src/app3.py:90-91 | "15" scores 10 |
| RoutingCases.ReplyFourScoresFour | src/app3.py:90-91 | "4" scores 4 |
| RoutingCases.ReplyFiveScoresFive | src/app3.py:90-91 | "5" scores 5 |
| RoutingCases.ReplyMinusFiveScoresFive | src/app3.py:90-91 | "-5" scores 5, since the minus sign is dropped |
| RoutingCases.ReplyEightOutOfTenClampsToTen | src/app3.py:90-91 | "8/10" reads as 81 and scores 10 |
| RoutingCases.ReplyAbcFailsOpen | src/app3.py:90-93 | "abc" scores 7 |
| RoutingCases.ReplyWithoutDigitFailsOpen | src/app3.py:90-93 | the reply "High relevance: 9" scores 7, since its digit lies beyond the first three characters |
| RoutingCases.CircleOfCompetenceFromKnowledgeBase | src/app3.py:114-127 | circle of competence question, one passage, reply "8": retriever and scorer only, and the context is the one knowledge-base block showing 8/10 |
| RoutingCases.ApplePriceFromSearch | src/app3.py:139-157 | Apple price question with one search result: only search is called, and the context is the header and fragment 1 citing the URL |
| RoutingCases.RetrieverFailureStillSearches | src/app3.py:134-141 | the retriever raises: the context opens with the error block and search is still called |

## Left out

- The Streamlit user interface, the chat history and page layout, and
  `setup_rag_and_search`, which builds the retriever (k = 4), the search
  tool (3 results) and the model client. They are not part of the router.
- What the providers do. Retrieval, scoring, search and synthesis are
  inputs (an `Outcome` each), so embedding, ranking and language-model
  behaviour are not modelled. Synthesis is modelled only as the call
  `Synthesize(context, question)`; the text of its prompt template is not
  part of this model.
- Unicode case mapping and Unicode digits. `.lower()` is modelled as ASCII
  lower-casing, and `str.isdigit` as the ASCII digits 0–9.
- Search results that are not a list (`if search_results:` on another
  truthy value), and `content`/`url` values that are not strings. A result
  is either a dictionary with string content and URL (missing keys read as
  "") or a non-dictionary.
- Exceptions raised inside the search loop, or while formatting a block,
  other than the provider call itself. Only the provider calls can fail in
  the model.
- The other scripts in the repository (document download and processing,
  the command-line chat and the older app versions). They are not part of
  the router.
