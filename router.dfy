/** `process_query`: routes one query to the knowledge base, to web search or
    to both, and assembles the context handed to the answer synthesizer.

    The four provider calls are inputs: the retriever's passages or failure,
    the scorer's reply or failure, the search results or failure, and the
    synthesizer's text or failure. Besides the answer and the combined
    context, the router reports which providers it called, in order, so
    that which calls happen can be stated. */
module Router {
  import opened Text
  import opened Providers
  import opened Classifier
  import opened Relevance

  /** Scores at or above this keep the knowledge base; below it, search. */
  const RELEVANCE_THRESHOLD := 5

  const PASSAGE_SEPARATOR := "\n\n"
  const FRAGMENT_SEPARATOR := "\n\n"
  const BLOCK_SEPARATOR := "\n\n---\n\n"
  const NO_INFORMATION := "No relevant information found."
  /** Markdown bold marker; every block the router builds opens with it. */
  const BOLD := "**"
  const SEARCH_HEADER := BOLD + "Real-Time Web Search Results:**\n\n"

  /** One entry of the search provider's result list: a dictionary, whose
      missing `content` or `url` key reads as the empty string, or anything
      else. */
  datatype SearchItem = NonDict | Dict(content: string, url: string)

  datatype ProviderCall =
    | Retrieve(query: string)
    | Score(prompt: string)
    | Search(query: string)
    | Synthesize(context: string, question: string)

  /** What the routing stage produces before synthesis: the labelled blocks
      in the order they were appended, and the provider calls made. */
  datatype Routing = Routing(results: seq<string>, calls: seq<ProviderCall>)

  /** What the knowledge-base step leaves behind: its blocks, the
      `use_search` flag, and its provider calls. */
  datatype Stage = Stage(results: seq<string>, useSearch: bool, calls: seq<ProviderCall>)

  // ---------------------------------------------------------------------
  // Labelled blocks
  // ---------------------------------------------------------------------

  const KNOWLEDGE_LABEL := BOLD + "From Buffett's Knowledge Base:** (Relevance: "
  const KNOWLEDGE_SCALE := "/10)\n"
  const LOW_SCORE_LABEL := BOLD + "\U{1F50D} RAG Check:** Knowledge base relevance score: "
  const LOW_SCORE_SCALE := "/10 (too low). Searching the web..."
  const RETRIEVAL_ERROR_LABEL := BOLD + "RAG Retrieval Error:** "
  const SEARCH_ERROR_LABEL := BOLD + "Search Error:** "
  const SOURCE_LABEL := BOLD + "Source "
  const SOURCE_COLON := ":** "
  const SOURCE_URL := "\n\U{1F4CE} URL: "
  const SYNTHESIS_ERROR_LABEL := "\U{26A0}\U{FE0F} **Error generating response:** "

  /** The block that keeps the retrieved passages, with the score shown as
      decimal text. */
  function KnowledgeBlock(score: nat, ragContext: string): string
  {
    KNOWLEDGE_LABEL + Decimal(score) + KNOWLEDGE_SCALE + ragContext
  }

  /** The notice left when the score is below the threshold. */
  function LowScoreBlock(score: nat): string
  {
    LOW_SCORE_LABEL + Decimal(score) + LOW_SCORE_SCALE
  }

  function RetrievalErrorBlock(msg: string): string
  {
    RETRIEVAL_ERROR_LABEL + msg
  }

  function SearchErrorBlock(msg: string): string
  {
    SEARCH_ERROR_LABEL + msg
  }

  /** One search result, numbered `number`. */
  function SourceFragment(number: nat, content: string, url: string): string
  {
    SOURCE_LABEL + Decimal(number) + SOURCE_COLON + content + SOURCE_URL + url
  }

  function SynthesisError(msg: string): string
  {
    SYNTHESIS_ERROR_LABEL + msg
  }

  // ---------------------------------------------------------------------
  // Search fragments
  // ---------------------------------------------------------------------

  /** A search result yields a fragment when it is a dictionary with
      non-empty content. */
  predicate Qualifies(item: SearchItem)
  {
    item.Dict? && item.content != ""
  }

  /** The fragments for `items`, each numbered by its 1-based position in
      `items`; defined on prefixes, the way the loop builds it. */
  function Fragments(items: seq<SearchItem>): seq<string>
  {
    if items == [] then []
    else
      var last := |items| - 1;
      Fragments(items[..last])
      + if Qualifies(items[last])
        then [SourceFragment(last + 1, items[last].content, items[last].url)]
        else []
  }

  /** The positions of the qualifying results, in increasing order. */
  function QualifyingPositions(items: seq<SearchItem>): seq<nat>
  {
    if items == [] then []
    else
      var last := |items| - 1;
      QualifyingPositions(items[..last]) + if Qualifies(items[last]) then [last] else []
  }

  /** One fragment per qualifying result. */
  lemma {:induction false} FragmentsCount(items: seq<SearchItem>)
    ensures |Fragments(items)| == |QualifyingPositions(items)|
  {
    if items != [] {
      FragmentsCount(items[..|items| - 1]);
    }
  }

  /** The j-th fragment belongs to the j-th qualifying result and carries
      that result's own 1-based position (so numbers skip over results that
      do not qualify). */
  lemma {:induction false} FragmentAt(items: seq<SearchItem>, j: nat)
    requires j < |QualifyingPositions(items)|
    ensures var p := QualifyingPositions(items)[j];
      && p < |items| && Qualifies(items[p])
      && j < |Fragments(items)|
      && Fragments(items)[j] == SourceFragment(p + 1, items[p].content, items[p].url)
  {
    var last := |items| - 1;
    var prefix := items[..last];
    FragmentsCount(prefix);
    if j < |QualifyingPositions(prefix)| {
      FragmentAt(prefix, j);
      var p := QualifyingPositions(prefix)[j];
      assert prefix[p] == items[p];
    }
  }

  /** Fragments keep the input order. */
  lemma {:induction false} PositionsIncrease(items: seq<SearchItem>)
    ensures forall p :: p in QualifyingPositions(items) ==> p < |items|
    ensures forall j, k :: 0 <= j < k < |QualifyingPositions(items)| ==>
      QualifyingPositions(items)[j] < QualifyingPositions(items)[k]
  {
    if items != [] {
      var prefix := items[..|items| - 1];
      PositionsIncrease(prefix);
      var last := |items| - 1;
      var pp := QualifyingPositions(prefix);
      var ps := QualifyingPositions(items);
      assert ps == pp + if Qualifies(items[last]) then [last] else [];
      forall j, k | 0 <= j < k < |ps| ensures ps[j] < ps[k] {
        assert ps[j] == pp[j] && pp[j] in pp;
        if k < |pp| {
          assert ps[k] == pp[k];
        }
      }
    }
  }

  /** Every qualifying result has its fragment. */
  lemma {:induction false} PositionsComplete(items: seq<SearchItem>)
    ensures forall i :: 0 <= i < |items| && Qualifies(items[i]) ==> i in QualifyingPositions(items)
  {
    if items != [] {
      var last := |items| - 1;
      var prefix := items[..last];
      PositionsComplete(prefix);
      forall i | 0 <= i < last && Qualifies(items[i]) ensures i in QualifyingPositions(items) {
        assert prefix[i] == items[i];
      }
    }
  }

  /** No search block can be built exactly when no result qualifies. */
  lemma NoFragmentsIffNoneQualifies(items: seq<SearchItem>)
    ensures Fragments(items) == [] <==> forall i :: 0 <= i < |items| ==> !Qualifies(items[i])
  {
    FragmentsCount(items);
    PositionsComplete(items);
    if QualifyingPositions(items) != [] {
      FragmentAt(items, 0);
    }
  }

  // ---------------------------------------------------------------------
  // The routing decision
  // ---------------------------------------------------------------------

  /** The blocks the search step appends, for a search outcome. */
  function SearchBlocks(search: Outcome<seq<SearchItem>>): seq<string>
  {
    match search
    case Err(msg) => [SearchErrorBlock(msg)]
    case Ok(items) =>
      var fragments := Fragments(items);
      if fragments == [] then [] else [SEARCH_HEADER + Join(fragments, FRAGMENT_SEPARATOR)]
  }

  /** The knowledge-base step: the blocks it appends, whether it asks for
      search, and the provider calls it makes. */
  function KnowledgeStage(
    query: string,
    retrieval: Outcome<seq<string>>,
    scoreReply: Outcome<string>
  ): Stage
  {
    if IsTimeSensitive(query) then
      Stage([], true, [])
    else
      match retrieval
      case Err(msg) =>
        Stage([RetrievalErrorBlock(msg)], true, [Retrieve(query)])
      case Ok(passages) =>
        var ragContext := Join(passages, PASSAGE_SEPARATOR);
        var score := EvaluateRelevance(query, ragContext, scoreReply);
        var consulted := [Retrieve(query), Score(EvaluationPrompt(query, ragContext))];
        if score >= RELEVANCE_THRESHOLD then
          Stage([KnowledgeBlock(score, ragContext)], false, consulted)
        else
          Stage([LowScoreBlock(score)], true, consulted)
  }

  /** Reference definition of the routing stage: the knowledge-base step,
      then the search step when it was asked for. */
  function Route(
    query: string,
    retrieval: Outcome<seq<string>>,
    scoreReply: Outcome<string>,
    search: Outcome<seq<SearchItem>>
  ): Routing
  {
    var kb := KnowledgeStage(query, retrieval, scoreReply);
    if kb.useSearch then
      Routing(kb.results + SearchBlocks(search), kb.calls + [Search(query)])
    else
      Routing(kb.results, kb.calls)
  }

  /** The context handed to the synthesizer. */
  function CombinedContext(results: seq<string>): string
  {
    if results == [] then NO_INFORMATION else Join(results, BLOCK_SEPARATOR)
  }

  // ---------------------------------------------------------------------
  // The router
  // ---------------------------------------------------------------------

  /** The `for` loop over the search results: one fragment per dictionary
      with non-empty content, numbered by its position in the results. */
  method CollectFragments(items: seq<SearchItem>) returns (summaries: seq<string>)
    ensures summaries == Fragments(items)
  {
    summaries := [];
    for i := 0 to |items|
      invariant summaries == Fragments(items[..i])
    {
      assert items[..i + 1][..i] == items[..i];
      match items[i]
      case NonDict =>
      case Dict(content, url) =>
        if content != "" {
          summaries := summaries + [SourceFragment(i + 1, content, url)];
        }
    }
    assert items[..|items|] == items;
  }

  /** The search step: a failure becomes an error block; otherwise the
      qualifying results become one block, and none qualifying adds nothing. */
  method SearchStep(search: Outcome<seq<SearchItem>>) returns (blocks: seq<string>)
    ensures blocks == SearchBlocks(search)
  {
    blocks := [];
    match search
    case Err(msg) =>
      blocks := blocks + [SearchErrorBlock(msg)];
    case Ok(items) =>
      if |items| > 0 {
        var summaries := CollectFragments(items);
        if |summaries| > 0 {
          blocks := blocks + [SEARCH_HEADER + Join(summaries, FRAGMENT_SEPARATOR)];
        }
      }
  }

  /** The `try` block around retrieval and scoring: time-sensitive queries
      skip it; a retriever failure becomes an error block and asks for
      search; otherwise the score decides between the knowledge-base block
      and the low-score notice followed by search. */
  method KnowledgeStep(query: string, retrieval: Outcome<seq<string>>, scoreReply: Outcome<string>)
    returns (results: seq<string>, useSearch: bool, calls: seq<ProviderCall>)
    ensures Stage(results, useSearch, calls) == KnowledgeStage(query, retrieval, scoreReply)
  {
    results := [];
    useSearch := false;
    calls := [];
    if IsTimeSensitive(query) {
      useSearch := true;
    } else {
      calls := calls + [Retrieve(query)];
      match retrieval
      case Err(msg) =>
        results := results + [RetrievalErrorBlock(msg)];
        useSearch := true;
      case Ok(passages) =>
        var ragContext := Join(passages, PASSAGE_SEPARATOR);
        calls := calls + [Score(EvaluationPrompt(query, ragContext))];
        var score := EvaluateRelevance(query, ragContext, scoreReply);
        assert KnowledgeStage(query, retrieval, scoreReply).calls == calls;
        if score >= RELEVANCE_THRESHOLD {
          results := results + [KnowledgeBlock(score, ragContext)];
        } else {
          results := results + [LowScoreBlock(score)];
          useSearch := true;
        }
    }
  }

  /** The whole query: route, combine the blocks (or the fallback text when
      there are none), and hand the context and the question to the
      synthesizer, whose failure is returned as text, never raised. */
  method ProcessQuery(
    query: string,
    retrieval: Outcome<seq<string>>,
    scoreReply: Outcome<string>,
    search: Outcome<seq<SearchItem>>,
    synthesis: Outcome<string>
  ) returns (answer: string, context: string, calls: seq<ProviderCall>)
    ensures var routing := Route(query, retrieval, scoreReply, search);
      && context == CombinedContext(routing.results)
      && calls == routing.calls + [Synthesize(context, query)]
    ensures synthesis.Ok? ==> answer == synthesis.value
    ensures synthesis.Err? ==> answer == SynthesisError(synthesis.msg)
  {
    var results, useSearch;
    results, useSearch, calls := KnowledgeStep(query, retrieval, scoreReply);

    if useSearch {
      calls := calls + [Search(query)];
      var blocks := SearchStep(search);
      results := results + blocks;
    }

    context := if |results| > 0 then Join(results, BLOCK_SEPARATOR) else NO_INFORMATION;
    calls := calls + [Synthesize(context, query)];
    match synthesis
    case Ok(text) =>
      answer := text;
    case Err(msg) =>
      answer := SynthesisError(msg);
  }
}
