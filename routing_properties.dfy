/** What the router promises, stated over its reference definition `Route`
    (which `ProcessQuery` is proved to follow), for every query and every
    combination of provider outcomes. */
module RoutingProperties {
  import opened Text
  import opened Providers
  import opened Classifier
  import opened Relevance
  import opened Router

  /** The context the scorer would see when retrieval succeeds. */
  function RagContext(passages: seq<string>): string
  {
    Join(passages, PASSAGE_SEPARATOR)
  }

  /** A time-sensitive query goes straight to search: neither the retriever
      nor the scorer is called, and nothing they would have returned makes a
      difference, not even a score of 10. */
  lemma TimeSensitiveGoesStraightToSearch(
    query: string,
    retrieval: Outcome<seq<string>>, scoreReply: Outcome<string>,
    otherRetrieval: Outcome<seq<string>>, otherReply: Outcome<string>,
    search: Outcome<seq<SearchItem>>
  )
    requires IsTimeSensitive(query)
    ensures Route(query, retrieval, scoreReply, search).calls == [Search(query)]
    ensures Route(query, retrieval, scoreReply, search).results == SearchBlocks(search)
    ensures Route(query, retrieval, scoreReply, search)
         == Route(query, otherRetrieval, otherReply, search)
  {
  }

  /** The retriever is called exactly when the query is not time-sensitive. */
  lemma RetrieverCalledIffNotTimeSensitive(
    query: string, retrieval: Outcome<seq<string>>, scoreReply: Outcome<string>,
    search: Outcome<seq<SearchItem>>
  )
    ensures Retrieve(query) in Route(query, retrieval, scoreReply, search).calls
        <==> !IsTimeSensitive(query)
  {
  }

  /** Search is called exactly when the query is time-sensitive, when the
      retriever failed, or when the knowledge base scored below 5. */
  lemma SearchCalledIff(
    query: string, retrieval: Outcome<seq<string>>, scoreReply: Outcome<string>,
    search: Outcome<seq<SearchItem>>
  )
    ensures Search(query) in Route(query, retrieval, scoreReply, search).calls
        <==> IsTimeSensitive(query)
             || retrieval.Err?
             || EvaluateRelevance(query, RagContext(retrieval.value), scoreReply) < RELEVANCE_THRESHOLD
  {
  }

  /** A score at or above the threshold keeps the knowledge base alone: one
      block, labelled with the score, and no search. */
  lemma HighScoreKeepsKnowledgeBase(
    query: string, passages: seq<string>, scoreReply: Outcome<string>,
    search: Outcome<seq<SearchItem>>
  )
    requires !IsTimeSensitive(query)
    requires EvaluateRelevance(query, RagContext(passages), scoreReply) >= RELEVANCE_THRESHOLD
    ensures var score := EvaluateRelevance(query, RagContext(passages), scoreReply);
      Route(query, Ok(passages), scoreReply, search)
      == Routing([KnowledgeBlock(score, RagContext(passages))],
                 [Retrieve(query), Score(EvaluationPrompt(query, RagContext(passages)))])
  {
  }

  /** A score below the threshold leaves the low-score notice first and the
      search outcome's blocks after it. */
  lemma LowScoreFallsBackToSearch(
    query: string, passages: seq<string>, scoreReply: Outcome<string>,
    search: Outcome<seq<SearchItem>>
  )
    requires !IsTimeSensitive(query)
    requires EvaluateRelevance(query, RagContext(passages), scoreReply) < RELEVANCE_THRESHOLD
    ensures var score := EvaluateRelevance(query, RagContext(passages), scoreReply);
      var routing := Route(query, Ok(passages), scoreReply, search);
      && routing.results == [LowScoreBlock(score)] + SearchBlocks(search)
      && routing.calls
         == [Retrieve(query), Score(EvaluationPrompt(query, RagContext(passages))), Search(query)]
  {
  }

  /** A retriever failure becomes a visible error block and forces search. */
  lemma RetrievalFailureForcesSearch(
    query: string, msg: string, scoreReply: Outcome<string>, search: Outcome<seq<SearchItem>>
  )
    requires !IsTimeSensitive(query)
    ensures var routing := Route(query, Err(msg), scoreReply, search);
      && routing.results == [RETRIEVAL_ERROR_LABEL + msg] + SearchBlocks(search)
      && routing.calls == [Retrieve(query), Search(query)]
  {
  }

  /** A search failure is the last block, and no further provider is tried. */
  lemma {:induction false} SearchFailureIsFinal(
    query: string, retrieval: Outcome<seq<string>>, scoreReply: Outcome<string>, msg: string
  )
    requires Search(query) in Route(query, retrieval, scoreReply, Err(msg)).calls
    ensures var routing := Route(query, retrieval, scoreReply, Err(msg));
      && routing.results != []
      && routing.results[|routing.results| - 1] == SEARCH_ERROR_LABEL + msg
      && routing.calls[|routing.calls| - 1] == Search(query)
  {
    SearchCalledIff(query, retrieval, scoreReply, Err(msg));
  }

  /** `results` never holds more than two blocks; a second block always comes
      from search; and no block at all is possible only for a time-sensitive
      query, since every other query contributes a retrieval-side block. */
  lemma {:induction false} ResultsShape(
    query: string, retrieval: Outcome<seq<string>>, scoreReply: Outcome<string>,
    search: Outcome<seq<SearchItem>>
  )
    ensures var routing := Route(query, retrieval, scoreReply, search);
      && |routing.results| <= 2
      && (routing.results == [] ==> IsTimeSensitive(query))
      && (|routing.results| == 2 ==> routing.results[1..] == SearchBlocks(search))
  {
    assert |SearchBlocks(search)| <= 1;
  }

  /** A block whose label starts bold starts bold itself. */
  lemma {:induction false} BoldLabel(head: string, rest: string)
    requires BOLD <= head
    ensures "**" <= head + rest
  {
    assert (head + rest)[..2] == head[..2] == BOLD;
  }

  /** Every block of the search step starts with a bold label. */
  lemma {:induction false} SearchBlocksLabelled(search: Outcome<seq<SearchItem>>)
    ensures forall b :: b in SearchBlocks(search) ==> "**" <= b
  {
    match search
    case Err(msg) =>
      BoldLabel(SEARCH_ERROR_LABEL, msg);
    case Ok(items) =>
      BoldLabel(SEARCH_HEADER, Join(Fragments(items), FRAGMENT_SEPARATOR));
  }

  /** Every block of the knowledge-base step starts with a bold label. */
  lemma {:induction false} KnowledgeBlocksLabelled(
    query: string, retrieval: Outcome<seq<string>>, scoreReply: Outcome<string>
  )
    ensures forall b :: b in KnowledgeStage(query, retrieval, scoreReply).results ==> "**" <= b
  {
    match retrieval
    case Err(msg) =>
      BoldLabel(RETRIEVAL_ERROR_LABEL, msg);
    case Ok(passages) =>
      var ragContext := RagContext(passages);
      var score := EvaluateRelevance(query, ragContext, scoreReply);
      BoldLabel(KNOWLEDGE_LABEL, Decimal(score) + KNOWLEDGE_SCALE + ragContext);
      BoldLabel(LOW_SCORE_LABEL, Decimal(score) + LOW_SCORE_SCALE);
  }

  /** Every block the router produces starts with a bold label. */
  lemma {:induction false} BlocksAreLabelled(
    query: string, retrieval: Outcome<seq<string>>, scoreReply: Outcome<string>,
    search: Outcome<seq<SearchItem>>
  )
    ensures forall b :: b in Route(query, retrieval, scoreReply, search).results ==> "**" <= b
  {
    KnowledgeBlocksLabelled(query, retrieval, scoreReply);
    SearchBlocksLabelled(search);
  }

  /** The combined context is the fallback text exactly when no block was
      produced, which only a time-sensitive query can lead to. */
  lemma {:induction false} NoInformationOnlyWhenNothingFound(
    query: string, retrieval: Outcome<seq<string>>, scoreReply: Outcome<string>,
    search: Outcome<seq<SearchItem>>
  )
    ensures var results := Route(query, retrieval, scoreReply, search).results;
      && (CombinedContext(results) == NO_INFORMATION <==> results == [])
      && (CombinedContext(results) == NO_INFORMATION ==> IsTimeSensitive(query))
  {
    var results := Route(query, retrieval, scoreReply, search).results;
    ResultsShape(query, retrieval, scoreReply, search);
    if results != [] {
      BlocksAreLabelled(query, retrieval, scoreReply, search);
      assert results[0] in results;
      assert results[0] <= CombinedContext(results);
      assert CombinedContext(results)[0] == '*';
      assert NO_INFORMATION[0] == 'N';
    }
  }

  /** Two blocks are joined by the separator line. */
  lemma {:induction false} TwoBlocksJoined(
    query: string, retrieval: Outcome<seq<string>>, scoreReply: Outcome<string>,
    search: Outcome<seq<SearchItem>>
  )
    requires |Route(query, retrieval, scoreReply, search).results| == 2
    ensures var results := Route(query, retrieval, scoreReply, search).results;
      CombinedContext(results) == results[0] + BLOCK_SEPARATOR + results[1]
  {
    var results := Route(query, retrieval, scoreReply, search).results;
    assert results == [results[0], results[1]];
    JoinTwo(results[0], results[1], BLOCK_SEPARATOR);
  }

  /** When the scorer is consulted, its prompt shows it the first 1500
      characters of the joined passages and the whole query. */
  lemma ScorerSeesContextPreview(
    query: string, retrieval: Outcome<seq<string>>, scoreReply: Outcome<string>,
    search: Outcome<seq<SearchItem>>
  )
    ensures forall c :: c in Route(query, retrieval, scoreReply, search).calls && c.Score? ==>
      && retrieval.Ok?
      && Contains(c.prompt, Preview(RagContext(retrieval.value)))
      && Contains(c.prompt, query)
  {
    var calls := Route(query, retrieval, scoreReply, search).calls;
    if !IsTimeSensitive(query) && retrieval.Ok? {
      var prompt := EvaluationPrompt(query, RagContext(retrieval.value));
      assert calls == [Retrieve(query), Score(prompt)] || calls == [Retrieve(query), Score(prompt), Search(query)];
    } else {
      assert forall c :: c in calls ==> !c.Score?;
    }
  }

  /** The search step adds exactly one block unless the search succeeded
      with no qualifying result; with qualifying results that block lists
      their fragments. */
  lemma {:induction false} SearchBlockPresence(items: seq<SearchItem>)
    ensures SearchBlocks(Ok(items)) == [] <==> forall i :: 0 <= i < |items| ==> !Qualifies(items[i])
    ensures SearchBlocks(Ok(items)) != [] ==>
      SearchBlocks(Ok(items)) == [SEARCH_HEADER + Join(Fragments(items), FRAGMENT_SEPARATOR)]
  {
    NoFragmentsIffNoneQualifies(items);
  }
}
