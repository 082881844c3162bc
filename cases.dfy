/** Concrete cases for the router: the queries of the routing tests, the
    replies the scorer may give, and three end-to-end scenarios. Queries
    that have to be shown free of every keyword are written as short pieces
    joined together; the pieces spell the query exactly. */
module RoutingCases {
  import opened Text
  import opened Providers
  import opened Classifier
  import opened Relevance
  import opened Router
  import opened RoutingProperties

  // ---------------------------------------------------------------------
  // Queries with a keyword
  // ---------------------------------------------------------------------

  lemma {:induction false} StockPriceTodayIsTimeSensitive()
    ensures IsTimeSensitive("What is the stock price of BRK.A today?")
  {
    var q := "What is the stock price of BRK.A today?";
    ContainsLowerAt(q, "stock", 12);
    assert "stock" in TIME_KEYWORDS;
  }

  lemma {:induction false} YesterdayIsTimeSensitive()
    ensures IsTimeSensitive("What happened yesterday at the meeting?")
  {
    var q := "What happened yesterday at the meeting?";
    ContainsLowerAt(q, "yesterday", 14);
    assert "yesterday" in TIME_KEYWORDS;
  }

  const APPLE_PRICE_QUERY := "What is the current price of Apple?"

  lemma {:induction false} CurrentPriceIsTimeSensitive()
    ensures IsTimeSensitive(APPLE_PRICE_QUERY)
  {
    var q := "What is the current price of Apple?";
    ContainsLowerAt(q, "current", 12);
    assert "current" in TIME_KEYWORDS;
  }

  /** The capital R is lower-cased before matching. */
  lemma {:induction false} CapitalisedRecentIsTimeSensitive()
    ensures IsTimeSensitive("Recent news about Berkshire Hathaway")
  {
    var q := "Recent news about Berkshire Hathaway";
    ContainsLowerAt(q, "recent", 0);
    assert "recent" in TIME_KEYWORDS;
  }

  /** Substring matching reaches inside words: "know" holds "now". */
  lemma {:induction false} KnowHoldsNow()
    ensures IsTimeSensitive("What do you know about Coca-Cola?")
  {
    var q := "What do you know about Coca-Cola?";
    ContainsLowerAt(q, "now", 13);
    assert "now" in TIME_KEYWORDS;
  }

  // ---------------------------------------------------------------------
  // Queries without a keyword
  // ---------------------------------------------------------------------

  const INVESTMENT_PHILOSOPHY_QUERY := "What is " + "Buffett's " + "investment " + "philosophy?"

  /** The query lower-cased, piece by piece. */
  lemma {:induction false} InvestmentPhilosophyLowerCase()
    ensures Lower(INVESTMENT_PHILOSOPHY_QUERY) == "what is " + "buffett's " + "investment " + "philosophy?"
  {
    var a, b, c, d := "What is ", "Buffett's ", "investment ", "philosophy?";
    LowerAppend(a, b);
    LowerAppend(a + b, c);
    LowerAppend(a + b + c, d);
    assert Lower(a) == "what is " && Lower(b) == "buffett's " && Lower(c) == "investment " && Lower(d) == "philosophy?";
  }

  /** No keyword pair among `ytcnlrtlpt`, `eouoaeharo` occurs in the lower-cased query. */
  lemma {:induction false} InvestmentPhilosophyPairFree()
    ensures NoPairs("what is " + "buffett's " + "investment " + "philosophy?", "ytcnlrtlpt", "eouoaeharo")
  {
    var a, b, c, d := "what is ", "buffett's ", "investment ", "philosophy?";
    var xs, ys := "ytcnlrtlpt", "eouoaeharo";
    NoPairsAppend(a, b, xs, ys);
    NoPairsAppend(a + b, c, xs, ys);
    NoPairsAppend(a + b + c, d, xs, ys);
  }

  lemma {:induction false} InvestmentPhilosophyIsNotTimeSensitive()
    ensures !IsTimeSensitive(INVESTMENT_PHILOSOPHY_QUERY)
  {
    InvestmentPhilosophyLowerCase();
    InvestmentPhilosophyPairFree();
    NotTimeSensitiveByPairs(INVESTMENT_PHILOSOPHY_QUERY, [0, 0, 0, 0, 0, 0, 0, 0, 0, 1], "ytcnlrtlpt", "eouoaeharo");
  }

  const COMPETENCE_PRINCIPLE_QUERY := "Explain " + "the " + "circle of " + "competence " + "principle"

  /** The query lower-cased, piece by piece. */
  lemma {:induction false} CompetencePrincipleLowerCase()
    ensures Lower(COMPETENCE_PRINCIPLE_QUERY) == "explain " + "the " + "circle of " + "competence " + "principle"
  {
    var a, b, c, d, e := "Explain ", "the ", "circle of ", "competence ", "principle";
    LowerAppend(a, b);
    LowerAppend(a + b, c);
    LowerAppend(a + b + c, d);
    LowerAppend(a + b + c + d, e);
    assert Lower(a) == "explain " && Lower(b) == "the " && Lower(c) == "circle of " && Lower(d) == "competence " && Lower(e) == "principle";
  }

  /** No keyword pair among `ytcnarhais`, `eouoteisct` occurs in the lower-cased query. */
  lemma {:induction false} CompetencePrinciplePairFree()
    ensures NoPairs("explain " + "the " + "circle of " + "competence " + "principle", "ytcnarhais", "eouoteisct")
  {
    var a, b, c, d, e := "explain ", "the ", "circle of ", "competence ", "principle";
    var xs, ys := "ytcnarhais", "eouoteisct";
    NoPairsAppend(a, b, xs, ys);
    NoPairsAppend(a + b, c, xs, ys);
    NoPairsAppend(a + b + c, d, xs, ys);
    NoPairsAppend(a + b + c + d, e, xs, ys);
  }

  lemma {:induction false} CompetencePrincipleIsNotTimeSensitive()
    ensures !IsTimeSensitive(COMPETENCE_PRINCIPLE_QUERY)
  {
    CompetencePrincipleLowerCase();
    CompetencePrinciplePairFree();
    NotTimeSensitiveByPairs(COMPETENCE_PRINCIPLE_QUERY, [0, 0, 0, 0, 1, 0, 1, 1, 2, 0], "ytcnarhais", "eouoteisct");
  }

  const MUNGER_QUERY := "What would " + "Munger " + "say about " + "cryptocurrency?"

  /** The query lower-cased, piece by piece. */
  lemma {:induction false} MungerLowerCase()
    ensures Lower(MUNGER_QUERY) == "what would " + "munger " + "say about " + "cryptocurrency?"
  {
    var a, b, c, d := "What would ", "Munger ", "say about ", "cryptocurrency?";
    LowerAppend(a, b);
    LowerAppend(a + b, c);
    LowerAppend(a + b + c, d);
    assert Lower(a) == "what would " && Lower(b) == "munger " && Lower(c) == "say about " && Lower(d) == "cryptocurrency?";
  }

  /** No keyword pair among `yonnletlps`, `edtoachart` occurs in the lower-cased query. */
  lemma {:induction false} MungerPairFree()
    ensures NoPairs("what would " + "munger " + "say about " + "cryptocurrency?", "yonnletlps", "edtoachart")
  {
    var a, b, c, d := "what would ", "munger ", "say about ", "cryptocurrency?";
    var xs, ys := "yonnletlps", "edtoachart";
    NoPairsAppend(a, b, xs, ys);
    NoPairsAppend(a + b, c, xs, ys);
    NoPairsAppend(a + b + c, d, xs, ys);
  }

  lemma {:induction false} MungerIsNotTimeSensitive()
    ensures !IsTimeSensitive(MUNGER_QUERY)
  {
    MungerLowerCase();
    MungerPairFree();
    NotTimeSensitiveByPairs(MUNGER_QUERY, [0, 1, 5, 0, 0, 1, 0, 0, 0, 0], "yonnletlps", "edtoachart");
  }

  const CIRCLE_QUERY := "What is " + "Buffett's " + "circle of " + "competence " + "principle?"

  /** The query lower-cased, piece by piece. */
  lemma {:induction false} CircleLowerCase()
    ensures Lower(CIRCLE_QUERY) == "what is " + "buffett's " + "circle of " + "competence " + "principle?"
  {
    var a, b, c, d, e := "What is ", "Buffett's ", "circle of ", "competence ", "principle?";
    LowerAppend(a, b);
    LowerAppend(a + b, c);
    LowerAppend(a + b + c, d);
    LowerAppend(a + b + c + d, e);
    assert Lower(a) == "what is " && Lower(b) == "buffett's " && Lower(c) == "circle of " && Lower(d) == "competence " && Lower(e) == "principle?";
  }

  /** No keyword pair among `ytcnlrtlis`, `eouoaehact` occurs in the lower-cased query. */
  lemma {:induction false} CirclePairFree()
    ensures NoPairs("what is " + "buffett's " + "circle of " + "competence " + "principle?", "ytcnlrtlis", "eouoaehact")
  {
    var a, b, c, d, e := "what is ", "buffett's ", "circle of ", "competence ", "principle?";
    var xs, ys := "ytcnlrtlis", "eouoaehact";
    NoPairsAppend(a, b, xs, ys);
    NoPairsAppend(a + b, c, xs, ys);
    NoPairsAppend(a + b + c, d, xs, ys);
    NoPairsAppend(a + b + c + d, e, xs, ys);
  }

  lemma {:induction false} CircleIsNotTimeSensitive()
    ensures !IsTimeSensitive(CIRCLE_QUERY)
  {
    CircleLowerCase();
    CirclePairFree();
    NotTimeSensitiveByPairs(CIRCLE_QUERY, [0, 0, 0, 0, 0, 0, 0, 0, 2, 0], "ytcnlrtlis", "eouoaehact");
  }

  // ---------------------------------------------------------------------
  // Scorer replies
  // ---------------------------------------------------------------------

  /** The seven clamping cases of the relevance tests. */
  lemma ClampCases()
    ensures [Clamp(-5), Clamp(0), Clamp(1), Clamp(5), Clamp(10), Clamp(15), Clamp(100)]
         == [1, 1, 1, 5, 10, 10, 10]
  {
  }

  lemma {:induction false} ReplyEightScoresEight()
    ensures ParseScore("8") == 8
  {
    WellFormedReply(8, "");
    assert Decimal(8) + "" == "8";
  }

  lemma {:induction false} ReplyTenScoresTen()
    ensures ParseScore("10") == 10
  {
    WellFormedReply(10, "");
    assert Decimal(10) + "" == "10";
  }

  lemma {:induction false} ReplyZeroClampsToOne()
    ensures ParseScore("0") == MIN_SCORE
  {
    assert ReplyHead("0") == "0";
    DigitsOfDigits("0");
  }

  lemma {:induction false} ReplyFifteenClampsToTen()
    ensures ParseScore("15") == MAX_SCORE
  {
    assert ReplyHead("15") == "15";
    DigitsOfDigits("15");
  }

  lemma {:induction false} ReplyFourScoresFour()
    ensures ParseScore("4") == 4
  {
    WellFormedReply(4, "");
    assert Decimal(4) + "" == "4";
  }

  /** The threshold is inclusive: a reply of "5" keeps the knowledge base
      alone, a reply of "4" adds the low-score notice and searches. */
  lemma {:induction false} ThresholdBoundary(passages: seq<string>, search: Outcome<seq<SearchItem>>)
    ensures Search(CIRCLE_QUERY) !in Route(CIRCLE_QUERY, Ok(passages), Ok("5"), search).calls
    ensures Route(CIRCLE_QUERY, Ok(passages), Ok("5"), search).results
         == [KNOWLEDGE_LABEL + "5" + KNOWLEDGE_SCALE + RagContext(passages)]
    ensures Search(CIRCLE_QUERY) in Route(CIRCLE_QUERY, Ok(passages), Ok("4"), search).calls
    ensures Route(CIRCLE_QUERY, Ok(passages), Ok("4"), search).results[0] == LowScoreBlock(4)
  {
    CircleIsNotTimeSensitive();
    ReplyFiveScoresFive();
    ReplyFourScoresFour();
    SearchCalledIff(CIRCLE_QUERY, Ok(passages), Ok("5"), search);
    HighScoreKeepsKnowledgeBase(CIRCLE_QUERY, passages, Ok("5"), search);
    assert Decimal(5) == "5";
    LowScoreFallsBackToSearch(CIRCLE_QUERY, passages, Ok("4"), search);
  }

  /** The minus sign is dropped, not read: "-5" scores 5, not 1. */
  lemma {:induction false} ReplyMinusFiveScoresFive()
    ensures ParseScore("-5") == 5
  {
    MinusSignDropped("5");
    ReplyFiveScoresFive();
  }

  lemma {:induction false} ReplyFiveScoresFive()
    ensures ParseScore("5") == 5
  {
    WellFormedReply(5, "");
    assert Decimal(5) + "" == "5";
  }

  /** "8/10" reads as 81 (the digits among "8/1"), which clamps to 10. */
  lemma {:induction false} ReplyEightOutOfTenClampsToTen()
    ensures ParseScore("8/10") == MAX_SCORE
  {
    assert ReplyHead("8/10") == "8" + "/" + "1";
    DigitsAppend("8" + "/", "1");
    DigitsAppend("8", "/");
  }

  lemma {:induction false} ReplyAbcFailsOpen()
    ensures ParseScore("abc") == FAIL_OPEN_SCORE
  {
    assert ReplyHead("abc") == "abc";
  }

  /** A reply without a digit among its first three characters fails open. */
  lemma {:induction false} ReplyWithoutDigitFailsOpen()
    ensures ParseScore("High relevance: 9") == FAIL_OPEN_SCORE
  {
    assert ReplyHead("High relevance: 9") == "Hig";
  }

  // ---------------------------------------------------------------------
  // End-to-end scenarios
  // ---------------------------------------------------------------------

  /** A question the knowledge base answers: the scorer replies "8", so the
      context is the single knowledge-base block showing 8/10 and search is
      never called. */
  lemma {:induction false} CircleOfCompetenceFromKnowledgeBase(
    passage: string, search: Outcome<seq<SearchItem>>
  )
    ensures var routing := Route(CIRCLE_QUERY, Ok([passage]), Ok("8"), search);
      && routing.calls == [Retrieve(CIRCLE_QUERY), Score(EvaluationPrompt(CIRCLE_QUERY, passage))]
      && CombinedContext(routing.results) == KNOWLEDGE_LABEL + "8" + KNOWLEDGE_SCALE + passage
  {
    CircleIsNotTimeSensitive();
    ReplyEightScoresEight();
    assert Decimal(8) == "8";
  }

  /** A price question goes to search only; the one search result becomes
      the one numbered fragment, citing its URL. */
  lemma {:induction false} ApplePriceFromSearch(
    retrieval: Outcome<seq<string>>, scoreReply: Outcome<string>
  )
    ensures var item := Dict("AAPL trades at $190", "https://example.com");
      var routing := Route(APPLE_PRICE_QUERY, retrieval, scoreReply, Ok([item]));
      && routing.calls == [Search(APPLE_PRICE_QUERY)]
      && CombinedContext(routing.results) == SEARCH_HEADER + SourceFragment(1, item.content, item.url)
  {
    CurrentPriceIsTimeSensitive();
    var item := Dict("AAPL trades at $190", "https://example.com");
    var fragment := SourceFragment(1, item.content, item.url);
    assert [item][..0] == [];
    assert Fragments([item]) == [fragment];
    assert SearchBlocks(Ok([item])) == [SEARCH_HEADER + fragment];
    TimeSensitiveGoesStraightToSearch(APPLE_PRICE_QUERY, retrieval, scoreReply, retrieval, scoreReply, Ok([item]));
  }

  /** The retriever raises: the context opens with the error block and
      search is still called. */
  lemma {:induction false} RetrieverFailureStillSearches(
    msg: string, scoreReply: Outcome<string>, search: Outcome<seq<SearchItem>>
  )
    ensures var routing := Route(CIRCLE_QUERY, Err(msg), scoreReply, search);
      && routing.calls == [Retrieve(CIRCLE_QUERY), Search(CIRCLE_QUERY)]
      && RETRIEVAL_ERROR_LABEL + msg <= CombinedContext(routing.results)
  {
    CircleIsNotTimeSensitive();
    RetrievalFailureForcesSearch(CIRCLE_QUERY, msg, scoreReply, search);
  }
}
