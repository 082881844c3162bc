/** `evaluate_rag_relevance`: the prompt sent to the scoring model, and the
    parsing of its reply into a score in [1, 10].

    The reply is an input: either the text the model returned or the message
    of the exception the call raised. Parsing keeps the digit characters
    among the first three characters of the reply, reads them as one decimal
    number and clamps it to [1, 10]. No digit at all, or a failed call, gives
    the fail-open score 7, which trusts the knowledge base. A minus sign is
    not a digit and is dropped, so "-5" scores 5; "8/10" reads as 81 and
    scores 10. */
module Relevance {
  import opened Text
  import opened Providers

  const MIN_SCORE := 1
  const MAX_SCORE := 10

  /** The score given when the scorer fails or its reply holds no digit. */
  const FAIL_OPEN_SCORE := 7

  /** How many characters of the retrieved context the prompt shows. */
  const CONTEXT_PREVIEW := 1500

  /** How many leading characters of the reply are searched for digits. */
  const REPLY_PREFIX := 3

  const PROMPT_HEAD :=
    "You are a STRICT evaluator. Determine if the context can DIRECTLY answer the EXACT question asked.\n\nContext:\n"
  const PROMPT_QUESTION := "\n\nQuestion: "
  const PROMPT_RUBRIC :=
    "\n\nRate relevance 1-10:\n"
    + "- 1-2: Context completely irrelevant to the question\n"
    + "- 3-4: Context mentions related topics BUT does NOT answer the specific question\n"
    + "- 5-6: Context partially relevant but missing key information needed to answer\n"
    + "- 7-8: Context has most information needed but may lack some specifics\n"
    + "- 9-10: Context directly and completely answers the question\n\n"
    + "CRITICAL: If question asks for CURRENT/RECENT/YESTERDAY data but context only has HISTORICAL information, score 1-3 maximum.\n\n"
    + "Respond ONLY with a number 1-10."

  /** The part of the context the scorer gets to see. */
  function Preview(context: string): (p: string)
    ensures p <= context
    ensures |p| == Min(CONTEXT_PREVIEW, |context|)
  {
    context[..Min(CONTEXT_PREVIEW, |context|)]
  }

  /** The evaluation prompt: it shows the scorer the first 1500 characters of
      the context and the whole query. */
  function EvaluationPrompt(query: string, context: string): (prompt: string)
    ensures Contains(prompt, Preview(context))
    ensures Contains(prompt, query)
  {
    ContainsFields(PROMPT_HEAD, Preview(context), PROMPT_QUESTION, query, PROMPT_RUBRIC);
    PROMPT_HEAD + Preview(context) + PROMPT_QUESTION + query + PROMPT_RUBRIC
  }

  /** Contexts that agree on their first 1500 characters give the same
      prompt: nothing after the preview reaches the scorer. */
  lemma PromptIgnoresContextBeyondPreview(query: string, c1: string, c2: string)
    requires Preview(c1) == Preview(c2)
    ensures EvaluationPrompt(query, c1) == EvaluationPrompt(query, c2)
  {
  }

  /** `min(max(n, 1), 10)`. */
  function Clamp(n: int): (r: int)
    ensures MIN_SCORE <= r <= MAX_SCORE
    ensures MIN_SCORE <= n <= MAX_SCORE ==> r == n
    ensures n < MIN_SCORE ==> r == MIN_SCORE
    ensures n > MAX_SCORE ==> r == MAX_SCORE
  {
    var atLeastOne := if n < MIN_SCORE then MIN_SCORE else n;
    if atLeastOne > MAX_SCORE then MAX_SCORE else atLeastOne
  }

  /** The leading characters of the reply that parsing looks at. */
  function ReplyHead(reply: string): (h: string)
    ensures h <= reply
    ensures |h| == Min(REPLY_PREFIX, |reply|)
  {
    reply[..Min(REPLY_PREFIX, |reply|)]
  }

  /** The score a reply text parses to. */
  function ParseScore(reply: string): (score: int)
    ensures MIN_SCORE <= score <= MAX_SCORE
    ensures (forall i :: 0 <= i < |reply| && i < REPLY_PREFIX ==> !IsDigit(reply[i]))
            ==> score == FAIL_OPEN_SCORE
  {
    var digits := Digits(ReplyHead(reply));
    if digits == [] then FAIL_OPEN_SCORE else Clamp(DecimalValue(digits))
  }

  /** The score for a scorer outcome: a failed call is not propagated and
      gives the fail-open score. The query and the context are not read here
      (the prompt is `EvaluationPrompt(query, context)`); they are kept so
      that the signature mirrors `evaluate_rag_relevance`. */
  function EvaluateRelevance(query: string, context: string, reply: Outcome<string>): (score: int)
    ensures MIN_SCORE <= score <= MAX_SCORE
    ensures reply.Err? ==> score == FAIL_OPEN_SCORE
    ensures reply.Ok? ==> score == ParseScore(reply.value)
  {
    match reply
    case Err(_) => FAIL_OPEN_SCORE
    case Ok(text) => ParseScore(text)
  }

  /** A reply that opens with one to three digits, followed by no further
      digit within the first three characters, scores those digits read as a
      decimal number and clamped to [1, 10]. */
  lemma {:induction false} DigitHeadParses(ds: string, rest: string)
    requires AllDigits(ds) && 1 <= |ds| <= REPLY_PREFIX
    requires forall i :: 0 <= i < |rest| && i < REPLY_PREFIX - |ds| ==> !IsDigit(rest[i])
    ensures ParseScore(ds + rest) == Clamp(DecimalValue(ds))
  {
    var tail := rest[..Min(REPLY_PREFIX - |ds|, |rest|)];
    assert ReplyHead(ds + rest) == ds + tail;
    DigitsAppend(ds, tail);
    DigitsOfDigits(ds);
    assert forall i :: 0 <= i < |tail| ==> tail[i] == rest[i];
  }

  /** The reply the prompt asks for, a bare score, parses back to that score;
      so does a score followed by text whose first two characters are not
      digits. */
  lemma {:induction false} WellFormedReply(k: nat, rest: string)
    requires MIN_SCORE <= k <= MAX_SCORE
    requires forall i :: 0 <= i < |rest| && i < 2 ==> !IsDigit(rest[i])
    ensures ParseScore(Decimal(k) + rest) == k
  {
    DigitHeadParses(Decimal(k), rest);
  }

  /** Only the first three characters matter. */
  lemma ParseIgnoresTail(reply: string, tail: string)
    requires |reply| >= REPLY_PREFIX
    ensures ParseScore(reply + tail) == ParseScore(reply)
  {
    assert ReplyHead(reply + tail) == ReplyHead(reply);
  }

  /** Only the digits among the first three characters matter, in order. */
  lemma ParseDependsOnlyOnLeadingDigits(a: string, b: string)
    requires Digits(ReplyHead(a)) == Digits(ReplyHead(b))
    ensures ParseScore(a) == ParseScore(b)
  {
  }

  /** A leading minus sign is dropped rather than read as a sign: it only
      uses up one of the three characters looked at. */
  lemma {:induction false} MinusSignDropped(s: string)
    ensures ParseScore("-" + s) == ParseScore(s[..Min(2, |s|)])
  {
    var short := s[..Min(2, |s|)];
    assert ReplyHead("-" + s) == "-" + short;
    assert ReplyHead(short) == short;
    assert ("-" + short)[1..] == short;
  }
}
