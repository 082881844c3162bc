/** The time-sensitivity test of `process_query`: a query is time-sensitive
    when one of ten literal keywords is a substring of the lower-cased query.
    The match is a plain substring test, not a whole-word one, so "know"
    contains "now" and "stocks" contains "stock". */
module Classifier {
  import opened Text

  /** The keywords, in the order the router tries them; all are lower-case. */
  const TIME_KEYWORDS: seq<string> := [
    "yesterday", "today", "current", "now", "latest", "recent",
    "this week", "last week", "price", "stock"
  ]

  /** Some keyword of `keywords` is a substring of `s`. */
  function AnyOccurs(keywords: seq<string>, s: string): (r: bool)
    ensures r <==> exists k :: k in keywords && Contains(s, k)
  {
    if keywords == [] then false
    else
      var r := Contains(s, keywords[0]) || AnyOccurs(keywords[1..], s);
      assert r ==> exists k :: k in keywords && Contains(s, k) by {
        if Contains(s, keywords[0]) {
          assert keywords[0] in keywords;
        } else if r {
          var k :| k in keywords[1..] && Contains(s, k);
          assert k in keywords;
        }
      }
      assert (exists k :: k in keywords && Contains(s, k)) ==> r by {
        if k :| k in keywords && Contains(s, k) {
          if k != keywords[0] {
            assert k in keywords[1..];
          }
        }
      }
      r
  }

  /** The query, lower-cased, contains at least one of the ten keywords. */
  function IsTimeSensitive(query: string): (r: bool)
    ensures r <==> exists k :: k in TIME_KEYWORDS && Contains(Lower(query), k)
  {
    AnyOccurs(TIME_KEYWORDS, Lower(query))
  }

  /** Every keyword is already lower-case, so lower-casing the query can
      never hide a keyword written in capitals. */
  lemma KeywordsAreLowerCase()
    ensures forall k :: k in TIME_KEYWORDS ==> NoUpper(k)
  {
  }

  /** A keyword written anywhere in the query, in any mix of cases once
      lower-cased, makes it time-sensitive; the test is insensitive to case. */
  lemma {:induction false} TimeSensitiveIgnoresCase(query: string)
    ensures IsTimeSensitive(Lower(query)) == IsTimeSensitive(query)
  {
    LowerIdempotent(query);
  }

  /** A keyword that occurs verbatim in the query makes it time-sensitive. */
  lemma {:induction false} KeywordMakesTimeSensitive(query: string, k: string)
    requires k in TIME_KEYWORDS && Contains(query, k)
    ensures IsTimeSensitive(query)
  {
    KeywordsAreLowerCase();
    ContainsLower(query, k);
  }

  /** Substring matching: a time-sensitive query stays time-sensitive
      whatever text surrounds it. */
  lemma {:induction false} TimeSensitiveWithin(pre: string, query: string, post: string)
    requires IsTimeSensitive(query)
    ensures IsTimeSensitive(pre + query + post)
  {
    var k :| k in TIME_KEYWORDS && Contains(Lower(query), k);
    LowerAppend(pre, query);
    LowerAppend(pre + query, post);
    ContainsWithin(Lower(pre), Lower(query), Lower(post), k);
  }

  /** A query is not time-sensitive when, for each keyword, two adjacent
      letters of it (those at `js[m]` and `js[m] + 1` for the m-th keyword,
      listed as `xs[m]` and `ys[m]`) never stand side by side in the
      lower-cased query. */
  lemma {:induction false} NotTimeSensitiveByPairs(query: string, js: seq<nat>, xs: string, ys: string)
    requires |js| == |xs| == |ys| == |TIME_KEYWORDS|
    requires forall m :: 0 <= m < |js| ==>
      && js[m] + 1 < |TIME_KEYWORDS[m]|
      && TIME_KEYWORDS[m][js[m]] == xs[m] && TIME_KEYWORDS[m][js[m] + 1] == ys[m]
    requires NoPairs(Lower(query), xs, ys)
    ensures !IsTimeSensitive(query)
  {
    forall m | 0 <= m < |js| ensures !Contains(Lower(query), TIME_KEYWORDS[m]) {
      NotContainsByPair(Lower(query), TIME_KEYWORDS[m], js[m]);
    }
  }
}
