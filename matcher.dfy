// The response generator: keyword matching over the knowledge base, ranked by difficulty.

module Matcher {
  import opened Knowledge
  import opened Lists
  import Text

  /** The reply given when no catalogue entry matches. */
  function FallbackResponse(): string {
    "I can help with " + "budgeting, saving, " + "investments, taxes, " + "insurance, "
    + "retirement planning, " + "and advanced topics " + "like derivatives, "
    + "portfolio management, " + "and estate planning. "
    + "Try asking: " + "'How do I start investing?' "
    + "or 'What is tax harvesting?' " + "or 'Explain asset allocation'"
  }

  /** Some keyword of the entry occurs in the lowercased input (keywords are used as stored). */
  predicate Matches(item: KnowledgeItem, lowerText: string) {
    exists k :: k in item.keywords && Text.Contains(lowerText, k)
  }

  function MatchesTest(lowerText: string): KnowledgeItem -> bool {
    (item: KnowledgeItem) => Matches(item, lowerText)
  }

  /** `knowledgeBase.filter(...)`: the matching entries, in catalogue order. */
  function MatchingItems(kb: seq<KnowledgeItem>, lowerText: string): seq<KnowledgeItem> {
    Filter(kb, MatchesTest(lowerText))
  }

  /** The filtered list holds, in catalogue order, every matching entry as often as the
      catalogue lists it, and nothing else. */
  lemma MatchingItemsSpec(kb: seq<KnowledgeItem>, lowerText: string)
    ensures forall x :: x in MatchingItems(kb, lowerText) <==> x in kb && Matches(x, lowerText)
    ensures forall x :: multiset(MatchingItems(kb, lowerText))[x] ==
                          if Matches(x, lowerText) then multiset(kb)[x] else 0
    ensures IsSubsequence(MatchingItems(kb, lowerText), kb)
  {
    FilterSpec(kb, MatchesTest(lowerText));
  }

  // ================================================================ the stable sort

  predicate SortedByRank(s: seq<KnowledgeItem>) {
    forall i, j :: 0 <= i < j < |s| ==> Rank(s[i].difficulty) <= Rank(s[j].difficulty)
  }

  /** The entries of `s` with difficulty `d`, in order. */
  function OfDifficulty(s: seq<KnowledgeItem>, d: Difficulty): (r: seq<KnowledgeItem>)
    ensures forall x :: x in r <==> x in s && x.difficulty == d
  {
    if s == [] then []
    else if s[0].difficulty == d then [s[0]] + OfDifficulty(s[1..], d)
    else OfDifficulty(s[1..], d)
  }

  /** Puts `x` in front of the first element ranked at least as high as it. */
  function Insert(x: KnowledgeItem, s: seq<KnowledgeItem>): (r: seq<KnowledgeItem>)
    ensures multiset(r) == multiset(s) + multiset{x}
  {
    if s == [] || Rank(x.difficulty) <= Rank(s[0].difficulty) then [x] + s
    else
      assert s == [s[0]] + s[1..];
      [s[0]] + Insert(x, s[1..])
  }

  lemma {:induction false} InsertElements(x: KnowledgeItem, s: seq<KnowledgeItem>)
    ensures forall y :: y in Insert(x, s) ==> y == x || y in s
  {
    if s != [] && Rank(x.difficulty) > Rank(s[0].difficulty) {
      InsertElements(x, s[1..]);
    }
  }

  /** A sorted list stays sorted under a head ranked no higher than any of its elements. */
  lemma SortedCons(h: KnowledgeItem, t: seq<KnowledgeItem>)
    requires SortedByRank(t)
    requires forall y :: y in t ==> Rank(h.difficulty) <= Rank(y.difficulty)
    ensures SortedByRank([h] + t)
  {
    var r := [h] + t;
    forall i, j | 0 <= i < j < |r| ensures Rank(r[i].difficulty) <= Rank(r[j].difficulty) {
      assert r[j] == t[j - 1];
      if i > 0 {
        assert r[i] == t[i - 1];
      } else {
        assert t[j - 1] in t;
      }
    }
  }

  lemma {:induction false} InsertSorted(x: KnowledgeItem, s: seq<KnowledgeItem>)
    requires SortedByRank(s)
    ensures SortedByRank(Insert(x, s))
  {
    if s != [] && Rank(x.difficulty) > Rank(s[0].difficulty) {
      var t := Insert(x, s[1..]);
      InsertSorted(x, s[1..]);
      InsertElements(x, s[1..]);
      forall y | y in t ensures Rank(s[0].difficulty) <= Rank(y.difficulty) {
        if y != x {
          var k :| 0 <= k < |s[1..]| && s[1..][k] == y;
          assert s[k + 1] == y;
        }
      }
      SortedCons(s[0], t);
    }
  }

  /** `Array.prototype.sort` with the comparator `rank(a) - rank(b)`: a stable sort by difficulty. */
  function SortByDifficulty(s: seq<KnowledgeItem>): (r: seq<KnowledgeItem>)
    ensures SortedByRank(r)
    ensures multiset(r) == multiset(s)
  {
    if s == [] then []
    else
      assert s == [s[0]] + s[1..];
      InsertSorted(s[0], SortByDifficulty(s[1..]));
      Insert(s[0], SortByDifficulty(s[1..]))
  }

  lemma {:induction false} InsertKeepsOrder(x: KnowledgeItem, s: seq<KnowledgeItem>, d: Difficulty)
    ensures OfDifficulty(Insert(x, s), d) == (if x.difficulty == d then [x] else []) + OfDifficulty(s, d)
  {
    if s == [] || Rank(x.difficulty) <= Rank(s[0].difficulty) {
      assert ([x] + s)[1..] == s;
    } else {
      InsertKeepsOrder(x, s[1..], d);
      assert ([s[0]] + Insert(x, s[1..]))[1..] == Insert(x, s[1..]);
      if x.difficulty == d {
        // every element passed over ranks strictly lower, so it has another difficulty
        assert s[0].difficulty != d;
      }
    }
  }

  /** Stability: within one difficulty the sorted list keeps the original order. */
  lemma {:induction false} SortIsStable(s: seq<KnowledgeItem>, d: Difficulty)
    ensures OfDifficulty(SortByDifficulty(s), d) == OfDifficulty(s, d)
  {
    if s != [] {
      SortIsStable(s[1..], d);
      InsertKeepsOrder(s[0], SortByDifficulty(s[1..]), d);
    }
  }

  // ================================================================ choosing the reply

  /** Entry `i` is the reply the source promises: a match of minimal difficulty, and the
      earliest such match in catalogue order. */
  ghost predicate IsBestMatch(kb: seq<KnowledgeItem>, lowerText: string, i: int) {
    0 <= i < |kb| && Matches(kb[i], lowerText)
    && (forall j :: 0 <= j < |kb| && Matches(kb[j], lowerText) ==>
          Rank(kb[i].difficulty) <= Rank(kb[j].difficulty))
    && (forall j :: 0 <= j < i && Matches(kb[j], lowerText) ==>
          Rank(kb[i].difficulty) < Rank(kb[j].difficulty))
  }

  /** `generateResponse` over a given knowledge base, answering `fallback` when nothing matches. */
  function SelectResponse(kb: seq<KnowledgeItem>, text: string, fallback: string): string {
    var matches := MatchingItems(kb, Text.Lower(text));
    if |matches| > 0 then SortByDifficulty(matches)[0].response
    else fallback
  }

  /** The two fixed inputs of `generateResponse`: the catalogue it falls back to when the store
      holds none, and the text it answers with when nothing matches. */
  datatype Responder = Responder(builtIn: seq<KnowledgeItem>, fallback: string)

  /** The responder the widget ships with. */
  function BuiltInResponder(): (r: Responder)
    ensures |r.builtIn| == CatalogueSize
  {
    Responder(FinancialKnowledgeBase(), FallbackResponse())
  }

  /** `generateResponse` as the widget runs it: over the knowledge base read from the store. */
  function GenerateResponse(responder: Responder, items: map<string, string>, text: string): string {
    SelectResponse(GetKnowledgeBase(items, responder.builtIn), text, responder.fallback)
  }

  /** A best match of the tail stays best when the head does not beat it. */
  lemma BestMatchPastHead(kb: seq<KnowledgeItem>, lowerText: string, i: int)
    requires kb != [] && IsBestMatch(kb[1..], lowerText, i)
    requires Matches(kb[0], lowerText) ==> Rank(kb[i + 1].difficulty) < Rank(kb[0].difficulty)
    ensures IsBestMatch(kb, lowerText, i + 1)
  {
    assert forall j :: 0 < j < |kb| ==> kb[j] == kb[1..][j - 1];
  }

  /** A matching head is best when no match in the tail ranks lower. */
  lemma BestMatchAtHead(kb: seq<KnowledgeItem>, lowerText: string)
    requires kb != [] && Matches(kb[0], lowerText)
    requires forall j :: 0 <= j < |kb| - 1 && Matches(kb[1..][j], lowerText) ==>
               Rank(kb[0].difficulty) <= Rank(kb[1..][j].difficulty)
    ensures IsBestMatch(kb, lowerText, 0)
  {
    assert forall j :: 0 < j < |kb| ==> kb[j] == kb[1..][j - 1];
  }

  /** The head of the sorted list of `[x] + t` is `x` unless the head of sorted `t` ranks lower. */
  lemma SortedHeadOfCons(x: KnowledgeItem, t: seq<KnowledgeItem>)
    requires t != []
    ensures |SortByDifficulty(t)| == |t|
    ensures SortByDifficulty([x] + t)[0] ==
              if Rank(x.difficulty) <= Rank(SortByDifficulty(t)[0].difficulty) then x else SortByDifficulty(t)[0]
  {
    var s := [x] + t;
    assert s[0] == x && s[1..] == t;
    assert |multiset(SortByDifficulty(t))| == |t|;
  }

  /** When the head is the only match, it is the best one and the sorted matches start with it. */
  lemma OnlyHeadMatches(kb: seq<KnowledgeItem>, lowerText: string)
    requires kb != [] && Matches(kb[0], lowerText) && MatchingItems(kb[1..], lowerText) == []
    ensures IsBestMatch(kb, lowerText, 0) && SortByDifficulty(MatchingItems(kb, lowerText))[0] == kb[0]
  {
    var rest := kb[1..];
    MatchingItemsSpec(rest, lowerText);
    forall j | 0 <= j < |rest| ensures !Matches(rest[j], lowerText) {
      assert rest[j] in rest;
    }
    BestMatchAtHead(kb, lowerText);
    assert MatchingItems(kb, lowerText) == [kb[0]];
  }

  lemma {:induction false} FirstOfSortedMatches(kb: seq<KnowledgeItem>, lowerText: string)
    requires MatchingItems(kb, lowerText) != []
    ensures exists i :: IsBestMatch(kb, lowerText, i) && SortByDifficulty(MatchingItems(kb, lowerText))[0] == kb[i]
  {
    var rest := kb[1..];
    var tail := MatchingItems(rest, lowerText);
    if !Matches(kb[0], lowerText) {
      assert MatchingItems(kb, lowerText) == tail;
      FirstOfSortedMatches(rest, lowerText);
      var i :| IsBestMatch(rest, lowerText, i) && SortByDifficulty(tail)[0] == rest[i];
      BestMatchPastHead(kb, lowerText, i);
    } else if tail == [] {
      OnlyHeadMatches(kb, lowerText);
    } else {
      FirstOfSortedMatches(rest, lowerText);
      var i :| IsBestMatch(rest, lowerText, i) && SortByDifficulty(tail)[0] == rest[i];
      assert MatchingItems(kb, lowerText) == [kb[0]] + tail;
      SortedHeadOfCons(kb[0], tail);
      if Rank(kb[0].difficulty) <= Rank(rest[i].difficulty) {
        BestMatchAtHead(kb, lowerText);
      } else {
        BestMatchPastHead(kb, lowerText, i);
      }
    }
  }

  /** Some entry matches: the reply is that of the earliest match of minimal difficulty. */
  lemma ReplyIsBestMatch(kb: seq<KnowledgeItem>, text: string, fallback: string)
    requires exists j :: 0 <= j < |kb| && Matches(kb[j], Text.Lower(text))
    ensures exists i :: IsBestMatch(kb, Text.Lower(text), i) && SelectResponse(kb, text, fallback) == kb[i].response
  {
    var j :| 0 <= j < |kb| && Matches(kb[j], Text.Lower(text));
    MatchingItemsSpec(kb, Text.Lower(text));
    assert kb[j] in MatchingItems(kb, Text.Lower(text));
    FirstOfSortedMatches(kb, Text.Lower(text));
  }

  /** No entry matches: the reply is the fallback text. */
  lemma ReplyIsFallback(kb: seq<KnowledgeItem>, text: string, fallback: string)
    requires forall j :: 0 <= j < |kb| ==> !Matches(kb[j], Text.Lower(text))
    ensures SelectResponse(kb, text, fallback) == fallback
  {
    MatchingItemsSpec(kb, Text.Lower(text));
    forall x | x in kb ensures !Matches(x, Text.Lower(text)) {
      var j :| 0 <= j < |kb| && kb[j] == x;
    }
  }

  /** There is only one best match, so the reply is determined by the knowledge base and the text. */
  lemma BestMatchUnique(kb: seq<KnowledgeItem>, lowerText: string, i: int, j: int)
    requires IsBestMatch(kb, lowerText, i) && IsBestMatch(kb, lowerText, j)
    ensures i == j
  {
  }

  /** Inputs that differ only in letter case get the same reply. */
  lemma ReplyIgnoresCase(kb: seq<KnowledgeItem>, a: string, b: string, fallback: string)
    requires Text.EqualIgnoringCase(a, b)
    ensures SelectResponse(kb, a, fallback) == SelectResponse(kb, b, fallback)
  {
    Text.LowerEqualIff(a, b);
  }

  /** Keywords are not lowercased: one containing an upper-case letter never matches. */
  lemma UpperCaseKeywordNeverMatches(item: KnowledgeItem, text: string, k: string)
    requires k in item.keywords && !Text.NoUpper(k)
    ensures !Text.Contains(Text.Lower(text), k)
  {
    if Text.Contains(Text.Lower(text), k) {
      Text.ContainedInLowerHasNoUpper(text, k);
    }
  }
}
