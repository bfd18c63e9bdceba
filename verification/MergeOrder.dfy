/**
 * What deduplication makes of the order of its input: nothing, exactly when
 * items of one URL that tie on quality merge alike either way.
 */
module MergeOrder {
  import opened Wrappers
  import opened Rows
  import opened Ordering
  import opened Ranking

  // ----- the first twenty distinct words

  function Top(words: seq<string>): seq<string> {
    Upto(Uniques(words), 20)
  }

  ghost predicate Distinct(words: seq<string>) {
    forall i, j :: 0 <= i < j < |words| ==> words[i] != words[j]
  }

  lemma {:induction false} DistinctIsUnique(words: seq<string>)
    requires Distinct(words)
    ensures Uniques(words) == words
  {
    if words != [] {
      var front := words[..|words| - 1];
      DistinctIsUnique(front);
      assert words == front + [words[|words| - 1]];
    }
  }

  lemma AppendOne(words: seq<string>, w: string)
    ensures Uniques(words + [w]) == if w in words then Uniques(words) else Uniques(words) + [w]
  {
    UniquesAre(words);
    assert (words + [w])[..|words|] == words;
  }

  /** What comes first decides the first distinct words. */
  lemma {:induction false} UniquesExtend(a: seq<string>, b: seq<string>)
    ensures Uniques(a) <= Uniques(a + b)
    ensures Uniques(Uniques(a) + b) == Uniques(a + b)
    decreases |b|
  {
    hide Uniques;
    UniquesAre(a);
    if b == [] {
      assert a + b == a && Uniques(a) + b == Uniques(a);
      DistinctIsUnique(Uniques(a));
    } else {
      var front, last := b[..|b| - 1], b[|b| - 1];
      UniquesExtend(a, front);
      assert a + b == (a + front) + [last] && Uniques(a) + b == (Uniques(a) + front) + [last];
      AppendOne(a + front, last);
      AppendOne(Uniques(a) + front, last);
    }
  }

  lemma {:induction false} UniquesAfter(a: seq<string>, b: seq<string>)
    ensures Uniques(a + Uniques(b)) == Uniques(a + b)
    decreases |b|
  {
    if b == [] {
      assert Uniques(b) == b;
    } else {
      hide Uniques;
      var front, last := b[..|b| - 1], b[|b| - 1];
      UniquesAfter(a, front);
      UniquesAre(front);
      assert b == front + [last] && a + b == (a + front) + [last];
      AppendOne(front, last);
      AppendOne(a + front, last);
      if last !in front {
        assert a + Uniques(b) == (a + Uniques(front)) + [last];
        AppendOne(a + Uniques(front), last);
      }
    }
  }

  function Members(words: seq<string>): set<string> {
    set w | w in words
  }

  lemma {:induction false} DistinctSize(words: seq<string>)
    ensures |Members(words)| <= |words|
    ensures Distinct(words) ==> |Members(words)| == |words|
  {
    if words != [] {
      var front, last := words[..|words| - 1], words[|words| - 1];
      DistinctSize(front);
      assert words == front + [last];
      assert Members(words) == Members(front) + {last};
      if Distinct(words) {
        assert forall i :: 0 <= i < |front| ==> front[i] == words[i] && words[i] != last;
        assert last !in Members(front);
      }
    }
  }

  lemma AtLeast(a: seq<string>, part: seq<string>)
    requires Distinct(part)
    ensures |Uniques(a + part)| >= |part|
  {
    UniquesAre(a + part);
    DistinctSize(part);
    DistinctSize(Uniques(a + part));
    hide Uniques;
    forall w | w in Members(part) ensures w in Members(Uniques(a + part)) {
      assert w in a + part;
    }
    Subset(Members(part), Members(Uniques(a + part)));
  }

  lemma Subset(a: set<string>, b: set<string>)
    requires a <= b
    ensures |a| <= |b|
  {
    assert b == a + (b - a);
  }

  lemma PrefixDistinct(words: seq<string>, n: nat)
    requires Distinct(words) && n <= |words|
    ensures Distinct(words[..n])
  {
  }

  lemma TopIsDistinct(words: seq<string>)
    ensures Distinct(Top(words)) && Uniques(Top(words)) == Top(words) && Top(Top(words)) == Top(words)
  {
    UniquesAre(words);
    hide Uniques;
    if |Uniques(words)| > 20 {
      PrefixDistinct(Uniques(words), 20);
    }
    DistinctIsUnique(Top(words));
  }

  lemma SameTop(a: seq<string>, longer: seq<string>)
    requires a <= longer && |a| >= 20
    ensures Upto(longer, 20) == Upto(a, 20)
  {
  }

  lemma TopBefore(a: seq<string>, b: seq<string>)
    ensures Top(Top(a) + b) == Top(a + b)
  {
    UniquesExtend(a, b);
    if |Uniques(a)| > 20 {
      TopIsDistinct(a);
      UniquesExtend(Top(a), b);
      hide Uniques;
      SameTop(Uniques(a), Uniques(a + b));
      SameTop(Top(a), Uniques(Top(a) + b));
    }
  }

  lemma TopAfter(a: seq<string>, b: seq<string>)
    ensures Top(a + Top(b)) == Top(a + b)
  {
    UniquesAfter(a, b);
    if |Uniques(b)| > 20 {
      var top, rest := Top(b), Uniques(b)[20..];
      TopIsDistinct(b);
      AtLeast(a, top);
      UniquesExtend(a + top, rest);
      hide Uniques;
      assert a + Uniques(b) == (a + top) + rest;
      SameTop(Uniques(a + top), Uniques(a + Uniques(b)));
    }
  }

  /** Words that agree on their first twenty may stand for each other anywhere. */
  lemma TopInside(before: seq<string>, x: seq<string>, y: seq<string>, after: seq<string>)
    requires Top(x) == Top(y)
    ensures Top(before + x + after) == Top(before + y + after)
  {
    hide Top;
    TopAfter(before, x);
    TopAfter(before, y);
    TopBefore(before + x, after);
    TopBefore(before + y, after);
  }

  // ----- two items either way

  predicate SameTopic(x: NewsItem, y: NewsItem) {
    x.topic == y.topic && x.topicLabel == y.topicLabel && x.relevanceReason == y.relevanceReason
  }

  /**
   * Two items of one quality lose nothing to their order: what is kept of the
   * first agrees, what is filled in agrees or is missing from one, and the
   * matches unite to the same list.
   */
  predicate MergeAlike(x: NewsItem, y: NewsItem) {
    && x.title == y.title && x.url == y.url && x.source == y.source && x.summary == y.summary && SameOrigin(x, y)
    && (x.sourceHost == y.sourceHost || x.sourceHost == "" || y.sourceHost == "")
    && (x.published == y.published || x.published.None? || y.published.None?)
    && (SameTopic(x, y) || (x.topic == "") != (y.topic == ""))
    && Top(x.matches + y.matches) == Top(y.matches + x.matches)
  }

  /** Usable items of one URL and one quality: their order in the input is their order in the group. */
  predicate Tied(lex: Lexicon, x: NewsItem, y: NewsItem) {
    !x.quarantined && !y.quarantined && UrlOf(lex, x) == UrlOf(lex, y) && Quality(lex, x) == Quality(lex, y)
  }

  lemma TiedScores(lex: Lexicon, x: NewsItem, y: NewsItem)
    requires Tied(lex, x, y)
    ensures x.score == y.score && |x.summary| == |y.summary| && x.quarantined == y.quarantined
    ensures x.published.UnwrapOr(0) == y.published.UnwrapOr(0)
  {
    var p, q := Quality(lex, x), Quality(lex, y);
    assert p[1] == -x.score && q[1] == -y.score;
    assert p[2] == -x.published.UnwrapOr(0) && q[2] == -y.published.UnwrapOr(0);
    assert p[4] == -|x.summary| && q[4] == -|y.summary|;
  }

  // ----- what a merged item takes from its group

  lemma {:induction false} HostJoin(a: seq<NewsItem>, b: seq<NewsItem>)
    ensures FirstHost(a + b) == if FirstHost(a) != "" then FirstHost(a) else FirstHost(b)
  {
    if a == [] {
      assert a + b == b;
    } else {
      assert (a + b)[1..] == a[1..] + b;
      HostJoin(a[1..], b);
    }
  }

  lemma {:induction false} PublishedJoin(a: seq<NewsItem>, b: seq<NewsItem>)
    ensures FirstPublished(a + b) == if FirstPublished(a).Some? then FirstPublished(a) else FirstPublished(b)
  {
    if a == [] {
      assert a + b == b;
    } else {
      assert (a + b)[1..] == a[1..] + b;
      PublishedJoin(a[1..], b);
    }
  }

  lemma {:induction false} TopicalJoin(a: seq<NewsItem>, b: seq<NewsItem>)
    ensures FirstTopical(a + b) == if FirstTopical(a).Some? then FirstTopical(a) else FirstTopical(b)
  {
    if a == [] {
      assert a + b == b;
    } else {
      assert (a + b)[1..] == a[1..] + b;
      TopicalJoin(a[1..], b);
    }
  }

  lemma {:induction false} MatchesJoin(a: seq<NewsItem>, b: seq<NewsItem>)
    ensures AllMatches(a + b) == AllMatches(a) + AllMatches(b)
  {
    if a == [] {
      assert a + b == b;
    } else {
      assert (a + b)[1..] == a[1..] + b;
      MatchesJoin(a[1..], b);
    }
  }

  lemma {:induction false} LongestReads(a: seq<NewsItem>, b: seq<NewsItem>)
    requires |a| == |b| > 0 && forall i :: 0 <= i < |a| ==> a[i].summary == b[i].summary
    ensures LongestSummary(a) == LongestSummary(b)
  {
    if |a| > 1 {
      LongestReads(a[..|a| - 1], b[..|b| - 1]);
    }
  }

  /** The item whose topic the merged one has. */
  function Topical(ordered: seq<NewsItem>): NewsItem
    requires ordered != []
  {
    if FirstTopical(ordered).Some? then FirstTopical(ordered).value else ordered[0]
  }

  lemma EnrichedIs(ordered: seq<NewsItem>)
    requires ordered != []
    ensures
      var first, topical := ordered[0], Topical(ordered);
      Enriched(ordered) == first.(
        summary := if |first.summary| < |LongestSummary(ordered)| then LongestSummary(ordered) else first.summary,
        sourceHost := FirstHost(ordered), published := FirstPublished(ordered),
        matches := Top(AllMatches(ordered)), topic := topical.topic, topicLabel := topical.topicLabel,
        relevanceReason := topical.relevanceReason)
  {
    FirstsExist(ordered);
    assert ordered[0] in ordered;
    hide LongestSummary, AllMatches, Uniques;
  }

  /** Both orders of two neighbours. */
  function Swapped(before: seq<NewsItem>, x: NewsItem, y: NewsItem, after: seq<NewsItem>): seq<NewsItem> {
    before + [x, y] + after
  }

  lemma SwapFills(before: seq<NewsItem>, x: NewsItem, y: NewsItem, after: seq<NewsItem>)
    requires MergeAlike(x, y)
    ensures
      var a, b := Swapped(before, x, y, after), Swapped(before, y, x, after);
      && FirstHost(a) == FirstHost(b) && FirstPublished(a) == FirstPublished(b)
      && Top(AllMatches(a)) == Top(AllMatches(b)) && LongestSummary(a) == LongestSummary(b)
  {
    var a, b := Swapped(before, x, y, after), Swapped(before, y, x, after);
    HostJoin(before + [x, y], after);
    HostJoin(before + [y, x], after);
    HostJoin(before, [x, y]);
    HostJoin(before, [y, x]);
    PublishedJoin(before + [x, y], after);
    PublishedJoin(before + [y, x], after);
    PublishedJoin(before, [x, y]);
    PublishedJoin(before, [y, x]);
    MatchesJoin(before + [x, y], after);
    MatchesJoin(before + [y, x], after);
    MatchesJoin(before, [x, y]);
    MatchesJoin(before, [y, x]);
    PairFills(x, y);
    PairFills(y, x);
    TopInside(AllMatches(before), x.matches + y.matches, y.matches + x.matches, AllMatches(after));
    LongestReads(a, b);
  }

  lemma PairFills(x: NewsItem, y: NewsItem)
    ensures FirstHost([x, y]) == if x.sourceHost != "" then x.sourceHost else y.sourceHost
    ensures FirstPublished([x, y]) == if x.published.Some? then x.published else y.published
    ensures FirstTopical([x, y]) == if x.topic != "" then Some(x) else if y.topic != "" then Some(y) else None
    ensures AllMatches([x, y]) == x.matches + y.matches
  {
    var rest := [x, y][1..];
    assert rest == [y] && rest[1..] == [];
    assert FirstHost(rest) == y.sourceHost && FirstPublished(rest) == y.published;
    assert FirstTopical(rest) == if y.topic != "" then Some(y) else None;
    assert AllMatches(rest) == y.matches + [] == y.matches;
  }

  lemma SwapTopical(before: seq<NewsItem>, x: NewsItem, y: NewsItem, after: seq<NewsItem>)
    requires MergeAlike(x, y)
    ensures SameTopic(Topical(Swapped(before, x, y, after)), Topical(Swapped(before, y, x, after)))
  {
    TopicalJoin(before + [x, y], after);
    TopicalJoin(before + [y, x], after);
    TopicalJoin(before, [x, y]);
    TopicalJoin(before, [y, x]);
    PairFills(x, y);
    PairFills(y, x);
    hide FirstTopical;
  }

  /** Swapping neighbours that merge alike changes nothing of the merged item. */
  lemma SwapMerges(lex: Lexicon, before: seq<NewsItem>, x: NewsItem, y: NewsItem, after: seq<NewsItem>)
    requires Tied(lex, x, y) && MergeAlike(x, y)
    ensures Enriched(Swapped(before, x, y, after)) == Enriched(Swapped(before, y, x, after))
  {
    var a, b := Swapped(before, x, y, after), Swapped(before, y, x, after);
    TiedScores(lex, x, y);
    SwapFills(before, x, y, after);
    SwapTopical(before, x, y, after);
    EnrichedIs(a);
    EnrichedIs(b);
    hide Enriched, FirstHost, FirstPublished, Topical, Top, AllMatches, LongestSummary, Quality;
    if before != [] {
      assert a[0] == b[0];
    } else {
      assert a[0] == x && b[0] == y;
    }
  }

  // ----- a whole group

  /** Tied items merge alike, whichever two are taken. */
  ghost predicate TiesMergeAlike(lex: Lexicon, items: seq<NewsItem>) {
    forall x, y | x in items && y in items && Tied(lex, x, y) :: MergeAlike(x, y)
  }

  /** An item moves before items it ties with, one swap at a time. */
  lemma {:induction false} MoveFront(lex: Lexicon, before: seq<NewsItem>, ties: seq<NewsItem>, x: NewsItem,
                                     after: seq<NewsItem>)
    requires forall i :: 0 <= i < |ties| ==> Tied(lex, ties[i], x) && MergeAlike(ties[i], x)
    ensures Enriched(before + ties + [x] + after) == Enriched(before + [x] + ties + after)
    decreases |ties|
  {
    hide Enriched, Tied, MergeAlike;
    if ties == [] {
      assert before + ties + [x] == before + [x] + ties;
    } else {
      var front, last := ties[..|ties| - 1], ties[|ties| - 1];
      assert before + ties + [x] + after == Swapped(before + front, last, x, after);
      SwapMerges(lex, before + front, last, x, after);
      assert Swapped(before + front, x, last, after) == before + front + [x] + ([last] + after);
      MoveFront(lex, before, front, x, [last] + after);
      assert before + [x] + front + ([last] + after) == before + [x] + ties + after;
    }
  }

  /** All of one URL and usable. */
  ghost predicate OneUrl(lex: Lexicon, items: seq<NewsItem>) {
    forall x, y | x in items && y in items :: !x.quarantined && UrlOf(lex, x) == UrlOf(lex, y)
  }

  lemma TiesBefore(lex: Lexicon, a: seq<NewsItem>, b: seq<NewsItem>, i: nat)
    requires Sorted(QualityIn(lex), a) && Sorted(QualityIn(lex), b) && multiset(a) == multiset(b)
    requires i < |a| && b != [] && a[i] == b[0] && OneUrl(lex, a) && TiesMergeAlike(lex, a)
    ensures forall k :: 0 <= k < i ==> Tied(lex, a[k], b[0]) && MergeAlike(a[k], b[0])
  {
    hide MergeAlike, Quality;
    forall k | 0 <= k < i ensures Tied(lex, a[k], b[0]) && MergeAlike(a[k], b[0]) {
      assert a[k] in multiset(b);
      var j :| 0 <= j < |b| && b[j] == a[k];
      LeqTotal(Quality(lex, b[0]), Quality(lex, b[0]));
      assert Leq(QualityIn(lex)(b[0]), QualityIn(lex)(b[j]));
      assert Leq(QualityIn(lex)(a[k]), QualityIn(lex)(a[i]));
      LeqAntisymmetric(Quality(lex, a[k]), Quality(lex, b[0]));
      assert a[k] in a && a[i] in a;
    }
  }

  lemma Extract(a: seq<NewsItem>, i: nat)
    requires i < |a|
    ensures multiset(a[..i] + a[i + 1..]) == multiset(a) - multiset{a[i]}
    ensures forall x :: x in a[..i] + a[i + 1..] ==> x in a
  {
    assert a == a[..i] + [a[i]] + a[i + 1..];
  }

  lemma ExtractSorted(lex: Lexicon, a: seq<NewsItem>, i: nat)
    requires i < |a| && Sorted(QualityIn(lex), a)
    ensures Sorted(QualityIn(lex), a[..i] + a[i + 1..])
  {
    hide Quality, Leq;
    var rest := a[..i] + a[i + 1..];
    forall p, q | 0 <= p < q < |rest| ensures Leq(QualityIn(lex)(rest[p]), QualityIn(lex)(rest[q])) {
      var p', q' := if p < i then p else p + 1, if q < i then q else q + 1;
      assert rest[p] == a[p'] && rest[q] == a[q'];
    }
  }

  lemma PullFront(lex: Lexicon, before: seq<NewsItem>, a: seq<NewsItem>, i: nat)
    requires i < |a| && forall k :: 0 <= k < i ==> Tied(lex, a[k], a[i]) && MergeAlike(a[k], a[i])
    ensures Enriched(before + a) == Enriched(before + [a[i]] + (a[..i] + a[i + 1..]))
  {
    hide Enriched, Tied, MergeAlike;
    MoveFront(lex, before, a[..i], a[i], a[i + 1..]);
    assert before + a[..i] + [a[i]] + a[i + 1..] == before + a;
    assert before + [a[i]] + a[..i] + a[i + 1..] == before + [a[i]] + (a[..i] + a[i + 1..]);
  }

  lemma StillAlike(lex: Lexicon, a: seq<NewsItem>, rest: seq<NewsItem>)
    requires OneUrl(lex, a) && TiesMergeAlike(lex, a) && forall x :: x in rest ==> x in a
    ensures OneUrl(lex, rest) && TiesMergeAlike(lex, rest)
  {
    hide Tied, MergeAlike, UrlOf;
  }

  lemma FrontIsBack(b: seq<NewsItem>, before: seq<NewsItem>)
    requires b != []
    ensures before + [b[0]] + b[1..] == before + b
  {
  }

  /** Two sorted arrangements of one group merge to the same item. */
  lemma {:induction false} SortedMergeAlike(lex: Lexicon, before: seq<NewsItem>, a: seq<NewsItem>, b: seq<NewsItem>)
    requires Sorted(QualityIn(lex), a) && Sorted(QualityIn(lex), b) && multiset(a) == multiset(b) && |a| == |b|
    requires OneUrl(lex, a) && TiesMergeAlike(lex, a) && (before != [] || a != [])
    ensures Enriched(before + a) == Enriched(before + b)
    decreases |a|
  {
    hide Enriched, Sorted, OneUrl, TiesMergeAlike, TiesEqual, Tied, MergeAlike;
    if a == [] {
      assert b == a;
    } else {
      var x := b[0];
      assert x in multiset(a);
      var i :| 0 <= i < |a| && a[i] == x;
      var rest := a[..i] + a[i + 1..];
      TiesBefore(lex, a, b, i);
      PullFront(lex, before, a, i);
      Extract(a, i);
      ExtractSorted(lex, a, i);
      StillAlike(lex, a, rest);
      TailFits(QualityIn(lex), b);
      SortedMergeAlike(lex, before + [x], rest, b[1..]);
      FrontIsBack(b, before);
    }
  }

  /** Any arrangement of a group of one URL merges to the same item. */
  lemma GroupMergesAlike(lex: Lexicon, a: seq<NewsItem>, b: seq<NewsItem>)
    requires multiset(a) == multiset(b) && a != [] && b != [] && OneUrl(lex, a) && TiesMergeAlike(lex, a)
    ensures MergeGroup(lex, a) == MergeGroup(lex, b)
  {
    hide Enriched, Sorted, OneUrl, TiesMergeAlike, SortBy, Quality;
    SortBySorts(QualityIn(lex), a);
    SortBySorts(QualityIn(lex), b);
    var p, q := SortBy(QualityIn(lex), a), SortBy(QualityIn(lex), b);
    forall x | x in p ensures x in a {
      SortedMembers(QualityIn(lex), a, x);
    }
    StillAlike(lex, a, p);
    assert |multiset(p)| == |multiset(q)| == |multiset(a)|;
    SortedMergeAlike(lex, [], p, q);
    assert [] + p == p && [] + q == q;
  }

  // ----- the whole deduplication

  lemma MergePassIgnoresOrder(lex: Lexicon, a: seq<NewsItem>, b: seq<NewsItem>)
    requires multiset(a) == multiset(b) && TiesMergeAlike(lex, a) && forall x :: x in a ==> !x.quarantined
    ensures MergePass(lex, a, UrlIn(lex)) == MergePass(lex, b, UrlIn(lex))
  {
    var key := UrlIn(lex);
    GroupsNonempty(a, key);
    GroupsNonempty(b, key);
    GroupKeysIgnoreOrder(a, b, key);
    hide GroupKeys, Group, TiesMergeAlike, MergeGroup;
    var keys := GroupKeys(a, key);
    forall i | 0 <= i < |keys|
      ensures MergeGroup(lex, Group(a, key, keys[i])) == MergeGroup(lex, Group(b, key, keys[i]))
    {
      GroupAlike(lex, a, b, keys[i]);
    }
  }

  lemma GroupAlike(lex: Lexicon, a: seq<NewsItem>, b: seq<NewsItem>, k: string)
    requires multiset(a) == multiset(b) && TiesMergeAlike(lex, a) && forall x :: x in a ==> !x.quarantined
    requires Group(a, UrlIn(lex), k) != [] && Group(b, UrlIn(lex), k) != []
    ensures MergeGroup(lex, Group(a, UrlIn(lex), k)) == MergeGroup(lex, Group(b, UrlIn(lex), k))
  {
    var ga, gb := Group(a, UrlIn(lex), k), Group(b, UrlIn(lex), k);
    forall x ensures multiset(ga)[x] == multiset(gb)[x] {
      GroupCount(a, UrlIn(lex), k, x);
      GroupCount(b, UrlIn(lex), k, x);
    }
    GroupIs(a, UrlIn(lex), k);
    hide Group, MergeGroup, Tied, MergeAlike;
    assert multiset(ga) == multiset(gb);
    GroupMergesAlike(lex, ga, gb);
  }

  /**
   * Any rearrangement of the input gives the same items in the same order and
   * the same statistics, as long as tied items of one URL merge alike.
   */
  lemma DeduplicationIgnoresOrder(lex: Lexicon, a: seq<NewsItem>, b: seq<NewsItem>, fuzzyCandidates: int,
                                  fuzzyComparisons: int)
    requires multiset(a) == multiset(b) && TiesMergeAlike(lex, a)
    ensures Deduplicated(lex, a, fuzzyCandidates, fuzzyComparisons) ==
      Deduplicated(lex, b, fuzzyCandidates, fuzzyComparisons)
  {
    var ma, mb := Material(a), Material(b);
    forall x ensures multiset(ma)[x] == multiset(mb)[x] {
      MaterialCount(a, x);
      MaterialCount(b, x);
    }
    assert multiset(ma) == multiset(mb);
    assert |multiset(ma)| == |multiset(mb)|;
    forall x | x in ma ensures x in a && !x.quarantined {
      MaterialIs(a, x);
    }
    hide Exact, FuzzyResult, PassAt, Tied, MergeAlike, MergePass;
    if ma != [] {
      MergePassIgnoresOrder(lex, ma, mb);
      GroupKeysIgnoreOrder(ma, mb, UrlIn(lex));
    }
  }

  // ----- and only then

  lemma PairInOrder(lex: Lexicon, x: NewsItem, y: NewsItem)
    requires Tied(lex, x, y)
    ensures MergeGroup(lex, [x, y]) == Enriched([x, y])
  {
    hide Enriched, Quality;
    assert [x, y][..1] == [x];
    LeqTotal(Quality(lex, x), Quality(lex, y));
    SortOne(QualityIn(lex), x);
    assert SortBy(QualityIn(lex), [x, y]) == [x, y];
  }

  /** Two tied items merge to the same item either way exactly when their fields fit. */
  lemma PairMergesAlike(lex: Lexicon, x: NewsItem, y: NewsItem)
    requires Tied(lex, x, y)
    ensures MergeGroup(lex, [x, y]) == MergeGroup(lex, [y, x]) <==> MergeAlike(x, y)
  {
    PairInOrder(lex, x, y);
    PairInOrder(lex, y, x);
    TiedScores(lex, x, y);
    EnrichedIs([x, y]);
    EnrichedIs([y, x]);
    PairFills(x, y);
    PairFills(y, x);
    PairLongest(x, y);
    PairLongest(y, x);
    hide Enriched, MergeGroup, FirstHost, FirstPublished, FirstTopical, AllMatches, LongestSummary, Top, Tied;
  }

  lemma PairLongest(x: NewsItem, y: NewsItem)
    requires |x.summary| == |y.summary|
    ensures LongestSummary([x, y]) == x.summary
  {
    assert [x, y][..1] == [x];
    assert LongestSummary([x]) == x.summary;
  }

  lemma ExactOfOne(lex: Lexicon, one: NewsItem)
    requires Trimmed(one) == one
    ensures Exact(lex, [one]) == [one]
  {
    MergeAlone(lex, one);
    hide Quality, MergeGroup, Trimmed;
    OneGroup(lex, [one], TitleIn(lex), TitleOf(lex, one));
    hide MergePass;
    SortOne(QualityIn(lex), one);
    hide SortBy;
  }

  /** A pair of one URL comes out as its merged item. */
  lemma PairDeduplicates(lex: Lexicon, x: NewsItem, y: NewsItem, fuzzyCandidates: int, fuzzyComparisons: int)
    requires Tied(lex, x, y)
    ensures Deduplicated(lex, [x, y], fuzzyCandidates, fuzzyComparisons).0 == [MergeGroup(lex, [x, y])]
  {
    hide Quality, Trimmed, MergeGroup, PassAt, FuzzyResult, MergePass, Exact, Material, UrlOf, SortBy;
    PairMaterial(x, y);
    MergedIsTrimmed(lex, x, y);
    OneGroup(lex, [x, y], UrlIn(lex), UrlOf(lex, x));
    var merged := MergeGroup(lex, [x, y]);
    ExactOfOne(lex, merged);
    OneSurvives(lex, merged, Max(0, fuzzyCandidates), Max(0, fuzzyComparisons));
  }

  lemma PairMaterial(x: NewsItem, y: NewsItem)
    requires !x.quarantined && !y.quarantined
    ensures Material([x, y]) == [x, y]
  {
    assert [x, y][..1] == [x] && [x][..0] == [];
    assert Material([x]) == [x];
  }

  lemma MergedIsTrimmed(lex: Lexicon, x: NewsItem, y: NewsItem)
    requires Tied(lex, x, y)
    ensures Trimmed(MergeGroup(lex, [x, y])) == MergeGroup(lex, [x, y])
  {
    PairInOrder(lex, x, y);
    EnrichedIs([x, y]);
    TopIsDistinct(AllMatches([x, y]));
    hide Enriched, MergeGroup, Quality, Uniques, AllMatches;
  }

  /** The same items in another order. */
  ghost predicate Rearranged(items: set<NewsItem>, a: seq<NewsItem>, b: seq<NewsItem>) {
    multiset(a) == multiset(b) && forall x :: x in a ==> x in items
  }

  /**
   * Lists drawn from these items come out alike in every order, statistics
   * included: exactly when any two of the items that are usable, of one URL and
   * of one quality merge alike.
   */
  lemma OrderIsIgnoredIff(lex: Lexicon, items: set<NewsItem>, fuzzyCandidates: int, fuzzyComparisons: int)
    ensures
      (forall a, b | Rearranged(items, a, b) ::
        Deduplicated(lex, a, fuzzyCandidates, fuzzyComparisons) ==
        Deduplicated(lex, b, fuzzyCandidates, fuzzyComparisons)) <==>
      (forall x, y | x in items && y in items && Tied(lex, x, y) :: MergeAlike(x, y))
  {
    hide Deduplicated, MergeAlike, Tied;
    if forall x, y | x in items && y in items && Tied(lex, x, y) :: MergeAlike(x, y) {
      forall a, b | Rearranged(items, a, b)
        ensures Deduplicated(lex, a, fuzzyCandidates, fuzzyComparisons) ==
          Deduplicated(lex, b, fuzzyCandidates, fuzzyComparisons)
      {
        DeduplicationIgnoresOrder(lex, a, b, fuzzyCandidates, fuzzyComparisons);
      }
    } else {
      var x, y :| x in items && y in items && Tied(lex, x, y) && !MergeAlike(x, y);
      TiesShowTheOrder(lex, x, y, fuzzyCandidates, fuzzyComparisons);
      assert Rearranged(items, [x, y], [y, x]);
    }
  }

  /** Two tied items alone show the order of the input exactly when they do not merge alike. */
  lemma TiesShowTheOrder(lex: Lexicon, x: NewsItem, y: NewsItem, fuzzyCandidates: int, fuzzyComparisons: int)
    requires Tied(lex, x, y)
    ensures
      (Deduplicated(lex, [x, y], fuzzyCandidates, fuzzyComparisons) ==
       Deduplicated(lex, [y, x], fuzzyCandidates, fuzzyComparisons)) <==>
      MergeAlike(x, y)
  {
    PairDeduplicates(lex, x, y, fuzzyCandidates, fuzzyComparisons);
    PairDeduplicates(lex, y, x, fuzzyCandidates, fuzzyComparisons);
    PairMergesAlike(lex, x, y);
    if MergeAlike(x, y) {
      PairAlike(lex, x, y);
      DeduplicationIgnoresOrder(lex, [x, y], [y, x], fuzzyCandidates, fuzzyComparisons);
    }
    hide Deduplicated, MergeGroup, MergeAlike, Tied;
  }

  lemma PairAlike(lex: Lexicon, x: NewsItem, y: NewsItem)
    requires MergeAlike(x, y)
    ensures TiesMergeAlike(lex, [x, y]) && multiset([x, y]) == multiset([y, x])
  {
    hide Tied, Top;
  }

  /** One article as a search query finds it and the ranker leaves it under the shipped watchlist. */
  function Found(query: string, at: int): NewsItem {
    NewsItem("Meco Inoxprima, tangki LPG", "https://news.google.com/rss/articles/meco", "Kompas", "news.google.com",
             "google_news", "https://kompas.com", query, "google-" + query, Some(at), "", 36, "company",
             "MECO company mention",
             "Direct mention of PT Meco Inoxprima, its projects, customers, certifications, or operations.",
             ["meco inoxprima", "meco", "inoxprima", "direct company mention"], false)
  }

  /** The failing case in the concrete, whatever the text functions and limits: two queries find one article. */
  lemma TwoQueriesShowTheOrder(lex: Lexicon, at: int, fuzzyCandidates: int, fuzzyComparisons: int)
    ensures
      var x, y := Found("MECO mentions", at), Found("LPG storage", at);
      Deduplicated(lex, [x, y], fuzzyCandidates, fuzzyComparisons) !=
      Deduplicated(lex, [y, x], fuzzyCandidates, fuzzyComparisons)
  {
    var x, y := Found("MECO mentions", at), Found("LPG storage", at);
    assert x.queryName[0] != y.queryName[0];
    SameQuality(lex, x, y);
    hide Quality, Deduplicated;
    TiesShowTheOrder(lex, x, y, fuzzyCandidates, fuzzyComparisons);
  }

  /** The quality of an item does not read where it was found. */
  lemma SameQuality(lex: Lexicon, x: NewsItem, y: NewsItem)
    requires y == x.(sourceUrl := y.sourceUrl, queryName := y.queryName, sourceId := y.sourceId)
    ensures Quality(lex, x) == Quality(lex, y) && UrlOf(lex, x) == UrlOf(lex, y)
  {
  }
}
