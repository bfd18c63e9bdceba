/**
 * Deduplication: grouping by canonical URL and by title, merging each group,
 * then a fuzzy pass under a comparison budget.  Text processing is a lexicon of
 * functions, about which nothing is assumed.
 */
module Ranking {
  import opened Wrappers
  import opened Rows
  import opened Ordering

  datatype NewsItem = NewsItem(
    title: string, url: string, source: string, sourceHost: string, collector: string,
    sourceUrl: string, queryName: string, sourceId: string,
    published: Option<int>, summary: string, score: int, topic: string, topicLabel: string,
    relevanceReason: string, matches: seq<string>, quarantined: bool)

  datatype Lexicon = Lexicon(
    canonicalUrl: string -> string,
    normalizedTitle: (string, string) -> string,
    casefold: string -> string,
    hex: Digest -> string,
    tokens: string -> set<string>,
    close: (string, string) -> bool)

  // ----- keys

  function UrlOf(lex: Lexicon, item: NewsItem): string {
    lex.canonicalUrl(item.url)
  }

  function TitleOf(lex: Lexicon, item: NewsItem): string {
    lex.normalizedTitle(item.title, item.source)
  }

  /** The cross-run identity of a title leaves its source out. */
  function Fingerprint(lex: Lexicon, item: NewsItem): Digest {
    Sha256("meco-news:title-v2\0" + lex.normalizedTitle(item.title, ""))
  }

  function UrlKey(lex: Lexicon, item: NewsItem): Digest {
    Sha256(UrlOf(lex, item))
  }

  function Domain(lex: Lexicon, item: NewsItem): string {
    var host := lex.casefold(item.sourceHost);
    if item.sourceHost == "" then "" else if HasPrefix(host, "www.") then host[4..] else host
  }

  predicate Aggregator(lex: Lexicon, item: NewsItem) {
    lex.casefold(item.collector) in {"google_news", "gdelt"} ||
    Domain(lex, item) in {"news.google.com", "api.gdeltproject.org", "gdeltproject.org"}
  }

  function Codes(text: string): seq<int> {
    seq(|text|, i requires 0 <= i < |text| => text[i] as int)
  }

  /** A text inside a longer key: its end sorts before every character. */
  function Word(text: string): seq<int> {
    Codes(text) + [-1]
  }

  /** The quality tuple, component after component. */
  function Quality(lex: Lexicon, item: NewsItem): seq<int> {
    var aggregator := if Aggregator(lex, item) then 1 else 0;
    [aggregator, -item.score, -item.published.UnwrapOr(0), aggregator, -|item.summary|] +
    Word(TitleOf(lex, item)) + Word(UrlOf(lex, item)) + Word(lex.casefold(item.source)) +
      Word(lex.hex(Fingerprint(lex, item)))
  }

  function QualityIn(lex: Lexicon): NewsItem -> seq<int> {
    item => Quality(lex, item)
  }

  function UrlIn(lex: Lexicon): NewsItem -> string {
    item => UrlOf(lex, item)
  }

  function TitleIn(lex: Lexicon): NewsItem -> string {
    item => TitleOf(lex, item)
  }

  // ----- merging one group

  /** First occurrences, in order. */
  function Uniques(words: seq<string>): seq<string> {
    if words == [] then []
    else
      var front, last := Uniques(words[..|words| - 1]), words[|words| - 1];
      if last in front then front else front + [last]
  }

  /** The first summary none is longer than. */
  function LongestSummary(items: seq<NewsItem>): string
    requires items != []
  {
    var last := items[|items| - 1];
    if |items| == 1 then last.summary
    else
      var best := LongestSummary(items[..|items| - 1]);
      if |last.summary| > |best| then last.summary else best
  }

  function FirstHost(items: seq<NewsItem>): string {
    if items == [] then "" else if items[0].sourceHost != "" then items[0].sourceHost else FirstHost(items[1..])
  }

  function FirstPublished(items: seq<NewsItem>): Option<int> {
    if items == [] then None else if items[0].published.Some? then items[0].published else FirstPublished(items[1..])
  }

  function FirstTopical(items: seq<NewsItem>): Option<NewsItem> {
    if items == [] then None else if items[0].topic != "" then Some(items[0]) else FirstTopical(items[1..])
  }

  function AllMatches(items: seq<NewsItem>): seq<string> {
    if items == [] then [] else items[0].matches + AllMatches(items[1..])
  }

  function Upto<T>(s: seq<T>, n: nat): seq<T> {
    if |s| <= n then s else s[..n]
  }

  /** The best item, enriched from the others without changing its identity. */
  function Enriched(ordered: seq<NewsItem>): NewsItem
    requires ordered != []
  {
    var primary := ordered[0];
    var topical := FirstTopical(ordered);
    primary.(
      summary := if |primary.summary| < |LongestSummary(ordered)| then LongestSummary(ordered) else primary.summary,
      sourceHost := if primary.sourceHost == "" then FirstHost(ordered) else primary.sourceHost,
      published := if primary.published.None? then FirstPublished(ordered) else primary.published,
      matches := Upto(Uniques(AllMatches(ordered)), 20),
      topic := if primary.topic == "" && topical.Some? then topical.value.topic else primary.topic,
      topicLabel := if primary.topic == "" && topical.Some? then topical.value.topicLabel else primary.topicLabel,
      relevanceReason :=
        if primary.topic == "" && topical.Some? then topical.value.relevanceReason else primary.relevanceReason)
  }

  function MergeGroup(lex: Lexicon, items: seq<NewsItem>): NewsItem
    requires items != []
  {
    SortBySorts(QualityIn(lex), items);
    Enriched(SortBy(QualityIn(lex), items))
  }

  // ----- grouping

  function Group(items: seq<NewsItem>, key: NewsItem -> string, k: string): seq<NewsItem> {
    if items == [] then []
    else
      var last := items[|items| - 1];
      Group(items[..|items| - 1], key, k) + if key(last) == k then [last] else []
  }

  function KeysOf(items: seq<NewsItem>, key: NewsItem -> string): seq<string> {
    seq(|items|, i requires 0 <= i < |items| => key(items[i]))
  }

  /** The distinct keys in sorted order. */
  function GroupKeys(items: seq<NewsItem>, key: NewsItem -> string): seq<string> {
    SortBy(Codes, Uniques(KeysOf(items, key)))
  }

  /** The merged groups of the first `n` keys. */
  function MergeGroups(lex: Lexicon, items: seq<NewsItem>, key: NewsItem -> string, keys: seq<string>): seq<NewsItem>
    requires forall i :: 0 <= i < |keys| ==> Group(items, key, keys[i]) != []
  {
    seq(|keys|, i requires 0 <= i < |keys| => MergeGroup(lex, Group(items, key, keys[i])))
  }

  function MergePass(lex: Lexicon, items: seq<NewsItem>, key: NewsItem -> string): seq<NewsItem> {
    GroupsNonempty(items, key);
    MergeGroups(lex, items, key, GroupKeys(items, key))
  }

  lemma {:induction false} UniquesAre(words: seq<string>)
    ensures forall w :: w in Uniques(words) <==> w in words
    ensures forall i, j :: 0 <= i < j < |Uniques(words)| ==> Uniques(words)[i] != Uniques(words)[j]
  {
    if words != [] {
      var front, last := words[..|words| - 1], words[|words| - 1];
      UniquesAre(front);
      assert words == front + [last];
      forall w ensures w in Uniques(words) <==> w in words {
        assert w in words <==> w in front || w == last;
      }
    }
  }

  lemma {:induction false} GroupIs(items: seq<NewsItem>, key: NewsItem -> string, k: string)
    ensures forall x :: x in Group(items, key, k) <==> x in items && key(x) == k
  {
    if items != [] {
      var front, last := items[..|items| - 1], items[|items| - 1];
      GroupIs(front, key, k);
      assert items == front + [last];
      forall x ensures x in Group(items, key, k) <==> x in items && key(x) == k {
        assert x in items <==> x in front || x == last;
      }
    }
  }

  lemma KeyIsSomeItems(items: seq<NewsItem>, key: NewsItem -> string, k: string)
    ensures k in KeysOf(items, key) <==> exists x :: x in items && key(x) == k
  {
    var all := KeysOf(items, key);
    if k in all {
      var i :| 0 <= i < |all| && all[i] == k;
      assert items[i] in items && key(items[i]) == k;
    }
    if x :| x in items && key(x) == k {
      var i :| 0 <= i < |items| && items[i] == x;
      assert all[i] == k;
    }
  }

  /** Each key is the key of some item, once. */
  lemma GroupKeysAre(items: seq<NewsItem>, key: NewsItem -> string)
    ensures forall k :: k in GroupKeys(items, key) <==> exists x :: x in items && key(x) == k
    ensures forall i, j :: 0 <= i < j < |GroupKeys(items, key)| ==> GroupKeys(items, key)[i] != GroupKeys(items, key)[j]
  {
    var all := KeysOf(items, key);
    UniquesAre(all);
    hide KeysOf, SortBy, Uniques;
    forall k ensures k in GroupKeys(items, key) <==> exists x :: x in items && key(x) == k {
      SortedMembers(Codes, Uniques(all), k);
      KeyIsSomeItems(items, key, k);
    }
    SortBySorts(Codes, Uniques(all));
    DistinctByMultiset(Uniques(all), GroupKeys(items, key));
  }

  /** A rearrangement of distinct words is distinct. */
  lemma DistinctByMultiset(a: seq<string>, b: seq<string>)
    requires multiset(a) == multiset(b)
    requires forall i, j :: 0 <= i < j < |a| ==> a[i] != a[j]
    ensures forall i, j :: 0 <= i < j < |b| ==> b[i] != b[j]
  {
    forall i, j | 0 <= i < j < |b| ensures b[i] != b[j] {
      if b[i] == b[j] {
        TwiceCounted(b, i, j);
        OnceCounted(a, b[i]);
      }
    }
  }

  lemma TwiceCounted<T>(s: seq<T>, i: nat, j: nat)
    requires i < j < |s| && s[i] == s[j]
    ensures multiset(s)[s[i]] >= 2
  {
    assert s == s[..j] + [s[j]] + s[j + 1..];
    assert s[..j] == s[..i] + [s[i]] + s[i + 1..j];
  }

  lemma {:induction false} OnceCounted(s: seq<string>, w: string)
    requires forall i, j :: 0 <= i < j < |s| ==> s[i] != s[j]
    ensures multiset(s)[w] <= 1
  {
    if s != [] {
      var front, last := s[..|s| - 1], s[|s| - 1];
      assert s == front + [last];
      OnceCounted(front, w);
      if last == w {
        assert w !in front;
      }
    }
  }

  lemma GroupsNonempty(items: seq<NewsItem>, key: NewsItem -> string)
    ensures forall i :: 0 <= i < |GroupKeys(items, key)| ==> Group(items, key, GroupKeys(items, key)[i]) != []
  {
    GroupKeysAre(items, key);
    forall i | 0 <= i < |GroupKeys(items, key)| ensures Group(items, key, GroupKeys(items, key)[i]) != [] {
      var k := GroupKeys(items, key)[i];
      assert k in GroupKeys(items, key);
      var x :| x in items && key(x) == k;
      GroupIs(items, key, k);
    }
  }

  // ----- the fuzzy pass

  function Smaller(a: int, b: int): int {
    if a <= b then a else b
  }

  /** The two headlines share enough words, or are close as texts. */
  predicate Similar(lex: Lexicon, item: NewsItem, kept: NewsItem) {
    var a, b := lex.tokens(TitleOf(lex, item)), lex.tokens(TitleOf(lex, kept));
    (a == {} || b == {} || a * b != {}) &&
    (10 * |a * b| >= 6 * Max(1, Smaller(|a|, |b|)) || lex.close(TitleOf(lex, item), TitleOf(lex, kept)))
  }

  datatype Scan = Scan(duplicate: bool, complete: bool, used: nat)

  /** One candidate against the kept items, in order, while the budget lasts. */
  function ScanKept(lex: Lexicon, item: NewsItem, kept: seq<NewsItem>, budget: nat): (scan: Scan)
    ensures scan.used <= budget
  {
    if kept == [] then Scan(false, true, 0)
    else if budget == 0 then Scan(false, false, 0)
    else if Similar(lex, item, kept[0]) then Scan(true, true, 1)
    else
      var rest := ScanKept(lex, item, kept[1..], budget - 1);
      rest.(used := rest.used + 1)
  }

  /** After some candidates: the kept ones, the comparisons made, and the first candidate left unprocessed, if any. */
  datatype Pass = Pass(kept: seq<NewsItem>, used: nat, stopped: Option<nat>)

  function PassAt(lex: Lexicon, candidates: seq<NewsItem>, budget: nat, n: nat): (pass: Pass)
    requires n <= |candidates|
    ensures pass.used <= budget
    ensures pass.stopped.Some? ==> pass.stopped.value < n
  {
    if n == 0 then Pass([], 0, None)
    else
      var before := PassAt(lex, candidates, budget, n - 1);
      if before.stopped.Some? then before
      else
        var scan := ScanKept(lex, candidates[n - 1], before.kept, budget - before.used);
        var used := before.used + scan.used;
        if scan.duplicate then before.(used := used)
        else if !scan.complete then Pass(before.kept, used, Some(n - 1))
        else Pass(before.kept + [candidates[n - 1]], used, None)
  }

  function Unprocessed(candidates: seq<NewsItem>, pass: Pass): seq<NewsItem>
    requires pass.stopped.Some? ==> pass.stopped.value < |candidates|
  {
    if pass.stopped.Some? then candidates[pass.stopped.value..] else []
  }

  datatype Stats = Stats(
    inputCount: nat, urlGroups: nat, titleGroups: nat, candidates: nat, comparisons: nat, budget: nat,
    exhausted: bool, unprocessed: nat)

  function Material(items: seq<NewsItem>): seq<NewsItem> {
    if items == [] then []
    else Material(items[..|items| - 1]) + if items[|items| - 1].quarantined then [] else [items[|items| - 1]]
  }

  /** The exact duplicates gone: one item per title, best first. */
  function Exact(lex: Lexicon, urlMerged: seq<NewsItem>): seq<NewsItem> {
    SortBy(QualityIn(lex), MergePass(lex, urlMerged, TitleIn(lex)))
  }

  /** The fuzzy pass over the best `maxCandidates` items, the rest passed through. */
  function FuzzyResult(lex: Lexicon, exact: seq<NewsItem>, maxCandidates: nat, budget: nat): seq<NewsItem> {
    var candidates := Upto(exact, maxCandidates);
    var pass := PassAt(lex, candidates, budget, |candidates|);
    SortBy(QualityIn(lex), pass.kept + Unprocessed(candidates, pass) + exact[|candidates|..])
  }

  /** deduplicate_with_stats. */
  function Deduplicated(lex: Lexicon, items: seq<NewsItem>, fuzzyCandidates: int,
                        fuzzyComparisons: int): (seq<NewsItem>, Stats)
  {
    var material := Material(items);
    if material == [] then ([], Stats(0, 0, 0, 0, 0, 0, false, 0))
    else
      var urlMerged := MergePass(lex, material, UrlIn(lex));
      var exact := Exact(lex, urlMerged);
      var budget := Max(0, fuzzyComparisons);
      var candidates := Upto(exact, Max(0, fuzzyCandidates));
      var pass := PassAt(lex, candidates, budget, |candidates|);
      var left := Unprocessed(candidates, pass);
      (FuzzyResult(lex, exact, Max(0, fuzzyCandidates), budget),
       Stats(|material|, |GroupKeys(material, UrlIn(lex))|, |GroupKeys(urlMerged, TitleIn(lex))|, |candidates|,
             pass.used, budget, pass.used >= budget && left != [], |left|))
  }

  // ----- what the fuzzy pass guarantees

  ghost predicate PairwiseDissimilar(lex: Lexicon, kept: seq<NewsItem>) {
    forall i, j :: 0 <= i < j < |kept| ==> !Similar(lex, kept[j], kept[i])
  }

  ghost predicate SimilarToSome(lex: Lexicon, item: NewsItem, kept: seq<NewsItem>) {
    exists i :: 0 <= i < |kept| && Similar(lex, item, kept[i])
  }

  lemma {:induction false} ScanDecides(lex: Lexicon, item: NewsItem, kept: seq<NewsItem>, budget: nat)
    ensures
      var scan := ScanKept(lex, item, kept, budget);
      && (scan.duplicate ==> SimilarToSome(lex, item, kept))
      && (!scan.duplicate && scan.complete ==> !SimilarToSome(lex, item, kept))
      && (!scan.complete ==> scan.used == budget && !scan.duplicate)
      && scan.used <= |kept|
  {
    if kept != [] && budget > 0 && !Similar(lex, item, kept[0]) {
      ScanDecides(lex, item, kept[1..], budget - 1);
      if SimilarToSome(lex, item, kept[1..]) {
        var i :| 0 <= i < |kept[1..]| && Similar(lex, item, kept[1..][i]);
        assert Similar(lex, item, kept[i + 1]);
      }
      if SimilarToSome(lex, item, kept) {
        var i :| 0 <= i < |kept| && Similar(lex, item, kept[i]);
        assert kept[1..][i - 1] == kept[i];
      }
    }
  }

  /**
   * After `n` candidates: the kept ones are unlike each other, and each processed
   * candidate is kept or like a kept one.
   */
  ghost predicate PassSound(lex: Lexicon, candidates: seq<NewsItem>, budget: nat, n: nat, pass: Pass)
    requires n <= |candidates|
  {
    && PairwiseDissimilar(lex, pass.kept)
    && (forall i :: 0 <= i < |pass.kept| ==> pass.kept[i] in candidates[..n])
    && (forall j :: 0 <= j < n && (pass.stopped.Some? ==> j < pass.stopped.value) ==>
          candidates[j] in pass.kept || SimilarToSome(lex, candidates[j], pass.kept))
    && (pass.stopped.Some? ==> pass.used == budget && pass.stopped.value < n)
    && pass.used <= budget
  }

  /** The candidate was dropped, kept, or the budget ran out on it. */
  ghost predicate Decided(lex: Lexicon, item: NewsItem, budget: nat, n: nat, before: Pass, after: Pass)
    requires n > 0
  {
    || (after.stopped.None? && after.kept == before.kept && SimilarToSome(lex, item, before.kept))
    || (after.stopped.None? && after.kept == before.kept + [item] && !SimilarToSome(lex, item, before.kept))
    || (after.stopped == Some(n - 1) && after.kept == before.kept && after.used == budget)
  }

  /** One candidate further: nothing once stopped, otherwise a decision. */
  lemma PassStep(lex: Lexicon, candidates: seq<NewsItem>, budget: nat, n: nat)
    requires 0 < n <= |candidates|
    ensures
      var before, after := PassAt(lex, candidates, budget, n - 1), PassAt(lex, candidates, budget, n);
      || (after == before && before.stopped.Some?)
      || (before.stopped.None? && after.used <= budget && Decided(lex, candidates[n - 1], budget, n, before, after))
  {
    hide Similar, SimilarToSome;
    var before := PassAt(lex, candidates, budget, n - 1);
    if before.stopped.None? {
      ScanDecides(lex, candidates[n - 1], before.kept, budget - before.used);
      hide ScanKept;
    }
  }

  lemma NothingIsSound(lex: Lexicon, candidates: seq<NewsItem>, budget: nat)
    ensures PassSound(lex, candidates, budget, 0, PassAt(lex, candidates, budget, 0))
  {
  }

  lemma {:induction false} PassIsSound(lex: Lexicon, candidates: seq<NewsItem>, budget: nat, n: nat)
    requires n <= |candidates|
    ensures PassSound(lex, candidates, budget, n, PassAt(lex, candidates, budget, n))
  {
    hide PassSound, PassAt, Decided;
    if n == 0 {
      NothingIsSound(lex, candidates, budget);
    } else {
      PassIsSound(lex, candidates, budget, n - 1);
      PassStep(lex, candidates, budget, n);
      SoundStep(lex, candidates, budget, n, PassAt(lex, candidates, budget, n - 1), PassAt(lex, candidates, budget, n));
    }
  }

  lemma SoundStep(lex: Lexicon, candidates: seq<NewsItem>, budget: nat, n: nat, before: Pass, after: Pass)
    requires 0 < n <= |candidates| && PassSound(lex, candidates, budget, n - 1, before)
    requires
      var item := candidates[n - 1];
      || (after == before && before.stopped.Some?)
      || (before.stopped.None? && after.used <= budget && Decided(lex, item, budget, n, before, after))
    ensures PassSound(lex, candidates, budget, n, after)
  {
    hide Similar;
    var item := candidates[n - 1];
    forall x | x in candidates[..n - 1] ensures x in candidates[..n] {
    }
    forall j | 0 <= j < n && (after.stopped.Some? ==> j < after.stopped.value)
      ensures candidates[j] in after.kept || SimilarToSome(lex, candidates[j], after.kept)
    {
      if j < n - 1 && candidates[j] !in before.kept {
        var i :| 0 <= i < |before.kept| && Similar(lex, candidates[j], before.kept[i]);
        assert after.kept[i] == before.kept[i];
      }
    }
  }

  lemma ResultMembers(lex: Lexicon, exact: seq<NewsItem>, maxCandidates: nat, budget: nat, x: NewsItem)
    ensures
      var candidates := Upto(exact, maxCandidates);
      var pass := PassAt(lex, candidates, budget, |candidates|);
      x in FuzzyResult(lex, exact, maxCandidates, budget) <==>
      x in pass.kept || x in Unprocessed(candidates, pass) || x in exact[|candidates|..]
  {
    hide PassAt;
    var candidates := Upto(exact, maxCandidates);
    var pass := PassAt(lex, candidates, budget, |candidates|);
    SortedMembers(QualityIn(lex), pass.kept + Unprocessed(candidates, pass) + exact[|candidates|..], x);
  }

  /**
   * A candidate that is neither kept nor left unprocessed nor beyond the
   * candidates was found similar to a kept one.
   */
  lemma MissingIsSimilar(lex: Lexicon, exact: seq<NewsItem>, candidates: seq<NewsItem>, budget: nat, pass: Pass,
                         x: NewsItem)
    requires candidates <= exact && PassSound(lex, candidates, budget, |candidates|, pass) && x in exact
    requires x !in pass.kept && x !in Unprocessed(candidates, pass) && x !in exact[|candidates|..]
    ensures SimilarToSome(lex, x, pass.kept)
  {
    hide Similar;
    var j :| 0 <= j < |exact| && exact[j] == x;
    assert forall k :: |candidates| <= k < |exact| ==> exact[k] == exact[|candidates|..][k - |candidates|];
    assert j < |candidates| && candidates[j] == x;
    if pass.stopped.Some? {
      var at := pass.stopped.value;
      assert forall k :: at <= k < |candidates| ==> candidates[k] == candidates[at..][k - at];
      assert j < at;
    }
  }

  /**
   * The fuzzy pass drops nothing it has not found similar to an item of the
   * output, keeps to its budget, and stops early only when the budget is spent.
   */
  lemma OnlyProvenDuplicatesDropped(lex: Lexicon, exact: seq<NewsItem>, maxCandidates: nat, budget: nat)
    ensures
      var candidates := Upto(exact, maxCandidates);
      var pass := PassAt(lex, candidates, budget, |candidates|);
      var result := FuzzyResult(lex, exact, maxCandidates, budget);
      && (forall x :: x in result ==> x in exact)
      && (forall x :: x in exact && x !in result ==> SimilarToSome(lex, x, pass.kept))
      && (forall x :: x in pass.kept ==> x in result)
      && PairwiseDissimilar(lex, pass.kept)
      && pass.used <= budget && (pass.stopped.Some? ==> pass.used == budget)
  {
    var candidates := Upto(exact, maxCandidates);
    var pass := PassAt(lex, candidates, budget, |candidates|);
    PassIsSound(lex, candidates, budget, |candidates|);
    assert candidates[..|candidates|] == candidates;
    hide Similar, PassAt, PairwiseDissimilar, FuzzyResult, SimilarToSome;
    forall x
      ensures x in FuzzyResult(lex, exact, maxCandidates, budget) ==> x in exact
      ensures x in exact && x !in FuzzyResult(lex, exact, maxCandidates, budget) ==> SimilarToSome(lex, x, pass.kept)
      ensures x in pass.kept ==> x in FuzzyResult(lex, exact, maxCandidates, budget)
    {
      ResultMembers(lex, exact, maxCandidates, budget, x);
      if x in exact && x !in FuzzyResult(lex, exact, maxCandidates, budget) {
        MissingIsSimilar(lex, exact, candidates, budget, pass, x);
      }
    }
  }

  // ----- the order of the input does not matter

  lemma {:induction false} MaterialCount(items: seq<NewsItem>, x: NewsItem)
    ensures multiset(Material(items))[x] == if x.quarantined then 0 else multiset(items)[x]
  {
    if items != [] {
      MaterialCount(items[..|items| - 1], x);
      assert items == items[..|items| - 1] + [items[|items| - 1]];
    }
  }

  lemma {:induction false} GroupCount(items: seq<NewsItem>, key: NewsItem -> string, k: string, x: NewsItem)
    ensures multiset(Group(items, key, k))[x] == if key(x) == k then multiset(items)[x] else 0
  {
    if items != [] {
      GroupCount(items[..|items| - 1], key, k, x);
      assert items == items[..|items| - 1] + [items[|items| - 1]];
    }
  }

  lemma CodesInjective(a: string, b: string)
    requires Codes(a) == Codes(b)
    ensures a == b
  {
    assert |Codes(a)| == |Codes(b)|;
    forall i | 0 <= i < |a| ensures a[i] == b[i] {
      assert Codes(a)[i] == Codes(b)[i];
    }
  }

  /** Distinct words with the same members are the same multiset. */
  lemma SameDistinctWords(a: seq<string>, b: seq<string>)
    requires forall w :: w in a <==> w in b
    requires forall i, j :: 0 <= i < j < |a| ==> a[i] != a[j]
    requires forall i, j :: 0 <= i < j < |b| ==> b[i] != b[j]
    ensures multiset(a) == multiset(b)
  {
    forall w ensures multiset(a)[w] == multiset(b)[w] {
      OnceCounted(a, w);
      OnceCounted(b, w);
      assert w in a <==> multiset(a)[w] > 0;
      assert w in b <==> multiset(b)[w] > 0;
    }
  }

  lemma GroupKeysIgnoreOrder(a: seq<NewsItem>, b: seq<NewsItem>, key: NewsItem -> string)
    requires multiset(a) == multiset(b)
    ensures GroupKeys(a, key) == GroupKeys(b, key)
  {
    var us, vs := Uniques(KeysOf(a, key)), Uniques(KeysOf(b, key));
    UniquesAre(KeysOf(a, key));
    UniquesAre(KeysOf(b, key));
    KeysMembers(a, b, key);
    KeysMembers(b, a, key);
    SameDistinctWords(us, vs);
    forall x, y | x in us && y in us && Codes(x) == Codes(y) ensures x == y {
      CodesInjective(x, y);
    }
    SortIgnoresOrder(Codes, us, vs);
  }

  lemma KeysMembers(a: seq<NewsItem>, b: seq<NewsItem>, key: NewsItem -> string)
    requires multiset(a) == multiset(b)
    ensures forall w :: w in KeysOf(a, key) ==> w in KeysOf(b, key)
  {
    forall w | w in KeysOf(a, key) ensures w in KeysOf(b, key) {
      var i :| 0 <= i < |a| && KeysOf(a, key)[i] == w;
      assert a[i] in multiset(b);
      var j :| 0 <= j < |b| && b[j] == a[i];
      assert KeysOf(b, key)[j] == w;
    }
  }

  lemma OneSurvives(lex: Lexicon, one: NewsItem, maxCandidates: nat, budget: nat)
    ensures FuzzyResult(lex, [one], maxCandidates, budget) == [one]
  {
    hide Quality, SortBy, Similar;
    SortOne(QualityIn(lex), one);
    if maxCandidates == 0 {
      assert Upto([one], maxCandidates) == [];
      assert [] + [] + [one] == [one];
    } else {
      assert PassAt(lex, [one], budget, 0) == Pass([], 0, None);
      assert PassAt(lex, [one], budget, 1) == Pass([one], 0, None);
      hide PassAt;
      assert [one] + [] + [one][1..] == [one];
    }
  }

  lemma {:induction false} AllOneKey(items: seq<NewsItem>, key: NewsItem -> string, k: string)
    requires forall i :: 0 <= i < |items| ==> key(items[i]) == k
    ensures Group(items, key, k) == items
    ensures items != [] ==> Uniques(KeysOf(items, key)) == [k]
  {
    if items != [] {
      var front := items[..|items| - 1];
      AllOneKey(front, key, k);
      assert items == front + [items[|items| - 1]];
      assert KeysOf(items, key)[..|items| - 1] == KeysOf(front, key);
    }
  }

  lemma OneKeyOnly(items: seq<NewsItem>, key: NewsItem -> string, k: string)
    requires items != [] && forall i :: 0 <= i < |items| ==> key(items[i]) == k
    ensures GroupKeys(items, key) == [k] && Group(items, key, k) == items
  {
    AllOneKey(items, key, k);
    hide KeysOf, Group, Uniques, SortBy;
    SortOne(Codes, k);
  }

  lemma OneGroup(lex: Lexicon, items: seq<NewsItem>, key: NewsItem -> string, k: string)
    requires items != [] && forall i :: 0 <= i < |items| ==> key(items[i]) == k
    ensures MergePass(lex, items, key) == [MergeGroup(lex, items)]
  {
    hide GroupKeys, Group, MergeGroup;
    OneKeyOnly(items, key, k);
    GroupsNonempty(items, key);
    MergeOne(lex, items, key, k);
  }

  lemma MergeOne(lex: Lexicon, items: seq<NewsItem>, key: NewsItem -> string, k: string)
    requires items != [] && Group(items, key, k) == items
    ensures MergeGroups(lex, items, key, [k]) == [MergeGroup(lex, items)]
  {
    hide Group, MergeGroup;
  }

  // ----- merging keeps identities apart and loses no information

  /** The same collector, feed and query. */
  predicate SameOrigin(a: NewsItem, b: NewsItem) {
    a.collector == b.collector && a.sourceUrl == b.sourceUrl && a.queryName == b.queryName && a.sourceId == b.sourceId
  }

  predicate SameIdentity(a: NewsItem, b: NewsItem) {
    a.title == b.title && a.url == b.url && a.source == b.source && a.score == b.score && SameOrigin(a, b)
  }

  lemma {:induction false} LongestIsLongest(items: seq<NewsItem>)
    requires items != []
    ensures forall x :: x in items ==> |x.summary| <= |LongestSummary(items)|
    ensures exists x :: x in items && x.summary == LongestSummary(items)
  {
    if |items| > 1 {
      var front, last := items[..|items| - 1], items[|items| - 1];
      LongestIsLongest(front);
      assert items == front + [last];
      if |last.summary| <= |LongestSummary(front)| {
        var x :| x in front && x.summary == LongestSummary(front);
        assert x in items;
      } else {
        assert last in items;
      }
    } else {
      assert items[0] in items;
    }
  }

  lemma {:induction false} FirstsExist(items: seq<NewsItem>)
    ensures FirstHost(items) == "" <==> forall x :: x in items ==> x.sourceHost == ""
    ensures FirstPublished(items).None? <==> forall x :: x in items ==> x.published.None?
    ensures FirstTopical(items).None? <==> forall x :: x in items ==> x.topic == ""
    ensures FirstTopical(items).Some? ==> FirstTopical(items).value in items && FirstTopical(items).value.topic != ""
  {
    if items != [] {
      FirstsExist(items[1..]);
      assert items == [items[0]] + items[1..];
    }
  }

  /** A lone item is merged with nothing: its matches lose repetitions, and what exceeds twenty. */
  function Trimmed(x: NewsItem): NewsItem {
    x.(matches := Upto(Uniques(x.matches), 20))
  }

  lemma EnrichAlone(x: NewsItem)
    ensures Enriched([x]) == Trimmed(x)
  {
    FirstsExist([x]);
    LongestIsLongest([x]);
    var rest := [x][1..];
    assert rest == [];
    assert AllMatches(rest) == [];
    assert x.matches + [] == x.matches;
    assert AllMatches([x]) == x.matches;
    hide Uniques, Upto;
  }

  lemma MergeAlone(lex: Lexicon, x: NewsItem)
    ensures MergeGroup(lex, [x]) == Trimmed(x)
  {
    SortOne(QualityIn(lex), x);
    hide Quality, SortBy, Enriched, Trimmed;
    EnrichAlone(x);
  }

  /**
   * The merged item is one of the group by identity, and has a host, a date, a
   * topic and a longest summary if any member has.
   */
  lemma MergeKeepsIdentity(lex: Lexicon, items: seq<NewsItem>)
    requires items != []
    ensures
      var merged := MergeGroup(lex, items);
      && (exists x :: x in items && SameIdentity(merged, x) &&
            forall y :: y in items ==> Leq(Quality(lex, x), Quality(lex, y)))
      && (forall x :: x in items ==> |x.summary| <= |merged.summary|)
      && (merged.sourceHost == "" <==> forall x :: x in items ==> x.sourceHost == "")
      && (merged.published.None? <==> forall x :: x in items ==> x.published.None?)
      && (merged.topic == "" <==> forall x :: x in items ==> x.topic == "")
  {
    SortBySorts(QualityIn(lex), items);
    var ordered := SortBy(QualityIn(lex), items);
    forall x ensures x in ordered <==> x in items {
      SortedMembers(QualityIn(lex), items, x);
    }
    BestIsFirst(lex, ordered);
    hide Quality, Leq, Sorted, SortBy;
    EnrichedFrom(ordered);
    var best := ordered[0];
    assert best in ordered && SameIdentity(MergeGroup(lex, items), best);
  }

  lemma BestIsFirst(lex: Lexicon, ordered: seq<NewsItem>)
    requires ordered != [] && Sorted(QualityIn(lex), ordered)
    ensures forall y :: y in ordered ==> Leq(Quality(lex, ordered[0]), Quality(lex, y))
  {
    hide Quality;
    LeqTotal(Quality(lex, ordered[0]), Quality(lex, ordered[0]));
    assert forall i :: 0 < i < |ordered| ==> Leq(QualityIn(lex)(ordered[0]), QualityIn(lex)(ordered[i]));
  }

  lemma EnrichedFrom(ordered: seq<NewsItem>)
    requires ordered != []
    ensures
      var merged := Enriched(ordered);
      && SameIdentity(merged, ordered[0])
      && (forall x :: x in ordered ==> |x.summary| <= |merged.summary|)
      && (merged.sourceHost == "" <==> forall x :: x in ordered ==> x.sourceHost == "")
      && (merged.published.None? <==> forall x :: x in ordered ==> x.published.None?)
      && (merged.topic == "" <==> forall x :: x in ordered ==> x.topic == "")
  {
    LongestIsLongest(ordered);
    FirstsExist(ordered);
    assert ordered[0] in ordered;
  }

  ghost predicate DistinctBy(f: NewsItem -> string, s: seq<NewsItem>) {
    forall i, j :: 0 <= i < j < |s| ==> f(s[i]) != f(s[j])
  }

  /** A key that only reads what merging keeps. */
  ghost predicate ReadsIdentity(f: NewsItem -> string) {
    forall a, b | SameIdentity(a, b) :: f(a) == f(b)
  }

  ghost predicate StandsForSome(item: NewsItem, items: seq<NewsItem>) {
    exists x :: x in items && SameIdentity(item, x)
  }

  ghost predicate StandFor(merged: seq<NewsItem>, items: seq<NewsItem>) {
    forall i :: 0 <= i < |merged| ==> StandsForSome(merged[i], items)
  }

  ghost predicate HasKey(key: NewsItem -> string, merged: seq<NewsItem>, k: string) {
    exists i :: 0 <= i < |merged| && key(merged[i]) == k
  }

  lemma MergePassKeys(lex: Lexicon, items: seq<NewsItem>, key: NewsItem -> string)
    requires ReadsIdentity(key)
    ensures
      var merged := MergePass(lex, items, key);
      DistinctBy(key, merged) && StandFor(merged, items) && forall x :: x in items ==> HasKey(key, merged, key(x))
  {
    GroupsNonempty(items, key);
    GroupKeysAre(items, key);
    var keys, merged := GroupKeys(items, key), MergePass(lex, items, key);
    forall i | 0 <= i < |merged|
      ensures key(merged[i]) == keys[i] && StandsForSome(merged[i], items)
    {
      var group := Group(items, key, keys[i]);
      GroupIs(items, key, keys[i]);
      MergeKeepsIdentity(lex, group);
      var x :| x in group && SameIdentity(MergeGroup(lex, group), x);
      assert merged[i] == MergeGroup(lex, group);
    }
    forall x | x in items ensures HasKey(key, merged, key(x)) {
      assert key(x) in keys;
      var i :| 0 <= i < |keys| && keys[i] == key(x);
      assert key(merged[i]) == key(x);
    }
  }

  /** A part of a rearrangement of distinct items is distinct. */
  lemma DistinctWithin(f: NewsItem -> string, whole: seq<NewsItem>, part: seq<NewsItem>)
    requires DistinctBy(f, whole) && multiset(part) <= multiset(whole)
    ensures DistinctBy(f, part)
  {
    forall i, j | 0 <= i < j < |part| ensures f(part[i]) != f(part[j]) {
      if f(part[i]) == f(part[j]) {
        assert part[i] in multiset(part) && part[j] in multiset(part);
        assert part[i] in whole && part[j] in whole;
        assert part[i] == part[j];
        TwiceCounted(part, i, j);
        DistinctCountsOnce(f, whole, part[i]);
      }
    }
  }

  lemma {:induction false} DistinctCountsOnce(f: NewsItem -> string, s: seq<NewsItem>, x: NewsItem)
    requires DistinctBy(f, s)
    ensures multiset(s)[x] <= 1
  {
    if s != [] {
      var front, last := s[..|s| - 1], s[|s| - 1];
      assert s == front + [last];
      DistinctCountsOnce(f, front, x);
      assert forall i :: 0 <= i < |front| ==> front[i] == s[i] && f(s[i]) != f(last);
    }
  }

  /** Items that stand for distinct members of a list with distinct URLs have distinct URLs. */
  lemma UrlsStayApart(lex: Lexicon, urlMerged: seq<NewsItem>, merged: seq<NewsItem>)
    requires DistinctBy(UrlIn(lex), urlMerged) && DistinctBy(TitleIn(lex), merged)
    requires StandFor(merged, urlMerged)
    ensures DistinctBy(UrlIn(lex), merged)
  {
    forall i, j | 0 <= i < j < |merged| ensures UrlIn(lex)(merged[i]) != UrlIn(lex)(merged[j]) {
      var x :| x in urlMerged && SameIdentity(merged[i], x);
      var y :| y in urlMerged && SameIdentity(merged[j], y);
      assert TitleIn(lex)(merged[i]) == TitleIn(lex)(x) && TitleIn(lex)(merged[j]) == TitleIn(lex)(y);
      var p :| 0 <= p < |urlMerged| && urlMerged[p] == x;
      var q :| 0 <= q < |urlMerged| && urlMerged[q] == y;
      assert p < q || q < p;
    }
  }

  /** Both canonical URLs and titles are distinct once exact duplicates are merged. */
  lemma ExactIsDistinct(lex: Lexicon, material: seq<NewsItem>)
    ensures
      var exact := Exact(lex, MergePass(lex, material, UrlIn(lex)));
      DistinctBy(UrlIn(lex), exact) && DistinctBy(TitleIn(lex), exact)
  {
    var urlMerged := MergePass(lex, material, UrlIn(lex));
    MergePassKeys(lex, material, UrlIn(lex));
    MergePassKeys(lex, urlMerged, TitleIn(lex));
    hide MergePass, DistinctBy, SortBy, Quality, StandFor, HasKey;
    var merged := MergePass(lex, urlMerged, TitleIn(lex));
    UrlsStayApart(lex, urlMerged, merged);
    SortBySorts(QualityIn(lex), merged);
    DistinctWithin(UrlIn(lex), merged, Exact(lex, urlMerged));
    DistinctWithin(TitleIn(lex), merged, Exact(lex, urlMerged));
  }

  function Reach(pass: Pass, n: nat): nat {
    if pass.stopped.Some? then pass.stopped.value else n
  }

  lemma NothingPassed(lex: Lexicon, candidates: seq<NewsItem>, budget: nat)
    ensures PassAt(lex, candidates, budget, 0) == Pass([], 0, None)
  {
  }

  lemma {:induction false} KeptIsPart(lex: Lexicon, candidates: seq<NewsItem>, budget: nat, n: nat)
    requires n <= |candidates|
    ensures
      var pass := PassAt(lex, candidates, budget, n);
      Reach(pass, n) <= n && multiset(pass.kept) <= multiset(candidates[..Reach(pass, n)])
  {
    hide PassAt, SimilarToSome, Similar;
    if n == 0 {
      NothingPassed(lex, candidates, budget);
    } else {
      KeptIsPart(lex, candidates, budget, n - 1);
      PassStep(lex, candidates, budget, n);
      var before, after := PassAt(lex, candidates, budget, n - 1), PassAt(lex, candidates, budget, n);
      if before.stopped.None? {
        PartGrows(candidates, n, before.kept);
        assert after.kept == before.kept || after.kept == before.kept + [candidates[n - 1]];
        assert Reach(after, n) == n || (Reach(after, n) == n - 1 && after.kept == before.kept);
      }
    }
  }

  lemma PartGrows(candidates: seq<NewsItem>, n: nat, kept: seq<NewsItem>)
    requires 0 < n <= |candidates| && multiset(kept) <= multiset(candidates[..n - 1])
    ensures multiset(kept) <= multiset(candidates[..n]) &&
      multiset(kept + [candidates[n - 1]]) <= multiset(candidates[..n])
  {
    assert candidates[..n] == candidates[..n - 1] + [candidates[n - 1]];
  }

  lemma ResultIsPart(lex: Lexicon, exact: seq<NewsItem>, maxCandidates: nat, budget: nat)
    ensures multiset(FuzzyResult(lex, exact, maxCandidates, budget)) <= multiset(exact)
  {
    hide PassAt;
    var candidates := Upto(exact, maxCandidates);
    var pass := PassAt(lex, candidates, budget, |candidates|);
    KeptIsPart(lex, candidates, budget, |candidates|);
    var at := Reach(pass, |candidates|);
    assert candidates == candidates[..at] + candidates[at..];
    assert exact == candidates + exact[|candidates|..];
    assert Unprocessed(candidates, pass) == candidates[at..];
    SortBySorts(QualityIn(lex), pass.kept + Unprocessed(candidates, pass) + exact[|candidates|..]);
  }

  /**
   * No two items of the output share a canonical URL or a title, and budget
   * exhaustion is reported exactly when items were left.
   */
  lemma OutputIsDistinct(lex: Lexicon, items: seq<NewsItem>, fuzzyCandidates: int, fuzzyComparisons: int)
    ensures
      var (result, stats) := Deduplicated(lex, items, fuzzyCandidates, fuzzyComparisons);
      && DistinctBy(UrlIn(lex), result) && DistinctBy(TitleIn(lex), result)
      && stats.comparisons <= stats.budget
      && (stats.exhausted <==> stats.unprocessed > 0)
  {
    var material := Material(items);
    if material != [] {
      var exact := Exact(lex, MergePass(lex, material, UrlIn(lex)));
      var budget := Max(0, fuzzyComparisons);
      ExactIsDistinct(lex, material);
      ResultIsPart(lex, exact, Max(0, fuzzyCandidates), budget);
      DistinctWithin(UrlIn(lex), exact, FuzzyResult(lex, exact, Max(0, fuzzyCandidates), budget));
      DistinctWithin(TitleIn(lex), exact, FuzzyResult(lex, exact, Max(0, fuzzyCandidates), budget));
      OnlyProvenDuplicatesDropped(lex, exact, Max(0, fuzzyCandidates), budget);
    }
  }

  lemma {:induction false} MaterialIs(items: seq<NewsItem>, x: NewsItem)
    ensures x in Material(items) <==> x in items && !x.quarantined
  {
    MaterialCount(items, x);
    assert x in Material(items) <==> multiset(Material(items))[x] > 0;
    assert x in items <==> multiset(items)[x] > 0;
  }

  /** An exact survivor is in the output or similar to something in it. */
  lemma ExactIsRepresented(lex: Lexicon, exact: seq<NewsItem>, maxCandidates: nat, budget: nat, e: NewsItem)
    requires e in exact
    ensures
      var result := FuzzyResult(lex, exact, maxCandidates, budget);
      e in result || SimilarToSome(lex, e, result)
  {
    OnlyProvenDuplicatesDropped(lex, exact, maxCandidates, budget);
    var result := FuzzyResult(lex, exact, maxCandidates, budget);
    hide Similar, PassAt, FuzzyResult;
    if e !in result {
      var candidates := Upto(exact, maxCandidates);
      var kept := PassAt(lex, candidates, budget, |candidates|).kept;
      var k :| 0 <= k < |kept| && Similar(lex, e, kept[k]);
      assert kept[k] in result;
      var q :| 0 <= q < |result| && result[q] == kept[k];
    }
  }

  ghost predicate Represented(lex: Lexicon, x: NewsItem, r: NewsItem, e: NewsItem, result: seq<NewsItem>) {
    UrlOf(lex, r) == UrlOf(lex, x) && TitleOf(lex, e) == TitleOf(lex, r) &&
      (e in result || SimilarToSome(lex, e, result))
  }

  /**
   * Nothing is lost silently: every usable input item has a representative of
   * its URL, and that one a representative of its title, which is in the output
   * or was found similar to an item of the output.
   */
  lemma EveryInputIsRepresented(lex: Lexicon, items: seq<NewsItem>, fuzzyCandidates: int, fuzzyComparisons: int,
                                x: NewsItem)
    requires x in items && !x.quarantined
    ensures exists r, e :: Represented(lex, x, r, e, Deduplicated(lex, items, fuzzyCandidates, fuzzyComparisons).0)
  {
    MaterialIs(items, x);
    var urlMerged := MergePass(lex, Material(items), UrlIn(lex));
    var r := UrlRepresentative(lex, Material(items), x);
    var e := TitleRepresentative(lex, urlMerged, r);
    hide Material, Exact, PassAt, FuzzyResult, MergePass, SimilarToSome, GroupKeys, UrlOf, TitleOf;
    ExactIsRepresented(lex, Exact(lex, urlMerged), Max(0, fuzzyCandidates), Max(0, fuzzyComparisons), e);
    assert Represented(lex, x, r, e, Deduplicated(lex, items, fuzzyCandidates, fuzzyComparisons).0);
  }

  lemma UrlRepresentative(lex: Lexicon, material: seq<NewsItem>, x: NewsItem) returns (r: NewsItem)
    requires x in material
    ensures r in MergePass(lex, material, UrlIn(lex)) && UrlOf(lex, r) == UrlOf(lex, x)
  {
    MergePassKeys(lex, material, UrlIn(lex));
    hide MergePass, Quality, UrlOf, StandFor, DistinctBy;
    var urlMerged := MergePass(lex, material, UrlIn(lex));
    assert HasKey(UrlIn(lex), urlMerged, UrlIn(lex)(x));
    var i :| 0 <= i < |urlMerged| && UrlIn(lex)(urlMerged[i]) == UrlIn(lex)(x);
    r := urlMerged[i];
  }

  lemma TitleRepresentative(lex: Lexicon, urlMerged: seq<NewsItem>, r: NewsItem) returns (e: NewsItem)
    requires r in urlMerged
    ensures e in Exact(lex, urlMerged) && TitleOf(lex, e) == TitleOf(lex, r)
  {
    MergePassKeys(lex, urlMerged, TitleIn(lex));
    hide MergePass, SortBy, Quality, TitleOf, StandFor, DistinctBy;
    var merged := MergePass(lex, urlMerged, TitleIn(lex));
    assert HasKey(TitleIn(lex), merged, TitleIn(lex)(r));
    var j :| 0 <= j < |merged| && TitleIn(lex)(merged[j]) == TitleIn(lex)(r);
    e := merged[j];
    SortedMembers(QualityIn(lex), merged, e);
  }
}
