/**
 * From ranked items to a frozen delivery: deduplicate, ask the history, select,
 * freeze.  What is selected may always be chosen; whether it can be frozen
 * depends on the title keys, which neither the deduplication nor the capped
 * pick compares.
 */
module Pipeline {
  import opened Wrappers
  import opened Rows
  import opened Transactions
  import opened Ordering
  import opened Ranking
  import opened Identity
  import opened Protocol
  import opened Selection

  function StoryIn(lex: Lexicon, item: NewsItem): Story {
    Story(Fingerprint(lex, item), UrlKey(lex, item))
  }

  function StoriesOf(lex: Lexicon, items: seq<NewsItem>): seq<Story> {
    seq(|items|, i requires 0 <= i < |items| => StoryIn(lex, items[i]))
  }

  /** Deduplicate, ask the history, select: _collect_rank_select on ranked items. */
  function Selected(lex: Lexicon, ranked: seq<NewsItem>, fuzzyCandidates: int, fuzzyComparisons: int, cfg: Settings,
                    w: Windows, history: seq<HistoryRow>, now: Time): seq<NewsItem>
  {
    var unique := Deduplicated(lex, ranked, fuzzyCandidates, fuzzyComparisons).0;
    var (urls, titles) := SeenKeys(history, StoriesOf(lex, unique), w, now);
    DigestOf(lex, unique, cfg, urls, titles, now)
  }

  /** What is selected has distinct URLs and is nothing the history excludes, so a run may choose it. */
  lemma PipelineIsSelectable(lex: Lexicon, ranked: seq<NewsItem>, fuzzyCandidates: int, fuzzyComparisons: int,
                             cfg: Settings, w: Windows, db: Db, now: Time)
    ensures
      var selected := Selected(lex, ranked, fuzzyCandidates, fuzzyComparisons, cfg, w, db.history, now);
      Selectable(w, db, StoriesOf(lex, selected), now)
  {
    OutputIsDistinct(lex, ranked, fuzzyCandidates, fuzzyComparisons);
    var unique := Deduplicated(lex, ranked, fuzzyCandidates, fuzzyComparisons).0;
    var (urls, titles) := SeenKeys(db.history, StoriesOf(lex, unique), w, now);
    SelectionIsSound(lex, unique, cfg, urls, titles, now);
    var selected := DigestOf(lex, unique, cfg, urls, titles, now);
    hide Deduplicated, DigestOf, SeenKeys, Unseen, Fingerprint, UrlOf, Fresh;
    forall i | 0 <= i < |selected| ensures Unseen(w, db.history, StoriesOf(lex, selected)[i], now) {
      assert selected[i] in selected && Eligible(lex, selected[i], cfg, urls, titles, now);
      var k :| 0 <= k < |unique| && unique[k] == selected[i];
      UnseenIsNotFound(db.history, StoriesOf(lex, unique), w, now, k);
    }
    forall i, j | 0 <= i < j < |selected| ensures UrlKey(lex, selected[i]) != UrlKey(lex, selected[j]) {
      assert UrlIn(lex)(selected[i]) != UrlIn(lex)(selected[j]);
    }
  }

  // ----- when the fingerprints of a selection are distinct

  ghost predicate DistinctPrints(lex: Lexicon, items: seq<NewsItem>) {
    forall i, j :: 0 <= i < j < |items| ==> Fingerprint(lex, items[i]) != Fingerprint(lex, items[j])
  }

  /** The capped pick takes candidate `i`: the digest is not full, the score suffices and both caps have room. */
  predicate Taken(lex: Lexicon, cfg: Settings, candidates: seq<NewsItem>, i: nat)
    requires i < |candidates|
  {
    var selected := Capped(lex, cfg, candidates, i);
    (selected == [] || |selected| < cfg.dailyMax) && Fits(lex, cfg, selected, candidates[i])
  }

  /** One of the first `n` candidates of this fingerprint is taken. */
  ghost predicate TakenBefore(lex: Lexicon, cfg: Settings, candidates: seq<NewsItem>, n: nat, key: Digest)
    requires n <= |candidates|
  {
    exists i :: 0 <= i < n && Taken(lex, cfg, candidates, i) && Fingerprint(lex, candidates[i]) == key
  }

  /** Two candidates of one fingerprint are both taken. */
  ghost predicate TakenTwice(lex: Lexicon, cfg: Settings, candidates: seq<NewsItem>, n: nat)
    requires n <= |candidates|
  {
    exists j :: 0 <= j < n && Taken(lex, cfg, candidates, j) &&
                TakenBefore(lex, cfg, candidates, j, Fingerprint(lex, candidates[j]))
  }

  lemma CappedStep(lex: Lexicon, cfg: Settings, candidates: seq<NewsItem>, n: nat)
    requires 0 < n <= |candidates|
    ensures Capped(lex, cfg, candidates, n) ==
      Capped(lex, cfg, candidates, n - 1) + if Taken(lex, cfg, candidates, n - 1) then [candidates[n - 1]] else []
  {
    hide Fits;
  }

  lemma BeforeStep(lex: Lexicon, cfg: Settings, candidates: seq<NewsItem>, n: nat, key: Digest)
    requires 0 < n <= |candidates|
    ensures TakenBefore(lex, cfg, candidates, n, key) <==>
      TakenBefore(lex, cfg, candidates, n - 1, key) ||
      (Taken(lex, cfg, candidates, n - 1) && Fingerprint(lex, candidates[n - 1]) == key)
  {
    hide Fingerprint, Taken;
  }

  lemma NoneBefore(lex: Lexicon, cfg: Settings, candidates: seq<NewsItem>, item: NewsItem)
    ensures !HasFingerprint(lex, Capped(lex, cfg, candidates, 0), item)
    ensures !TakenBefore(lex, cfg, candidates, 0, Fingerprint(lex, item))
  {
    hide Fingerprint, Taken;
  }

  lemma {:induction false} CappedPrints(lex: Lexicon, cfg: Settings, candidates: seq<NewsItem>, n: nat, item: NewsItem)
    requires n <= |candidates|
    ensures HasFingerprint(lex, Capped(lex, cfg, candidates, n), item) <==>
      TakenBefore(lex, cfg, candidates, n, Fingerprint(lex, item))
  {
    hide Fingerprint, Taken, TakenBefore, HasFingerprint, Capped;
    if n == 0 {
      NoneBefore(lex, cfg, candidates, item);
    } else {
      CappedPrints(lex, cfg, candidates, n - 1, item);
      CappedStep(lex, cfg, candidates, n);
      BeforeStep(lex, cfg, candidates, n, Fingerprint(lex, item));
      var before := Capped(lex, cfg, candidates, n - 1);
      assert before + [] == before;
      PrintsGrow(lex, Capped(lex, cfg, candidates, n - 1), candidates[n - 1], item);
    }
  }

  lemma PrintsGrow(lex: Lexicon, selected: seq<NewsItem>, next: NewsItem, item: NewsItem)
    ensures HasFingerprint(lex, selected + [next], item) <==>
      HasFingerprint(lex, selected, item) || Fingerprint(lex, next) == Fingerprint(lex, item)
    ensures DistinctPrints(lex, selected + [next]) <==>
      DistinctPrints(lex, selected) && !HasFingerprint(lex, selected, next)
  {
    hide Fingerprint;
    var all := selected + [next];
    assert forall i :: 0 <= i < |selected| ==> all[i] == selected[i];
    assert all[|selected|] == next;
    if HasFingerprint(lex, selected, item) {
      var i :| 0 <= i < |selected| && Fingerprint(lex, selected[i]) == Fingerprint(lex, item);
      assert Fingerprint(lex, all[i]) == Fingerprint(lex, item);
    }
    if DistinctPrints(lex, all) {
      forall i, j | 0 <= i < j < |selected| ensures Fingerprint(lex, selected[i]) != Fingerprint(lex, selected[j]) {
        assert all[i] == selected[i] && all[j] == selected[j];
      }
      forall i | 0 <= i < |selected| ensures Fingerprint(lex, selected[i]) != Fingerprint(lex, next) {
        assert all[i] == selected[i];
      }
    }
  }

  lemma TwiceStep(lex: Lexicon, cfg: Settings, candidates: seq<NewsItem>, n: nat)
    requires 0 < n <= |candidates|
    ensures TakenTwice(lex, cfg, candidates, n) <==>
      TakenTwice(lex, cfg, candidates, n - 1) ||
      (Taken(lex, cfg, candidates, n - 1) &&
       TakenBefore(lex, cfg, candidates, n - 1, Fingerprint(lex, candidates[n - 1])))
  {
    hide Fingerprint, Taken, TakenBefore;
  }

  lemma {:induction false} CappedDistinctIff(lex: Lexicon, cfg: Settings, candidates: seq<NewsItem>, n: nat)
    requires n <= |candidates|
    ensures DistinctPrints(lex, Capped(lex, cfg, candidates, n)) <==> !TakenTwice(lex, cfg, candidates, n)
  {
    hide Fingerprint, Taken, TakenBefore, HasFingerprint, Fits;
    if n > 0 {
      CappedDistinctIff(lex, cfg, candidates, n - 1);
      CappedStep(lex, cfg, candidates, n);
      TwiceStep(lex, cfg, candidates, n);
      CappedPrints(lex, cfg, candidates, n - 1, candidates[n - 1]);
      PrintsGrow(lex, Capped(lex, cfg, candidates, n - 1), candidates[n - 1], candidates[n - 1]);
      hide Capped, TakenTwice, DistinctPrints;
    }
  }

  lemma {:induction false} FillKeepsDistinct(lex: Lexicon, cfg: Settings, base: seq<NewsItem>,
                                             candidates: seq<NewsItem>, n: nat)
    requires n <= |candidates| && DistinctPrints(lex, base)
    ensures DistinctPrints(lex, Filled(lex, cfg, base, candidates, n))
  {
    hide Fingerprint, HasFingerprint, DistinctPrints;
    if n > 0 {
      FillKeepsDistinct(lex, cfg, base, candidates, n - 1);
      PrintsGrow(lex, Filled(lex, cfg, base, candidates, n - 1), candidates[n - 1], candidates[n - 1]);
    }
  }

  lemma PrefixDistinct(lex: Lexicon, part: seq<NewsItem>, whole: seq<NewsItem>)
    requires part <= whole && DistinctPrints(lex, whole)
    ensures DistinctPrints(lex, part)
  {
    hide Fingerprint;
    forall i, j | 0 <= i < j < |part| ensures Fingerprint(lex, part[i]) != Fingerprint(lex, part[j]) {
      assert part[i] == whole[i] && part[j] == whole[j];
    }
  }

  /**
   * A selection has distinct fingerprints exactly when the capped pick's guard
   * never lets two candidates of one fingerprint through; the fill adds none.
   */
  lemma DigestDistinctIff(lex: Lexicon, items: seq<NewsItem>, cfg: Settings, urls: set<Digest>, titles: set<Digest>,
                          now: Time)
    ensures
      var candidates := Candidates(lex, items, cfg, urls, titles, now);
      DistinctPrints(lex, DigestOf(lex, items, cfg, urls, titles, now)) <==>
      !TakenTwice(lex, cfg, candidates, |candidates|)
  {
    hide Candidates, Capped, Filled, TakenTwice, DistinctPrints, Picks;
    PicksDistinctIff(lex, cfg, Candidates(lex, items, cfg, urls, titles, now));
  }

  lemma PicksDistinctIff(lex: Lexicon, cfg: Settings, candidates: seq<NewsItem>)
    ensures DistinctPrints(lex, Picks(lex, cfg, candidates)) <==> !TakenTwice(lex, cfg, candidates, |candidates|)
  {
    var capped := Capped(lex, cfg, candidates, |candidates|);
    CappedDistinctIff(lex, cfg, candidates, |candidates|);
    FillExtends(lex, cfg, candidates);
    hide Capped, Filled, TakenTwice, DistinctPrints, Cut;
    if capped == [] || |capped| < cfg.dailyMax {
      CutDistinctIff(lex, cfg, capped, capped);
      CutDistinctIff(lex, cfg, capped, Filled(lex, cfg, capped, candidates, |candidates|));
    }
  }

  lemma FillExtends(lex: Lexicon, cfg: Settings, candidates: seq<NewsItem>)
    ensures
      var capped := Capped(lex, cfg, candidates, |candidates|);
      var filled := Filled(lex, cfg, capped, candidates, |candidates|);
      capped <= filled && (DistinctPrints(lex, capped) ==> DistinctPrints(lex, filled))
  {
    hide Fingerprint, DistinctPrints, Filled;
    var capped := Capped(lex, cfg, candidates, |candidates|);
    CappedIs(lex, cfg, candidates, |candidates|);
    assert candidates[..|candidates|] == candidates;
    forall x | x in capped ensures x in candidates {
      assert x in multiset(capped);
    }
    hide Capped;
    FilledIs(lex, cfg, capped, candidates, |candidates|);
    if DistinctPrints(lex, capped) {
      FillKeepsDistinct(lex, cfg, capped, candidates, |candidates|);
    }
  }

  lemma NoneIsDistinct(lex: Lexicon)
    ensures DistinctPrints(lex, [])
  {
  }

  /** The cut keeps the capped part unless that part is empty. */
  lemma CutDistinctIff(lex: Lexicon, cfg: Settings, capped: seq<NewsItem>, selected: seq<NewsItem>)
    requires capped <= selected && (capped == [] || |capped| < cfg.dailyMax)
    requires DistinctPrints(lex, capped) ==> DistinctPrints(lex, selected)
    ensures DistinctPrints(lex, Cut(selected, cfg.dailyMax)) <==> DistinctPrints(lex, capped)
  {
    hide Fingerprint, DistinctPrints;
    var cut := Cut(selected, cfg.dailyMax);
    if DistinctPrints(lex, capped) {
      PrefixDistinct(lex, cut, selected);
    }
    if DistinctPrints(lex, cut) {
      if capped == [] {
        NoneIsDistinct(lex);
      } else {
        PrefixDistinct(lex, capped, cut);
      }
    }
  }

  // ----- the same over all settings

  /** Settings that judge freshness alike; caps, limits and thresholds may differ. */
  predicate SameFreshness(cfg: Settings, other: Settings) {
    other.excludeMissingDate == cfg.excludeMissingDate && other.futureSkew == cfg.futureSkew &&
    other.lookback == cfg.lookback
  }

  lemma {:induction false} EligibleAlike(lex: Lexicon, items: seq<NewsItem>, cfg: Settings, other: Settings,
                                         urls: set<Digest>, titles: set<Digest>, now: Time)
    requires SameFreshness(cfg, other)
    ensures EligibleOnes(lex, items, other, urls, titles, now) == EligibleOnes(lex, items, cfg, urls, titles, now)
  {
    if items != [] {
      EligibleAlike(lex, items[..|items| - 1], cfg, other, urls, titles, now);
    }
  }

  function PrintIn(lex: Lexicon): NewsItem -> string {
    item => Fingerprint(lex, item).preimage
  }

  /** Rearranging items keeps their fingerprints distinct. */
  lemma SortKeepsDistinct(lex: Lexicon, items: seq<NewsItem>, key: NewsItem -> seq<int>)
    ensures DistinctPrints(lex, SortBy(key, items)) <==> DistinctPrints(lex, items)
  {
    SortBySorts(key, items);
    hide SortBy;
    PrintsByKey(lex, items);
    PrintsByKey(lex, SortBy(key, items));
    if DistinctBy(PrintIn(lex), items) {
      DistinctWithin(PrintIn(lex), items, SortBy(key, items));
    }
    if DistinctBy(PrintIn(lex), SortBy(key, items)) {
      DistinctWithin(PrintIn(lex), SortBy(key, items), items);
    }
  }

  lemma PrintsByKey(lex: Lexicon, items: seq<NewsItem>)
    ensures DistinctPrints(lex, items) <==> DistinctBy(PrintIn(lex), items)
  {
  }

  lemma DistinctNeverTwice(lex: Lexicon, cfg: Settings, candidates: seq<NewsItem>)
    requires DistinctPrints(lex, candidates)
    ensures !TakenTwice(lex, cfg, candidates, |candidates|)
  {
    hide Fingerprint, Taken;
  }

  function LowestScore(items: seq<NewsItem>): int {
    if items == [] then 0 else Smaller(LowestScore(items[..|items| - 1]), items[|items| - 1].score)
  }

  lemma {:induction false} LowestIsLowest(items: seq<NewsItem>)
    ensures forall i :: 0 <= i < |items| ==> LowestScore(items) <= items[i].score
  {
    if items != [] {
      var front := items[..|items| - 1];
      LowestIsLowest(front);
      assert forall i :: 0 <= i < |front| ==> items[i] == front[i];
    }
  }

  /** Settings that shut no candidate out. */
  function Widest(cfg: Settings, candidates: seq<NewsItem>): Settings {
    var room := |candidates| + 1;
    cfg.(dailyMax := room, maxPerTopic := room, maxPerDomain := room, minimumScore := LowestScore(candidates))
  }

  lemma {:induction false} CountsBounded(lex: Lexicon, items: seq<NewsItem>, topic: string, domain: string)
    ensures CountTopic(items, topic) <= |items| && CountDomain(lex, items, domain) <= |items|
  {
    hide Domain;
    if items != [] {
      CountsBounded(lex, items[..|items| - 1], topic, domain);
    }
  }

  lemma {:induction false} WidestTakesAll(lex: Lexicon, cfg: Settings, candidates: seq<NewsItem>, n: nat)
    requires n <= |candidates|
    ensures Capped(lex, Widest(cfg, candidates), candidates, n) == candidates[..n]
  {
    if n > 0 {
      WidestTakesAll(lex, cfg, candidates, n - 1);
      var item := candidates[n - 1];
      LowestIsLowest(candidates);
      CountsBounded(lex, candidates[..n - 1], item.topic, Domain(lex, item));
      hide Domain, CountTopic, CountDomain, LowestScore;
      assert candidates[..n] == candidates[..n - 1] + [item];
    }
  }

  /**
   * Whatever the caps, limits and thresholds, the selection has distinct
   * fingerprints: exactly when the eligible items handed in already have.
   */
  lemma DistinctForAllSettingsIff(lex: Lexicon, items: seq<NewsItem>, cfg: Settings, urls: set<Digest>,
                                  titles: set<Digest>, now: Time)
    ensures
      (forall other | SameFreshness(cfg, other) ::
        DistinctPrints(lex, DigestOf(lex, items, other, urls, titles, now))) <==>
      DistinctPrints(lex, EligibleOnes(lex, items, cfg, urls, titles, now))
  {
    var eligible := EligibleOnes(lex, items, cfg, urls, titles, now);
    var candidates := Candidates(lex, items, cfg, urls, titles, now);
    SortKeepsDistinct(lex, eligible, RankIn(lex));
    hide DigestOf, DistinctPrints, EligibleOnes, SortBy, Rank, TakenTwice;
    if DistinctPrints(lex, eligible) {
      forall other | SameFreshness(cfg, other)
        ensures DistinctPrints(lex, DigestOf(lex, items, other, urls, titles, now))
      {
        EligibleAlike(lex, items, cfg, other, urls, titles, now);
        DigestDistinctIff(lex, items, other, urls, titles, now);
        DistinctNeverTwice(lex, other, candidates);
      }
    } else {
      var wide := Widest(cfg, candidates);
      assert SameFreshness(cfg, wide);
      EligibleAlike(lex, items, cfg, wide, urls, titles, now);
      DigestDistinctIff(lex, items, wide, urls, titles, now);
      CappedDistinctIff(lex, wide, candidates, |candidates|);
      WidestTakesAll(lex, cfg, candidates, |candidates|);
      assert candidates[..|candidates|] == candidates;
    }
  }

  // ----- what can be frozen

  /** The candidates among which the pipeline picks. */
  function Offered(lex: Lexicon, ranked: seq<NewsItem>, fuzzyCandidates: int, fuzzyComparisons: int, cfg: Settings,
                   w: Windows, history: seq<HistoryRow>, now: Time): seq<NewsItem>
  {
    var unique := Deduplicated(lex, ranked, fuzzyCandidates, fuzzyComparisons).0;
    var (urls, titles) := SeenKeys(history, StoriesOf(lex, unique), w, now);
    Candidates(lex, unique, cfg, urls, titles, now)
  }

  /** A delivery that collects, of the caller's live lease, and messages to freeze in it. */
  predicate Freezable(db: Db, d: DeliveryId, messages: seq<string>, target: string, owner: RunId, now: Time) {
    && LeaseHeld(db.lease, owner, now) && d in db.deliveries && db.deliveries[d].state == Collecting
    && ItemsOf(db.items, d) == [] && !HasChunks(db.chunks, d)
    && messages != [] && (forall i :: 0 <= i < |messages| ==> messages[i] != "")
    && (db.deliveries[d].target == "" || target == "" || db.deliveries[d].target == target)
  }

  lemma StoriesDistinct(lex: Lexicon, items: seq<NewsItem>)
    ensures DistinctFingerprints(StoriesOf(lex, items)) <==> DistinctPrints(lex, items)
  {
    hide Fingerprint, UrlKey;
    var stories := StoriesOf(lex, items);
    assert forall i :: 0 <= i < |items| ==> stories[i].fingerprint == Fingerprint(lex, items[i]);
    if DistinctFingerprints(stories) {
      forall i, j | 0 <= i < j < |items| ensures Fingerprint(lex, items[i]) != Fingerprint(lex, items[j]) {
        assert stories[i].fingerprint != stories[j].fingerprint;
      }
    }
  }

  /**
   * prepare_delivery accepts a selection exactly when the capped pick took no
   * two items of one fingerprint; otherwise it raises, and the run fails the
   * delivery.
   */
  lemma PipelineFreezesIff(lex: Lexicon, ranked: seq<NewsItem>, fuzzyCandidates: int, fuzzyComparisons: int,
                           cfg: Settings, w: Windows, history: seq<HistoryRow>, now: Time, db: Db, d: DeliveryId,
                           messages: seq<string>, indexes: map<Digest, int>, target: string, owner: RunId, later: Time)
    requires Freezable(db, d, messages, target, owner, later)
    requires
      var selected := Selected(lex, ranked, fuzzyCandidates, fuzzyComparisons, cfg, w, history, now);
      IndexesInRange(StoriesOf(lex, selected), indexes, |messages|)
    ensures
      var selected := Selected(lex, ranked, fuzzyCandidates, fuzzyComparisons, cfg, w, history, now);
      var offered := Offered(lex, ranked, fuzzyCandidates, fuzzyComparisons, cfg, w, history, now);
      Prepare(db, d, StoriesOf(lex, selected), messages, indexes, target, owner, later).Ok? <==>
      !TakenTwice(lex, cfg, offered, |offered|)
  {
    hide Deduplicated, SeenKeys, HasChunks, DistinctPrints, TakenTwice, FreshChunks;
    var unique := Deduplicated(lex, ranked, fuzzyCandidates, fuzzyComparisons).0;
    var (urls, titles) := SeenKeys(history, StoriesOf(lex, unique), w, now);
    DigestDistinctIff(lex, unique, cfg, urls, titles, now);
    StoriesDistinct(lex, Selected(lex, ranked, fuzzyCandidates, fuzzyComparisons, cfg, w, history, now));
    hide DigestOf, Candidates, DistinctFingerprints, IndexesInRange, StoriesOf;
  }

  /** Items that agree on the title without its source also agree on the title with it. */
  ghost predicate SourcesSpareTitles(lex: Lexicon, items: seq<NewsItem>) {
    forall x, y | x in items && y in items ::
      Fingerprint(lex, x) == Fingerprint(lex, y) ==> TitleOf(lex, x) == TitleOf(lex, y)
  }

  /** Such items always yield a selection of distinct fingerprints. */
  lemma SparedTitlesFreeze(lex: Lexicon, ranked: seq<NewsItem>, fuzzyCandidates: int, fuzzyComparisons: int,
                           cfg: Settings, w: Windows, history: seq<HistoryRow>, now: Time)
    requires SourcesSpareTitles(lex, ranked)
    ensures DistinctPrints(lex, Selected(lex, ranked, fuzzyCandidates, fuzzyComparisons, cfg, w, history, now))
  {
    var unique := Deduplicated(lex, ranked, fuzzyCandidates, fuzzyComparisons).0;
    var (urls, titles) := SeenKeys(history, StoriesOf(lex, unique), w, now);
    OutputIsDistinct(lex, ranked, fuzzyCandidates, fuzzyComparisons);
    OutputStandsFor(lex, ranked, fuzzyCandidates, fuzzyComparisons);
    hide Deduplicated, SeenKeys, SourcesSpareTitles, StandFor, DistinctBy, DigestOf, DistinctPrints;
    TitlesTellApart(lex, ranked, unique);
    EligibleIsPart(lex, unique, cfg, urls, titles, now);
    assert SameFreshness(cfg, cfg);
    DistinctForAllSettingsIff(lex, unique, cfg, urls, titles, now);
  }

  lemma StandForChain(c: seq<NewsItem>, b: seq<NewsItem>, a: seq<NewsItem>)
    requires StandFor(c, b) && StandFor(b, a)
    ensures StandFor(c, a)
  {
    forall i | 0 <= i < |c| ensures StandsForSome(c[i], a) {
      var y :| y in b && SameIdentity(c[i], y);
      var k :| 0 <= k < |b| && b[k] == y;
      var x :| x in a && SameIdentity(b[k], x);
      assert SameIdentity(c[i], x);
    }
  }

  lemma StandForPart(part: seq<NewsItem>, whole: seq<NewsItem>)
    requires forall i :: 0 <= i < |part| ==> part[i] in whole
    ensures StandFor(part, whole)
  {
    forall i | 0 <= i < |part| ensures StandsForSome(part[i], whole) {
      assert SameIdentity(part[i], part[i]);
    }
  }

  /** Every item of the output has the identity of an input item. */
  lemma OutputStandsFor(lex: Lexicon, items: seq<NewsItem>, fuzzyCandidates: int, fuzzyComparisons: int)
    ensures StandFor(Deduplicated(lex, items, fuzzyCandidates, fuzzyComparisons).0, items)
  {
    var material := Material(items);
    if material != [] {
      var urlMerged := MergePass(lex, material, UrlIn(lex));
      var merged := MergePass(lex, urlMerged, TitleIn(lex));
      MergePassKeys(lex, material, UrlIn(lex));
      MergePassKeys(lex, urlMerged, TitleIn(lex));
      forall x | x in material ensures x in items {
        MaterialIs(items, x);
      }
      hide MergePass, Material, StandFor, DistinctBy, HasKey;
      StandForPart(material, items);
      StandForChain(urlMerged, material, items);
      StandForChain(merged, urlMerged, items);
      FuzzyStandsFor(lex, merged, Max(0, fuzzyCandidates), Max(0, fuzzyComparisons));
      StandForChain(Deduplicated(lex, items, fuzzyCandidates, fuzzyComparisons).0, merged, items);
    }
  }

  lemma FuzzyStandsFor(lex: Lexicon, merged: seq<NewsItem>, maxCandidates: nat, budget: nat)
    ensures StandFor(FuzzyResult(lex, SortBy(QualityIn(lex), merged), maxCandidates, budget), merged)
  {
    var exact := SortBy(QualityIn(lex), merged);
    var result := FuzzyResult(lex, exact, maxCandidates, budget);
    OnlyProvenDuplicatesDropped(lex, exact, maxCandidates, budget);
    hide FuzzyResult, PassAt, SortBy, PairwiseDissimilar, Quality, StandFor;
    forall i | 0 <= i < |result| ensures result[i] in merged {
      SortedMembers(QualityIn(lex), merged, result[i]);
    }
    StandForPart(result, merged);
  }

  lemma TitlesTellApart(lex: Lexicon, items: seq<NewsItem>, unique: seq<NewsItem>)
    requires SourcesSpareTitles(lex, items) && StandFor(unique, items) && DistinctBy(TitleIn(lex), unique)
    ensures DistinctPrints(lex, unique)
  {
    forall i, j | 0 <= i < j < |unique| ensures Fingerprint(lex, unique[i]) != Fingerprint(lex, unique[j]) {
      var x :| x in items && SameIdentity(unique[i], x);
      var y :| y in items && SameIdentity(unique[j], y);
      assert TitleIn(lex)(unique[i]) != TitleIn(lex)(unique[j]);
      assert TitleOf(lex, unique[i]) == TitleOf(lex, x) && TitleOf(lex, unique[j]) == TitleOf(lex, y);
      assert Fingerprint(lex, unique[i]) == Fingerprint(lex, x) && Fingerprint(lex, unique[j]) == Fingerprint(lex, y);
    }
  }

  lemma EligibleIsPart(lex: Lexicon, items: seq<NewsItem>, cfg: Settings, urls: set<Digest>, titles: set<Digest>,
                       now: Time)
    requires DistinctPrints(lex, items)
    ensures DistinctPrints(lex, EligibleOnes(lex, items, cfg, urls, titles, now))
  {
    EligibleOnesAre(lex, items, cfg, urls, titles, now);
    hide EligibleOnes;
    PrintsByKey(lex, items);
    PrintsByKey(lex, EligibleOnes(lex, items, cfg, urls, titles, now));
    DistinctWithin(PrintIn(lex), items, EligibleOnes(lex, items, cfg, urls, titles, now));
  }

  // ----- two headlines that cannot be frozen together

  ghost predicate Pair(items: seq<NewsItem>, a: NewsItem, b: NewsItem) {
    items == [a, b] || items == [b, a]
  }

  lemma PairByCount(items: seq<NewsItem>, a: NewsItem, b: NewsItem)
    requires multiset(items) == multiset{a, b}
    ensures Pair(items, a, b)
  {
    assert |multiset(items)| == 2;
    assert items == [items[0], items[1]];
    assert multiset(items) == multiset{items[0], items[1]};
    assert items[0] in multiset{a, b} && items[1] in multiset{a, b};
    assert multiset{items[0], items[1]}[a] == multiset{a, b}[a];
    assert multiset{items[0], items[1]}[b] == multiset{a, b}[b];
  }

  lemma PairSorted(items: seq<NewsItem>, a: NewsItem, b: NewsItem, key: NewsItem -> seq<int>)
    requires Pair(items, a, b)
    ensures Pair(SortBy(key, items), a, b)
  {
    SortBySorts(key, items);
    hide SortBy;
    PairByCount(SortBy(key, items), a, b);
  }

  lemma PairGroups(x: NewsItem, y: NewsItem, key: NewsItem -> string)
    requires key(x) != key(y)
    ensures Group([x, y], key, key(x)) == [x] && Group([x, y], key, key(y)) == [y]
  {
    assert [x, y][..1] == [x] && [x][..0] == [];
    assert Group([x], key, key(x)) == [x] && Group([x], key, key(y)) == [];
  }

  lemma PairKeys(items: seq<NewsItem>, a: NewsItem, b: NewsItem, key: NewsItem -> string)
    requires Pair(items, a, b) && key(a) != key(b)
    ensures GroupKeys(items, key) == [key(a), key(b)] || GroupKeys(items, key) == [key(b), key(a)]
  {
    GroupKeysAre(items, key);
    var keys, both := GroupKeys(items, key), [key(a), key(b)];
    hide GroupKeys;
    assert a in items && b in items;
    forall k ensures k in keys <==> k in both {
    }
    SameDistinctWords(keys, both);
    assert |multiset(keys)| == |multiset(both)|;
    assert keys[0] in keys && keys[1] in keys;
  }

  /** Items of different keys are each merged with nothing. */
  lemma PairMerges(lex: Lexicon, items: seq<NewsItem>, a: NewsItem, b: NewsItem, key: NewsItem -> string)
    requires Pair(items, a, b) && key(a) != key(b)
    ensures Pair(MergePass(lex, items, key), Trimmed(a), Trimmed(b))
  {
    PairKeys(items, a, b, key);
    GroupsNonempty(items, key);
    MergeAlone(lex, a);
    MergeAlone(lex, b);
    hide GroupKeys, MergeGroup, MergeGroups, Group, Trimmed;
    GroupsOfPair(items, a, b, key);
    MergeTwo(lex, items, key, GroupKeys(items, key));
  }

  lemma GroupsOfPair(items: seq<NewsItem>, a: NewsItem, b: NewsItem, key: NewsItem -> string)
    requires Pair(items, a, b) && key(a) != key(b)
    ensures Group(items, key, key(a)) == [a] && Group(items, key, key(b)) == [b]
  {
    hide Group;
    if items == [a, b] {
      PairGroups(a, b, key);
    } else {
      PairGroups(b, a, key);
    }
  }

  lemma MergeTwo(lex: Lexicon, items: seq<NewsItem>, key: NewsItem -> string, keys: seq<string>)
    requires |keys| == 2 && forall i :: 0 <= i < 2 ==> Group(items, key, keys[i]) != []
    ensures MergeGroups(lex, items, key, keys) ==
      [MergeGroup(lex, Group(items, key, keys[0])), MergeGroup(lex, Group(items, key, keys[1]))]
  {
    hide MergeGroup, Group;
  }

  lemma PairStays(result: seq<NewsItem>, exact: seq<NewsItem>, a: NewsItem, b: NewsItem)
    requires Pair(exact, a, b) && a != b && a in result && b in result && multiset(result) <= multiset(exact)
    ensures Pair(result, a, b)
  {
    assert multiset(exact) == multiset{a, b};
    assert a in multiset(result) && b in multiset(result);
    assert multiset(result) == multiset{a, b};
    PairByCount(result, a, b);
  }

  lemma NotLikeOther(lex: Lexicon, x: NewsItem, y: NewsItem, kept: seq<NewsItem>)
    requires !Similar(lex, x, y) && forall k :: k in kept ==> k == y
    ensures !SimilarToSome(lex, x, kept)
  {
    hide Similar;
    assert forall i :: 0 <= i < |kept| ==> kept[i] in kept;
  }

  lemma PairSurvivesPass(lex: Lexicon, exact: seq<NewsItem>, a: NewsItem, b: NewsItem, maxCandidates: nat, budget: nat)
    requires Pair(exact, a, b) && a != b && !Similar(lex, a, b) && !Similar(lex, b, a)
    ensures Pair(FuzzyResult(lex, exact, maxCandidates, budget), a, b)
  {
    var result := FuzzyResult(lex, exact, maxCandidates, budget);
    var kept := PassAt(lex, Upto(exact, maxCandidates), budget, |Upto(exact, maxCandidates)|).kept;
    assert forall x :: x in exact <==> x == a || x == b;
    hide Similar, PassAt, FuzzyResult, PairwiseDissimilar, Upto, SimilarToSome, Pair;
    OnlyProvenDuplicatesDropped(lex, exact, maxCandidates, budget);
    assert a in result by {
      if a !in result {
        NotLikeOther(lex, a, b, kept);
      }
    }
    assert b in result by {
      if b !in result {
        NotLikeOther(lex, b, a, kept);
      }
    }
    ResultIsPart(lex, exact, maxCandidates, budget);
    PairStays(result, exact, a, b);
  }

  /** What both grouping passes make of an item that is alone in its groups. */
  function Alone(x: NewsItem): NewsItem {
    Trimmed(Trimmed(x))
  }

  lemma AloneReads(lex: Lexicon, x: NewsItem)
    ensures
      var y := Alone(x);
      && SameIdentity(x, y) && y.quarantined == x.quarantined && y.topic == x.topic && y.published == x.published
      && UrlOf(lex, y) == UrlOf(lex, x) && TitleOf(lex, y) == TitleOf(lex, x)
      && Fingerprint(lex, y) == Fingerprint(lex, x) && UrlKey(lex, y) == UrlKey(lex, x)
  {
  }

  lemma AloneSimilar(lex: Lexicon, a: NewsItem, b: NewsItem)
    ensures Similar(lex, Alone(a), Alone(b)) <==> Similar(lex, a, b)
  {
    AloneReads(lex, a);
    AloneReads(lex, b);
    hide Alone, TitleOf;
  }

  /** Two usable items of different URLs and titles that are not similar both survive, whatever the limits. */
  lemma PairSurvives(lex: Lexicon, a: NewsItem, b: NewsItem, fuzzyCandidates: int, fuzzyComparisons: int)
    requires !a.quarantined && !b.quarantined
    requires UrlOf(lex, a) != UrlOf(lex, b) && TitleOf(lex, a) != TitleOf(lex, b)
    requires !Similar(lex, a, b) && !Similar(lex, b, a)
    ensures Pair(Deduplicated(lex, [a, b], fuzzyCandidates, fuzzyComparisons).0, Alone(a), Alone(b))
  {
    assert [a, b][..1] == [a] && [a][..0] == [];
    assert Material([a]) == [a];
    assert Material([a, b]) == [a, b];
    assert Pair([a, b], a, b);
    assert TitleOf(lex, Trimmed(a)) == TitleOf(lex, a) && TitleOf(lex, Trimmed(b)) == TitleOf(lex, b);
    AloneReads(lex, a);
    AloneReads(lex, b);
    AloneSimilar(lex, a, b);
    AloneSimilar(lex, b, a);
    hide Material, Similar, MergePass, UrlOf, TitleOf, FuzzyResult, PassAt, Quality, Pair, Trimmed, UrlKey, Fingerprint;
    PairMerges(lex, [a, b], a, b, UrlIn(lex));
    var urlMerged := MergePass(lex, [a, b], UrlIn(lex));
    PairMerges(lex, urlMerged, Trimmed(a), Trimmed(b), TitleIn(lex));
    PairSorted(MergePass(lex, urlMerged, TitleIn(lex)), Alone(a), Alone(b), QualityIn(lex));
    PairSurvivesPass(lex, Exact(lex, urlMerged), Alone(a), Alone(b), Max(0, fuzzyCandidates), Max(0, fuzzyComparisons));
  }

  /** The two items are of one fingerprint but of different titles and URLs, and are not similar. */
  ghost predicate Twins(lex: Lexicon, a: NewsItem, b: NewsItem) {
    && Fingerprint(lex, a) == Fingerprint(lex, b) && TitleOf(lex, a) != TitleOf(lex, b)
    && UrlOf(lex, a) != UrlOf(lex, b) && !Similar(lex, a, b) && !Similar(lex, b, a)
  }

  /** Settings with room for two such items, which score enough. */
  predicate RoomForTwo(cfg: Settings, a: NewsItem, b: NewsItem) {
    cfg.dailyMax >= 2 && cfg.maxPerTopic >= 2 && cfg.maxPerDomain >= 2 && a.score >= cfg.minimumScore &&
    b.score >= cfg.minimumScore
  }

  /** Fresh, on topic and unsent. */
  predicate Usable(lex: Lexicon, item: NewsItem, cfg: Settings, w: Windows, history: seq<HistoryRow>, now: Time) {
    !item.quarantined && item.topic != "" && Fresh(item, cfg, now) && Unseen(w, history, StoryIn(lex, item), now)
  }

  lemma PairTakenTwice(lex: Lexicon, cfg: Settings, candidates: seq<NewsItem>, a: NewsItem, b: NewsItem)
    requires Pair(candidates, a, b) && Fingerprint(lex, a) == Fingerprint(lex, b) && RoomForTwo(cfg, a, b)
    ensures TakenTwice(lex, cfg, candidates, |candidates|)
  {
    hide Fingerprint, Domain;
    CountsBounded(lex, [], candidates[0].topic, Domain(lex, candidates[0]));
    assert Taken(lex, cfg, candidates, 0);
    assert Capped(lex, cfg, candidates, 1) == [candidates[0]];
    CountsBounded(lex, [candidates[0]], candidates[1].topic, Domain(lex, candidates[1]));
    hide Capped, CountTopic, CountDomain;
    assert Taken(lex, cfg, candidates, 1);
    assert TakenBefore(lex, cfg, candidates, 1, Fingerprint(lex, candidates[1]));
  }

  lemma PairEligible(lex: Lexicon, items: seq<NewsItem>, a: NewsItem, b: NewsItem, cfg: Settings, w: Windows,
                     history: seq<HistoryRow>, now: Time)
    requires Pair(items, a, b) && Usable(lex, a, cfg, w, history, now) && Usable(lex, b, cfg, w, history, now)
    ensures
      var (urls, titles) := SeenKeys(history, StoriesOf(lex, items), w, now);
      Pair(Candidates(lex, items, cfg, urls, titles, now), a, b)
  {
    hide SeenKeys, Fingerprint, UrlKey, Unseen, Fresh, Rank;
    var (urls, titles) := SeenKeys(history, StoriesOf(lex, items), w, now);
    UnseenIsNotFound(history, StoriesOf(lex, items), w, now, 0);
    UnseenIsNotFound(history, StoriesOf(lex, items), w, now, 1);
    assert Eligible(lex, items[0], cfg, urls, titles, now) && Eligible(lex, items[1], cfg, urls, titles, now);
    hide Eligible;
    assert items[..1] == [items[0]] && items[..1][..0] == [];
    assert EligibleOnes(lex, items[..1], cfg, urls, titles, now) == [items[0]];
    assert EligibleOnes(lex, items, cfg, urls, titles, now) == items;
    PairSorted(items, a, b, RankIn(lex));
  }

  /**
   * Twins are selected together, whatever the limits of the deduplication, and
   * then no map, no messages and no database lets them be frozen.
   */
  lemma TwinsAreRefused(lex: Lexicon, a: NewsItem, b: NewsItem, fuzzyCandidates: int, fuzzyComparisons: int,
                        cfg: Settings, w: Windows, history: seq<HistoryRow>, now: Time, db: Db, d: DeliveryId,
                        messages: seq<string>, indexes: map<Digest, int>, target: string, owner: RunId, later: Time)
    requires Twins(lex, a, b) && RoomForTwo(cfg, a, b)
    requires Usable(lex, a, cfg, w, history, now) && Usable(lex, b, cfg, w, history, now)
    ensures
      var selected := Selected(lex, [a, b], fuzzyCandidates, fuzzyComparisons, cfg, w, history, now);
      Prepare(db, d, StoriesOf(lex, selected), messages, indexes, target, owner, later).Err?
  {
    PairSurvives(lex, a, b, fuzzyCandidates, fuzzyComparisons);
    var unique := Deduplicated(lex, [a, b], fuzzyCandidates, fuzzyComparisons).0;
    AloneUsable(lex, a, cfg, w, history, now);
    AloneUsable(lex, b, cfg, w, history, now);
    hide Alone, Usable, UrlOf, TitleOf, UrlKey, Fingerprint;
    PairEligible(lex, unique, Alone(a), Alone(b), cfg, w, history, now);
    hide Deduplicated, SeenKeys, Similar, Unseen, Candidates, TakenTwice, DistinctPrints, HasChunks, FreshChunks, Pair;
    var (urls, titles) := SeenKeys(history, StoriesOf(lex, unique), w, now);
    PairTakenTwice(lex, cfg, Candidates(lex, unique, cfg, urls, titles, now), Alone(a), Alone(b));
    DigestDistinctIff(lex, unique, cfg, urls, titles, now);
    StoriesDistinct(lex, DigestOf(lex, unique, cfg, urls, titles, now));
    hide DigestOf, DistinctFingerprints, IndexesInRange, StoriesOf, ItemRows;
  }

  lemma AloneUsable(lex: Lexicon, item: NewsItem, cfg: Settings, w: Windows, history: seq<HistoryRow>, now: Time)
    ensures Usable(lex, Alone(item), cfg, w, history, now) <==> Usable(lex, item, cfg, w, history, now)
    ensures Fingerprint(lex, Alone(item)) == Fingerprint(lex, item) && Alone(item).score == item.score
  {
    AloneReads(lex, item);
    hide Alone, UrlOf, UrlKey, Fingerprint, Unseen;
  }

  /**
   * A headline as the ranker leaves it under the shipped watchlist: its summary
   * names the company, which is the topic, and `score` counts the source.
   */
  function Headline(title: string, url: string, source: string, host: string, score: int, at: Time): NewsItem {
    NewsItem(title, url, source, host, "rss", "", "", "feed", Some(at), "PT Meco Inoxprima", score, "company",
             "MECO company mention",
             "Direct mention of PT Meco Inoxprima, its projects, customers, certifications, or operations.",
             ["pt meco inoxprima", "meco inoxprima", "meco", "inoxprima", "direct company mention"], false)
  }

  const SOURCED := "5G - Kompas Tekno"
  const PLAIN := "5G Kompas Tekno"

  /** What the title functions make of the two headlines: one ends in its source, the other does not. */
  predicate ReadsHeadlines(lex: Lexicon) {
    && lex.normalizedTitle(SOURCED, "Kompas Tekno") == "5g" && lex.normalizedTitle(SOURCED, "") == "5g kompas tekno"
    && lex.normalizedTitle(PLAIN, "Detik") == "5g kompas tekno" && lex.normalizedTitle(PLAIN, "") == "5g kompas tekno"
    && lex.tokens("5g") == {} && lex.tokens("5g kompas tekno") == {"kompas", "tekno"}
    && !lex.close("5g", "5g kompas tekno") && !lex.close("5g kompas tekno", "5g")
    && lex.canonicalUrl("https://tekno.kompas.com/5g") != lex.canonicalUrl("https://detik.com/5g")
  }

  /** The shipped settings, times in hours. */
  const WATCHLIST := Settings(5, 7, 3, 2, 9, 5, true, 6, 7 * 24)

  /** From a trusted source. */
  function SourcedHeadline(at: Time): NewsItem {
    Headline(SOURCED, "https://tekno.kompas.com/5g", "Kompas Tekno", "tekno.kompas.com", 36, at)
  }

  function PlainHeadline(at: Time): NewsItem {
    Headline(PLAIN, "https://detik.com/5g", "Detik", "detik.com", 34, at)
  }

  /**
   * The failing case in the concrete, with the shipped settings: nothing was ever
   * sent, and the digest cannot be frozen.
   */
  lemma SourcedTitleIsRefused(lex: Lexicon, fuzzyCandidates: int, fuzzyComparisons: int, w: Windows, now: Time, db: Db,
                              d: DeliveryId, messages: seq<string>, indexes: map<Digest, int>, target: string,
                              owner: RunId, later: Time)
    requires ReadsHeadlines(lex)
    ensures
      var ranked := [SourcedHeadline(now), PlainHeadline(now)];
      var selected := Selected(lex, ranked, fuzzyCandidates, fuzzyComparisons, WATCHLIST, w, [], now);
      Prepare(db, d, StoriesOf(lex, selected), messages, indexes, target, owner, later).Err?
  {
    var a, b := SourcedHeadline(now), PlainHeadline(now);
    hide Twins, Selected, Prepare, Usable, SourcedHeadline, PlainHeadline;
    HeadlinesAreTwins(lex, now);
    HeadlinesAreUsable(lex, w, now);
    TwinsAreRefused(lex, a, b, fuzzyCandidates, fuzzyComparisons, WATCHLIST, w, [], now, db, d, messages,
                    indexes, target, owner, later);
  }

  lemma HeadlinesAreUsable(lex: Lexicon, w: Windows, now: Time)
    ensures Usable(lex, SourcedHeadline(now), WATCHLIST, w, [], now)
    ensures Usable(lex, PlainHeadline(now), WATCHLIST, w, [], now)
  {
    hide Fingerprint, UrlKey;
  }

  lemma HeadlinesAreTwins(lex: Lexicon, now: Time)
    requires ReadsHeadlines(lex)
    ensures Twins(lex, SourcedHeadline(now), PlainHeadline(now))
    ensures RoomForTwo(WATCHLIST, SourcedHeadline(now), PlainHeadline(now))
  {
    assert TitleOf(lex, SourcedHeadline(now)) == "5g" && TitleOf(lex, PlainHeadline(now)) == "5g kompas tekno";
  }
}
