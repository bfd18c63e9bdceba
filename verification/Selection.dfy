/** The digest selection: caps per topic and domain, then a fill up to the daily minimum. */
module Selection {
  import opened Wrappers
  import opened Rows
  import opened Transactions
  import opened Ordering
  import opened Ranking
  import opened RankingLoops
  import opened Identity
  import opened Protocol

  datatype Settings = Settings(
    dailyMin: int, dailyMax: int, maxPerTopic: int, maxPerDomain: int, minimumScore: int, fallbackScore: int,
    excludeMissingDate: bool, futureSkew: int, lookback: int)

  /** freshness_reason is empty. */
  predicate Fresh(item: NewsItem, cfg: Settings, now: Time) {
    match item.published
    case None => !cfg.excludeMissingDate
    case Some(at) => at <= now + cfg.futureSkew && at >= now - cfg.lookback
  }

  predicate Eligible(lex: Lexicon, item: NewsItem, cfg: Settings, urls: set<Digest>, titles: set<Digest>, now: Time) {
    !item.quarantined && item.topic != "" && Fresh(item, cfg, now) &&
    UrlKey(lex, item) !in urls && Fingerprint(lex, item) !in titles
  }

  function EligibleOnes(lex: Lexicon, items: seq<NewsItem>, cfg: Settings, urls: set<Digest>, titles: set<Digest>,
                        now: Time): seq<NewsItem>
  {
    if items == [] then []
    else
      var last := items[|items| - 1];
      EligibleOnes(lex, items[..|items| - 1], cfg, urls, titles, now) +
      if Eligible(lex, last, cfg, urls, titles, now) then [last] else []
  }

  function Rank(lex: Lexicon, item: NewsItem): seq<int> {
    [-item.score, -item.published.UnwrapOr(0)] + Word(item.topic) + Word(Domain(lex, item)) + Word(UrlOf(lex, item)) +
      Word(TitleOf(lex, item))
  }

  function RankIn(lex: Lexicon): NewsItem -> seq<int> {
    item => Rank(lex, item)
  }

  // ----- the two picks

  function CountTopic(items: seq<NewsItem>, topic: string): nat {
    if items == [] then 0
    else CountTopic(items[..|items| - 1], topic) + if items[|items| - 1].topic == topic then 1 else 0
  }

  function CountDomain(lex: Lexicon, items: seq<NewsItem>, domain: string): nat {
    if items == [] then 0
    else CountDomain(lex, items[..|items| - 1], domain) + if Domain(lex, items[|items| - 1]) == domain then 1 else 0
  }

  predicate Fits(lex: Lexicon, cfg: Settings, selected: seq<NewsItem>, item: NewsItem) {
    item.score >= cfg.minimumScore && CountTopic(selected, item.topic) < cfg.maxPerTopic &&
    CountDomain(lex, selected, Domain(lex, item)) < cfg.maxPerDomain
  }

  /** The capped pick over the first `n` candidates; it stops once an item brings it to the daily maximum. */
  function Capped(lex: Lexicon, cfg: Settings, candidates: seq<NewsItem>, n: nat): seq<NewsItem>
    requires n <= |candidates|
  {
    if n == 0 then []
    else
      var selected := Capped(lex, cfg, candidates, n - 1);
      if selected != [] && |selected| >= cfg.dailyMax then selected
      else if Fits(lex, cfg, selected, candidates[n - 1]) then selected + [candidates[n - 1]] else selected
  }

  predicate HasFingerprint(lex: Lexicon, selected: seq<NewsItem>, item: NewsItem) {
    exists i :: 0 <= i < |selected| && Fingerprint(lex, selected[i]) == Fingerprint(lex, item)
  }

  /** The fill over the first `n` candidates; it stops once an item brings it to the daily minimum. */
  function Filled(lex: Lexicon, cfg: Settings, base: seq<NewsItem>, candidates: seq<NewsItem>, n: nat): seq<NewsItem>
    requires n <= |candidates|
  {
    if n == 0 then base
    else
      var selected := Filled(lex, cfg, base, candidates, n - 1);
      if |selected| > |base| && |selected| >= cfg.dailyMin then selected
      else if HasFingerprint(lex, selected, candidates[n - 1]) ||
        candidates[n - 1].score < cfg.fallbackScore then selected
      else selected + [candidates[n - 1]]
  }

  /** `selected[:limit]`, where a negative limit cuts from the end. */
  function Cut(selected: seq<NewsItem>, limit: int): (cut: seq<NewsItem>)
    ensures cut <= selected
    ensures limit >= 0 ==> |cut| <= limit
  {
    if limit >= 0 then Upto(selected, limit) else if |selected| + limit > 0 then selected[..|selected| + limit] else []
  }

  /** The eligible items in the order in which the picks see them. */
  function Candidates(lex: Lexicon, items: seq<NewsItem>, cfg: Settings, urls: set<Digest>, titles: set<Digest>,
                      now: Time): seq<NewsItem>
  {
    SortBy(RankIn(lex), EligibleOnes(lex, items, cfg, urls, titles, now))
  }

  function Picks(lex: Lexicon, cfg: Settings, candidates: seq<NewsItem>): seq<NewsItem> {
    var selected := Capped(lex, cfg, candidates, |candidates|);
    if selected != [] && |selected| >= cfg.dailyMax then selected
    else if |selected| < cfg.dailyMin then Cut(Filled(lex, cfg, selected, candidates, |candidates|), cfg.dailyMax)
    else Cut(selected, cfg.dailyMax)
  }

  /** select_digest. */
  function DigestOf(lex: Lexicon, items: seq<NewsItem>, cfg: Settings, urls: set<Digest>, titles: set<Digest>,
                    now: Time): seq<NewsItem>
  {
    Picks(lex, cfg, Candidates(lex, items, cfg, urls, titles, now))
  }

  // ----- the loops

  function CountOf(counts: map<string, nat>, k: string): nat {
    if k in counts then counts[k] else 0
  }

  method SelectDigest(lex: Lexicon, items: seq<NewsItem>, cfg: Settings, urls: set<Digest>, titles: set<Digest>,
                      now: Time)
    returns (selected: seq<NewsItem>)
    ensures selected == DigestOf(lex, items, cfg, urls, titles, now)
  {
    hide Eligible, Rank, SortBy;
    var candidates := [];
    for i := 0 to |items|
      invariant candidates == EligibleOnes(lex, items[..i], cfg, urls, titles, now)
    {
      assert items[..i + 1][..i] == items[..i];
      if Eligible(lex, items[i], cfg, urls, titles, now) {
        candidates := candidates + [items[i]];
      }
    }
    assert items[..|items|] == items;
    candidates := SortBy(RankIn(lex), candidates);
    var full;
    selected, full := PickCapped(lex, candidates, cfg);
    if full {
      return;
    }
    if |selected| < cfg.dailyMin {
      selected := Fill(lex, selected, candidates, cfg);
    }
    return Cut(selected, cfg.dailyMax);
  }

  /** The first loop; `full` is its early return. */
  method PickCapped(lex: Lexicon, candidates: seq<NewsItem>, cfg: Settings)
    returns (selected: seq<NewsItem>, full: bool)
    ensures selected == Capped(lex, cfg, candidates, |candidates|)
    ensures full <==> selected != [] && |selected| >= cfg.dailyMax
  {
    hide Domain;
    selected, full := [], false;
    var topics: map<string, nat>, domains: map<string, nat> := map[], map[];
    for i := 0 to |candidates|
      invariant selected == Capped(lex, cfg, candidates, i)
      invariant selected == [] || |selected| < cfg.dailyMax
      invariant forall t :: CountOf(topics, t) == CountTopic(selected, t)
      invariant forall d :: CountOf(domains, d) == CountDomain(lex, selected, d)
    {
      var item := candidates[i];
      var domain := Domain(lex, item);
      if item.score < cfg.minimumScore || CountOf(topics, item.topic) >= cfg.maxPerTopic ||
        CountOf(domains, domain) >= cfg.maxPerDomain {
        continue;
      }
      CountsGrow(lex, selected, item);
      selected := selected + [item];
      topics := topics[item.topic := CountOf(topics, item.topic) + 1];
      domains := domains[domain := CountOf(domains, domain) + 1];
      if |selected| >= cfg.dailyMax {
        CappedStays(lex, cfg, candidates, i + 1, |candidates|);
        return selected, true;
      }
    }
  }

  lemma CountsGrow(lex: Lexicon, selected: seq<NewsItem>, item: NewsItem)
    ensures forall t :: CountTopic(selected + [item], t) == CountTopic(selected, t) + if item.topic == t then 1 else 0
    ensures forall d ::
      CountDomain(lex, selected + [item], d) ==
      CountDomain(lex, selected, d) + if Domain(lex, item) == d then 1 else 0
  {
    assert (selected + [item])[..|selected|] == selected;
  }

  lemma {:induction false} CappedStays(lex: Lexicon, cfg: Settings, candidates: seq<NewsItem>, n: nat, m: nat)
    requires n <= m <= |candidates|
    requires Capped(lex, cfg, candidates, n) != [] && |Capped(lex, cfg, candidates, n)| >= cfg.dailyMax
    ensures Capped(lex, cfg, candidates, m) == Capped(lex, cfg, candidates, n)
  {
    if n < m {
      CappedStays(lex, cfg, candidates, n, m - 1);
    }
  }

  /** The second loop, entered below the daily minimum. */
  method Fill(lex: Lexicon, base: seq<NewsItem>, candidates: seq<NewsItem>, cfg: Settings)
    returns (selected: seq<NewsItem>)
    requires |base| < cfg.dailyMin
    ensures selected == Filled(lex, cfg, base, candidates, |candidates|)
  {
    hide Fingerprint;
    selected := base;
    var ids := set i | 0 <= i < |base| :: Fingerprint(lex, base[i]);
    for i := 0 to |candidates|
      invariant selected == Filled(lex, cfg, base, candidates, i)
      invariant |base| <= |selected| < cfg.dailyMin
      invariant ids == set i | 0 <= i < |selected| :: Fingerprint(lex, selected[i])
    {
      var item := candidates[i];
      if Fingerprint(lex, item) in ids || item.score < cfg.fallbackScore {
        continue;
      }
      IdsGrow(lex, selected, item);
      selected := selected + [item];
      ids := ids + {Fingerprint(lex, item)};
      if |selected| >= cfg.dailyMin {
        FilledStays(lex, cfg, base, candidates, i + 1, |candidates|);
        return;
      }
    }
  }

  lemma IdsGrow(lex: Lexicon, selected: seq<NewsItem>, item: NewsItem)
    ensures (set i | 0 <= i < |selected + [item]| :: Fingerprint(lex, (selected + [item])[i])) ==
      (set i | 0 <= i < |selected| :: Fingerprint(lex, selected[i])) + {Fingerprint(lex, item)}
  {
    hide Fingerprint;
    var all := selected + [item];
    assert forall i :: 0 <= i < |selected| ==> all[i] == selected[i];
    assert all[|selected|] == item;
  }

  lemma {:induction false} FilledStays(lex: Lexicon, cfg: Settings, base: seq<NewsItem>, candidates: seq<NewsItem>,
                                       n: nat, m: nat)
    requires n <= m <= |candidates|
    requires
      var selected := Filled(lex, cfg, base, candidates, n);
      |selected| > |base| && |selected| >= cfg.dailyMin
    ensures Filled(lex, cfg, base, candidates, m) == Filled(lex, cfg, base, candidates, n)
  {
    if n < m {
      FilledStays(lex, cfg, base, candidates, n, m - 1);
    }
  }

  // ----- what a selection may contain

  lemma {:induction false} EligibleOnesAre(lex: Lexicon, items: seq<NewsItem>, cfg: Settings, urls: set<Digest>,
                                           titles: set<Digest>, now: Time)
    ensures
      var candidates := EligibleOnes(lex, items, cfg, urls, titles, now);
      && multiset(candidates) <= multiset(items)
      && forall x :: x in candidates ==> Eligible(lex, x, cfg, urls, titles, now)
  {
    hide Eligible;
    if items != [] {
      var front, last := items[..|items| - 1], items[|items| - 1];
      EligibleOnesAre(lex, front, cfg, urls, titles, now);
      assert items == front + [last];
    }
  }

  lemma CountGrows(lex: Lexicon, selected: seq<NewsItem>, item: NewsItem, topic: string, domain: string)
    ensures CountTopic(selected + [item], topic) == CountTopic(selected, topic) + if item.topic == topic then 1 else 0
    ensures CountDomain(lex, selected + [item], domain) ==
      CountDomain(lex, selected, domain) + if Domain(lex, item) == domain then 1 else 0
  {
    CountsGrow(lex, selected, item);
  }

  /** The capped pick keeps both caps. */
  lemma {:induction false} CappedKeepsCaps(lex: Lexicon, cfg: Settings, candidates: seq<NewsItem>, n: nat,
                                           topic: string, domain: string)
    requires n <= |candidates|
    ensures
      var selected := Capped(lex, cfg, candidates, n);
      && CountTopic(selected, topic) <= Max(0, cfg.maxPerTopic)
      && CountDomain(lex, selected, domain) <= Max(0, cfg.maxPerDomain)
  {
    if n > 0 {
      CappedKeepsCaps(lex, cfg, candidates, n - 1, topic, domain);
      CountGrows(lex, Capped(lex, cfg, candidates, n - 1), candidates[n - 1], topic, domain);
      hide Domain, CountTopic, CountDomain;
    }
  }

  lemma {:induction false} CappedIs(lex: Lexicon, cfg: Settings, candidates: seq<NewsItem>, n: nat)
    requires n <= |candidates|
    ensures
      var selected := Capped(lex, cfg, candidates, n);
      && multiset(selected) <= multiset(candidates[..n])
      && |selected| <= Max(1, cfg.dailyMax)
      && forall x :: x in selected ==> x.score >= cfg.minimumScore
  {
    hide Domain, CountTopic, CountDomain;
    if n > 0 {
      CappedIs(lex, cfg, candidates, n - 1);
      assert candidates[..n] == candidates[..n - 1] + [candidates[n - 1]];
    }
  }

  /** The fill adds candidates of new fingerprints, and stops short of the minimum only when none is left. */
  lemma {:induction false} FilledIs(lex: Lexicon, cfg: Settings, base: seq<NewsItem>, candidates: seq<NewsItem>, n: nat)
    requires n <= |candidates| && forall x :: x in base ==> x in candidates
    ensures
      var selected := Filled(lex, cfg, base, candidates, n);
      && base <= selected
      && (forall x :: x in selected ==> x in candidates)
      && (forall x :: x in selected && x !in base ==> x.score >= cfg.fallbackScore)
      && (|selected| < cfg.dailyMin ==>
            forall j :: 0 <= j < n && candidates[j].score >= cfg.fallbackScore ==>
              HasFingerprint(lex, selected, candidates[j]))
  {
    hide Fingerprint;
    if n > 0 {
      FilledIs(lex, cfg, base, candidates, n - 1);
      var before, after := Filled(lex, cfg, base, candidates, n - 1), Filled(lex, cfg, base, candidates, n);
      forall j | 0 <= j < n && candidates[j].score >= cfg.fallbackScore && |after| < cfg.dailyMin
        ensures HasFingerprint(lex, after, candidates[j])
      {
        if j < n - 1 {
          var i :| 0 <= i < |before| && Fingerprint(lex, before[i]) == Fingerprint(lex, candidates[j]);
          assert after[i] == before[i];
        } else if after != before {
          assert after[|before|] == candidates[j];
        }
      }
    }
  }

  lemma {:induction false} FilledStaysDistinct(lex: Lexicon, cfg: Settings, base: seq<NewsItem>,
                                               candidates: seq<NewsItem>, n: nat)
    requires n <= |candidates| && DistinctBy(UrlIn(lex), candidates) && DistinctBy(UrlIn(lex), base)
    requires forall x :: x in base ==> x in candidates
    ensures DistinctBy(UrlIn(lex), Filled(lex, cfg, base, candidates, n))
  {
    hide Fingerprint, UrlOf;
    if n > 0 {
      FilledStaysDistinct(lex, cfg, base, candidates, n - 1);
      FilledIs(lex, cfg, base, candidates, n - 1);
      var before, item := Filled(lex, cfg, base, candidates, n - 1), candidates[n - 1];
      if !HasFingerprint(lex, before, item) {
        forall i | 0 <= i < |before| ensures UrlIn(lex)(before[i]) != UrlIn(lex)(item) {
          assert before[i] in before;
          var p :| 0 <= p < |candidates| && candidates[p] == before[i];
          assert p < n - 1 || n - 1 < p;
        }
      }
    }
  }

  /**
   * A selection from items of distinct URLs: every item is eligible and scores
   * at least one of the two thresholds, URLs stay distinct, and the daily
   * maximum holds.
   */
  lemma SelectionIsSound(lex: Lexicon, items: seq<NewsItem>, cfg: Settings, urls: set<Digest>, titles: set<Digest>,
                         now: Time)
    requires DistinctBy(UrlIn(lex), items)
    ensures
      var selected := DigestOf(lex, items, cfg, urls, titles, now);
      && DistinctBy(UrlIn(lex), selected)
      && (forall x :: x in selected ==> x in items && Eligible(lex, x, cfg, urls, titles, now))
      && (forall x :: x in selected ==> x.score >= cfg.minimumScore || x.score >= cfg.fallbackScore)
      && (cfg.dailyMax >= 1 ==> |selected| <= cfg.dailyMax)
  {
    var candidates := SortBy(RankIn(lex), EligibleOnes(lex, items, cfg, urls, titles, now));
    CandidatesAre(lex, items, cfg, urls, titles, now);
    hide Eligible, Rank, SortBy, EligibleOnes, Fingerprint, UrlOf, DistinctBy, Capped, Filled;
    PickIsSound(lex, cfg, candidates);
    var capped := Capped(lex, cfg, candidates, |candidates|);
    var filled := Filled(lex, cfg, capped, candidates, |candidates|);
    CutIsPart(lex, capped, cfg.dailyMax);
    CutIsPart(lex, filled, cfg.dailyMax);
  }

  lemma CutIsPart(lex: Lexicon, selected: seq<NewsItem>, limit: int)
    requires DistinctBy(UrlIn(lex), selected)
    ensures DistinctBy(UrlIn(lex), Cut(selected, limit)) && forall x :: x in Cut(selected, limit) ==> x in selected
  {
  }

  lemma CandidatesAre(lex: Lexicon, items: seq<NewsItem>, cfg: Settings, urls: set<Digest>, titles: set<Digest>,
                      now: Time)
    requires DistinctBy(UrlIn(lex), items)
    ensures
      var candidates := SortBy(RankIn(lex), EligibleOnes(lex, items, cfg, urls, titles, now));
      DistinctBy(UrlIn(lex), candidates) && forall x :: x in candidates ==>
        x in items && Eligible(lex, x, cfg, urls, titles, now)
  {
    hide Eligible, Rank, UrlOf, DistinctBy;
    var eligible := EligibleOnes(lex, items, cfg, urls, titles, now);
    EligibleOnesAre(lex, items, cfg, urls, titles, now);
    SortBySorts(RankIn(lex), eligible);
    var candidates := SortBy(RankIn(lex), eligible);
    DistinctWithin(UrlIn(lex), items, candidates);
    forall x | x in candidates ensures x in items && Eligible(lex, x, cfg, urls, titles, now) {
      SortedMembers(RankIn(lex), eligible, x);
      assert x in multiset(items);
    }
  }

  lemma PickIsSound(lex: Lexicon, cfg: Settings, candidates: seq<NewsItem>)
    requires DistinctBy(UrlIn(lex), candidates)
    ensures
      var capped := Capped(lex, cfg, candidates, |candidates|);
      var filled := Filled(lex, cfg, capped, candidates, |candidates|);
      && DistinctBy(UrlIn(lex), capped) && DistinctBy(UrlIn(lex), filled)
      && |capped| <= Max(1, cfg.dailyMax)
      && (forall x :: x in capped ==> x in candidates && x.score >= cfg.minimumScore)
      && (forall x :: x in filled ==> x in candidates && (x.score >= cfg.minimumScore || x.score >= cfg.fallbackScore))
  {
    hide Fingerprint, UrlOf, Filled;
    var capped := Capped(lex, cfg, candidates, |candidates|);
    CappedIs(lex, cfg, candidates, |candidates|);
    assert candidates[..|candidates|] == candidates;
    forall x | x in capped ensures x in candidates {
      assert x in multiset(capped);
    }
    DistinctWithin(UrlIn(lex), candidates, capped);
    FilledIs(lex, cfg, capped, candidates, |candidates|);
    FilledStaysDistinct(lex, cfg, capped, candidates, |candidates|);
  }
}
