/** The loops of deduplicate_with_stats, proved to compute its specification. */
module RankingLoops {
  import opened Wrappers
  import opened Rows
  import opened Ordering
  import opened Ranking

  function GroupIn(groups: map<string, seq<NewsItem>>, k: string): seq<NewsItem> {
    if k in groups then groups[k] else []
  }

  lemma OneMoreKey(items: seq<NewsItem>, i: nat, key: NewsItem -> string)
    requires i < |items|
    ensures
      var before, after := Uniques(KeysOf(items[..i], key)), Uniques(KeysOf(items[..i + 1], key));
      after == if key(items[i]) in before then before else before + [key(items[i])]
  {
    assert KeysOf(items[..i + 1], key)[..i] == KeysOf(items[..i], key);
  }

  lemma OneMoreMember(items: seq<NewsItem>, i: nat, key: NewsItem -> string, k: string)
    requires i < |items|
    ensures Group(items[..i + 1], key, k) == Group(items[..i], key, k) + if key(items[i]) == k then [items[i]] else []
  {
    assert items[..i + 1][..i] == items[..i];
  }

  /** The groups by key, and the keys in order of first appearance. */
  method GroupBy(items: seq<NewsItem>, key: NewsItem -> string)
    returns (groups: map<string, seq<NewsItem>>, order: seq<string>)
    ensures order == Uniques(KeysOf(items, key))
    ensures forall k :: k in groups <==> k in order
    ensures forall k :: GroupIn(groups, k) == Group(items, key, k)
  {
    hide Uniques, Group, KeysOf;
    groups, order := map[], [];
    NoItems(key);
    for i := 0 to |items|
      invariant order == Uniques(KeysOf(items[..i], key))
      invariant forall k :: k in groups <==> k in order
      invariant forall k :: GroupIn(groups, k) == Group(items[..i], key, k)
    {
      OneMoreKey(items, i, key);
      ghost var before := groups;
      var k := key(items[i]);
      if k !in groups {
        order := order + [k];
      }
      groups := groups[k := GroupIn(groups, k) + [items[i]]];
      forall x ensures GroupIn(groups, x) == Group(items[..i + 1], key, x) {
        OneMoreMember(items, i, key, x);
        assert GroupIn(before, x) == Group(items[..i], key, x);
      }
    }
    assert items[..|items|] == items;
  }

  lemma NoItems(key: NewsItem -> string)
    ensures Uniques(KeysOf([], key)) == [] && forall k :: Group([], key, k) == []
  {
  }

  /** One merged item per key, in sorted key order. */
  method MergeAll(lex: Lexicon, items: seq<NewsItem>, key: NewsItem -> string)
    returns (merged: seq<NewsItem>, groupCount: nat)
    ensures merged == MergePass(lex, items, key) && groupCount == |GroupKeys(items, key)|
  {
    var groups, order := GroupBy(items, key);
    SortBySorts(Codes, order);
    groupCount := |order|;
    merged := MergeEach(lex, groups, SortBy(Codes, order), items, key);
    hide MergeGroups, Uniques, KeysOf, SortBy;
  }

  method MergeEach(lex: Lexicon, groups: map<string, seq<NewsItem>>, keys: seq<string>, ghost items: seq<NewsItem>,
                   ghost key: NewsItem -> string)
    returns (merged: seq<NewsItem>)
    requires keys == GroupKeys(items, key)
    requires forall k :: GroupIn(groups, k) == Group(items, key, k)
    ensures merged == MergePass(lex, items, key)
  {
    GroupsNonempty(items, key);
    hide GroupKeys, Group, MergeGroup;
    merged := [];
    for i := 0 to |keys|
      invariant |merged| == i
      invariant forall j :: 0 <= j < i ==> merged[j] == MergeGroup(lex, Group(items, key, keys[j]))
    {
      var group := GroupIn(groups, keys[i]);
      assert group == Group(items, key, keys[i]) && group != [];
      merged := merged + [MergeGroup(lex, group)];
    }
  }

  /** One candidate against the kept items: `proven` duplicate, or `complete` when every kept item was compared. */
  method Compare(lex: Lexicon, item: NewsItem, kept: seq<NewsItem>, comparisons: nat, budget: nat)
    returns (proven: bool, complete: bool, made: nat)
    requires comparisons <= budget
    ensures comparisons <= made
    ensures Scan(proven, complete, made - comparisons) == ScanKept(lex, item, kept, budget - comparisons)
  {
    hide Similar;
    made := comparisons;
    var i := 0;
    while i < |kept|
      invariant i <= |kept| && comparisons <= made <= budget
      invariant ScanKept(lex, item, kept, budget - comparisons) ==
        var rest := ScanKept(lex, item, kept[i..], budget - made);
        rest.(used := rest.used + made - comparisons)
    {
      if made >= budget {
        return false, false, made;
      }
      made := made + 1;
      if Similar(lex, item, kept[i]) {
        return true, true, made;
      }
      assert kept[i..][1..] == kept[i + 1..];
      i := i + 1;
    }
    return false, true, made;
  }

  /** The fuzzy pass over the candidates. */
  method Cluster(lex: Lexicon, candidates: seq<NewsItem>, budget: nat)
    returns (clustered: seq<NewsItem>, unprocessed: seq<NewsItem>, comparisons: nat)
    ensures
      var pass := PassAt(lex, candidates, budget, |candidates|);
      clustered == pass.kept && unprocessed == Unprocessed(candidates, pass) && comparisons == pass.used
  {
    hide ScanKept;
    clustered, unprocessed, comparisons := [], [], 0;
    for position := 0 to |candidates|
      invariant PassAt(lex, candidates, budget, position) == Pass(clustered, comparisons, None)
      invariant unprocessed == []
    {
      var proven, complete, made := Compare(lex, candidates[position], clustered, comparisons, budget);
      comparisons := made;
      if proven {
        continue;
      }
      if !complete {
        unprocessed := candidates[position..];
        StoppedStays(lex, candidates, budget, position + 1, |candidates|);
        return;
      }
      clustered := clustered + [candidates[position]];
    }
  }

  /** Once stopped, a pass stays as it is. */
  lemma {:induction false} StoppedStays(lex: Lexicon, candidates: seq<NewsItem>, budget: nat, n: nat, m: nat)
    requires n <= m <= |candidates| && PassAt(lex, candidates, budget, n).stopped.Some?
    ensures PassAt(lex, candidates, budget, m) == PassAt(lex, candidates, budget, n)
  {
    if n < m {
      StoppedStays(lex, candidates, budget, n, m - 1);
    }
  }

  method Deduplicate(lex: Lexicon, items: seq<NewsItem>, fuzzyCandidates: int, fuzzyComparisons: int)
    returns (result: seq<NewsItem>, stats: Stats)
    ensures (result, stats) == Deduplicated(lex, items, fuzzyCandidates, fuzzyComparisons)
  {
    hide PassAt, MergePass, GroupKeys, SortBy;
    var material := [];
    for i := 0 to |items|
      invariant material == Material(items[..i])
    {
      assert items[..i + 1][..i] == items[..i];
      if !items[i].quarantined {
        material := material + [items[i]];
      }
    }
    assert items[..|items|] == items;
    if material == [] {
      return [], Stats(0, 0, 0, 0, 0, 0, false, 0);
    }
    var urlMerged, urlGroups := MergeAll(lex, material, UrlIn(lex));
    var titleMerged, titleGroups := MergeAll(lex, urlMerged, TitleIn(lex));
    var exact := SortBy(QualityIn(lex), titleMerged);
    var budget := Max(0, fuzzyComparisons);
    var candidates := Upto(exact, Max(0, fuzzyCandidates));
    var clustered, unprocessed, comparisons := Cluster(lex, candidates, budget);
    result := SortBy(QualityIn(lex), clustered + unprocessed + exact[|candidates|..]);
    stats := Stats(|material|, urlGroups, titleGroups, |candidates|, comparisons, budget,
                   comparisons >= budget && unprocessed != [], |unprocessed|);
  }
}
