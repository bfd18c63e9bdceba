/** The identity queries over the article history, and the pruning that must not change their answers. */
module Identity {
  import opened Wrappers
  import opened Rows
  import opened Transactions
  import opened Protocol
  import opened SampleRun
  import opened Store

  // ----- identity_keys

  /** The URL keys among `wanted` with a row no older than the cutoff. */
  function UrlsSince(history: seq<HistoryRow>, wanted: set<Digest>, cutoff: Time): set<Digest> {
    set i | 0 <= i < |history| && history[i].sentAt >= cutoff && history[i].url in wanted :: history[i].url
  }

  function TitlesSince(history: seq<HistoryRow>, wanted: set<Digest>, cutoff: Time): set<Digest> {
    set i | 0 <= i < |history| && history[i].sentAt >= cutoff &&
      history[i].fingerprint in wanted :: history[i].fingerprint
  }

  function UrlsOf(stories: seq<Story>): set<Digest> {
    set i | 0 <= i < |stories| :: stories[i].url
  }

  function TitlesOf(stories: seq<Story>): set<Digest> {
    set i | 0 <= i < |stories| :: stories[i].fingerprint
  }

  /** The answer as one unbatched query. */
  function SeenKeys(history: seq<HistoryRow>, stories: seq<Story>, w: Windows, now: Time): (set<Digest>, set<Digest>) {
    (UrlsSince(history, UrlsOf(stories), now - w.urlDays),
     if w.titleDays > 0 then TitlesSince(history, TitlesOf(stories), now - w.titleDays) else {})
  }

  const BATCH: nat := 400

  /** identity_keys: batches of 400 stories, answered as if they were one. */
  method IdentityKeys(history: seq<HistoryRow>, stories: seq<Story>, w: Windows, now: Time)
    returns (urls: set<Digest>, titles: set<Digest>)
    ensures (urls, titles) == SeenKeys(history, stories, w, now)
  {
    urls, titles := {}, {};
    var start := 0;
    NothingWanted(history, now - w.urlDays, now - w.titleDays);
    assert UrlsOf(stories[..0]) == {} == TitlesOf(stories[..0]);
    while start < |stories|
      invariant 0 <= start
      invariant urls == UrlsSince(history, UrlsOf(stories[..Min(start, |stories|)]), now - w.urlDays)
      invariant titles ==
        if w.titleDays > 0
        then TitlesSince(history, TitlesOf(stories[..Min(start, |stories|)]), now - w.titleDays)
        else {}
    {
      var end := Min(start + BATCH, |stories|);
      var batch := stories[start..end];
      BatchSplits(stories, start, end);
      AnswersAdd(history, UrlsOf(stories[..start]), UrlsOf(batch), now - w.urlDays);
      urls := urls + UrlsSince(history, UrlsOf(batch), now - w.urlDays);
      if w.titleDays > 0 {
        TitleAnswersAdd(history, TitlesOf(stories[..start]), TitlesOf(batch), now - w.titleDays);
        titles := titles + TitlesSince(history, TitlesOf(batch), now - w.titleDays);
      }
      start := start + BATCH;
    }
    assert stories[..|stories|] == stories;
  }

  lemma NothingWanted(history: seq<HistoryRow>, urlCutoff: Time, titleCutoff: Time)
    ensures UrlsSince(history, {}, urlCutoff) == {} == TitlesSince(history, {}, titleCutoff)
  {
  }

  lemma AnswersAdd(history: seq<HistoryRow>, a: set<Digest>, b: set<Digest>, cutoff: Time)
    ensures UrlsSince(history, a + b, cutoff) == UrlsSince(history, a, cutoff) + UrlsSince(history, b, cutoff)
  {
  }

  lemma TitleAnswersAdd(history: seq<HistoryRow>, a: set<Digest>, b: set<Digest>, cutoff: Time)
    ensures TitlesSince(history, a + b, cutoff) == TitlesSince(history, a, cutoff) + TitlesSince(history, b, cutoff)
  {
  }

  function Min(a: int, b: int): int {
    if a < b then a else b
  }

  lemma BatchSplits(stories: seq<Story>, start: nat, end: nat)
    requires start <= end <= |stories|
    ensures UrlsOf(stories[..end]) == UrlsOf(stories[..start]) + UrlsOf(stories[start..end])
    ensures TitlesOf(stories[..end]) == TitlesOf(stories[..start]) + TitlesOf(stories[start..end])
  {
    var all, front, back := stories[..end], stories[..start], stories[start..end];
    assert all == front + back;
    assert forall i :: 0 <= i < |front| ==> all[i] == front[i];
    assert forall i :: 0 <= i < |back| ==> all[|front| + i] == back[i];
  }

  /** A story is unseen exactly when neither of its keys is in the answer. */
  lemma UnseenIsNotFound(history: seq<HistoryRow>, stories: seq<Story>, w: Windows, now: Time, i: nat)
    requires i < |stories|
    ensures
      var (urls, titles) := SeenKeys(history, stories, w, now);
      Unseen(w, history, stories[i], now) <==> stories[i].url !in urls && stories[i].fingerprint !in titles
  {
    assert stories[i].url in UrlsOf(stories) && stories[i].fingerprint in TitlesOf(stories);
    var (urls, titles) := SeenKeys(history, stories, w, now);
    if stories[i].url !in urls && stories[i].fingerprint !in titles {
      forall k | 0 <= k < |history|
        ensures history[k].url == stories[i].url ==> history[k].sentAt < now - w.urlDays
        ensures w.titleDays > 0 && history[k].fingerprint == stories[i].fingerprint ==>
          history[k].sentAt < now - w.titleDays
      {
      }
    }
  }

  // ----- prune_history

  /** Nothing of the delivery awaits a run or an operator. */
  predicate Resolved(db: Db, d: DeliveryId) {
    d in db.deliveries && Terminal(db.deliveries[d].state) && !HasUnresolved(db.chunks, d)
  }

  predicate AttemptExpired(db: Db, k: AttemptKey, cutoff: Time) {
    k in db.attempts && db.attempts[k].endedAt.Some? && db.attempts[k].endedAt.value < cutoff &&
      Resolved(db, db.attempts[k].delivery)
  }

  predicate RowExpired(db: Db, row: HistoryRow, cutoff: Time) {
    row.sentAt < cutoff && Resolved(db, row.delivery)
  }

  function KeptRows(db: Db, history: seq<HistoryRow>, cutoff: Time): (kept: seq<HistoryRow>)
    ensures |kept| <= |history|
  {
    if history == [] then []
    else
      var last := history[|history| - 1];
      KeptRows(db, history[..|history| - 1], cutoff) + if RowExpired(db, last, cutoff) then [] else [last]
  }

  function ExpiredAttempts(db: Db, cutoff: Time): set<AttemptKey> {
    set k | k in db.attempts && AttemptExpired(db, k, cutoff)
  }

  /** The attempts left; with the expired ones they are all. */
  function KeptAttempts(db: Db, cutoff: Time): (kept: map<AttemptKey, Attempt>)
    ensures |kept| + |ExpiredAttempts(db, cutoff)| == |db.attempts|
  {
    AttemptsShrink(db, cutoff);
    db.attempts - ExpiredAttempts(db, cutoff)
  }

  function Pruned(db: Db, now: Time, attemptDays: int, articleDays: int): Db {
    db.(attempts := KeptAttempts(db, now - attemptDays),
        history := KeptRows(db, db.history, now - articleDays))
  }

  datatype Counts = Counts(attempts: nat, articles: nat)

  /** prune_history: a preview counts and changes nothing, an applied run deletes exactly what it counts. */
  method PruneHistory(store: StateStore, now: Time, attemptDays: int, articleDays: int, apply: bool)
    returns (r: Answer<Counts>)
    modifies store
    ensures r.Failed? <==> attemptDays < 1 || articleDays < 1
    ensures store.Tables() ==
      if r.Done? && apply then Pruned(old(store.Tables()), now, attemptDays, articleDays) else old(store.Tables())
    ensures r.Done? ==>
      var after := Pruned(old(store.Tables()), now, attemptDays, articleDays);
      r.value == Counts(|old(store.attempts)| - |after.attempts|, |old(store.history)| - |after.history|)
  {
    if attemptDays < 1 || articleDays < 1 {
      return Failed(BadInput);
    }
    hide KeptRows, KeptAttempts, ExpiredAttempts;
    var expired := |ExpiredAttempts(store.Tables(), now - attemptDays)|;
    var kept, dropped := SplitHistory(store, now - articleDays);
    if apply {
      store.attempts := KeptAttempts(store.Tables(), now - attemptDays);
      store.history := kept;
    }
    return Done(Counts(expired, dropped));
  }

  method SplitHistory(store: StateStore, cutoff: Time) returns (kept: seq<HistoryRow>, dropped: nat)
    ensures kept == KeptRows(store.Tables(), store.history, cutoff) && dropped == |store.history| - |kept|
  {
    kept, dropped := [], 0;
    for i := 0 to |store.history|
      invariant kept == KeptRows(store.Tables(), store.history[..i], cutoff) && dropped == i - |kept|
    {
      assert store.history[..i + 1][..i] == store.history[..i];
      if RowExpired(store.Tables(), store.history[i], cutoff) {
        dropped := dropped + 1;
      } else {
        kept := kept + [store.history[i]];
      }
    }
    assert store.history[..|store.history|] == store.history;
  }

  lemma AttemptsShrink(db: Db, cutoff: Time)
    ensures |db.attempts - ExpiredAttempts(db, cutoff)| == |db.attempts| - |ExpiredAttempts(db, cutoff)|
  {
    var expired, left := ExpiredAttempts(db, cutoff), db.attempts - ExpiredAttempts(db, cutoff);
    assert left.Keys == db.attempts.Keys - expired;
    assert |left.Keys| == |db.attempts.Keys| - |expired|;
  }

  lemma {:induction false} KeptRowsAre(db: Db, history: seq<HistoryRow>, cutoff: Time)
    ensures forall row :: row in KeptRows(db, history, cutoff) <==> row in history && !RowExpired(db, row, cutoff)
  {
    if history != [] {
      var front, last := history[..|history| - 1], history[|history| - 1];
      KeptRowsAre(db, front, cutoff);
      assert history == front + [last];
      forall row ensures row in KeptRows(db, history, cutoff) <==> row in history && !RowExpired(db, row, cutoff) {
        assert row in history <==> row in front || row == last;
      }
    }
  }

  /** Work that a run or an operator still owns keeps every attempt and every history row. */
  lemma UnresolvedIsKept(db: Db, now: Time, attemptDays: int, articleDays: int, d: DeliveryId)
    requires !Resolved(db, d)
    ensures
      var after := Pruned(db, now, attemptDays, articleDays);
      && (forall k :: k in db.attempts && db.attempts[k].delivery == d ==>
            k in after.attempts && after.attempts[k] == db.attempts[k])
      && (forall row :: row in db.history && row.delivery == d ==> row in after.history)
  {
    KeptRowsAre(db, db.history, now - articleDays);
  }

  /** No retention shorter than a window that is in force. */
  predicate LongEnough(w: Windows, articleDays: int) {
    articleDays >= w.urlDays && (w.titleDays > 0 ==> articleDays >= w.titleDays)
  }

  /**
   * With a retention no shorter than the windows, pruning changes no answer:
   * not now, and not at any later time.
   */
  lemma PruningIsInvisible(w: Windows, db: Db, now: Time, attemptDays: int, articleDays: int, story: Story, later: Time)
    requires LongEnough(w, articleDays) && now <= later
    ensures Unseen(w, Pruned(db, now, attemptDays, articleDays).history, story, later) <==>
      Unseen(w, db.history, story, later)
  {
    var kept := KeptRows(db, db.history, now - articleDays);
    KeptRowsAre(db, db.history, now - articleDays);
    if Unseen(w, kept, story, later) {
      forall i | 0 <= i < |db.history|
        ensures db.history[i].url == story.url ==> db.history[i].sentAt < later - w.urlDays
        ensures w.titleDays > 0 && db.history[i].fingerprint == story.fingerprint ==>
          db.history[i].sentAt < later - w.titleDays
      {
        if !RowExpired(db, db.history[i], now - articleDays) {
          assert db.history[i] in kept;
          var k :| 0 <= k < |kept| && kept[k] == db.history[i];
        }
      }
    }
    if Unseen(w, db.history, story, later) {
      forall i | 0 <= i < |kept|
        ensures kept[i] in db.history
      {
        assert kept[i] in kept;
      }
    }
  }

  lemma SentRowExpires(w: Windows, s: Sys, t: Sys, story: Story, now: Time, articleDays: int)
    requires Init(s) && OneMoreDelivered(s, t, 7, FIRST_DAY, story, "text") && s.clock == now - articleDays - 1
    ensures KeptRows(t.db, t.db.history, now - articleDays) == []
  {
    assert RowExpired(t.db, t.db.history[0], now - articleDays);
    assert t.db.history[..0] == [];
    assert KeptRows(t.db, [], now - articleDays) == [];
  }

  /**
   * With a shorter one it does: a run delivers a story, and when the retention
   * has just passed, its row is pruned although a window still counts it.
   */
  lemma ShortRetentionForgets(w: Windows, s: Sys, story: Story, now: Time, attemptDays: int, articleDays: int)
    returns (events: seq<Event>, t: Sys)
    requires articleDays >= 1 && !LongEnough(w, articleDays)
    requires Init(s) && s.clock == now - articleDays - 1
    ensures Run(w, s, events) == Some(t) && t.clock == now
    ensures Unseen(w, Pruned(t.db, now, attemptDays, articleDays).history, story, now)
    ensures !Unseen(w, t.db.history, story, now)
  {
    hide Run, KeptAttempts;
    var sent;
    events, sent := DeliversFirst(w, s, story, "text");
    SentRowExpires(w, s, sent, story, now, articleDays);
    t := sent.(clock := now);
    Then(w, s, events, sent, Tick(now), t);
    events := events + [Tick(now)];
    assert t.db.history[0] == HistoryRow(story.url, story.fingerprint, 1, 1, s.clock);
  }

  ghost predicate Reachable(w: Windows, t: Sys) {
    exists s, events :: Init(s) && Run(w, s, events) == Some(t)
  }

  /** Pruning never changes an answer of any state a run can reach: exactly when the retention is long enough. */
  lemma PruningIsInvisibleIff(w: Windows, attemptDays: int, articleDays: int)
    requires articleDays >= 1
    ensures
      (forall t: Sys, story: Story, later: Time | Reachable(w, t) && t.clock <= later ::
        Unseen(w, Pruned(t.db, t.clock, attemptDays, articleDays).history, story, later) <==>
        Unseen(w, t.db.history, story, later)) <==>
      LongEnough(w, articleDays)
  {
    hide Unseen, Pruned, Run;
    if LongEnough(w, articleDays) {
      forall t: Sys, story: Story, later: Time | Reachable(w, t) && t.clock <= later
        ensures Unseen(w, Pruned(t.db, t.clock, attemptDays, articleDays).history, story, later) <==>
          Unseen(w, t.db.history, story, later)
      {
        PruningIsInvisible(w, t.db, t.clock, attemptDays, articleDays, story, later);
      }
    } else {
      var empty := Db(map[], map[], map[], map[], map[], [], [], None, 1, 1);
      var s := Sys(empty, -articleDays - 1, map[], [], false);
      var story := Story(Sha256("title"), Sha256("url"));
      var events, t := ShortRetentionForgets(w, s, story, 0, attemptDays, articleDays);
      assert Reachable(w, t);
    }
  }
}
