/**
 * One active delivery, and stories a window apart: over every run in which no
 * operator verdict does harm, from an empty database or from a restored one.
 */
module Spacing {
  import opened Wrappers
  import opened Rows
  import opened Transactions
  import opened OutboxInvariant
  import opened HistoryInvariant
  import opened Evolution
  import opened Protocol
  import opened ProtocolInvariant
  import opened ProtocolSteps
  import opened RunTheorems

  // ----- one active delivery

  /**
   * The verdict moves a chunk of a failed delivery and leaves that delivery
   * something to send, while another one is active.
   */
  predicate Doubles(db: Db, e: Event) {
    Revives(db, e) && !NoActive(db) && (e.verdict == Retry || OtherUnsent(db.chunks, e.c))
  }

  lemma CreatesAlone(w: Windows, s: Sys, e: Event, t: Sys, d: DeliveryId)
    requires ProcsSafe(w, s) && Step(w, s, e) == Some(t) && e.CreateDelivery?
    requires d in t.db.deliveries && d !in s.db.deliveries
    ensures NoActive(s.db) && d == s.db.nextDelivery
  {
    assert PcSafe(w, s, e.p, s.procs[e.p]);
    hide PredecessorFits, GenerationTaken, ProcsSafe;
  }

  lemma VerdictKeepsSingle(w: Windows, s: Sys, e: Event, t: Sys)
    requires Judged(s.db) && SingleActive(s.db) && Step(w, s, e) == Some(t) && e.ResolveChunk? && !Doubles(s.db, e)
    ensures SingleActive(t.db)
  {
    hide Resolve, SingleActive, Judged;
    VerdictKeepsSingleActive(s.db, e.c, e.verdict, e.reason, e.operator, s.clock);
  }

  /** New deliveries come one at a time, and only when none is active. */
  ghost predicate NewcomerAlone(db: Db, db': Db) {
    forall d :: d in db'.deliveries && d !in db.deliveries ==> NoActive(db) && d == db.nextDelivery
  }

  lemma EventAddsAlone(w: Windows, s: Sys, e: Event, t: Sys)
    requires ProcsSafe(w, s) && Step(w, s, e) == Some(t)
    ensures NewcomerAlone(s.db, t.db)
  {
    hide Step, ProcsSafe, NoActive;
    forall d | d in t.db.deliveries && d !in s.db.deliveries ensures NoActive(s.db) && d == s.db.nextDelivery {
      if e.CreateDelivery? {
        CreatesAlone(w, s, e, t, d);
      } else {
        OnlyCreationAdds(w, s, e, t, d);
      }
    }
  }

  lemma SingleStays(db: Db, db': Db)
    requires SingleActive(db) && TerminalStays(db, db') && NewcomerAlone(db, db')
    ensures SingleActive(db')
  {
    forall d | Active(db', d) ensures Active(db, d) || d !in db.deliveries {
    }
  }

  lemma EventKeepsSingle(w: Windows, s: Sys, e: Event, t: Sys)
    requires Safe(w, s) && SingleActive(s.db) && Step(w, s, e) == Some(t) && !Doubles(s.db, e)
    ensures SingleActive(t.db)
  {
    SafeParts(w, s);
    SafeJudges(s.db);
    hide Safe, ProcsSafe, DbSafe, Step, SingleActive, TerminalStays, NewcomerAlone, Judged;
    if e.ResolveChunk? {
      VerdictKeepsSingle(w, s, e, t);
    } else {
      EventEndsNothing(w, s, e, t);
      EventAddsAlone(w, s, e, t);
      SingleStays(s.db, t.db);
    }
  }

  lemma SafeJudges(db: Db)
    requires DbSafe(db)
    ensures Judged(db)
  {
  }

  /** No verdict of the run doubles the active delivery. */
  ghost predicate NeverDoubles(w: Windows, s: Sys, events: seq<Event>) {
    events == [] ||
    (NeverDoubles(w, s, events[..|events| - 1]) &&
     match Run(w, s, events[..|events| - 1])
     case None => true
     case Some(t) => !Doubles(t.db, events[|events| - 1]))
  }

  lemma {:induction false} RunKeepsSingle(w: Windows, s: Sys, events: seq<Event>, t: Sys)
    requires Safe(w, s) && SingleActive(s.db) && Run(w, s, events) == Some(t) && NeverDoubles(w, s, events)
    ensures SingleActive(t.db)
  {
    hide Safe, SingleActive, Step, Doubles;
    if events != [] {
      var before := Run(w, s, events[..|events| - 1]).value;
      RunKeepsSingle(w, s, events[..|events| - 1], before);
      RunKeepsSafe(w, s, events[..|events| - 1], before);
      EventKeepsSingle(w, before, events[|events| - 1], t);
    }
  }

  /** At most one delivery is active after every part of the run. */
  ghost predicate SingleThroughout(w: Windows, s: Sys, events: seq<Event>) {
    && (match Run(w, s, events)
        case None => true
        case Some(t) => SingleActive(t.db))
    && (events == [] || SingleThroughout(w, s, events[..|events| - 1]))
  }

  /** Exactly the runs in which some verdict doubles the active delivery ever have two. */
  lemma {:induction false} SingleThroughoutIff(w: Windows, s: Sys, events: seq<Event>, t: Sys)
    requires Init(s) && Run(w, s, events) == Some(t)
    ensures SingleThroughout(w, s, events) <==> NeverDoubles(w, s, events)
  {
    InitSafe(w, s);
    hide Safe, Step, Doubles;
    if events != [] {
      var front, last := events[..|events| - 1], events[|events| - 1];
      var before := Run(w, s, front).value;
      SingleThroughoutIff(w, s, front, before);
      RunKeepsSafe(w, s, front, before);
      if NeverDoubles(w, s, front) {
        RunKeepsSingle(w, s, front, before);
        if Doubles(before.db, last) {
          DoublingShows(w, before, last, t);
        } else {
          EventKeepsSingle(w, before, last, t);
        }
      }
    }
  }

  lemma VerdictDoubles(w: Windows, s: Sys, e: Event, t: Sys)
    requires Judged(s.db) && SingleActive(s.db) && Step(w, s, e) == Some(t) && Doubles(s.db, e)
    ensures !SingleActive(t.db)
  {
    hide Resolve, SingleActive, Judged;
    VerdictKeepsSingleActive(s.db, e.c, e.verdict, e.reason, e.operator, s.clock);
  }

  lemma DoublingShows(w: Windows, s: Sys, e: Event, t: Sys)
    requires Safe(w, s) && SingleActive(s.db) && Step(w, s, e) == Some(t) && Doubles(s.db, e)
    ensures !SingleActive(t.db)
  {
    SafeParts(w, s);
    SafeJudges(s.db);
    hide Safe, SingleActive, Judged, DbSafe, ProcsSafe, Step, Doubles;
    VerdictDoubles(w, s, e, t);
  }

  /** As long as no verdict doubles it, at most one delivery is ever non-terminal. */
  lemma AtMostOneActiveDelivery(w: Windows, s: Sys, events: seq<Event>, t: Sys, d1: DeliveryId, d2: DeliveryId)
    requires Init(s) && Run(w, s, events) == Some(t) && NeverDoubles(w, s, events)
    requires Active(t.db, d1) && Active(t.db, d2)
    ensures d1 == d2
  {
    InitSafe(w, s);
    hide Run, NeverDoubles, Safe;
    RunKeepsSingle(w, s, events, t);
  }

  /** In particular when the run revives nothing. */
  lemma {:induction false} UnrevivedNeverDoubles(w: Windows, s: Sys, events: seq<Event>, t: Sys)
    requires Run(w, s, events) == Some(t) && !t.reopened
    ensures NeverDoubles(w, s, events) && !s.reopened
  {
    hide Step;
    if events != [] {
      var before := Run(w, s, events[..|events| - 1]).value;
      ReopenedStays(w, before, events[|events| - 1], t);
      UnrevivedNeverDoubles(w, s, events[..|events| - 1], before);
    }
  }

  // ----- stories a window apart: what every transaction keeps

  /** No finished delivery has an unsent chunk. */
  ghost predicate Unfinished(db: Db) {
    forall c :: c in db.chunks && db.chunks[c].state != Sent && db.chunks[c].delivery in db.deliveries ==>
      !Finished(db.deliveries[db.chunks[c].delivery].state)
  }

  /** The part of the joint invariant that the windows need, and that a restore keeps. */
  ghost predicate Rowed(db: Db) {
    WellFormed(db) && Catalogued(db) && RowsUnique(db.history) && Unfinished(db)
  }

  ghost predicate Grows(history: seq<HistoryRow>, history': seq<HistoryRow>) {
    |history| <= |history'| && history'[..|history|] == history
  }

  ghost predicate Tidied(w: Windows, db: Db, db': Db, now: Time) {
    Rowed(db') && Quiet(w, db', now) && Grows(db.history, db'.history)
  }

  lemma LaterQuiet(w: Windows, db: Db, now: Time, later: Time)
    requires Quiet(w, db, now) && now <= later
    ensures Quiet(w, db, later)
  {
    forall d | Active(db, d) ensures FreshItems(w, db, d, later) {
      assert FreshItems(w, db, d, now);
    }
  }

  lemma DeliveryTidies(w: Windows, db: Db, db': Db, now: Time)
    requires Rowed(db) && Quiet(w, db, now) && DeliveryStep(db, db')
    ensures Tidied(w, db, db', now)
  {
    DeliveryStepQuiet(w, db, db', now);
    hide Quiet, RowsUnique;
  }

  lemma RecoverTidies(w: Windows, db: Db, now: Time)
    requires Rowed(db) && Quiet(w, db, now)
    ensures Tidied(w, db, Recover(db, now), now)
  {
    var db' := Recover(db, now);
    if !LeaseLive(db.lease, now) {
      RecoverIsRecovered(db, now);
      hide Recover;
      RecoveredQuiet(w, db, db', now);
      RecoveredRowed(db, db');
    }
  }

  lemma RecoveredRowed(db: Db, db': Db)
    requires Recovered(db, db') && Rowed(db)
    ensures Rowed(db') && db'.history == db.history
  {
    assert forall c :: c in db'.chunks ==>
      db'.chunks[c].delivery == db.chunks[c].delivery && db'.chunks[c].sequence == db.chunks[c].sequence;
    SameIdsWellFormed(db, db');
    SameIdsCatalogued(db, db');
  }

  lemma SameIdsWellFormed(db: Db, db': Db)
    requires WellFormed(db) && db'.chunks.Keys == db.chunks.Keys && db'.deliveries.Keys == db.deliveries.Keys
    requires db'.items == db.items && db'.resolutions == db.resolutions && db'.nextChunk == db.nextChunk &&
      db'.nextDelivery == db.nextDelivery
    requires forall c :: c in db'.chunks ==>
      db'.chunks[c].delivery == db.chunks[c].delivery && db'.chunks[c].sequence == db.chunks[c].sequence
    ensures WellFormed(db')
  {
    forall c1, c2 | c1 in db'.chunks && c2 in db'.chunks && db'.chunks[c1].delivery == db'.chunks[c2].delivery &&
      db'.chunks[c1].sequence == db'.chunks[c2].sequence
      ensures c1 == c2
    {
      assert db.chunks[c1].sequence == db.chunks[c2].sequence;
    }
  }

  lemma SameIdsCatalogued(db: Db, db': Db)
    requires Catalogued(db) && db'.chunks.Keys == db.chunks.Keys && db'.items == db.items
    requires forall c :: c in db'.chunks ==>
      db'.chunks[c].delivery == db.chunks[c].delivery && db'.chunks[c].sequence == db.chunks[c].sequence
    ensures Catalogued(db')
  {
    forall d, sequence | HasSequence(db.chunks, d, sequence) ensures HasSequence(db'.chunks, d, sequence) {
      var x :| x in db.chunks && db.chunks[x].delivery == d && db.chunks[x].sequence == sequence;
      assert db'.chunks[x].sequence == sequence;
    }
    forall d | d in db'.items ensures ItemsFit(db'.chunks, db'.items[d], d) {
      assert ItemsFit(db.chunks, db.items[d], d);
    }
  }

  /** A chunk that was not sent moves; its items are recorded when, and only when, it becomes sent. */
  ghost predicate ChunkMoved(db: Db, db': Db, c: ChunkId, now: Time) {
    && OneChunk(db, db', c) && Audited(db, db', c) && db.chunks[c].state != Sent
    && var d := db.chunks[c].delivery;
    && (Finished(db'.deliveries[d].state) ==> AllSent(db'.chunks, d))
    && db'.history ==
         if db'.chunks[c].state == Sent
         then RecordHistory(db.history, ItemsOf(db.items, d), d, c, db.chunks[c].sequence, now) else db.history
  }

  lemma MovedUnfinished(db: Db, db': Db, c: ChunkId)
    requires OneChunk(db, db', c) && Unfinished(db) && db.chunks[c].state != Sent
    requires Finished(db'.deliveries[db.chunks[c].delivery].state) ==> AllSent(db'.chunks, db.chunks[c].delivery)
    ensures Unfinished(db')
  {
  }

  lemma MovedRowed(db: Db, db': Db, c: ChunkId, now: Time)
    requires Rowed(db) && ChunkMoved(db, db', c, now)
    ensures Rowed(db') && Grows(db.history, db'.history)
  {
    WellFormedKept(db, db', c);
    CataloguedKept(db, db', c);
    MovedUnfinished(db, db', c);
    var d := db.chunks[c].delivery;
    RecordHistorySpec(db.history, ItemsOf(db.items, d), d, c, db.chunks[c].sequence, now);
  }

  /** If its unsent items were still unseen, and no other delivery was active, the windows are kept. */
  lemma MovedQuiet(w: Windows, db: Db, db': Db, c: ChunkId, now: Time)
    requires Rowed(db) && ChunkMoved(db, db', c, now) && Spaced(w, db.history)
    requires FreshItems(w, db, db.chunks[c].delivery, now)
    requires forall x :: Active(db, x) ==> x == db.chunks[c].delivery
    ensures Quiet(w, db', now)
  {
    var d, sequence := db.chunks[c].delivery, db.chunks[c].sequence;
    forall x | Active(db', x) ensures x == d {
      assert x != d ==> Active(db, x);
    }
    hide Active, Unfinished, Finished, AllSent;
    if db'.chunks[c].state == Sent {
      MovedRowed(db, db', c, now);
      RecordHistorySpec(db.history, ItemsOf(db.items, d), d, c, sequence, now);
      ConfirmedSpaced(w, db, db', c, now);
      ConfirmedFresh(w, db, db', c, now);
    } else {
      UnsentFrame(db.chunks, db'.chunks, d);
    }
  }

  lemma MovedTidies(w: Windows, db: Db, db': Db, c: ChunkId, now: Time)
    requires Rowed(db) && Quiet(w, db, now) && ChunkMoved(db, db', c, now)
    requires || Active(db, db.chunks[c].delivery)
             || (NoActive(db) && FreshItems(w, db, db.chunks[c].delivery, now))
    ensures Tidied(w, db, db', now)
  {
    hide ChunkMoved, Rowed, FreshItems, Spaced;
    MovedRowed(db, db', c, now);
    MovedQuiet(w, db, db', c, now);
  }

  lemma BeginMoves(db: Db, c: ChunkId, p: RunId, now: Time)
    requires Begin(db, c, p, p, now).Ok?
    ensures
      var db' := Begin(db, c, p, p, now).value;
      ChunkMoved(db, db', c, now) && Active(db, db.chunks[c].delivery) && Active(db', db'.chunks[c].delivery)
  {
    hide EarlierUnsent;
  }

  lemma FinishMoves(db: Db, c: ChunkId, outcome: Outcome, run: RunId, owner: RunId, errorClass: string,
                    errorKind: TerminalError, messageId: nat, nextAttempt: Option<Time>, now: Time)
    requires Finish(db, c, outcome, run, owner, errorClass, errorKind, messageId, nextAttempt, now).Ok?
    ensures ChunkMoved(db, Finish(db, c, outcome, run, owner, errorClass, errorKind, messageId, nextAttempt, now).value,
      c, now)
  {
    FinishVerdict(db, c, outcome, run, owner, errorClass, errorKind, messageId, nextAttempt, now);
    hide RecordHistory, DeliveryAfter, Observe, AllSent;
  }

  lemma ResolveRow(db: Db, c: ChunkId, verdict: Verdict, reason: string, operator: string, now: Time)
    requires Resolve(db, c, verdict, reason, operator, now).Ok?
    ensures
      var db' := Resolve(db, c, verdict, reason, operator, now).value;
      && OneChunk(db, db', c) && db.chunks[c].state != Sent && (db'.chunks[c].state == Sent <==> verdict == MarkSent)
      && db'.history ==
           if verdict == MarkSent
           then RecordHistory(db.history, ItemsOf(db.items, db.chunks[c].delivery), db.chunks[c].delivery, c,
             db.chunks[c].sequence, now)
           else db.history
  {
    hide RecordHistory, AfterConfirmation, HasUnresolved, TerminalRetryUsed, ItemsOf;
  }

  lemma ResolveMoves(db: Db, c: ChunkId, verdict: Verdict, reason: string, operator: string, now: Time)
    requires Resolve(db, c, verdict, reason, operator, now).Ok?
    ensures ChunkMoved(db, Resolve(db, c, verdict, reason, operator, now).value, c, now)
  {
    ResolveVerdict(db, c, verdict, reason, operator, now);
    ResolveAudits(db, c, verdict, reason, operator, now);
    ResolveRow(db, c, verdict, reason, operator, now);
    hide Resolve, RecordHistory, AllSent, Audited, AmbiguousRetries, OneChunk, ItemsOf;
  }

  lemma PrepareTidies(w: Windows, db: Db, d: DeliveryId, stories: seq<Story>, messages: seq<string>,
                      indexes: map<Digest, int>, target: string, p: RunId, now: Time)
    requires Rowed(db) && Quiet(w, db, now) && Prepare(db, d, stories, messages, indexes, target, p, now).Ok?
    requires DistinctUrls(stories) && AllUnseen(w, db.history, stories, now)
    ensures Tidied(w, db, Prepare(db, d, stories, messages, indexes, target, p, now).value, now)
  {
    var db' := Prepare(db, d, stories, messages, indexes, target, p, now).value;
    PrepareFacts(db, d, stories, messages, indexes, target, p, now);
    PrepareRowed(db, d, stories, messages, indexes, target, p, now);
    hide Prepare, FreshRows, AllUnseen, Rowed;
    FreshQuiet(w, db, db', d, stories, now);
  }

  lemma PrepareRowed(db: Db, d: DeliveryId, stories: seq<Story>, messages: seq<string>, indexes: map<Digest, int>,
                     target: string, p: RunId, now: Time)
    requires Rowed(db) && Prepare(db, d, stories, messages, indexes, target, p, now).Ok?
    ensures Rowed(Prepare(db, d, stories, messages, indexes, target, p, now).value)
  {
    var db' := Prepare(db, d, stories, messages, indexes, target, p, now).value;
    FreshOrOld(db, db', d, messages);
    FreshWellFormed(db, db', d);
    FreshItemsFit(db, db', d, stories, messages, indexes);
    hide Prepare, ItemRows, FreshChunks, WellFormed, DistinctFingerprints, IndexesInRange;
    FreshCatalogued(db, db', d);
  }

  lemma FreshCatalogued(db: Db, db': Db, d: DeliveryId)
    requires FreshRows(db, db', d) && Catalogued(db) && Unfinished(db) && d in db'.items
    requires db'.items == db.items[d := db'.items[d]] && ItemsFit(db'.chunks, db'.items[d], d)
    requires d in db'.deliveries && !Finished(db'.deliveries[d].state)
    requires forall x :: x in db'.deliveries && x != d ==> x in db.deliveries && db'.deliveries[x] == db.deliveries[x]
    ensures Catalogued(db') && Unfinished(db')
  {
    forall e, sequence | HasSequence(db.chunks, e, sequence) ensures HasSequence(db'.chunks, e, sequence) {
      var x :| x in db.chunks && db.chunks[x].delivery == e && db.chunks[x].sequence == sequence;
      assert db'.chunks[x].sequence == sequence;
    }
    forall e | e in db'.items ensures ItemsFit(db'.chunks, db'.items[e], e) {
      if e != d {
        assert ItemsFit(db.chunks, db.items[e], e);
      }
    }
  }

  // ----- every event

  ghost predicate Underway(db: Db, c: ChunkId) {
    c in db.chunks && Active(db, db.chunks[c].delivery)
  }

  /** What a process may rely on as far as the windows go. */
  ghost predicate PcTidy(w: Windows, s: Sys, p: RunId, pc: Pc) {
    match pc
    case Vacant => Live(s, p) ==> NoActive(s.db)
    case Chosen(_, stories) => DistinctUrls(stories) && (Live(s, p) ==> AllUnseen(w, s.db.history, stories, s.clock))
    case Begun(_, c, _) => Live(s, p) ==> Underway(s.db, c)
    case Answered(_, c, _, _) => Live(s, p) ==> Underway(s.db, c)
    case _ => true
  }

  ghost predicate ProcsTidy(w: Windows, s: Sys) {
    forall p :: p in s.procs ==> PcTidy(w, s, p, s.procs[p])
  }

  ghost predicate Tidy(w: Windows, s: Sys) {
    Rowed(s.db) && Quiet(w, s.db, s.clock) && ProcsTidy(w, s)
  }

  /** The verdict revives a delivery while another is active, or with an unsent item that the history now excludes. */
  ghost predicate Repeats(w: Windows, db: Db, e: Event, now: Time) {
    Revives(db, e) && !(NoActive(db) && FreshItems(w, db, db.chunks[e.c].delivery, now))
  }

  lemma AcquiresLease(w: Windows, s: Sys, e: Event, t: Sys)
    requires Step(w, s, e) == Some(t) && e.AcquireLease?
    ensures t.db == s.db.(lease := t.db.lease)
  {
    hide Selectable, BudgetExhausted, MayFail, HonestReply, Active, NoActive, Create, FinishWith, Begin, Prepare,
      Resolve, Recover, Reconcile, Fail, SetCollectionRetry, RecordCollectionAttempt, ReopenForCollection,
      MarkTargetMismatch, Reopens, Heartbeat, Release;
  }

  lemma KeepsLease(w: Windows, s: Sys, e: Event, t: Sys)
    requires Step(w, s, e) == Some(t) && (e.RenewLease? || e.ReleaseLease?)
    ensures t.db == s.db.(lease := t.db.lease)
  {
    hide Selectable, BudgetExhausted, MayFail, HonestReply, Active, NoActive, Create, FinishWith, Begin, Prepare,
      Resolve, Recover, Reconcile, Fail, SetCollectionRetry, RecordCollectionAttempt, ReopenForCollection,
      MarkTargetMismatch, Reopens, Acquire;
  }

  lemma LeaseIsStep(w: Windows, s: Sys, e: Event, t: Sys)
    requires Step(w, s, e) == Some(t) && (e.AcquireLease? || e.RenewLease? || e.ReleaseLease?)
    ensures DeliveryStep(s.db, t.db)
  {
    hide Step, DeliveryStep;
    if e.AcquireLease? {
      AcquiresLease(w, s, e, t);
    } else {
      KeepsLease(w, s, e, t);
    }
    LeaseIsDeliveryStep(s.db, t.db.lease);
  }

  lemma CollectionIsStep(w: Windows, s: Sys, e: Event, t: Sys)
    requires Step(w, s, e) == Some(t) && (e.ReopenCollection? || e.CountCollectionAttempt? || e.ScheduleRetry?)
    ensures DeliveryStep(s.db, t.db)
  {
    if t.db != s.db {
      var d := s.procs[e.p].d;
      hide DeliveryStep, Selectable, BudgetExhausted, MayFail, HonestReply, Active, NoActive, Create, FinishWith, Begin,
        Prepare, Resolve, Recover, Reconcile, Acquire, Heartbeat, Release, Reopens;
      OneDeliveryStep(s.db, t.db, d);
    }
  }

  lemma StopIsStep(w: Windows, s: Sys, e: Event, t: Sys)
    requires Step(w, s, e) == Some(t) && (e.FailNow? || e.BlockOnTarget?)
    ensures DeliveryStep(s.db, t.db)
  {
    if t.db != s.db {
      var d := s.procs[e.p].d;
      hide DeliveryStep, Selectable, BudgetExhausted, MayFail, HonestReply, Active, NoActive, Create, FinishWith, Begin,
        Prepare, Resolve, Recover, Reconcile, Acquire, Heartbeat, Release, Reopens;
      OneDeliveryStep(s.db, t.db, d);
    }
  }

  lemma CreationIsStep(w: Windows, s: Sys, e: Event, t: Sys)
    requires Step(w, s, e) == Some(t) && e.CreateDelivery? && WellFormed(s.db) && ProcsTidy(w, s)
    ensures DeliveryStep(s.db, t.db)
  {
    assert PcTidy(w, s, e.p, s.procs[e.p]);
    CreateIsDeliveryStep(s.db, e.date, e.generation, e.policy, e.force, e.p, s.clock);
    hide Create, WellFormed, ProcsTidy, NoActive;
  }

  lemma ReconciliationIsStep(w: Windows, s: Sys, e: Event, t: Sys)
    requires Step(w, s, e) == Some(t) && e.ReconcileDelivery?
    ensures DeliveryStep(s.db, t.db)
  {
    ReconcileIsDeliveryStep(s.db, e.d, e.snapshot, e.reason, e.operator);
    hide Reconcile, DeliveryStep;
  }

  lemma OtherEventIsStep(w: Windows, s: Sys, e: Event, t: Sys)
    requires Step(w, s, e) == Some(t) && !OnChunks(e) && !MovesOnly(e) && WellFormed(s.db) && ProcsTidy(w, s)
    ensures DeliveryStep(s.db, t.db) && t.clock == s.clock
  {
    OnlyTickMoves(w, s, e, t);
    hide Step, DeliveryStep, ProcsTidy, WellFormed;
    if OnLease(e) {
      LeaseIsStep(w, s, e, t);
    } else if e.CreateDelivery? {
      CreationIsStep(w, s, e, t);
    } else if e.ReconcileDelivery? {
      ReconciliationIsStep(w, s, e, t);
    } else if e.FailNow? || e.BlockOnTarget? {
      StopIsStep(w, s, e, t);
    } else {
      CollectionIsStep(w, s, e, t);
    }
  }

  lemma OnlyTickMoves(w: Windows, s: Sys, e: Event, t: Sys)
    requires Step(w, s, e) == Some(t) && !MovesOnly(e)
    ensures t.clock == s.clock
  {
    hide Step;
    if OnLease(e) || OnChunks(e) {
      SendingTakesNoTime(w, s, e, t);
    } else {
      CollectingTakesNoTime(w, s, e, t);
    }
  }

  lemma SendingTakesNoTime(w: Windows, s: Sys, e: Event, t: Sys)
    requires Step(w, s, e) == Some(t) && (OnLease(e) || OnChunks(e))
    ensures t.clock == s.clock
  {
    hide Selectable, BudgetExhausted, MayFail, HonestReply, Active, NoActive, Create, FinishWith, Begin, Prepare,
      Resolve, Recover, Reconcile, Acquire, Heartbeat, Release, Fail, SetCollectionRetry, RecordCollectionAttempt,
      ReopenForCollection, MarkTargetMismatch, Reopens;
  }

  lemma CollectingTakesNoTime(w: Windows, s: Sys, e: Event, t: Sys)
    requires Step(w, s, e) == Some(t) && !OnLease(e) && !OnChunks(e) && !MovesOnly(e)
    ensures t.clock == s.clock
  {
    hide Selectable, BudgetExhausted, MayFail, HonestReply, Active, NoActive, Create, FinishWith, Begin, Prepare,
      Resolve, Recover, Reconcile, Acquire, Heartbeat, Release, Fail, SetCollectionRetry, RecordCollectionAttempt,
      ReopenForCollection, MarkTargetMismatch, Reopens;
  }

  lemma SameTidies(w: Windows, s: Sys, t: Sys)
    requires Rowed(s.db) && Quiet(w, s.db, s.clock) && t.db == s.db && s.clock <= t.clock
    ensures Tidied(w, s.db, t.db, t.clock)
  {
    LaterQuiet(w, s.db, s.clock, t.clock);
  }

  lemma BeginTidies(w: Windows, s: Sys, e: Event, t: Sys)
    requires Tidy(w, s) && Step(w, s, e) == Some(t) && e.BeginSend?
    ensures Tidied(w, s.db, t.db, t.clock)
  {
    BeginCommits(w, s, e, t);
    OnlyTickMoves(w, s, e, t);
    hide Step, Rowed, Quiet, Begin;
    if t.db == s.db {
      SameTidies(w, s, t);
    } else {
      var c := s.procs[e.p].c;
      BeginMoves(s.db, c, e.p, s.clock);
      MovedTidies(w, s.db, t.db, c, s.clock);
    }
  }

  lemma BeginCommits(w: Windows, s: Sys, e: Event, t: Sys)
    requires Step(w, s, e) == Some(t) && e.BeginSend?
    ensures e.p in s.procs && s.procs[e.p].Cleared? && e.p in t.procs
    ensures
      || (t.db == s.db && t.procs[e.p].Handling?)
      || (Begin(s.db, s.procs[e.p].c, e.p, e.p, s.clock) == Ok(t.db) && t.procs[e.p].Begun? &&
          t.procs[e.p].c == s.procs[e.p].c)
  {
    hide Begin;
  }

  lemma BegunIsTidy(w: Windows, s: Sys, e: Event, t: Sys)
    requires Step(w, s, e) == Some(t) && e.BeginSend?
    ensures e.p in t.procs && PcTidy(w, t, e.p, t.procs[e.p])
  {
    BeginCommits(w, s, e, t);
    hide Step, Begin, Active;
    if t.procs[e.p].Begun? {
      BeginMoves(s.db, s.procs[e.p].c, e.p, s.clock);
    }
  }

  lemma FinishCommitMoves(s: Sys, e: Event, db: Db)
    requires e.FinishSend? && e.p in s.procs && s.procs[e.p].Answered? && FinishCommitOf(s, e) == Ok(db)
    ensures Live(s, e.p) && ChunkMoved(s.db, db, s.procs[e.p].c, s.clock)
  {
    FinishCommitTouchesOne(s, e, db);
    var pc := s.procs[e.p];
    var outcome := Settle(s.db, pc.d, pc.c, pc.number, pc.reply, e.enabled, e.fallback, s.clock);
    var spent := SpentOn(s.db, pc.d, pc.c, pc.reply, e.fallback, s.clock);
    hide Finish, Settle, ErrorClass, SpentOn, ChunkMoved;
    FinishMoves(s.db, pc.c, outcome, e.p, e.p, ErrorClass(pc.reply, spent), e.errorKind, MessageIdOf(pc.reply),
                if outcome == RejectedRetryable then Some(e.nextAttempt) else None, s.clock);
  }

  lemma AnsweredIsUnderway(w: Windows, s: Sys, p: RunId)
    requires ProcsTidy(w, s) && p in s.procs && s.procs[p].Answered? && Live(s, p)
    ensures Underway(s.db, s.procs[p].c)
  {
    assert PcTidy(w, s, p, s.procs[p]);
  }

  lemma FinishTidies(w: Windows, s: Sys, e: Event, t: Sys)
    requires Tidy(w, s) && Step(w, s, e) == Some(t) && e.FinishSend?
    ensures Tidied(w, s.db, t.db, t.clock)
  {
    FinishSendIs(w, s, e, t);
    OnlyTickMoves(w, s, e, t);
    hide Step, FinishCommitOf, Rowed, Quiet, ProcsTidy, ChunkMoved;
    if t.db == s.db {
      SameTidies(w, s, t);
    } else {
      FinishCommitMoves(s, e, t.db);
      AnsweredIsUnderway(w, s, e.p);
      MovedTidies(w, s.db, t.db, s.procs[e.p].c, s.clock);
    }
  }

  lemma OutboxTidies(w: Windows, s: Sys, e: Event, t: Sys)
    requires Tidy(w, s) && Step(w, s, e) == Some(t) && e.PrepareOutbox?
    ensures Tidied(w, s.db, t.db, t.clock)
  {
    hide Prepare, Rowed, Quiet, Tidied, AllUnseen;
    SameTidies(w, s, s);
    if t.db != s.db {
      var pc := s.procs[e.p];
      assert PcTidy(w, s, e.p, pc);
      PrepareIsOwned(s.db, pc.d, pc.stories, e.messages, e.indexes, e.target, e.p, s.clock);
      PrepareTidies(w, s.db, pc.d, pc.stories, e.messages, e.indexes, e.target, e.p, s.clock);
    }
  }

  lemma PrepareIsOwned(db: Db, d: DeliveryId, stories: seq<Story>, messages: seq<string>, indexes: map<Digest, int>,
                       target: string, p: RunId, now: Time)
    requires Prepare(db, d, stories, messages, indexes, target, p, now).Ok?
    ensures LeaseHeld(db.lease, p, now)
  {
  }

  /** The verdict's delivery was active, or is revived. */
  lemma VerdictFinds(db: Db, e: Event, now: Time)
    requires Unfinished(db) && e.ResolveChunk? && Resolve(db, e.c, e.verdict, e.reason, e.operator, now).Ok?
    ensures Active(db, db.chunks[e.c].delivery) || Revives(db, e)
  {
    hide RecordHistory, AfterConfirmation, HasUnresolved, TerminalRetryUsed;
  }

  lemma VerdictTidies(w: Windows, s: Sys, e: Event, t: Sys)
    requires Tidy(w, s) && Step(w, s, e) == Some(t) && e.ResolveChunk? && !Repeats(w, s.db, e, s.clock)
    ensures Tidied(w, s.db, t.db, t.clock)
  {
    hide Resolve, Rowed, Quiet, Tidied, NoActive, Reopens, Active, FreshItems, ProcsTidy, ChunkMoved;
    assert Unfinished(s.db) by {
      RowedUnfinished(s.db);
    }
    ResolveMoves(s.db, e.c, e.verdict, e.reason, e.operator, s.clock);
    VerdictFinds(s.db, e, s.clock);
    MovedTidies(w, s.db, t.db, e.c, s.clock);
  }

  lemma RowedUnfinished(db: Db)
    requires Rowed(db)
    ensures Unfinished(db) && WellFormed(db)
  {
  }

  lemma RecoveryTidies(w: Windows, s: Sys, e: Event, t: Sys)
    requires Tidy(w, s) && Step(w, s, e) == Some(t) && (e.RecoverFirst? || e.RecoverAgain?)
    ensures Tidied(w, s.db, t.db, t.clock)
  {
    hide Recover, Rowed, Quiet, Tidied;
    RecoverTidies(w, s.db, s.clock);
  }

  lemma EventTidies(w: Windows, s: Sys, e: Event, t: Sys)
    requires Tidy(w, s) && Step(w, s, e) == Some(t) && !Repeats(w, s.db, e, s.clock)
    ensures Tidied(w, s.db, t.db, t.clock)
  {
    hide Step, Rowed, Quiet, Tidied, ProcsTidy, Repeats;
    if MovesOnly(e) {
      MovesKeepTables(w, s, e, t);
      SameTidies(w, s, t);
    } else if e.FinishSend? {
      FinishTidies(w, s, e, t);
    } else if e.BeginSend? {
      BeginTidies(w, s, e, t);
    } else if e.PrepareOutbox? {
      OutboxTidies(w, s, e, t);
    } else if e.ResolveChunk? {
      VerdictTidies(w, s, e, t);
    } else if e.RecoverFirst? || e.RecoverAgain? {
      RecoveryTidies(w, s, e, t);
    } else {
      RowedUnfinished(s.db);
      OtherEventIsStep(w, s, e, t);
      DeliveryTidies(w, s.db, t.db, s.clock);
    }
  }

  // ----- what the processes rely on

  /** The tables move under no live lease but the writer's own. */
  lemma RecoveryFrees(w: Windows, s: Sys, e: Event, t: Sys)
    requires Step(w, s, e) == Some(t) && (e.RecoverFirst? || e.RecoverAgain?)
    ensures t.db == s.db || t.db.lease == None
  {
    hide CloseOpen, HasInFlight;
  }

  lemma AcquisitionOwns(w: Windows, s: Sys, e: Event, t: Sys)
    requires Step(w, s, e) == Some(t) && e.AcquireLease?
    ensures t.db == s.db || (t.db.lease.Some? && t.db.lease.value.owner == e.p)
  {
    hide Selectable, BudgetExhausted, MayFail, HonestReply, Active, NoActive, Create, FinishWith, Begin, Prepare,
      Resolve, Recover, Reconcile, Fail, SetCollectionRetry, RecordCollectionAttempt, ReopenForCollection,
      MarkTargetMismatch, Reopens, Heartbeat, Release;
  }

  predicate Unfenced(e: Event) {
    e.RecoverFirst? || e.RecoverAgain? || e.AcquireLease? || e.ResolveChunk? || e.ReconcileDelivery?
  }

  lemma WriterIsFenced(w: Windows, s: Sys, e: Event, t: Sys)
    requires Step(w, s, e) == Some(t) && !MovesOnly(e) && !Unfenced(e)
    ensures e.p in s.procs && Fenced(s.procs[e.p])
  {
    hide Selectable, BudgetExhausted, HonestReply, Active, NoActive, Create, FinishWith, Begin, Prepare,
      Resolve, Recover, Reconcile, Acquire, Heartbeat, Release, Fail, SetCollectionRetry, RecordCollectionAttempt,
      ReopenForCollection, MarkTargetMismatch, Reopens;
  }

  lemma WritesAlone(w: Windows, s: Sys, e: Event, t: Sys, q: RunId)
    requires Step(w, s, e) == Some(t) && ByOther(e, q) && q in s.procs && !e.ResolveChunk? && !e.ReconcileDelivery?
    ensures t.db == s.db || !Live(t, q)
  {
    hide Step;
    if MovesOnly(e) {
      MovesKeepTables(w, s, e, t);
    } else if e.RecoverFirst? || e.RecoverAgain? {
      RecoveryFrees(w, s, e, t);
    } else if e.AcquireLease? {
      AcquisitionOwns(w, s, e, t);
    } else {
      WriterIsFenced(w, s, e, t);
      if Live(s, e.p) {
        OthersLease(w, s, e, t, q);
      } else {
        LapsedRunChangesNothing(w, s, e, t, e.p);
      }
    }
  }

  lemma OtherStaysTidy(w: Windows, s: Sys, e: Event, t: Sys, q: RunId)
    requires Step(w, s, e) == Some(t) && ByOther(e, q) && q in s.procs && PcTidy(w, s, q, s.procs[q])
    ensures q in t.procs && PcTidy(w, t, q, t.procs[q])
  {
    hide Step, Live;
    OthersStay(w, s, e, t, q);
    if e.ResolveChunk? || e.ReconcileDelivery? {
      OperatorsWait(w, s, e, t);
    } else {
      WritesAlone(w, s, e, t, q);
      hide PcTidy;
      SameReliance(w, s, t, q);
    }
  }

  lemma SameReliance(w: Windows, s: Sys, t: Sys, q: RunId)
    requires q in s.procs && q in t.procs && t.procs[q] == s.procs[q] && PcTidy(w, s, q, s.procs[q])
    requires s.clock <= t.clock && (t.db == s.db || !Live(t, q))
    ensures PcTidy(w, t, q, t.procs[q])
  {
    hide NoActive, DistinctUrls, Underway;
  }

  lemma OperatorsWait(w: Windows, s: Sys, e: Event, t: Sys)
    requires Step(w, s, e) == Some(t) && (e.ResolveChunk? || e.ReconcileDelivery?)
    ensures StoreClosed(s)
  {
    hide Resolve, Reconcile, ProcessStep;
  }

  lemma ReadIsTidy(w: Windows, s: Sys, e: Event, t: Sys)
    requires Step(w, s, e) == Some(t) && (e.Look? || e.Select? || e.Transmit? || e.BreakBeforeSend?)
    requires e.p in s.procs && PcTidy(w, s, e.p, s.procs[e.p])
    ensures e.p in t.procs && PcTidy(w, t, e.p, t.procs[e.p])
  {
    hide Unseen, DistinctUrls, BudgetExhausted, HonestReply, Active, Underway;
  }

  lemma MoveIsCarefree(w: Windows, s: Sys, e: Event, t: Sys)
    requires Step(w, s, e) == Some(t) && MovesOnly(e) && !e.Tick?
    requires !e.Look? && !e.Select? && !e.Transmit? && !e.BreakBeforeSend?
    ensures e.p in t.procs && (Carefree(t.procs[e.p]) || t.procs[e.p].Cleared?)
  {
    hide Selectable, BudgetExhausted, MayFail, HonestReply, Active, NoActive, Create, FinishWith, Begin, Prepare,
      Resolve, Recover, Reconcile, Acquire, Heartbeat, Release, Fail, SetCollectionRetry, RecordCollectionAttempt,
      ReopenForCollection, MarkTargetMismatch, Reopens;
  }

  lemma MoveIsTidy(w: Windows, s: Sys, e: Event, t: Sys)
    requires Step(w, s, e) == Some(t) && MovesOnly(e) && !e.Tick? && ProcsTidy(w, s)
    ensures e.p in t.procs && PcTidy(w, t, e.p, t.procs[e.p])
  {
    if e.Look? || e.Select? || e.Transmit? || e.BreakBeforeSend? {
      ReadIsTidy(w, s, e, t);
    } else {
      hide Step;
      MoveIsCarefree(w, s, e, t);
    }
  }

  lemma WriterGoesOn(w: Windows, s: Sys, e: Event, t: Sys)
    requires Step(w, s, e) == Some(t) && !MovesOnly(e) && !e.BeginSend? && !e.ResolveChunk? && !e.ReconcileDelivery?
    ensures e.p in t.procs && Carefree(t.procs[e.p])
  {
    hide Selectable, BudgetExhausted, MayFail, HonestReply, Active, NoActive, Create, FinishWith, Begin, Prepare,
      Resolve, Recover, Reconcile, Acquire, Heartbeat, Release, Fail, SetCollectionRetry, RecordCollectionAttempt,
      ReopenForCollection, MarkTargetMismatch, Reopens;
  }

  lemma OwnStaysTidy(w: Windows, s: Sys, e: Event, t: Sys)
    requires Tidy(w, s) && Step(w, s, e) == Some(t) && !e.Tick? && !e.ResolveChunk? && !e.ReconcileDelivery?
    ensures e.p in t.procs && PcTidy(w, t, e.p, t.procs[e.p])
  {
    hide Step, Rowed, Quiet;
    if MovesOnly(e) {
      MoveIsTidy(w, s, e, t);
    } else if e.BeginSend? {
      BegunIsTidy(w, s, e, t);
    } else {
      WriterGoesOn(w, s, e, t);
    }
  }

  lemma OnlyOwnSpawns(w: Windows, s: Sys, e: Event, t: Sys, q: RunId)
    requires Step(w, s, e) == Some(t) && ByOther(e, q) && q in t.procs
    ensures q in s.procs
  {
    hide Step;
    if MovesOnly(e) {
      MoveSpawnsOwn(w, s, e, t, q);
    } else {
      WriterSpawnsNone(w, s, e, t, q);
    }
  }

  lemma MoveSpawnsOwn(w: Windows, s: Sys, e: Event, t: Sys, q: RunId)
    requires Step(w, s, e) == Some(t) && MovesOnly(e) && ByOther(e, q) && q in t.procs
    ensures q in s.procs
  {
    hide Selectable, BudgetExhausted, MayFail, HonestReply, Active, NoActive, Create, FinishWith, Begin, Prepare,
      Resolve, Recover, Reconcile, Acquire, Heartbeat, Release, Fail, SetCollectionRetry, RecordCollectionAttempt,
      ReopenForCollection, MarkTargetMismatch, Reopens;
  }

  lemma WriterSpawnsNone(w: Windows, s: Sys, e: Event, t: Sys, q: RunId)
    requires Step(w, s, e) == Some(t) && !MovesOnly(e) && ByOther(e, q) && q in t.procs
    ensures q in s.procs
  {
    hide Selectable, BudgetExhausted, MayFail, HonestReply, Active, NoActive, Create, FinishWith, Begin, Prepare,
      Resolve, Recover, Reconcile, Acquire, Heartbeat, Release, Fail, SetCollectionRetry, RecordCollectionAttempt,
      ReopenForCollection, MarkTargetMismatch, Reopens;
  }

  lemma EventKeepsTidy(w: Windows, s: Sys, e: Event, t: Sys)
    requires Tidy(w, s) && Step(w, s, e) == Some(t) && !Repeats(w, s.db, e, s.clock)
    ensures Tidy(w, t) && Grows(s.db.history, t.db.history)
  {
    EventTidies(w, s, e, t);
    hide Step, Rowed, Quiet, Repeats, PcTidy, Grows;
    forall q | q in t.procs ensures PcTidy(w, t, q, t.procs[q]) {
      if ByOther(e, q) {
        OnlyOwnSpawns(w, s, e, t, q);
        OtherStaysTidy(w, s, e, t, q);
      } else {
        OwnStaysTidy(w, s, e, t);
      }
    }
  }

  // ----- every run

  /** No verdict of the run revives a delivery while another is active, or with an item that has been sent since. */
  ghost predicate NeverRepeats(w: Windows, s: Sys, events: seq<Event>) {
    events == [] ||
    (NeverRepeats(w, s, events[..|events| - 1]) &&
     match Run(w, s, events[..|events| - 1])
     case None => true
     case Some(t) => !Repeats(w, t.db, events[|events| - 1], t.clock))
  }

  lemma {:induction false} RunKeepsTidy(w: Windows, s: Sys, events: seq<Event>, t: Sys)
    requires Tidy(w, s) && Run(w, s, events) == Some(t) && NeverRepeats(w, s, events)
    ensures Tidy(w, t) && Grows(s.db.history, t.db.history)
  {
    hide Tidy, Step, Repeats;
    if events != [] {
      var before := Run(w, s, events[..|events| - 1]).value;
      RunKeepsTidy(w, s, events[..|events| - 1], before);
      EventKeepsTidy(w, before, events[|events| - 1], t);
      GrowsOn(s.db.history, before.db.history, t.db.history);
    }
  }

  lemma GrowsOn(a: seq<HistoryRow>, b: seq<HistoryRow>, c: seq<HistoryRow>)
    requires Grows(a, b) && Grows(b, c)
    ensures Grows(a, c)
  {
    assert c[..|a|] == c[..|b|][..|a|];
  }

  lemma InitTidy(w: Windows, s: Sys)
    requires Init(s)
    ensures Tidy(w, s)
  {
  }

  /**
   * Unless a verdict revives a delivery while another is active, or with an
   * item that has been sent since, two rows of one URL are more than the URL
   * window apart, of one title more than the title window.
   */
  lemma NoStoryTwice(w: Windows, s: Sys, events: seq<Event>, t: Sys, i: nat, j: nat)
    requires Init(s) && Run(w, s, events) == Some(t) && NeverRepeats(w, s, events)
    requires i < j < |t.db.history|
    ensures t.db.history[i].url == t.db.history[j].url ==> t.db.history[j].sentAt - t.db.history[i].sentAt > w.urlDays
    ensures w.titleDays > 0 && t.db.history[i].fingerprint == t.db.history[j].fingerprint ==>
      t.db.history[j].sentAt - t.db.history[i].sentAt > w.titleDays
  {
    hide Run, NeverRepeats;
    InitTidy(w, s);
    RunKeepsTidy(w, s, events, t);
    assert Apart(w, t.db.history[i], t.db.history[j]);
  }

  /** In particular when the run revives nothing. */
  lemma {:induction false} UnrevivedNeverRepeats(w: Windows, s: Sys, events: seq<Event>, t: Sys)
    requires Run(w, s, events) == Some(t) && !t.reopened
    ensures NeverRepeats(w, s, events) && !s.reopened
  {
    hide Step, FreshItems, NoActive;
    if events != [] {
      var before := Run(w, s, events[..|events| - 1]).value;
      ReopenedStays(w, before, events[|events| - 1], t);
      UnrevivedNeverRepeats(w, s, events[..|events| - 1], before);
    }
  }

  /** A retry of a failed delivery breaks the windows' invariant exactly then. */
  lemma RetryKeepsQuietIff(w: Windows, db: Db, c: ChunkId, reason: string, operator: string, now: Time)
    requires Rowed(db) && Quiet(w, db, now) && Reopens(db, c)
    requires Resolve(db, c, Retry, reason, operator, now).Ok?
    ensures Quiet(w, Resolve(db, c, Retry, reason, operator, now).value, now) <==>
      NoActive(db) && FreshItems(w, db, db.chunks[c].delivery, now)
  {
    var db' := Resolve(db, c, Retry, reason, operator, now).value;
    var d := db.chunks[c].delivery;
    ResolveMoves(db, c, Retry, reason, operator, now);
    VerdictLeavesActive(db, c, Retry, reason, operator, now);
    ResolveRow(db, c, Retry, reason, operator, now);
    assert !Active(db, d);
    hide Resolve, ChunkMoved, Rowed;
    if NoActive(db) && FreshItems(w, db, d, now) {
      MovedTidies(w, db, db', c, now);
    } else if Quiet(w, db', now) {
      assert Active(db', d) && FreshItems(w, db', d, now);
      assert NoActive(db) by {
        forall x | x in db.deliveries ensures Terminal(db.deliveries[x].state) {
          assert Active(db, x) ==> Active(db', x);
        }
      }
      UnsentFrame(db'.chunks, db.chunks, d);
    }
  }

  // ----- when a confirmation repeats a story

  predicate InChunk(items: seq<Item>, i: int, sequence: int) {
    0 <= i < |items| && items[i].chunkIndex == sequence
  }

  /** The chunk's stories could still be selected at this time, and share no URL unless the window is negative. */
  ghost predicate NewStories(w: Windows, history: seq<HistoryRow>, items: seq<Item>, sequence: int, now: Time) {
    && (forall i :: InChunk(items, i, sequence) ==> Unseen(w, history, StoryOf(items[i]), now))
    && (w.urlDays < 0 ||
        forall i, j :: i < j && InChunk(items, i, sequence) && InChunk(items, j, sequence) ==>
          items[i].url != items[j].url)
  }

  /** Each item of a chunk that becomes sent gets a new row. */
  lemma RowOfItem(db: Db, db': Db, c: ChunkId, now: Time, i: int) returns (j: nat)
    requires WellFormed(db) && History(db) && ChunkMoved(db, db', c, now) && db'.chunks[c].state == Sent
    requires InChunk(ItemsOf(db.items, db.chunks[c].delivery), i, db.chunks[c].sequence)
    ensures |db.history| <= j < |db'.history| && db'.history[j].sentAt == now
    ensures
      var item := ItemsOf(db.items, db.chunks[c].delivery)[i];
      db'.history[j].url == item.url && db'.history[j].fingerprint == item.fingerprint
  {
    var d, sequence := db.chunks[c].delivery, db.chunks[c].sequence;
    var items := ItemsOf(db.items, d);
    RecordHistorySpec(db.history, items, d, c, sequence, now);
    HistoryMatchesAcknowledgements(db, d, i, c);
    assert Recorded(db'.history, d, items[i].fingerprint);
    j :| 0 <= j < |db'.history| && db'.history[j].delivery == d && db'.history[j].fingerprint == items[i].fingerprint;
    assert forall x :: 0 <= x < |db.history| ==> db'.history[x] == db.history[x];
    assert FromItem(items, db'.history[j], sequence);
    var k :| 0 <= k < |items| && items[k] == Item(db'.history[j].fingerprint, db'.history[j].url, sequence);
    assert ItemsFit(db.chunks, items, d);
    assert k == i;
  }

  lemma NewRowsApart(w: Windows, db: Db, db': Db, c: ChunkId, now: Time)
    requires Rowed(db) && Spaced(w, db.history) && ChunkMoved(db, db', c, now) && db'.chunks[c].state == Sent
    requires NewStories(w, db.history, ItemsOf(db.items, db.chunks[c].delivery), db.chunks[c].sequence, now)
    ensures Spaced(w, db'.history)
  {
    var d, sequence := db.chunks[c].delivery, db.chunks[c].sequence;
    var items := ItemsOf(db.items, d);
    RecordHistorySpec(db.history, items, d, c, sequence, now);
    forall i, j | 0 <= i < j < |db'.history| ensures Apart(w, db'.history[i], db'.history[j]) {
      if j < |db.history| {
        assert db'.history[i] == db.history[i] && db'.history[j] == db.history[j];
      } else {
        assert FromItem(items, db'.history[j], sequence);
        var k :| 0 <= k < |items| && items[k] == Item(db'.history[j].fingerprint, db'.history[j].url, sequence);
        assert InChunk(items, k, sequence);
        if i < |db.history| {
          assert db'.history[i] == db.history[i];
        } else {
          assert FromItem(items, db'.history[i], sequence);
          var m :| 0 <= m < |items| && items[m] == Item(db'.history[i].fingerprint, db'.history[i].url, sequence);
          assert InChunk(items, m, sequence);
        }
      }
    }
  }

  /**
   * A confirmation, by the remote or by an operator, keeps all rows a window
   * apart exactly when the chunk's stories are new.
   */
  lemma ConfirmationKeepsApartIff(w: Windows, db: Db, db': Db, c: ChunkId, now: Time)
    requires Rowed(db) && History(db) && Spaced(w, db.history)
    requires ChunkMoved(db, db', c, now) && db'.chunks[c].state == Sent
    ensures Spaced(w, db'.history) <==>
      NewStories(w, db.history, ItemsOf(db.items, db.chunks[c].delivery), db.chunks[c].sequence, now)
  {
    var d, sequence := db.chunks[c].delivery, db.chunks[c].sequence;
    var items := ItemsOf(db.items, d);
    if NewStories(w, db.history, items, sequence, now) {
      NewRowsApart(w, db, db', c, now);
    } else if i :| InChunk(items, i, sequence) && !Unseen(w, db.history, StoryOf(items[i]), now) {
      StaleShows(w, db, db', c, now, i);
    } else {
      var i, k :| i < k && InChunk(items, i, sequence) && InChunk(items, k, sequence) && items[i].url == items[k].url;
      TwinShows(w, db, db', c, now, i, k);
    }
  }

  lemma StaleShows(w: Windows, db: Db, db': Db, c: ChunkId, now: Time, i: int)
    requires WellFormed(db) && History(db) && ChunkMoved(db, db', c, now) && db'.chunks[c].state == Sent
    requires InChunk(ItemsOf(db.items, db.chunks[c].delivery), i, db.chunks[c].sequence)
    requires !Unseen(w, db.history, StoryOf(ItemsOf(db.items, db.chunks[c].delivery)[i]), now)
    ensures !Spaced(w, db'.history)
  {
    var d, sequence := db.chunks[c].delivery, db.chunks[c].sequence;
    var items := ItemsOf(db.items, d);
    RecordHistorySpec(db.history, items, d, c, sequence, now);
    var j := RowOfItem(db, db', c, now, i);
    hide History, WellFormed, RecordHistory, Unseen, Spaced, RowsUnique;
    SeenShows(w, db.history, db'.history, StoryOf(items[i]), now, j);
  }

  lemma TwinShows(w: Windows, db: Db, db': Db, c: ChunkId, now: Time, i: int, k: int)
    requires WellFormed(db) && History(db) && ChunkMoved(db, db', c, now) && db'.chunks[c].state == Sent
    requires
      var items, sequence := ItemsOf(db.items, db.chunks[c].delivery), db.chunks[c].sequence;
      i < k && InChunk(items, i, sequence) && InChunk(items, k, sequence) && items[i].url == items[k].url
    requires w.urlDays >= 0
    ensures !Spaced(w, db'.history)
  {
    var items := ItemsOf(db.items, db.chunks[c].delivery);
    assert ItemsFit(db.chunks, items, db.chunks[c].delivery);
    var a := RowOfItem(db, db', c, now, i);
    var b := RowOfItem(db, db', c, now, k);
    hide History, WellFormed, ChunkMoved, ItemsFit, InChunk;
    var first, second := if a < b then a else b, if a < b then b else a;
    assert !Apart(w, db'.history[first], db'.history[second]);
  }

  lemma SeenShows(w: Windows, history: seq<HistoryRow>, history': seq<HistoryRow>, story: Story, now: Time, j: nat)
    requires Grows(history, history') && |history| <= j < |history'| && !Unseen(w, history, story, now)
    requires history'[j].sentAt == now && history'[j].url == story.url && history'[j].fingerprint == story.fingerprint
    ensures !Spaced(w, history')
  {
    if k :| 0 <= k < |history| && history[k].url == story.url && history[k].sentAt >= now - w.urlDays {
      assert history'[k] == history[k] && !Apart(w, history'[k], history'[j]);
    } else {
      var k :| 0 <= k < |history| && history[k].fingerprint == story.fingerprint &&
        history[k].sentAt >= now - w.titleDays;
      assert history'[k] == history[k] && !Apart(w, history'[k], history'[j]);
    }
  }
}
