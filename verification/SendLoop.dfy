/**
 * The send loop of run_once over a StateStore, with other processes free to
 * act between any two of its calls.
 */
module SendLoop {
  import opened Wrappers
  import opened Rows
  import opened Transactions
  import opened OutboxInvariant
  import opened HistoryInvariant
  import opened Evolution
  import opened Protocol
  import opened ProtocolInvariant
  import opened ProtocolSteps
  import opened RunTheorems
  import opened Store

  // ----- what others may do

  /** Between two calls of `p`: anything safe, but nothing at all while `p` still holds its lease. */
  ghost predicate Interference(p: RunId, db: Db, now: Time, db': Db, later: Time) {
    now <= later && DbSafe(db') && Evolves(db, db') && (LeaseHeld(db'.lease, p, later) ==> db' == db)
  }

  /** Every event of the protocol that is not the running process's own is such an interference. */
  lemma OthersInterfere(w: Windows, s: Sys, e: Event, t: Sys, p: RunId)
    requires Safe(w, s) && Step(w, s, e) == Some(t)
    requires p in s.procs && s.procs[p] != Ended && Fenced(s.procs[p])
    requires ByOther(e, p)
    ensures Interference(p, s.db, s.clock, t.db, t.clock)
  {
    StepSafe(w, s, e, t);
    FencedWhileLive(w, s, e, t, p);
  }

  lemma FencedWhileLive(w: Windows, s: Sys, e: Event, t: Sys, p: RunId)
    requires Step(w, s, e) == Some(t)
    requires p in s.procs && s.procs[p] != Ended && Fenced(s.procs[p])
    requires ByOther(e, p)
    ensures s.clock <= t.clock && (LeaseHeld(t.db.lease, p, t.clock) ==> t.db == s.db)
  {
    OthersLease(w, s, e, t, p);
    if LeaseHeld(t.db.lease, p, t.clock) && !e.Tick? && !e.ResolveChunk? && !e.ReconcileDelivery? {
      hide Step;
      if e.p in s.procs && Fenced(s.procs[e.p]) && !e.Spawn? {
        LapsedRunChangesNothing(w, s, e, t, e.p);
      } else {
        StartUpWaits(w, s, e, t, p);
      }
    }
  }

  /** A process that is starting up changes nothing while another's lease is live. */
  lemma StartUpWaits(w: Windows, s: Sys, e: Event, t: Sys, p: RunId)
    requires Step(w, s, e) == Some(t) && ByOther(e, p) && !e.Tick? && !e.ResolveChunk? && !e.ReconcileDelivery?
    requires e.Spawn? || e.p !in s.procs || !Fenced(s.procs[e.p])
    requires LeaseHeld(s.db.lease, p, s.clock) && t.db.lease == s.db.lease
    ensures t.db == s.db
  {
    hide Selectable, BudgetExhausted, FinishWith, HonestReply, Active, NoActive, Create, Prepare, Begin, Fail,
      Heartbeat, Release, RecordCollectionAttempt, SetCollectionRetry, ReopenForCollection, MarkTargetMismatch;
  }

  // ----- the loop

  /** Everything outside the process: other processes, the remote, and shutdown requests, call by call. */
  datatype World = World(
    others: (Db, Time, nat) -> (Db, Time),
    replies: nat -> Reply,
    delays: nat -> int,
    stops: nat -> bool)

  ghost predicate FairWorld(world: World, p: RunId) {
    && (forall db, now, k :: DbSafe(db) ==>
          Interference(p, db, now, world.others(db, now, k).0, world.others(db, now, k).1))
    && (forall k :: world.replies(k).Raised? ==> KnownReason(world.replies(k).reason))
  }

  /** A world in which nobody else acts and every text is confirmed is a fair one. */
  lemma QuietWorldIsFair(p: RunId)
    ensures FairWorld(World((db, now, k) => (db, now), k => Confirmed(1), k => 0, k => false), p)
  {
    hide DbSafe;
    forall db: Db, now: Time | DbSafe(db) ensures Interference(p, db, now, db, now) {
      EvolvesSelf(db);
    }
  }

  datatype RunOutcome = RunCompleted(state: DeliveryState) | RunRetryWait | RunNeedsAttention | RunFailed | RunStopped

  ghost function UnsentSet(chunks: map<ChunkId, Chunk>, d: DeliveryId): set<ChunkId> {
    set c | c in chunks && chunks[c].delivery == d && chunks[c].state != Sent
  }

  class Sender {
    const store: StateStore
    const p: RunId
    const d: DeliveryId
    const ttl: int
    const enabled: bool
    const fallback: Policy
    const world: World
    var now: Time
    var calls: nat

    constructor (store: StateStore, p: RunId, d: DeliveryId, ttl: int, enabled: bool, fallback: Policy, world: World,
                 now: Time)
      ensures this.store == store && this.p == p && this.d == d && this.world == world
    {
      this.store, this.p, this.d, this.ttl := store, p, d, ttl;
      this.enabled, this.fallback, this.world, this.now, this.calls := enabled, fallback, world, now, 0;
    }

    ghost predicate Valid()
      reads this, store
    {
      DbSafe(store.Tables()) && FairWorld(world, p)
    }

    /** Other processes act, and time passes. */
    method Yield()
      requires Valid()
      modifies this, store
      ensures Valid() && Interference(p, old(store.Tables()), old(now), store.Tables(), now)
    {
      var (db, later) := world.others(store.Tables(), now, calls);
      assert Interference(p, store.Tables(), now, world.others(store.Tables(), now, calls).0,
        world.others(store.Tables(), now, calls).1);
      store.Reload(db);
      now, calls := later, calls + 1;
    }

    /**
     * The exception path: an unresolved in-flight chunk is left for recovery,
     * other work is failed if the lease allows.
     */
    method HandleException() returns (outcome: RunOutcome)
      requires Valid()
      modifies this, store
      ensures Valid() && (outcome == RunNeedsAttention || outcome == RunStopped || outcome == RunFailed)
    {
      Yield();
      var current := if d in store.deliveries then Some(store.deliveries[d].state) else None;
      var inFlight := HasInFlight(store.chunks, d);
      if current.Some? && inFlight {
        return RunNeedsAttention;
      }
      if world.stops(calls) {
        return RunStopped;
      }
      if current.Some? && current.value != NeedsAttention && current.value != RetryWait && !Terminal(current.value) {
        Yield();
        FailQuietly();
      }
      return RunFailed;
    }

    /** fail_delivery with its exception suppressed. */
    method FailQuietly()
      requires Valid()
      modifies store
      ensures Valid()
    {
      ghost var before := store.Tables();
      var failed := store.FailDelivery(d, p, now);
      FailKeepsDbSafe(before, d, p, now);
    }

    /** One chunk of the due list: budget check, begin, transmit, finish. `None` means it was confirmed. */
    method SendOne(c: ChunkId) returns (stop: Option<RunOutcome>)
      requires Valid()
      modifies this, store
      ensures Valid() && (stop.Some? ==> !stop.value.RunCompleted?)
      ensures stop.None? ==>
        c in UnsentSet(old(store.chunks), d) && UnsentSet(store.chunks, d) == UnsentSet(old(store.chunks), d) - {c}
      ensures stop.None? ==> LeaseHeld(old(store.lease), p, old(now))
    {
      hide DbSafe, Begin, UnsentSet, Evolves, FairWorld;
      Yield();
      if c !in store.chunks || store.chunks[c].delivery != d ||
        BudgetExhausted(store.Tables(), d, Some(c), fallback, now) {
        FailQuietly();
        return Some(RunFailed);
      }
      ghost var cleared := store.Tables();
      assert HasRoom(cleared, d, c);
      hide BudgetExhausted;
      Yield();
      ghost var ready := store.Tables();
      BeginNeedsLease(ready, c, p, now);
      var begun := store.BeginChunkAttempt(c, p, p, now);
      if begun.Failed? {
        stop := Rescue();
        return;
      }
      assert ready == cleared;
      BeginKeepsDbSafe(cleared, d, c, p, now);
      var number := begun.value;
      ghost var open := store.Tables();
      stop := FinishOne(c, number);
      assert stop.None? ==> UnsentSet(open.chunks, d) == UnsentSet(cleared.chunks, d);
    }

    /**
     * The whole loop.  Every pass returns or leaves strictly fewer unsent chunks,
     * and completion is reported only for a delivery whose chunks are all sent.
     */
    method SendAll() returns (outcome: RunOutcome)
      requires Valid()
      modifies this, store
      ensures Valid()
      ensures outcome.RunCompleted? ==>
        && d in store.deliveries && store.deliveries[d].state == outcome.state && Finished(outcome.state)
        && HasChunks(store.chunks, d) && UnsentSet(store.chunks, d) == {}
        && (outcome.state == CompletedEmpty <==> ItemsOf(store.items, d) == [])
    {
      hide DbSafe, UnsentSet, Evolves, FairWorld, HasChunks;
      while true
        invariant Valid()
        decreases UnsentSet(store.chunks, d)
      {
        if world.stops(calls) {
          outcome := StopNow();
          return;
        }
        ghost var head := store.Tables();
        Yield();
        ghost var woken := store.Tables();
        var renewed := store.HeartbeatLease(p, ttl, now);
        HeartbeatKeepsDbSafe(woken, p, ttl, now);
        if renewed.Failed? {
          outcome := HandleException();
          return;
        }
        ghost var renewedAt := store.Tables();
        assert renewedAt.chunks == head.chunks;
        Yield();
        var due := store.DueChunks(d, now);
        if due == [] {
          outcome := Conclude();
          return;
        }
        var stop := SendDue(due);
        if stop.Some? {
          return stop.value;
        }
        assert UnsentSet(store.chunks, d) < UnsentSet(head.chunks, d);
      }
    }

    /** A requested stop before the next pass. */
    method StopNow() returns (outcome: RunOutcome)
      requires Valid()
      modifies this, store
      ensures Valid() && !outcome.RunCompleted?
    {
      Yield();
      return if d in store.deliveries && HasInFlight(store.chunks, d) then RunNeedsAttention else RunStopped;
    }

    /** Nothing is due: completed when the stored verdict says so, otherwise to be continued. */
    method Conclude() returns (outcome: RunOutcome)
      requires Valid()
      modifies this, store
      ensures Valid()
      ensures outcome.RunCompleted? ==>
        && d in store.deliveries && store.deliveries[d].state == outcome.state && Finished(outcome.state)
        && HasChunks(store.chunks, d) && UnsentSet(store.chunks, d) == {}
        && (outcome.state == CompletedEmpty <==> ItemsOf(store.items, d) == [])
    {
      hide DbSafe, UnsentSet, Evolves, FairWorld, HasChunks;
      Yield();
      if d in store.deliveries && Finished(store.deliveries[d].state) {
        FinishedVerdict(store.Tables(), d);
        return RunCompleted(store.deliveries[d].state);
      }
      return RunRetryWait;
    }

    /** The due chunks in order, until one of them is not confirmed. */
    method SendDue(due: seq<ChunkId>) returns (stop: Option<RunOutcome>)
      requires Valid() && due != []
      modifies this, store
      ensures Valid() && (stop.Some? ==> !stop.value.RunCompleted?)
      ensures stop.None? ==>
        UnsentSet(store.chunks, d) < UnsentSet(old(store.chunks), d) && LeaseHeld(old(store.lease), p, old(now))
    {
      hide DbSafe, UnsentSet, Evolves, FairWorld;
      for i := 0 to |due|
        invariant Valid()
        invariant i == 0 ==> store.Tables() == old(store.Tables()) && now == old(now)
        invariant i > 0 ==>
          UnsentSet(store.chunks, d) < UnsentSet(old(store.chunks), d) && LeaseHeld(old(store.lease), p, old(now))
      {
        stop := SendOne(due[i]);
        if stop.Some? {
          return;
        }
      }
      return None;
    }

    /** The exception path as a stop. */
    method Rescue() returns (stop: Option<RunOutcome>)
      requires Valid()
      modifies this, store
      ensures Valid() && stop.Some? && !stop.value.RunCompleted?
    {
      var outcome := HandleException();
      return Some(outcome);
    }

    /** Transmits the text of the open attempt and records what came of it. */
    method FinishOne(c: ChunkId, number: nat) returns (stop: Option<RunOutcome>)
      requires Valid() && StillOpen(store.Tables(), d, c, number)
      modifies this, store
      ensures Valid() && (stop.Some? ==> !stop.value.RunCompleted?)
      ensures stop.None? ==>
        c in UnsentSet(old(store.chunks), d) && UnsentSet(store.chunks, d) == UnsentSet(old(store.chunks), d) - {c}
    {
      hide DbSafe, Finish, UnsentSet, Evolves, Settle, ErrorClass;
      ghost var open := store.Tables();
      Yield();
      var reply := world.replies(calls);
      var decided := now;
      var outcome := Settle(store.Tables(), d, c, number, reply, enabled, fallback, decided);
      var errorClass := ErrorClass(reply, SpentOn(store.Tables(), d, c, reply, fallback, decided));
      ghost var seen := store.Tables();
      Yield();
      var delay := if outcome == RejectedRetryable then Some(now + world.delays(calls)) else None;
      var kind := if outcome == Accepted then NoError else OtherError;
      ghost var ready := store.Tables();
      FinishNeedsLease(ready, c, outcome, p, errorClass, kind, MessageIdOf(reply), delay, now);
      var finished := store.FinishChunk(c, outcome, p, p, errorClass, kind, MessageIdOf(reply), delay, now);
      if finished.Failed? {
        stop := Rescue();
        return;
      }
      assert ready == seen == open;
      FinishKeepsDbSafe(open, d, c, number, reply, enabled, fallback, SpentOn(open, d, c, reply, fallback, decided),
        decided, outcome, p, kind,
                        delay, now);
      match reply {
        case Confirmed(_) =>
          return if world.stops(calls) then Some(RunStopped) else None;
        case _ =>
          return Some(if outcome == Unknown then RunNeedsAttention else if outcome == RejectedRetryable
            then RunRetryWait else RunFailed);
      }
    }
  }

  /** The verdict of a delivery that has one: every chunk is sent, and the empty verdict means no items. */
  lemma FinishedVerdict(db: Db, d: DeliveryId)
    requires DbSafe(db) && d in db.deliveries && Finished(db.deliveries[d].state)
    ensures HasChunks(db.chunks, d) && UnsentSet(db.chunks, d) == {}
    ensures db.deliveries[d].state == CompletedEmpty <==> ItemsOf(db.items, d) == []
  {
    hide History, Frugal, WellFormed, Shape, Ledger, HashesMatch, Accounted, HasChunks;
    assert Judged(db);
    assert AllSent(db.chunks, d);
    forall c ensures c !in UnsentSet(db.chunks, d) {
    }
  }

  lemma HeartbeatKeepsDbSafe(db: Db, p: RunId, ttl: int, now: Time)
    requires DbSafe(db)
    ensures DbSafe(Settled(db, Heartbeat(db, p, ttl, now)))
  {
    var commit := Heartbeat(db, p, ttl, now);
    if commit.Ok? {
      DeliveryStepSafe(Windows(0, 0), db, commit.value, now);
    }
  }

  lemma BeginNeedsLease(db: Db, c: ChunkId, p: RunId, now: Time)
    ensures Begin(db, c, p, p, now).Ok? ==> LeaseHeld(db.lease, p, now) && c in db.chunks
  {
  }

  lemma FinishNeedsLease(db: Db, c: ChunkId, outcome: Outcome, p: RunId, errorClass: string, kind: TerminalError,
                         messageId: nat, delay: Option<Time>, now: Time)
    ensures Finish(db, c, outcome, p, p, errorClass, kind, messageId, delay, now).Ok? ==> LeaseHeld(db.lease, p, now)
  {
  }

  lemma BeginKeepsDbSafe(db: Db, d: DeliveryId, c: ChunkId, p: RunId, now: Time)
    requires DbSafe(db) && HasRoom(db, d, c) && Begin(db, c, p, p, now).Ok?
    ensures
      var db' := Begin(db, c, p, p, now).value;
      DbSafe(db') && StillOpen(db', d, c, db.chunks[c].attemptCount + 1) &&
        UnsentSet(db'.chunks, d) == UnsentSet(db.chunks, d)
  {
    BeginKeepsOutbox(db, c, p, p, now);
    BeginKeepsHistory(db, c, p, p, now);
    BeginKeepsBudget(db, d, c, p, now);
    BegunRows(db, d, c, p, now);
    hide Begin, Outbox, History, Frugal, UnsentSet, StillOpen;
  }

  lemma BegunRows(db: Db, d: DeliveryId, c: ChunkId, p: RunId, now: Time)
    requires RefusedPlain(db.chunks) && HasRoom(db, d, c) && Begin(db, c, p, p, now).Ok?
    ensures
      var db' := Begin(db, c, p, p, now).value;
      && RefusedPlain(db'.chunks) && StillOpen(db', d, c, db.chunks[c].attemptCount + 1)
      && UnsentSet(db'.chunks, d) == UnsentSet(db.chunks, d)
  {
  }

  lemma FinishKeepsDbSafe(db: Db, d: DeliveryId, c: ChunkId, number: nat, reply: Reply, enabled: bool, fallback: Policy,
                          spent: bool, decided: Time, outcome: Outcome, p: RunId, kind: TerminalError,
                          delay: Option<Time>, now: Time)
    requires DbSafe(db) && StillOpen(db, d, c, number) && (reply.Raised? ==> KnownReason(reply.reason))
    requires outcome == Settle(db, d, c, number, reply, enabled, fallback, decided)
    requires Finish(db, c, outcome, p, p, ErrorClass(reply, spent), kind, MessageIdOf(reply), delay, now).Ok?
    ensures
      var db' := Finish(db, c, outcome, p, p, ErrorClass(reply, spent), kind, MessageIdOf(reply), delay, now).value;
      && DbSafe(db') && c in UnsentSet(db.chunks, d)
      && (outcome == Accepted ==> UnsentSet(db'.chunks, d) == UnsentSet(db.chunks, d) - {c})
  {
    var errorClass := ErrorClass(reply, spent);
    var db' := Finish(db, c, outcome, p, p, errorClass, kind, MessageIdOf(reply), delay, now).value;
    FinishedRows(db, d, c, number, outcome, p, errorClass, kind, MessageIdOf(reply), delay, now);
    FinishKeepsOutbox(db, c, outcome, p, p, errorClass, kind, MessageIdOf(reply), delay, now);
    FinishKeepsHistory(db, c, outcome, p, p, errorClass, kind, MessageIdOf(reply), delay, now);
    hide Finish, Settle, ErrorClass, Outbox, History;
    FinishKeepsBudget(db, db', p, Answered(d, c, number, reply), enabled, fallback, spent, outcome, decided);
  }

  /** The rows a committed acknowledgement touches. */
  lemma FinishedRows(db: Db, d: DeliveryId, c: ChunkId, number: nat, outcome: Outcome, p: RunId, errorClass: string,
                     kind: TerminalError, messageId: nat, delay: Option<Time>, now: Time)
    requires StillOpen(db, d, c, number) && outcome != Open
    requires Finish(db, c, outcome, p, p, errorClass, kind, messageId, delay, now).Ok?
    ensures
      var db' := Finish(db, c, outcome, p, p, errorClass, kind, messageId, delay, now).value;
      && OneChunk(db, db', c) && db'.chunks[c].state == ChunkStateAfter(outcome) &&
         db'.chunks[c].errorClass == errorClass
      && db'.chunks[c].attemptCount == db.chunks[c].attemptCount
      && (forall x :: x in db.deliveries ==> x in db'.deliveries && db'.deliveries[x].policy == db.deliveries[x].policy)
      && c in UnsentSet(db.chunks, d)
      && (outcome == Accepted ==> UnsentSet(db'.chunks, d) == UnsentSet(db.chunks, d) - {c})
  {
  }

  lemma FailKeepsDbSafe(db: Db, d: DeliveryId, p: RunId, now: Time)
    requires DbSafe(db)
    ensures DbSafe(Settled(db, Fail(db, d, p, now)))
  {
    var commit := Fail(db, d, p, now);
    if commit.Ok? {
      OneDeliveryStep(db, commit.value, d);
      DeliveryStepSafe(Windows(0, 0), db, commit.value, now);
    }
  }
}
