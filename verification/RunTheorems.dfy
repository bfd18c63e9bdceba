/**
 * The delivery contract over every run: any interleaving of runs, crashes,
 * lease takeovers, clock advances and operator steps from an empty database.
 */
module RunTheorems {
  import opened Wrappers
  import opened Rows
  import opened Transactions
  import opened OutboxInvariant
  import opened HistoryInvariant
  import opened Evolution
  import opened Protocol
  import opened ProtocolInvariant
  import opened ProtocolSteps

  // ----- at most once

  /** Texts of the chunk that the remote accepted. */
  ghost function AcceptedTexts(wire: seq<Transmission>, c: ChunkId): nat {
    if wire == [] then 0
    else
      var last := wire[|wire| - 1];
      AcceptedTexts(wire[..|wire| - 1], c) + if last.key.chunk == c && last.accepted then 1 else 0
  }

  /** The same, for attempts up to `n`. */
  ghost function AcceptedUpTo(wire: seq<Transmission>, c: ChunkId, n: nat): nat {
    if wire == [] then 0
    else
      var last := wire[|wire| - 1];
      AcceptedUpTo(wire[..|wire| - 1], c, n) + if last.key.chunk == c && last.key.number <= n &&
        last.accepted then 1 else 0
  }

  lemma {:induction false} AllWithin(wire: seq<Transmission>, c: ChunkId, n: nat)
    requires forall i :: 0 <= i < |wire| && wire[i].key.chunk == c ==> wire[i].key.number <= n
    ensures AcceptedUpTo(wire, c, n) == AcceptedTexts(wire, c)
  {
    if wire != [] {
      AllWithin(wire[..|wire| - 1], c, n);
    }
  }

  lemma {:induction false} NoneWithin(wire: seq<Transmission>, c: ChunkId)
    requires forall i :: 0 <= i < |wire| && wire[i].key.chunk == c ==> wire[i].key.number >= 1
    ensures AcceptedUpTo(wire, c, 0) == 0
  {
    if wire != [] {
      NoneWithin(wire[..|wire| - 1], c);
    }
  }

  /** Distinct keys: attempt `n` adds at most its own text, and none if that text was not accepted. */
  lemma {:induction false} OneMore(wire: seq<Transmission>, c: ChunkId, n: nat)
    requires n >= 1 && forall i, j :: 0 <= i < j < |wire| ==> wire[i].key != wire[j].key
    ensures AcceptedUpTo(wire, c, n) <= AcceptedUpTo(wire, c, n - 1) + 1
    ensures NotAccepted(wire, Key(c, n)) ==> AcceptedUpTo(wire, c, n) == AcceptedUpTo(wire, c, n - 1)
  {
    if wire != [] {
      var front, last := wire[..|wire| - 1], wire[|wire| - 1];
      OneMore(front, c, n);
      if last.key == Key(c, n) {
        assert NotAccepted(front, Key(c, n));
      }
    }
  }

  /** Accepted texts are bounded by the attempts that are not definite rejections. */
  lemma {:induction false} AcceptedBounded(db: Db, wire: seq<Transmission>, c: ChunkId, n: nat)
    requires WireSafe(db, wire) && Ledger(db.chunks, db.attempts)
    ensures AcceptedUpTo(wire, c, n) <= NonRejected(db.attempts, c, n)
  {
    if n == 0 {
      NoneWithin(wire, c);
    } else {
      AcceptedBounded(db, wire, c, n - 1);
      OneMore(wire, c, n);
      if Key(c, n) !in db.attempts || Rejected(db.attempts[Key(c, n)].outcome) {
        assert NotAccepted(wire, Key(c, n));
      }
    }
  }

  lemma AcceptedAtMostNonRejected(db: Db, wire: seq<Transmission>, c: ChunkId)
    requires WireSafe(db, wire) && Ledger(db.chunks, db.attempts) && c in db.chunks
    ensures AcceptedTexts(wire, c) <= NonRejected(db.attempts, c, db.chunks[c].attemptCount)
  {
    AllWithin(wire, c, db.chunks[c].attemptCount);
    AcceptedBounded(db, wire, c, db.chunks[c].attemptCount);
  }

  /** A chunk's possibly accepted attempts, and so its accepted texts, are at most one more than its audited retries. */
  lemma AtMostOncePerAuthorization(w: Windows, s: Sys, events: seq<Event>, t: Sys, c: ChunkId)
    requires Init(s) && Run(w, s, events) == Some(t) && c in t.db.chunks
    ensures NonRejected(t.db.attempts, c, t.db.chunks[c].attemptCount) <= 1 + AmbiguousRetries(t.db.resolutions, c)
    ensures AcceptedTexts(t.wire, c) <= 1 + AmbiguousRetries(t.db.resolutions, c)
  {
    hide Run;
    RunSafe(w, s, events, t);
    assert ChunkAccounted(t.db, c);
    AcceptedAtMostNonRejected(t.db, t.wire, c);
  }

  /**
   * A text leaves a process only if the remote accepted it no more often than an
   * operator released it; unreleased, never before.
   */
  lemma AcceptedTextIsNotResent(w: Windows, s: Sys, events: seq<Event>, t: Sys, p: RunId, accepted: bool, reply: Reply)
    requires Init(s) && Run(w, s, events) == Some(t)
    requires Step(w, t, Transmit(p, accepted, reply)).Some?
    ensures t.procs[p].Begun?
    ensures AcceptedTexts(t.wire, t.procs[p].c) <= AmbiguousRetries(t.db.resolutions, t.procs[p].c)
  {
    hide Safe, Run;
    assert t.procs[p].Begun?;
    RunSafe(w, s, events, t);
    BegunTextIsNew(w, t, p);
  }

  lemma BegunTextIsNew(w: Windows, t: Sys, p: RunId)
    requires Safe(w, t) && p in t.procs && t.procs[p].Begun?
    ensures AcceptedTexts(t.wire, t.procs[p].c) <= AmbiguousRetries(t.db.resolutions, t.procs[p].c)
  {
    var pc := t.procs[p];
    assert PcSafe(w, t, p, pc);
    FreshTextIsUnaccepted(t.db, t.wire, pc.c, pc.number);
  }

  lemma FreshTextIsUnaccepted(db: Db, wire: seq<Transmission>, c: ChunkId, number: nat)
    requires Outbox(db) && WireSafe(db, wire)
    requires Key(c, number) in db.attempts && !Rejected(db.attempts[Key(c, number)].outcome) &&
      NotOnWire(wire, Key(c, number))
    ensures AcceptedTexts(wire, c) <= AmbiguousRetries(db.resolutions, c)
  {
    var wire' := wire + [Transmission(Key(c, number), true)];
    TransmitKeepsWire(db, wire, Key(c, number), true);
    AcceptedAtMostNonRejected(db, wire', c);
    assert wire'[..|wire|] == wire;
    assert ChunkAccounted(db, c);
  }

  // ----- lease fencing

  /** A process past start-up whose lease is not live changes no table, whatever it does next. */
  lemma LapsedRunChangesNothing(w: Windows, s: Sys, e: Event, t: Sys, p: RunId)
    requires p in s.procs && Fenced(s.procs[p]) && !Live(s, p)
    requires !e.Tick? && !e.Spawn? && !e.ResolveChunk? && !e.ReconcileDelivery? && e.p == p
    requires Step(w, s, e) == Some(t)
    ensures t.db == s.db
  {
    if MovesOnly(e) {
      hide Step;
      MovesKeepTables(w, s, e, t);
    } else if OnChunks(e) {
      LapsedSendsNothing(w, s, e, t, p);
    } else {
      LapsedWritesNothing(w, s, e, t, p);
    }
  }

  lemma LapsedSendsNothing(w: Windows, s: Sys, e: Event, t: Sys, p: RunId)
    requires p in s.procs && Fenced(s.procs[p]) && !Live(s, p) && OnChunks(e) && !e.ResolveChunk? && e.p == p
    requires Step(w, s, e) == Some(t)
    ensures t.db == s.db
  {
    hide MayFail, Settle, ErrorClass, RecordHistory, EarlierUnsent, HasChunks, DistinctFingerprints, IndexesInRange,
      Recover;
  }

  lemma LapsedWritesNothing(w: Windows, s: Sys, e: Event, t: Sys, p: RunId)
    requires p in s.procs && Fenced(s.procs[p]) && !Live(s, p)
    requires !MovesOnly(e) && !OnChunks(e) && !e.ReconcileDelivery? && e.p == p
    requires Step(w, s, e) == Some(t)
    ensures t.db == s.db
  {
    hide MayFail, BudgetExhausted, PredecessorFits, GenerationTaken, Begin, Prepare, FinishWith, Recover, Resolve,
      Reconcile;
  }

  /** Once lapsed, forever lapsed: no event of anyone makes its lease live again. */
  lemma LapsedStaysLapsed(w: Windows, s: Sys, e: Event, t: Sys, p: RunId)
    requires p in s.procs && Fenced(s.procs[p]) && !Live(s, p)
    requires Step(w, s, e) == Some(t)
    ensures p in t.procs && Fenced(t.procs[p]) && !Live(t, p)
  {
    hide Step;
    if ByOther(e, p) {
      OthersLease(w, s, e, t, p);
    } else {
      FencedStays(w, s, e, t, p);
      if e.Spawn? {
        SpawnChangesNothing(w, s, e, t);
      } else {
        LapsedRunChangesNothing(w, s, e, t, p);
      }
    }
  }

  lemma SpawnChangesNothing(w: Windows, s: Sys, e: Event, t: Sys)
    requires Step(w, s, e) == Some(t) && e.Spawn?
    ensures t.db == s.db
  {
  }

  /**
   * A run that loses its lease commits nothing in any later part of the run: the
   * tables it sees change only by others' events.
   */
  lemma {:induction false} LapsedForever(w: Windows, s: Sys, events: seq<Event>, t: Sys, p: RunId)
    requires p in s.procs && Fenced(s.procs[p]) && !Live(s, p)
    requires Run(w, s, events) == Some(t)
    ensures p in t.procs && Fenced(t.procs[p]) && !Live(t, p)
  {
    if events != [] {
      var before := Run(w, s, events[..|events| - 1]).value;
      LapsedForever(w, s, events[..|events| - 1], before, p);
      LapsedStaysLapsed(w, before, events[|events| - 1], t, p);
    }
  }

  // ----- one active delivery

  /** Another chunk of the chunk's delivery is not sent. */
  predicate OtherUnsent(chunks: map<ChunkId, Chunk>, c: ChunkId)
    requires c in chunks
  {
    exists x :: x in chunks && x != c && chunks[x].delivery == chunks[c].delivery && chunks[x].state != Sent
  }

  lemma AllButOneSent(chunks: map<ChunkId, Chunk>, c: ChunkId, row: Chunk)
    requires c in chunks && row.delivery == chunks[c].delivery && row.state == Sent
    ensures AllSent(chunks[c := row], row.delivery) <==> !OtherUnsent(chunks, c)
  {
    var after := chunks[c := row];
    if AllSent(after, row.delivery) {
      forall x | x in chunks && x != c && chunks[x].delivery == row.delivery ensures chunks[x].state == Sent {
        assert x in after && after[x] == chunks[x];
      }
    }
  }

  /** When the verdict leaves the chunk's delivery with something to send; no other delivery is touched. */
  lemma VerdictLeavesActive(db: Db, c: ChunkId, verdict: Verdict, reason: string, operator: string, now: Time)
    requires Resolve(db, c, verdict, reason, operator, now).Ok?
    ensures
      var db' := Resolve(db, c, verdict, reason, operator, now).value;
      var d := db.chunks[c].delivery;
      && (Active(db', d) <==> verdict == Retry || OtherUnsent(db.chunks, c))
      && (forall x :: x != d ==> (Active(db', x) <==> Active(db, x)))
  {
    hide RecordHistory, HasUnresolved, TerminalRetryUsed, OtherUnsent, AllSent;
    AllButOneSent(db.chunks, c, db.chunks[c].(state := Sent, sentAt := Some(now), errorClass := ""));
  }

  /**
   * Exactly when an operator verdict breaks the single active delivery: it
   * moves a chunk of a failed delivery, leaves that delivery something to
   * send, and another one is active.
   */
  lemma VerdictKeepsSingleActive(db: Db, c: ChunkId, verdict: Verdict, reason: string, operator: string, now: Time)
    requires Judged(db) && SingleActive(db) && Resolve(db, c, verdict, reason, operator, now).Ok?
    ensures
      var db' := Resolve(db, c, verdict, reason, operator, now).value;
      SingleActive(db') <==>
      !(Reopens(db, c) && !NoActive(db) && (verdict == Retry || OtherUnsent(db.chunks, c)))
  {
    VerdictLeavesActive(db, c, verdict, reason, operator, now);
    var db' := Resolve(db, c, verdict, reason, operator, now).value;
    var d := db.chunks[c].delivery;
    assert !AllSent(db.chunks, d);
    assert Active(db, d) <==> !Reopens(db, c) by {
      hide RecordHistory, HasUnresolved, TerminalRetryUsed, OtherUnsent;
    }
    hide Resolve, OtherUnsent, AllSent, HasChunks, Judged;
    if !NoActive(db) {
      var other :| other in db.deliveries && Active(db, other);
      if Reopens(db, c) && Active(db', d) {
        assert Active(db', other);
      }
    }
  }

  // ----- shape

  /** An unsent chunk blocks every later chunk of its delivery: none may begin, and none is in flight. */
  lemma UnsentChunkBlocksLater(w: Windows, s: Sys, events: seq<Event>, t: Sys, c1: ChunkId, c2: ChunkId, run: RunId,
                               now: Time)
    requires Init(s) && Run(w, s, events) == Some(t)
    requires c1 in t.db.chunks && c2 in t.db.chunks && t.db.chunks[c1].delivery == t.db.chunks[c2].delivery
    requires t.db.chunks[c1].sequence < t.db.chunks[c2].sequence && t.db.chunks[c1].state != Sent
    ensures t.db.chunks[c2].state == Pending && t.db.chunks[c2].attemptCount == 0
    ensures Begin(t.db, c2, run, run, now).Err?
  {
    hide Run;
    RunSafe(w, s, events, t);
  }

  /** An ambiguous or refused chunk, like one in flight, stops every begin in its delivery. */
  lemma UnresolvedChunkStopsDelivery(w: Windows, s: Sys, events: seq<Event>, t: Sys, x: ChunkId, c: ChunkId, run: RunId,
                                     now: Time)
    requires Init(s) && Run(w, s, events) == Some(t)
    requires x in t.db.chunks && c in t.db.chunks && t.db.chunks[x].delivery == t.db.chunks[c].delivery
    requires t.db.chunks[x].state == Ambiguous || t.db.chunks[x].state == Refused || t.db.chunks[x].state == InFlight
    ensures Begin(t.db, c, run, run, now).Err?
  {
    hide Run;
    RunSafe(w, s, events, t);
  }

  lemma OneInFlightPerDelivery(w: Windows, s: Sys, events: seq<Event>, t: Sys, c1: ChunkId, c2: ChunkId)
    requires Init(s) && Run(w, s, events) == Some(t)
    requires c1 in t.db.chunks && c2 in t.db.chunks && t.db.chunks[c1].delivery == t.db.chunks[c2].delivery
    requires t.db.chunks[c1].state == InFlight && t.db.chunks[c2].state == InFlight
    ensures c1 == c2
  {
    hide Run;
    RunSafe(w, s, events, t);
  }

  // ----- verdict, ledger, budget, history

  /** A delivery is completed or completed_empty exactly when it has chunks and all of them are sent. */
  lemma CompletedExactlyWhenSent(w: Windows, s: Sys, events: seq<Event>, t: Sys, d: DeliveryId)
    requires Init(s) && Run(w, s, events) == Some(t) && d in t.db.deliveries
    ensures Finished(t.db.deliveries[d].state) <==> HasChunks(t.db.chunks, d) && AllSent(t.db.chunks, d)
    ensures t.db.deliveries[d].state == CompletedEmpty <==>
      Finished(t.db.deliveries[d].state) && ItemsOf(t.db.items, d) == []
  {
    hide Run;
    RunSafe(w, s, events, t);
  }

  /** Attempts are numbered 1..attempt_count; one is open exactly when the chunk is in flight, and it is the last. */
  lemma AttemptsAreLedgered(w: Windows, s: Sys, events: seq<Event>, t: Sys, c: ChunkId, n: nat)
    requires Init(s) && Run(w, s, events) == Some(t) && c in t.db.chunks
    ensures Key(c, n) in t.db.attempts <==> 1 <= n <= t.db.chunks[c].attemptCount
    ensures Key(c, n) in t.db.attempts ==>
      (t.db.attempts[Key(c, n)].outcome == Open <==>
        t.db.chunks[c].state == InFlight && n == t.db.chunks[c].attemptCount)
  {
    hide Run;
    RunSafe(w, s, events, t);
  }

  lemma CreatedHasPolicy(w: Windows, s: Sys, e: Event, t: Sys, d: DeliveryId)
    requires Step(w, s, e) == Some(t) && e.CreateDelivery? && d in t.db.deliveries && d !in s.db.deliveries
    ensures t.db.deliveries[d].policy.Some?
  {
    hide PredecessorFits, GenerationTaken;
  }

  lemma OnlyCreationAdds(w: Windows, s: Sys, e: Event, t: Sys, d: DeliveryId)
    requires Step(w, s, e) == Some(t) && !e.CreateDelivery? && d in t.db.deliveries
    ensures d in s.db.deliveries
  {
    hide Step;
    if MovesOnly(e) {
      MovesKeepTables(w, s, e, t);
    } else if OnChunks(e) {
      ChunkEventAddsNone(w, s, e, t, d);
    } else {
      OtherEventAddsNone(w, s, e, t, d);
    }
  }

  lemma ChunkEventAddsNone(w: Windows, s: Sys, e: Event, t: Sys, d: DeliveryId)
    requires Step(w, s, e) == Some(t) && OnChunks(e) && d in t.db.deliveries
    ensures d in s.db.deliveries
  {
    if e.FinishSend? {
      FinishAddsNone(w, s, e, t, d);
    } else if e.ResolveChunk? {
      hide RecordHistory, AfterConfirmation, HasUnresolved, TerminalRetryUsed, Reopens;
    } else {
      OutboxEventAddsNone(w, s, e, t, d);
    }
  }

  lemma FinishAddsNone(w: Windows, s: Sys, e: Event, t: Sys, d: DeliveryId)
    requires Step(w, s, e) == Some(t) && e.FinishSend? && d in t.db.deliveries
    ensures d in s.db.deliveries
  {
    hide Settle, ErrorClass, SpentOn, RecordHistory, DeliveryAfter, Observe;
  }

  lemma OutboxEventAddsNone(w: Windows, s: Sys, e: Event, t: Sys, d: DeliveryId)
    requires Step(w, s, e) == Some(t) && (e.BeginSend? || e.PrepareOutbox? || e.RecoverFirst? || e.RecoverAgain?)
    requires d in t.db.deliveries
    ensures d in s.db.deliveries
  {
    hide FreshChunks, CloseOpen, HasInFlight, HasChunks, ItemRows, EarlierUnsent, DistinctFingerprints, IndexesInRange,
      Observe, SendingFrom;
  }

  lemma OtherEventAddsNone(w: Windows, s: Sys, e: Event, t: Sys, d: DeliveryId)
    requires Step(w, s, e) == Some(t) && !OnChunks(e) && !MovesOnly(e) && !e.CreateDelivery? && d in t.db.deliveries
    ensures d in s.db.deliveries
  {
    hide Selectable, BudgetExhausted, MayFail, HonestReply, Active, NoActive, HasChunks, Untouched, Finish, FinishWith,
      Begin, Prepare, Resolve, Recover, Create, Observe;
  }

  lemma {:induction false} EveryPolicyFrozen(w: Windows, s: Sys, events: seq<Event>, t: Sys, d: DeliveryId)
    requires Init(s) && Run(w, s, events) == Some(t) && d in t.db.deliveries
    ensures t.db.deliveries[d].policy.Some?
  {
    hide Safe, Step;
    if events != [] {
      var before, last := Run(w, s, events[..|events| - 1]).value, events[|events| - 1];
      RunSafe(w, s, events[..|events| - 1], before);
      StepSafe(w, before, last, t);
      if d in before.db.deliveries {
        EveryPolicyFrozen(w, s, events[..|events| - 1], before, d);
        assert DeliveryFrozen(before.db.deliveries[d], t.db.deliveries[d]);
      } else {
        if last.CreateDelivery? {
          CreatedHasPolicy(w, before, last, t, d);
        } else {
          OnlyCreationAdds(w, before, last, t, d);
        }
      }
    }
  }

  /** The policy frozen at creation bounds a chunk's attempts through restarts, reloads and operator retries. */
  lemma FrozenBudgetHolds(w: Windows, s: Sys, events: seq<Event>, t: Sys, c: ChunkId)
    requires Init(s) && Run(w, s, events) == Some(t) && c in t.db.chunks
    ensures t.db.chunks[c].delivery in t.db.deliveries
    ensures
      var policy := t.db.deliveries[t.db.chunks[c].delivery].policy;
      policy.Some? && t.db.chunks[c].attemptCount <= Max(1, policy.value.maxAttempts)
  {
    hide Run;
    RunSafe(w, s, events, t);
    assert WithinBudget(t.db, c);
    EveryPolicyFrozen(w, s, events, t, t.db.chunks[c].delivery);
  }

  /** An item has its history row exactly when the chunk its index names is sent. */
  lemma HistoryIsWhatWasSent(w: Windows, s: Sys, events: seq<Event>, t: Sys, d: DeliveryId, i: nat, c: ChunkId)
    requires Init(s) && Run(w, s, events) == Some(t)
    requires d in t.db.items && i < |t.db.items[d]|
    requires c in t.db.chunks && t.db.chunks[c].delivery == d && t.db.chunks[c].sequence == t.db.items[d][i].chunkIndex
    ensures Recorded(t.db.history, d, t.db.items[d][i].fingerprint) <==> t.db.chunks[c].state == Sent
  {
    hide Run;
    RunSafe(w, s, events, t);
    HistoryMatchesAcknowledgements(t.db, d, i, c);
  }

  /** The allowlisted error classes never arise, so no operator verdict ever moves a refused chunk. */
  lemma RefusedChunkStaysRefused(w: Windows, s: Sys, events: seq<Event>, t: Sys, c: ChunkId, verdict: Verdict,
                                 reason: string, operator: string)
    requires Init(s) && Run(w, s, events) == Some(t)
    requires c in t.db.chunks && t.db.chunks[c].state == Refused
    ensures Resolve(t.db, c, verdict, reason, operator, t.clock).Err?
  {
    hide Run;
    RunSafe(w, s, events, t);
  }

  // ----- a failed delivery stays failed

  /** No delivery leaves a terminal state. */
  ghost predicate TerminalStays(db: Db, db': Db) {
    forall d :: d in db.deliveries && Terminal(db.deliveries[d].state) ==>
      d in db'.deliveries && db'.deliveries[d].state == db.deliveries[d].state
  }

  lemma RecoverEndsNothing(db: Db, now: Time)
    ensures TerminalStays(db, Recover(db, now))
  {
    hide CloseOpen, HasInFlight;
  }

  /** finish_chunk rewrites the row of its chunk's delivery only, and only for the owner of a live lease. */
  lemma FinishTouchesOne(db: Db, c: ChunkId, outcome: Outcome, run: RunId, owner: RunId, errorClass: string,
                         errorKind: TerminalError, messageId: nat, nextAttempt: Option<Time>, now: Time)
    requires Finish(db, c, outcome, run, owner, errorClass, errorKind, messageId, nextAttempt, now).Ok?
    ensures
      var db' := Finish(db, c, outcome, run, owner, errorClass, errorKind, messageId, nextAttempt, now).value;
      && LeaseHeld(db.lease, owner, now) && c in db.chunks
      && (forall d :: d in db.deliveries && d != db.chunks[c].delivery ==>
            d in db'.deliveries && db'.deliveries[d] == db.deliveries[d])
  {
    hide RecordHistory, DeliveryAfter;
  }

  function FinishCommitOf(s: Sys, e: Event): Commit
    requires e.FinishSend? && e.p in s.procs && s.procs[e.p].Answered?
  {
    var pc := s.procs[e.p];
    FinishWith(s.db, e.p, pc.d, pc.c, pc.number, pc.reply, e.enabled, e.fallback, e.nextAttempt, e.errorKind, s.clock)
  }

  lemma FinishSendIs(w: Windows, s: Sys, e: Event, t: Sys)
    requires e.FinishSend? && Step(w, s, e) == Some(t)
    ensures e.p in s.procs && s.procs[e.p].Answered?
    ensures t.db == s.db || FinishCommitOf(s, e) == Ok(t.db)
  {
    hide FinishWith;
  }

  lemma AnsweredIsOpen(w: Windows, s: Sys, p: RunId)
    requires ProcsSafe(w, s) && p in s.procs && s.procs[p].Answered? && Live(s, p)
    ensures StillOpen(s.db, s.procs[p].d, s.procs[p].c, s.procs[p].number)
  {
    assert PcSafe(w, s, p, s.procs[p]);
  }

  lemma FinishCommitTouchesOne(s: Sys, e: Event, db: Db)
    requires e.FinishSend? && e.p in s.procs && s.procs[e.p].Answered? && FinishCommitOf(s, e) == Ok(db)
    ensures Live(s, e.p) && s.procs[e.p].c in s.db.chunks
    ensures forall d :: d in s.db.deliveries && d != s.db.chunks[s.procs[e.p].c].delivery ==>
      d in db.deliveries && db.deliveries[d] == s.db.deliveries[d]
  {
    hide Finish, Settle, ErrorClass, SpentOn;
    var pc := s.procs[e.p];
    var outcome := Settle(s.db, pc.d, pc.c, pc.number, pc.reply, e.enabled, e.fallback, s.clock);
    var spent := SpentOn(s.db, pc.d, pc.c, pc.reply, e.fallback, s.clock);
    FinishTouchesOne(s.db, pc.c, outcome, e.p, e.p, ErrorClass(pc.reply, spent), e.errorKind, MessageIdOf(pc.reply),
                     if outcome == RejectedRetryable then Some(e.nextAttempt) else None, s.clock);
  }

  lemma FinishEndsNothing(w: Windows, s: Sys, e: Event, db: Db)
    requires ProcsSafe(w, s) && e.FinishSend? && e.p in s.procs && s.procs[e.p].Answered?
    requires FinishCommitOf(s, e) == Ok(db)
    ensures TerminalStays(s.db, db)
  {
    hide FinishCommitOf, ProcsSafe;
    FinishCommitTouchesOne(s, e, db);
    AnsweredIsOpen(w, s, e.p);
  }

  lemma OutboxEventEndsNothing(w: Windows, s: Sys, e: Event, t: Sys)
    requires Step(w, s, e) == Some(t) && (e.BeginSend? || e.PrepareOutbox?)
    ensures TerminalStays(s.db, t.db)
  {
    hide EarlierUnsent, HasChunks, FreshChunks, ItemRows, DistinctFingerprints, IndexesInRange;
  }

  lemma VerdictEndsNothing(db: Db, c: ChunkId, verdict: Verdict, reason: string, operator: string, now: Time)
    requires Judged(db) && Resolve(db, c, verdict, reason, operator, now).Ok? && !Reopens(db, c)
    ensures TerminalStays(db, Resolve(db, c, verdict, reason, operator, now).value)
  {
    assert !AllSent(db.chunks, db.chunks[c].delivery);
    hide RecordHistory, AllSent, HasChunks, HasUnresolved, TerminalRetryUsed, AfterConfirmation;
  }

  lemma OperatorEndsNothing(w: Windows, s: Sys, e: Event, t: Sys)
    requires Step(w, s, e) == Some(t) && (e.ResolveChunk? || e.ReconcileDelivery?) && !Revives(s.db, e)
    requires Judged(s.db)
    ensures TerminalStays(s.db, t.db)
  {
    if e.ResolveChunk? {
      hide Resolve, TerminalStays, Judged;
      VerdictEndsNothing(s.db, e.c, e.verdict, e.reason, e.operator, s.clock);
    } else {
      hide HasChunks, Untouched, Judged;
    }
  }

  lemma CreationEndsNothing(w: Windows, s: Sys, e: Event, t: Sys)
    requires Step(w, s, e) == Some(t) && e.CreateDelivery? && WellFormed(s.db)
    ensures TerminalStays(s.db, t.db)
  {
    hide PredecessorFits, GenerationTaken;
  }

  lemma OtherEventEndsNothing(w: Windows, s: Sys, e: Event, t: Sys)
    requires Step(w, s, e) == Some(t) && !OnChunks(e) && !MovesOnly(e) && !e.ReconcileDelivery? && !e.CreateDelivery?
    ensures TerminalStays(s.db, t.db)
  {
    hide BudgetExhausted, MayFail, FinishWith, Begin, Prepare, Resolve, Recover, Reconcile, Create;
  }

  /** The event is an operator's verdict on a chunk of a failed delivery. */
  predicate Revives(db: Db, e: Event) {
    e.ResolveChunk? && Reopens(db, e.c)
  }

  lemma EventEndsNothing(w: Windows, s: Sys, e: Event, t: Sys)
    requires DbSafe(s.db) && ProcsSafe(w, s) && Step(w, s, e) == Some(t) && !Revives(s.db, e)
    ensures TerminalStays(s.db, t.db)
  {
    Unchanged(s.db);
    hide TerminalStays, ProcsSafe;
    if MovesOnly(e) {
      MovesKeepTables(w, s, e, t);
      hide DbSafe, Step;
    } else if e.RecoverFirst? || e.RecoverAgain? {
      RecoverEndsNothing(s.db, s.clock);
      hide DbSafe, Recover;
    } else if e.FinishSend? {
      FinishSendIs(w, s, e, t);
      hide Step, FinishCommitOf;
      if t.db != s.db {
        FinishEndsNothing(w, s, e, t.db);
      }
    } else if e.BeginSend? || e.PrepareOutbox? {
      OutboxEventEndsNothing(w, s, e, t);
    } else if e.ResolveChunk? || e.ReconcileDelivery? {
      OperatorEndsNothing(w, s, e, t);
    } else if e.CreateDelivery? {
      CreationEndsNothing(w, s, e, t);
    } else {
      OtherEventEndsNothing(w, s, e, t);
    }
  }

  lemma SafeParts(w: Windows, s: Sys)
    requires Safe(w, s)
    ensures DbSafe(s.db) && ProcsSafe(w, s)
  {
    hide DbSafe, ProcsSafe;
  }

  lemma Unchanged(db: Db)
    ensures TerminalStays(db, db)
  {
  }

  /** Once set, the mark of a revival stays, and a revival sets it. */
  lemma ReopenedStays(w: Windows, s: Sys, e: Event, t: Sys)
    requires Step(w, s, e) == Some(t)
    ensures s.reopened || Revives(s.db, e) ==> t.reopened
  {
    hide Selectable, BudgetExhausted, MayFail, HonestReply, Active, NoActive, Create, FinishWith, Begin, Prepare,
      Resolve, Recover, Reconcile, Acquire, Heartbeat, Release, Fail, SetCollectionRetry, RecordCollectionAttempt,
      ReopenForCollection, MarkTargetMismatch, Reopens;
  }

  /** Unless an operator revives one, a delivery that failed or completed keeps that state through every later event. */
  lemma {:induction false} TerminalForever(w: Windows, s: Sys, events: seq<Event>, t: Sys)
    requires Safe(w, s) && Run(w, s, events) == Some(t) && !t.reopened
    ensures TerminalStays(s.db, t.db) && !s.reopened
  {
    hide Safe, Step;
    if events != [] {
      var before := Run(w, s, events[..|events| - 1]).value;
      RunKeepsSafe(w, s, events[..|events| - 1], before);
      SafeParts(w, before);
      ReopenedStays(w, before, events[|events| - 1], t);
      EventEndsNothing(w, before, events[|events| - 1], t);
      TerminalForever(w, s, events[..|events| - 1], before);
    }
  }

  // ----- nothing is taken back

  /** Whatever happens later, a frozen text stays as it is, and a sent chunk stays sent. */
  lemma ChunkFrozenForever(w: Windows, s: Sys, past: seq<Event>, t: Sys, future: seq<Event>, u: Sys, c: ChunkId)
    requires Init(s) && Run(w, s, past) == Some(t) && Run(w, t, future) == Some(u) && c in t.db.chunks
    ensures c in u.db.chunks && u.db.chunks[c].payload == t.db.chunks[c].payload
    ensures u.db.chunks[c].hash == Sha256(u.db.chunks[c].payload)
    ensures t.db.chunks[c].state == Sent ==> u.db.chunks[c].state == Sent
  {
    hide Run;
    RunSafe(w, s, past, t);
    RunKeepsSafe(w, t, future, u);
    assert ChunkFrozen(t.db.chunks[c], u.db.chunks[c]);
  }

  /** A completed delivery keeps its verdict, its items and its history forever. */
  lemma CompletedForever(w: Windows, s: Sys, past: seq<Event>, t: Sys, future: seq<Event>, u: Sys, d: DeliveryId)
    requires Init(s) && Run(w, s, past) == Some(t) && Run(w, t, future) == Some(u)
    requires d in t.db.deliveries && Finished(t.db.deliveries[d].state)
    ensures d in u.db.deliveries && u.db.deliveries[d].state == t.db.deliveries[d].state
    ensures ItemsOf(t.db.items, d) != [] ==> ItemsOf(u.db.items, d) == ItemsOf(t.db.items, d)
    ensures |t.db.history| <= |u.db.history| && u.db.history[..|t.db.history|] == t.db.history
  {
    hide Run;
    RunSafe(w, s, past, t);
    RunKeepsSafe(w, t, future, u);
    assert DeliveryFrozen(t.db.deliveries[d], u.db.deliveries[d]);
  }
}
