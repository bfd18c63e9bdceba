/** Every event keeps the joint invariant. */
module ProtocolSteps {
  import opened Wrappers
  import opened Rows
  import opened Transactions
  import opened OutboxInvariant
  import opened HistoryInvariant
  import opened Evolution
  import opened Protocol
  import opened ProtocolInvariant

  /** The next state is safe, and its tables take nothing back. */
  ghost predicate KeepsSafe(w: Windows, s: Sys, s': Sys) {
    Safe(w, s') && Evolves(s.db, s'.db)
  }

  // ----- events that leave the tables alone

  lemma EvolvesSelf(db: Db)
    ensures Evolves(db, db)
  {
  }

  lemma MoveSafe(w: Windows, s: Sys, p: RunId, pc: Pc)
    requires Safe(w, s) && PcSafe(w, Goto(s, p, pc), p, pc)
    ensures KeepsSafe(w, s, Goto(s, p, pc))
  {
    EvolvesSelf(s.db);
    OthersStaySafe(w, s, Goto(s, p, pc), p);
  }

  lemma TickSafe(w: Windows, s: Sys, to: Time)
    requires Safe(w, s) && s.clock <= to
    ensures KeepsSafe(w, s, s.(clock := to))
  {
    var s' := s.(clock := to);
    EvolvesSelf(s.db);
    forall p | p in s'.procs ensures PcSafe(w, s', p, s'.procs[p]) {
      assert PcSafe(w, s, p, s.procs[p]);
    }
    if !s.reopened {
      forall d | Active(s.db, d) ensures FreshItems(w, s.db, d, to) {
        assert FreshItems(w, s.db, d, s.clock);
      }
    }
  }

  lemma TransmitSafe(w: Windows, s: Sys, p: RunId, accepted: bool, reply: Reply)
    requires Safe(w, s) && p in s.procs && s.procs[p].Begun? && HonestReply(reply, accepted)
    ensures
      var pc := s.procs[p];
      KeepsSafe(w, s, Goto(s.(wire := s.wire + [Transmission(Key(pc.c, pc.number), accepted)]), p,
        Answered(pc.d, pc.c, pc.number, reply)))
  {
    var pc := s.procs[p];
    var key := Key(pc.c, pc.number);
    var s' := Goto(s.(wire := s.wire + [Transmission(key, accepted)]), p, Answered(pc.d, pc.c, pc.number, reply));
    assert PcSafe(w, s, p, pc);
    EvolvesSelf(s.db);
    TransmitKeepsWire(s.db, s.wire, key, accepted);
    AnswerIsSafe(w, s, s', p, accepted, reply);
    OthersStaySafe(w, s, s', p);
  }

  lemma TransmitKeepsWire(db: Db, wire: seq<Transmission>, key: AttemptKey, accepted: bool)
    requires WireSafe(db, wire) && key in db.attempts && !Rejected(db.attempts[key].outcome) && NotOnWire(wire, key)
    ensures WireSafe(db, wire + [Transmission(key, accepted)])
  {
  }

  lemma AnswerIsSafe(w: Windows, s: Sys, s': Sys, p: RunId, accepted: bool, reply: Reply)
    requires p in s.procs && s.procs[p].Begun? && PcSafe(w, s, p, s.procs[p]) && HonestReply(reply, accepted)
    requires
      var pc := s.procs[p];
      s' == Goto(s.(wire := s.wire + [Transmission(Key(pc.c, pc.number), accepted)]), p,
        Answered(pc.d, pc.c, pc.number, reply))
    ensures PcSafe(w, s', p, s'.procs[p])
  {
  }

  // ----- the lease

  /** The conclusion of every event: its parts, put together. */
  lemma Conclude(w: Windows, s: Sys, s': Sys, p: RunId)
    requires ProcsSafe(w, s) && SeenByOthers(s, s', p) && PcSafe(w, s', p, s'.procs[p])
    requires DbSafe(s'.db) && WireSafe(s'.db, s'.wire)
    requires !s'.reopened ==> Quiet(w, s'.db, s'.clock)
    ensures KeepsSafe(w, s, s')
  {
    OthersStaySafe(w, s, s', p);
  }

  /** A change of the lease alone that leaves no other process live. */
  lemma LeaseStepSafe(w: Windows, s: Sys, lease: Option<Lease>, p: RunId, pc: Pc)
    requires Safe(w, s)
    requires lease == s.db.lease || lease.None? || lease.value.owner == p
    requires PcSafe(w, Goto(s.(db := s.db.(lease := lease)), p, pc), p, pc)
    ensures KeepsSafe(w, s, Goto(s.(db := s.db.(lease := lease)), p, pc))
  {
    var s' := Goto(s.(db := s.db.(lease := lease)), p, pc);
    LeaseIsDeliveryStep(s.db, lease);
    hide DbSafe, Quiet, PcSafe, ProcsSafe, SeenByOthers, Evolves, DeliveryStep;
    EvolvesSelf(s.db);
    DeliveryStepSafe(w, s.db, s'.db, s.clock);
    LeaseSeen(s, s', p, lease);
    Conclude(w, s, s', p);
  }

  lemma LeaseIsDeliveryStep(db: Db, lease: Option<Lease>)
    ensures DeliveryStep(db, db.(lease := lease))
  {
  }

  lemma LeaseSeen(s: Sys, s': Sys, p: RunId, lease: Option<Lease>)
    requires lease == s.db.lease || lease.None? || lease.value.owner == p
    requires p in s'.procs && s' == Goto(s.(db := s.db.(lease := lease)), p, s'.procs[p])
    ensures SeenByOthers(s, s', p)
  {
    if lease == s.db.lease {
      assert s'.db == s.db;
    }
  }

  // ----- fenced transactions

  /** The attempts a step turns into rejections are the process's own, and their texts were not accepted. */
  ghost predicate OwnRejections(db: Db, db': Db, wire: seq<Transmission>, p: RunId) {
    forall k :: k in db.attempts && k in db'.attempts ==>
      (Rejected(db'.attempts[k].outcome) ==>
        Rejected(db.attempts[k].outcome) || (db.attempts[k].run == p && NotAccepted(wire, k)))
  }

  lemma FencedSeen(s: Sys, s': Sys, p: RunId)
    requires Live(s, p) && Evolves(s.db, s'.db) && s'.db.lease == s.db.lease && OwnRejections(s.db, s'.db, s.wire, p)
    requires p in s'.procs && s' == Goto(s.(db := s'.db), p, s'.procs[p])
    ensures SeenByOthers(s, s', p)
  {
  }

  /** A committed transaction of the process whose lease is live. */
  lemma FencedStepSafe(w: Windows, s: Sys, db': Db, p: RunId, pc: Pc)
    requires Safe(w, s) && Live(s, p)
    requires Evolves(s.db, db') && db'.lease == s.db.lease && DbSafe(db')
    requires !s.reopened ==> Quiet(w, db', s.clock)
    requires OwnRejections(s.db, db', s.wire, p)
    requires PcSafe(w, Goto(s.(db := db'), p, pc), p, pc)
    ensures KeepsSafe(w, s, Goto(s.(db := db'), p, pc))
  {
    WireStaysSafe(s.db, db', s.wire);
    FencedSeen(s, Goto(s.(db := db'), p, pc), p);
    Conclude(w, s, Goto(s.(db := db'), p, pc), p);
  }

  lemma DeliveryEventSafe(w: Windows, s: Sys, db': Db, p: RunId, pc: Pc)
    requires Safe(w, s) && Live(s, p)
    requires DeliveryStep(s.db, db') && db'.lease == s.db.lease
    requires PcSafe(w, Goto(s.(db := db'), p, pc), p, pc)
    ensures KeepsSafe(w, s, Goto(s.(db := db'), p, pc))
  {
    DeliveryStepSafe(w, s.db, db', s.clock);
    FencedStepSafe(w, s, db', p, pc);
  }

  lemma RecoverSafe(w: Windows, s: Sys, p: RunId, pc: Pc)
    requires Safe(w, s) && (pc == Acquiring || pc == Looking)
    ensures KeepsSafe(w, s, Goto(s.(db := Recover(s.db, s.clock)), p, pc))
  {
    var db' := Recover(s.db, s.clock);
    var s' := Goto(s.(db := db'), p, pc);
    if LeaseLive(s.db.lease, s.clock) {
      MoveSafe(w, s, p, pc);
    } else {
      RecoverDbSafe(s.db, s.clock);
      RecoverSeen(s, s', p);
      if !s.reopened {
        RecoveredQuiet(w, s.db, db', s.clock);
      }
      Conclude(w, s, s', p);
    }
  }

  lemma RecoverSeen(s: Sys, s': Sys, p: RunId)
    requires !LeaseLive(s.db.lease, s.clock)
    requires p in s'.procs && s' == Goto(s.(db := Recover(s.db, s.clock)), p, s'.procs[p])
    ensures SeenByOthers(s, s', p)
    ensures WireSafe(s.db, s.wire) ==> WireSafe(s'.db, s.wire)
    ensures Recovered(s.db, s'.db)
  {
    RecoverEvolves(s.db, s.clock);
    RecoverIsRecovered(s.db, s.clock);
  }

  lemma RecoverDbSafe(db: Db, now: Time)
    requires DbSafe(db)
    ensures DbSafe(Recover(db, now))
  {
    RecoverKeepsOutbox(db, now);
    RecoverKeepsHistory(db, now);
    RecoverIsRecovered(db, now);
    RecoveredFrugal(db, Recover(db, now));
  }

  lemma RecoveredFrugal(db: Db, db': Db)
    requires Recovered(db, db') && Frugal(db) && RefusedPlain(db.chunks)
    ensures Frugal(db') && RefusedPlain(db'.chunks)
  {
    forall c | c in db'.chunks ensures WithinBudget(db', c) {
      assert WithinBudget(db, c);
    }
  }

  lemma RecoveredQuiet(w: Windows, db: Db, db': Db, now: Time)
    requires Recovered(db, db') && Quiet(w, db, now)
    ensures Quiet(w, db', now)
  {
    assert forall d :: Active(db', d) ==> Active(db, d);
    forall d | Active(db', d) ensures FreshItems(w, db', d, now) {
      assert Active(db, d) && FreshItems(w, db, d, now);
      UnsentFrame(db.chunks, db'.chunks, d);
    }
  }

  lemma UnsentFrame(chunks: map<ChunkId, Chunk>, chunks': map<ChunkId, Chunk>, d: DeliveryId)
    requires forall c :: c in chunks' && chunks'[c].delivery == d ==>
      c in chunks && chunks[c].delivery == d && chunks[c].sequence == chunks'[c].sequence &&
      (chunks[c].state == Sent ==> chunks'[c].state == Sent)
    ensures forall sequence :: Unsent(chunks', d, sequence) ==> Unsent(chunks, d, sequence)
  {
    forall sequence | Unsent(chunks', d, sequence) ensures Unsent(chunks, d, sequence) {
      var c :| c in chunks' && chunks'[c].delivery == d && chunks'[c].sequence == sequence && chunks'[c].state != Sent;
      assert chunks[c].state != Sent;
    }
  }

  // ----- sending one chunk

  /** A chunk step that confirms nothing keeps the quiet part. */
  lemma UnconfirmedQuiet(w: Windows, db: Db, db': Db, c: ChunkId, now: Time)
    requires OneChunk(db, db', c) && Quiet(w, db, now) && db'.history == db.history
    requires db.chunks[c].state != Sent
    requires forall d :: Active(db', d) ==> Active(db, d)
    ensures Quiet(w, db', now)
  {
    forall d | Active(db', d) ensures FreshItems(w, db', d, now) {
      assert Active(db, d) && FreshItems(w, db, d, now);
      UnsentFrame(db.chunks, db'.chunks, d);
    }
  }

  /** Confirming a chunk of the active delivery at `now` keeps all windows: its items were unseen until `now`. */
  lemma ConfirmedQuiet(w: Windows, db: Db, db': Db, c: ChunkId, now: Time)
    requires HistoryStep(db, db', c, now) && db.chunks[c].state != Sent && db'.chunks[c].state == Sent
    requires WellFormed(db) && History(db) && Quiet(w, db, now) && Active(db, db.chunks[c].delivery)
    requires forall d :: Active(db', d) ==> Active(db, d)
    ensures Quiet(w, db', now)
  {
    var d, sequence := db.chunks[c].delivery, db.chunks[c].sequence;
    RecordHistorySpec(db.history, ItemsOf(db.items, d), d, c, sequence, now);
    assert FreshItems(w, db, d, now);
    ConfirmedSpaced(w, db, db', c, now);
    assert Active(db', d) ==> FreshItems(w, db', d, now) by {
      ConfirmedFresh(w, db, db', c, now);
    }
  }

  /** The rows added for a chunk: each from an item of that chunk, at this time. */
  ghost predicate AddedRows(history: seq<HistoryRow>, history': seq<HistoryRow>, items: seq<Item>, d: DeliveryId,
                            sequence: int, at: Time)
  {
    && |history| <= |history'| && history'[..|history|] == history
    && (forall j :: |history| <= j < |history'| ==>
          FromItem(items, history'[j], sequence) && history'[j].sentAt == at && history'[j].delivery == d)
  }

  lemma ConfirmedSpaced(w: Windows, db: Db, db': Db, c: ChunkId, now: Time)
    requires c in db.chunks && db.chunks[c].state != Sent
    requires Spaced(w, db.history) && RowsUnique(db'.history) && FreshItems(w, db, db.chunks[c].delivery, now)
    requires AddedRows(db.history, db'.history, ItemsOf(db.items, db.chunks[c].delivery), db.chunks[c].delivery,
      db.chunks[c].sequence, now)
    ensures Spaced(w, db'.history)
  {
    var d, sequence := db.chunks[c].delivery, db.chunks[c].sequence;
    var items := ItemsOf(db.items, d);
    assert Unsent(db.chunks, d, sequence);
    forall i, j | 0 <= i < j < |db'.history| ensures Apart(w, db'.history[i], db'.history[j]) {
      if j < |db.history| {
        assert db'.history[i] == db.history[i] && db'.history[j] == db.history[j];
      } else {
        assert FromItem(items, db'.history[j], sequence);
        var k :| 0 <= k < |items| && items[k] == Item(db'.history[j].fingerprint, db'.history[j].url, sequence);
        if i < |db.history| {
          assert db'.history[i] == db.history[i];
          assert Unseen(w, db.history, StoryOf(items[k]), now);
        } else {
          assert FromItem(items, db'.history[i], sequence);
          var m :| 0 <= m < |items| && items[m] == Item(db'.history[i].fingerprint, db'.history[i].url, sequence);
          assert m != k;
          assert items[m].url != items[k].url;
        }
      }
    }
  }

  lemma ConfirmedFresh(w: Windows, db: Db, db': Db, c: ChunkId, now: Time)
    requires OneChunk(db, db', c) && WellFormed(db) && Catalogued(db)
    requires db.chunks[c].state != Sent && db'.chunks[c].state == Sent
    requires FreshItems(w, db, db.chunks[c].delivery, now)
    requires AddedRows(db.history, db'.history, ItemsOf(db.items, db.chunks[c].delivery), db.chunks[c].delivery,
      db.chunks[c].sequence, now)
    ensures FreshItems(w, db', db.chunks[c].delivery, now)
  {
    var d, sequence := db.chunks[c].delivery, db.chunks[c].sequence;
    var items := ItemsOf(db.items, d);
    UnsentFrame(db.chunks, db'.chunks, d);
    forall i | 0 <= i < |items| && Unsent(db'.chunks, d, items[i].chunkIndex)
      ensures Unseen(w, db'.history, StoryOf(items[i]), now)
    {
      assert Unseen(w, db.history, StoryOf(items[i]), now);
      var x :| x in db'.chunks && db'.chunks[x].delivery == d && db'.chunks[x].sequence == items[i].chunkIndex &&
        db'.chunks[x].state != Sent;
      assert x != c;
      assert items[i].chunkIndex != sequence;
      forall j | 0 <= j < |db'.history|
        ensures db'.history[j].url == items[i].url ==> j < |db.history|
        ensures db'.history[j].fingerprint == items[i].fingerprint && j >= |db.history| ==> false
      {
        if j >= |db.history| {
          var k :| 0 <= k < |items| && items[k] == Item(db'.history[j].fingerprint, db'.history[j].url, sequence);
          assert k != i;
          assert ItemsFit(db.chunks, items, d);
        }
      }
      assert forall j :: 0 <= j < |db.history| ==> db'.history[j] == db.history[j];
    }
  }

  lemma ClearedSafe(w: Windows, s: Sys, p: RunId)
    requires Safe(w, s) && p in s.procs && s.procs[p].Cleared? && Live(s, p)
    ensures HasRoom(s.db, s.procs[p].d, s.procs[p].c)
  {
    assert PcSafe(w, s, p, s.procs[p]);
  }

  lemma BeginSafe(w: Windows, s: Sys, p: RunId, d: DeliveryId, c: ChunkId, db': Db)
    requires Safe(w, s) && p in s.procs && s.procs[p] == Cleared(d, c) && c in s.db.chunks
    requires Begin(s.db, c, p, p, s.clock) == Ok(db')
    ensures KeepsSafe(w, s, Goto(s.(db := db'), p, Begun(d, c, s.db.chunks[c].attemptCount + 1)))
  {
    ClearedSafe(w, s, p);
    hide Begin, Shape, HashesMatch, Accounted, Judged, WellFormed, Ledger, History, Frugal, RefusedPlain, Quiet,
      WireSafe, Evolves, PcSafe, ProcsSafe, HasRoom, OwnRejections, OneChunk;
    BeginKeepsOutbox(s.db, c, p, p, s.clock);
    BeginKeepsHistory(s.db, c, p, p, s.clock);
    BeginEvolves(s.db, c, p, p, s.clock);
    BeginPcSafe(w, s, p, d, c);
    BeginKeepsBudget(s.db, d, c, p, s.clock);
    if !s.reopened {
      UnconfirmedQuiet(w, s.db, db', c, s.clock);
    }
    FencedStepSafe(w, s, db', p, Begun(d, c, s.db.chunks[c].attemptCount + 1));
  }

  lemma BeginKeepsBudget(db: Db, d: DeliveryId, c: ChunkId, p: RunId, now: Time)
    requires Frugal(db) && RefusedPlain(db.chunks) && HasRoom(db, d, c)
    requires Begin(db, c, p, p, now).Ok?
    ensures Frugal(Begin(db, c, p, p, now).value) && RefusedPlain(Begin(db, c, p, p, now).value.chunks)
  {
    var db' := Begin(db, c, p, p, now).value;
    forall x | x in db'.chunks ensures WithinBudget(db', x) {
      assert WithinBudget(db, x);
    }
  }

  /** The attempt a begin opens is new, and nothing else of the process's guarantees moves. */
  lemma BegunIsNew(db: Db, wire: seq<Transmission>, c: ChunkId, p: RunId, now: Time)
    requires Ledger(db.chunks, db.attempts) && WireSafe(db, wire) && Begin(db, c, p, p, now).Ok?
    ensures
      var db' := Begin(db, c, p, p, now).value;
      var key := Key(c, db.chunks[c].attemptCount + 1);
      && key !in db.attempts && NotOnWire(wire, key) && OwnRejections(db, db', wire, p)
      && OwnsAttempt(db', p, db.chunks[c].delivery, key) && db'.attempts[key].outcome == Open
      && StillOpen(db', db.chunks[c].delivery, c, db.chunks[c].attemptCount + 1)
  {
    assert Key(c, db.chunks[c].attemptCount + 1) !in db.attempts;
    hide EarlierUnsent, Observe;
  }

  lemma BeginFrame(db: Db, c: ChunkId, p: RunId, now: Time)
    requires Begin(db, c, p, p, now).Ok?
    ensures
      var db' := Begin(db, c, p, p, now).value;
      && (forall x :: Active(db', x) ==> Active(db, x)) && db'.history == db.history && db'.lease == db.lease
      && OneChunk(db, db', c) && db.chunks[c].state != Sent && LeaseHeld(db.lease, p, now)
  {
    hide EarlierUnsent, Observe;
  }

  lemma BeginPcSafe(w: Windows, s: Sys, p: RunId, d: DeliveryId, c: ChunkId)
    requires Ledger(s.db.chunks, s.db.attempts) && WireSafe(s.db, s.wire) && HasRoom(s.db, d, c)
    requires Begin(s.db, c, p, p, s.clock).Ok?
    ensures
      var db' := Begin(s.db, c, p, p, s.clock).value;
      var pc := Begun(d, c, s.db.chunks[c].attemptCount + 1);
      && PcSafe(w, Goto(s.(db := db'), p, pc), p, pc) && OwnRejections(s.db, db', s.wire, p)
      && (forall x :: Active(db', x) ==> Active(s.db, x)) && db'.history == s.db.history && db'.lease == s.db.lease
      && OneChunk(s.db, db', c) && s.db.chunks[c].state != Sent && Live(s, p)
  {
    BegunIsNew(s.db, s.wire, c, p, s.clock);
    BeginFrame(s.db, c, p, s.clock);
    hide Begin, OwnRejections, OneChunk, WireSafe, Ledger, NotOnWire, StillOpen;
  }

  lemma FinishSafe(w: Windows, s: Sys, p: RunId, pc: Pc, enabled: bool, fallback: Policy, nextAttempt: Time,
                   errorKind: TerminalError, next: Pc, db': Db)
    requires Safe(w, s) && p in s.procs && s.procs[p] == pc && pc.Answered? && (next.Delivering? || next == Releasing)
    requires FinishWith(s.db, p, pc.d, pc.c, pc.number, pc.reply, enabled, fallback, nextAttempt, errorKind, s.clock) ==
      Ok(db')
    ensures KeepsSafe(w, s, Goto(s.(db := db'), p, next))
  {
    var outcome := Settle(s.db, pc.d, pc.c, pc.number, pc.reply, enabled, fallback, s.clock);
    assert PcSafe(w, s, p, pc);
    var spent := SpentOn(s.db, pc.d, pc.c, pc.reply, fallback, s.clock);
    var errorClass := ErrorClass(pc.reply, spent);
    var after := if outcome == RejectedRetryable then Some(nextAttempt) else None;
    FinishCommit(w, s, p, outcome, errorClass, errorKind, MessageIdOf(pc.reply), after);
    FinishedSafe(w, s, db', p, enabled, fallback, spent, next);
  }

  /** What a committed finish_chunk of the process's own attempt guarantees. */
  ghost predicate FinishedBy(s: Sys, db': Db, p: RunId, outcome: Outcome, errorClass: string)
    requires p in s.procs && s.procs[p].Answered? && outcome != Open
  {
    var c := s.procs[p].c;
    && Outbox(db') && History(db') && Evolves(s.db, db')
    && Live(s, p) && db'.lease == s.db.lease && OwnRejections(s.db, db', s.wire, p)
    && StillOpen(s.db, s.procs[p].d, c, s.procs[p].number)
    && (forall x :: Active(db', x) ==> Active(s.db, x))
    && OneChunk(s.db, db', c) && db'.chunks[c].state == ChunkStateAfter(outcome) &&
       db'.chunks[c].errorClass == errorClass
    && db'.chunks[c].attemptCount == s.db.chunks[c].attemptCount
    && (forall d :: d in s.db.deliveries ==>
          d in db'.deliveries && db'.deliveries[d].policy == s.db.deliveries[d].policy)
    && (outcome == Accepted ==> HistoryStep(s.db, db', c, s.clock))
    && (outcome != Accepted ==> db'.history == s.db.history)
  }

  lemma FinishCommit(w: Windows, s: Sys, p: RunId, outcome: Outcome, errorClass: string, errorKind: TerminalError,
                     messageId: nat, after: Option<Time>)
    requires Outbox(s.db) && History(s.db)
    requires p in s.procs && s.procs[p].Answered? && PcSafe(w, s, p, s.procs[p])
    requires outcome != Open && (Rejected(outcome) ==> Rejected(ReplyOutcome(s.procs[p].reply)))
    requires Finish(s.db, s.procs[p].c, outcome, p, p, errorClass, errorKind, messageId, after, s.clock).Ok?
    ensures
      var db' := Finish(s.db, s.procs[p].c, outcome, p, p, errorClass, errorKind, messageId, after, s.clock).value;
      FinishedBy(s, db', p, outcome, errorClass)
  {
    var c := s.procs[p].c;
    FinishKeepsOutbox(s.db, c, outcome, p, p, errorClass, errorKind, messageId, after, s.clock);
    FinishKeepsHistory(s.db, c, outcome, p, p, errorClass, errorKind, messageId, after, s.clock);
    FinishEvolves(s.db, c, outcome, p, p, errorClass, errorKind, messageId, after, s.clock);
    FinishFacts(w, s, p, outcome, errorClass, errorKind, messageId, after);
  }

  lemma FinishedSafe(w: Windows, s: Sys, db': Db, p: RunId, enabled: bool, fallback: Policy, spent: bool, next: Pc)
    requires Safe(w, s) && (next.Delivering? || next == Releasing)
    requires p in s.procs && s.procs[p].Answered?
    requires
      var pc := s.procs[p];
      var outcome := Settle(s.db, pc.d, pc.c, pc.number, pc.reply, enabled, fallback, s.clock);
      FinishedBy(s, db', p, outcome, ErrorClass(pc.reply, spent))
    ensures KeepsSafe(w, s, Goto(s.(db := db'), p, next))
  {
    var pc := s.procs[p];
    assert PcSafe(w, s, p, pc);
    var outcome := Settle(s.db, pc.d, pc.c, pc.number, pc.reply, enabled, fallback, s.clock);
    FinishedBudget(w, s, db', p, enabled, fallback, spent);
    FinishedConclude(w, s, db', p, outcome, ErrorClass(pc.reply, spent), next);
  }

  lemma FinishedBudget(w: Windows, s: Sys, db': Db, p: RunId, enabled: bool, fallback: Policy, spent: bool)
    requires Frugal(s.db) && RefusedPlain(s.db.chunks)
    requires p in s.procs && s.procs[p].Answered? && PcSafe(w, s, p, s.procs[p])
    requires
      var pc := s.procs[p];
      var outcome := Settle(s.db, pc.d, pc.c, pc.number, pc.reply, enabled, fallback, s.clock);
      FinishedBy(s, db', p, outcome, ErrorClass(pc.reply, spent))
    ensures Frugal(db') && RefusedPlain(db'.chunks)
  {
    var pc := s.procs[p];
    FinishKeepsBudget(s.db, db', p, pc, enabled, fallback, spent,
                      Settle(s.db, pc.d, pc.c, pc.number, pc.reply, enabled, fallback, s.clock), s.clock);
  }

  lemma FinishedConclude(w: Windows, s: Sys, db': Db, p: RunId, outcome: Outcome, errorClass: string, next: Pc)
    requires Safe(w, s) && (next.Delivering? || next == Releasing)
    requires p in s.procs && s.procs[p].Answered? && outcome != Open && FinishedBy(s, db', p, outcome, errorClass)
    requires Frugal(db') && RefusedPlain(db'.chunks)
    ensures KeepsSafe(w, s, Goto(s.(db := db'), p, next))
  {
    FinishedQuiet(w, s, db', p, outcome, errorClass);
    FencedStepSafe(w, s, db', p, next);
  }

  lemma FinishedQuiet(w: Windows, s: Sys, db': Db, p: RunId, outcome: Outcome, errorClass: string)
    requires WellFormed(s.db) && History(s.db) && (!s.reopened ==> Quiet(w, s.db, s.clock))
    requires p in s.procs && s.procs[p].Answered? && outcome != Open && FinishedBy(s, db', p, outcome, errorClass)
    ensures !s.reopened ==> Quiet(w, db', s.clock)
  {
    if !s.reopened {
      if outcome == Accepted {
        ConfirmedQuiet(w, s.db, db', s.procs[p].c, s.clock);
      } else {
        UnconfirmedQuiet(w, s.db, db', s.procs[p].c, s.clock);
      }
    }
  }

  lemma FinishFacts(w: Windows, s: Sys, p: RunId, outcome: Outcome, errorClass: string, errorKind: TerminalError,
                    messageId: nat, after: Option<Time>)
    requires p in s.procs && s.procs[p].Answered? && PcSafe(w, s, p, s.procs[p])
    requires Rejected(outcome) ==> Rejected(ReplyOutcome(s.procs[p].reply))
    requires Finish(s.db, s.procs[p].c, outcome, p, p, errorClass, errorKind, messageId, after, s.clock).Ok?
    ensures
      var c := s.procs[p].c;
      var db' := Finish(s.db, c, outcome, p, p, errorClass, errorKind, messageId, after, s.clock).value;
      && Live(s, p) && db'.lease == s.db.lease && OwnRejections(s.db, db', s.wire, p)
      && StillOpen(s.db, s.procs[p].d, c, s.procs[p].number)
      && (forall x :: Active(db', x) ==> Active(s.db, x))
      && OneChunk(s.db, db', c) && db'.chunks[c].state == ChunkStateAfter(outcome) &&
         db'.chunks[c].errorClass == errorClass
      && db'.chunks[c].attemptCount == s.db.chunks[c].attemptCount
      && (forall d :: d in s.db.deliveries ==>
            d in db'.deliveries && db'.deliveries[d].policy == s.db.deliveries[d].policy)
      && (outcome == Accepted ==> HistoryStep(s.db, db', c, s.clock))
      && (outcome != Accepted ==> db'.history == s.db.history)
  {
  }

  lemma FinishKeepsBudget(db: Db, db': Db, p: RunId, pc: Pc, enabled: bool, fallback: Policy, spent: bool,
                          outcome: Outcome, now: Time)
    requires Frugal(db) && RefusedPlain(db.chunks)
    requires pc.Answered? && (pc.reply.Raised? ==> KnownReason(pc.reply.reason)) && StillOpen(db, pc.d, pc.c, pc.number)
    requires outcome == Settle(db, pc.d, pc.c, pc.number, pc.reply, enabled, fallback, now)
    requires OneChunk(db, db', pc.c) && db'.chunks[pc.c].state == ChunkStateAfter(outcome)
    requires db'.chunks[pc.c].errorClass == ErrorClass(pc.reply, spent)
    requires db'.chunks[pc.c].attemptCount == db.chunks[pc.c].attemptCount
    requires forall d :: d in db.deliveries ==>
      d in db'.deliveries && db'.deliveries[d].policy == db.deliveries[d].policy
    ensures Frugal(db') && RefusedPlain(db'.chunks)
  {
    forall x | x in db'.chunks ensures WithinBudget(db', x) {
      assert WithinBudget(db, x);
    }
    forall x | x in db'.chunks && db'.chunks[x].state == Refused ensures !RetrySafe(db'.chunks[x].errorClass) {
      if x == pc.c {
        PlainErrorClass(pc.reply, spent);
      }
    }
  }

  /** Neither the client's reason codes nor the budget's are allowlisted for a terminal retry. */
  lemma PlainErrorClass(reply: Reply, spent: bool)
    requires reply.Raised? && KnownReason(reply.reason)
    ensures !RetrySafe(ErrorClass(reply, spent))
  {
    assert |"telegram_terminal_retry_safe"| == 28 && |"operator_retry_safe"| == 19;
  }

  // ----- freezing an outbox

  lemma ChosenSafe(w: Windows, s: Sys, p: RunId)
    requires Safe(w, s) && p in s.procs && s.procs[p].Chosen?
    ensures DistinctUrls(s.procs[p].stories) && (Live(s, p) ==> AllUnseen(w, s.db.history, s.procs[p].stories, s.clock))
  {
    assert PcSafe(w, s, p, s.procs[p]);
  }

  lemma PrepareSafe(w: Windows, s: Sys, p: RunId, d: DeliveryId, stories: seq<Story>, messages: seq<string>,
                    indexes: map<Digest, int>, target: string, db': Db)
    requires Safe(w, s) && p in s.procs && s.procs[p] == Chosen(d, stories)
    requires Prepare(s.db, d, stories, messages, indexes, target, p, s.clock) == Ok(db')
    ensures KeepsSafe(w, s, Goto(s.(db := db'), p, Delivering(d)))
  {
    ChosenSafe(w, s, p);
    hide Shape, Ledger, HashesMatch, Accounted, Judged, History, Frugal, RefusedPlain, Quiet, WireSafe, Evolves,
      FrozenBy, Prepare, PcSafe, ProcsSafe;
    PrepareKeepsOutbox(s.db, d, stories, messages, indexes, target, p, s.clock);
    PrepareKeepsHistory(s.db, d, stories, messages, indexes, target, p, s.clock);
    PrepareEvolves(s.db, d, stories, messages, indexes, target, p, s.clock);
    PrepareFacts(s.db, d, stories, messages, indexes, target, p, s.clock);
    PreparedSafe(w, s, p, d, stories, db');
  }

  lemma PreparedSafe(w: Windows, s: Sys, p: RunId, d: DeliveryId, stories: seq<Story>, db': Db)
    requires Safe(w, s) && Live(s, p) && Outbox(db') && History(db') && Evolves(s.db, db')
    requires FrozenBy(s.db, db', d, stories) && DistinctUrls(stories) && AllUnseen(w, s.db.history, stories, s.clock)
    ensures KeepsSafe(w, s, Goto(s.(db := db'), p, Delivering(d)))
  {
    FreshFrugal(s.db, db', d);
    if !s.reopened {
      FreshQuiet(w, s.db, db', d, stories, s.clock);
    }
    FencedStepSafe(w, s, db', p, Delivering(d));
  }

  /** What a committed prepare_delivery changes, as far as the processes and windows are concerned. */
  ghost predicate FrozenBy(db: Db, db': Db, d: DeliveryId, stories: seq<Story>) {
    && db'.lease == db.lease && db'.attempts == db.attempts && db'.history == db.history && FreshRows(db, db', d)
    && (forall x :: Active(db', x) ==> Active(db, x)) && d in db'.items && Active(db, d)
    && |db'.items[d]| == |stories| && (forall i :: 0 <= i < |stories| ==> StoryOf(db'.items[d][i]) == stories[i])
    && (forall x :: x in db.deliveries ==> x in db'.deliveries && db'.deliveries[x].policy == db.deliveries[x].policy)
    && (forall x :: x != d ==> ItemsOf(db'.items, x) == ItemsOf(db.items, x))
  }

  lemma PrepareFacts(db: Db, d: DeliveryId, stories: seq<Story>, messages: seq<string>, indexes: map<Digest, int>,
                     target: string, p: RunId, now: Time)
    requires WellFormed(db)
    requires Prepare(db, d, stories, messages, indexes, target, p, now).Ok?
    ensures LeaseHeld(db.lease, p, now) &&
      FrozenBy(db, Prepare(db, d, stories, messages, indexes, target, p, now).value, d, stories)
  {
    var db' := Prepare(db, d, stories, messages, indexes, target, p, now).value;
    PreparedFresh(db, d, stories, messages, indexes, target, p, now);
    hide HasChunks, DistinctFingerprints, IndexesInRange, FreshChunks, FreshRows;
  }

  lemma PreparedFresh(db: Db, d: DeliveryId, stories: seq<Story>, messages: seq<string>, indexes: map<Digest, int>,
                      target: string, p: RunId, now: Time)
    requires WellFormed(db)
    requires Prepare(db, d, stories, messages, indexes, target, p, now).Ok?
    ensures FreshRows(db, Prepare(db, d, stories, messages, indexes, target, p, now).value, d)
  {
    hide DistinctFingerprints, IndexesInRange, ItemRows, FreshRows;
    FreshOrOld(db, Prepare(db, d, stories, messages, indexes, target, p, now).value, d, messages);
  }

  lemma FreshFrugal(db: Db, db': Db, d: DeliveryId)
    requires FreshRows(db, db', d) && Frugal(db) && RefusedPlain(db.chunks) && WellFormed(db)
    requires forall x :: x in db.deliveries ==>
      x in db'.deliveries && db'.deliveries[x].policy == db.deliveries[x].policy
    ensures Frugal(db') && RefusedPlain(db'.chunks)
  {
    forall c | c in db'.chunks ensures WithinBudget(db', c) {
      if c in db.chunks {
        assert WithinBudget(db, c);
      }
    }
  }

  lemma FreshQuiet(w: Windows, db: Db, db': Db, d: DeliveryId, stories: seq<Story>, now: Time)
    requires FreshRows(db, db', d) && Quiet(w, db, now) && db'.history == db.history
    requires forall x :: Active(db', x) ==> Active(db, x)
    requires Active(db, d) && d in db'.items && |db'.items[d]| == |stories|
    requires forall i :: 0 <= i < |stories| ==> StoryOf(db'.items[d][i]) == stories[i]
    requires DistinctUrls(stories) && AllUnseen(w, db.history, stories, now)
    ensures Quiet(w, db', now)
  {
    assert FreshItems(w, db', d, now);
  }

  // ----- operator steps

  /** With the store closed no process relies on anything. */
  lemma OperatorStepSafe(w: Windows, s: Sys, db': Db, reopened: bool)
    requires Safe(w, s) && StoreClosed(s)
    requires DbSafe(db') && Evolves(s.db, db') && db'.attempts == s.db.attempts
    requires !reopened ==> Quiet(w, db', s.clock)
    ensures KeepsSafe(w, s, s.(db := db', reopened := reopened))
  {
    WireStaysSafe(s.db, db', s.wire);
  }

  lemma ResolveSafe(w: Windows, s: Sys, c: ChunkId, verdict: Verdict, reason: string, operator: string, db': Db)
    requires Safe(w, s) && StoreClosed(s)
    requires Resolve(s.db, c, verdict, reason, operator, s.clock) == Ok(db')
    ensures KeepsSafe(w, s, s.(db := db', reopened := s.reopened || Reopens(s.db, c)))
  {
    ResolveKeepsOutbox(s.db, c, verdict, reason, operator, s.clock);
    ResolveKeepsHistory(s.db, c, verdict, reason, operator, s.clock);
    ResolveEvolves(s.db, c, verdict, reason, operator, s.clock);
    UnsentIsUnfinished(s.db, c);
    ResolveFacts(s.db, c, verdict, reason, operator, s.clock);
    OneChunkFrugal(s.db, db', c);
    if !s.reopened && !Reopens(s.db, c) {
      if verdict == MarkSent {
        ConfirmedQuiet(w, s.db, db', c, s.clock);
      } else {
        UnconfirmedQuiet(w, s.db, db', c, s.clock);
      }
    }
    OperatorStepSafe(w, s, db', s.reopened || Reopens(s.db, c));
  }

  lemma ResolveFacts(db: Db, c: ChunkId, verdict: Verdict, reason: string, operator: string, now: Time)
    requires Resolve(db, c, verdict, reason, operator, now).Ok?
    requires !Finished(db.deliveries[db.chunks[c].delivery].state)
    ensures
      var db' := Resolve(db, c, verdict, reason, operator, now).value;
      && db'.attempts == db.attempts && OneChunk(db, db', c) && db.chunks[c].state != Sent
      && (db'.chunks[c].state == Sent || db'.chunks[c].state == Pending) &&
         db'.chunks[c].attemptCount == db.chunks[c].attemptCount
      && (forall d :: d in db.deliveries ==> d in db'.deliveries && db'.deliveries[d].policy == db.deliveries[d].policy)
      && (!Reopens(db, c) ==> forall d :: Active(db', d) ==> Active(db, d))
      && (!Reopens(db, c) ==> Active(db, db.chunks[c].delivery))
      && (verdict == MarkSent ==> HistoryStep(db, db', c, now) && db'.chunks[c].state == Sent)
      && (verdict == Retry ==> db'.history == db.history)
  {
  }

  lemma OneChunkFrugal(db: Db, db': Db, c: ChunkId)
    requires OneChunk(db, db', c) && Frugal(db) && RefusedPlain(db.chunks)
    requires db'.chunks[c].attemptCount == db.chunks[c].attemptCount
    requires db'.chunks[c].state == Sent || db'.chunks[c].state == Pending
    requires forall d :: d in db.deliveries ==>
      d in db'.deliveries && db'.deliveries[d].policy == db.deliveries[d].policy
    ensures Frugal(db') && RefusedPlain(db'.chunks)
  {
    forall x | x in db'.chunks ensures WithinBudget(db', x) {
      assert WithinBudget(db, x);
    }
  }

  lemma ReconcileSafe(w: Windows, s: Sys, d: DeliveryId, snapshot: string, reason: string, operator: string, db': Db)
    requires Safe(w, s) && StoreClosed(s)
    requires Reconcile(s.db, d, snapshot, reason, operator) == Ok(db')
    ensures KeepsSafe(w, s, s.(db := db'))
  {
    ReconcileIsDeliveryStep(s.db, d, snapshot, reason, operator);
    DeliveryStepSafe(w, s.db, db', s.clock);
    OperatorStepSafe(w, s, db', s.reopened);
    assert s.(db := db', reopened := s.reopened) == s.(db := db');
  }

  lemma ReconcileIsDeliveryStep(db: Db, d: DeliveryId, snapshot: string, reason: string, operator: string)
    requires Reconcile(db, d, snapshot, reason, operator).Ok?
    ensures DeliveryStep(db, Reconcile(db, d, snapshot, reason, operator).value)
  {
  }

  // ----- every event

  /** Program counters at which a process relies on nothing. */
  predicate Carefree(pc: Pc) {
    !pc.Vacant? && !pc.Chosen? && !pc.Cleared? && !pc.Begun? && !pc.Answered?
  }

  lemma DeliveryCommitSafe(w: Windows, s: Sys, p: RunId, commit: Commit, next: Pc, otherwise: Pc)
    requires Safe(w, s) && Carefree(next) && Carefree(otherwise)
    requires commit.Ok? ==> Live(s, p) && DeliveryStep(s.db, commit.value) && commit.value.lease == s.db.lease
    ensures KeepsSafe(w, s, After(s, p, commit, next, otherwise))
  {
    match commit
    case Ok(db) => DeliveryEventSafe(w, s, db, p, next);
    case Err(_) => MoveSafe(w, s, p, otherwise);
  }

  lemma CreateIsDeliveryStep(db: Db, date: string, generation: int, policy: Policy, force: Force, p: RunId, now: Time)
    requires WellFormed(db) && (LeaseHeld(db.lease, p, now) ==> NoActive(db))
    ensures
      var commit := Create(db, date, generation, policy, force, p, now);
      commit.Ok? ==> LeaseHeld(db.lease, p, now) && DeliveryStep(db, commit.value) && commit.value.lease == db.lease
  {
  }

  lemma CreateSafe(w: Windows, s: Sys, s': Sys, e: Event, p: RunId)
    requires Safe(w, s) && e.CreateDelivery? && p in s.procs && s.procs[p] == Vacant
    requires s' == After(s, p, Create(s.db, e.date, e.generation, e.policy, e.force, p, s.clock),
                         Gathering(s.db.nextDelivery), Releasing)
    ensures KeepsSafe(w, s, s')
  {
    assert PcSafe(w, s, p, Vacant);
    CreateIsDeliveryStep(s.db, e.date, e.generation, e.policy, e.force, p, s.clock);
    DeliveryCommitSafe(w, s, p, Create(s.db, e.date, e.generation, e.policy, e.force, p, s.clock),
                       Gathering(s.db.nextDelivery), Releasing);
  }

  /** A transaction that rewrites one delivery row without finishing or reviving it. */
  lemma OneDeliverySafe(w: Windows, s: Sys, p: RunId, d: DeliveryId, commit: Commit, next: Pc, otherwise: Pc)
    requires Safe(w, s) && Carefree(next) && Carefree(otherwise)
    requires commit.Ok? ==>
      && Live(s, p) && d in s.db.deliveries && d in commit.value.deliveries
      && commit.value.(collectionAttempts := s.db.collectionAttempts) ==
         s.db.(deliveries := s.db.deliveries[d := commit.value.deliveries[d]])
      && DeliveryFrozen(s.db.deliveries[d], commit.value.deliveries[d])
      && (Finished(commit.value.deliveries[d].state) ==> Finished(s.db.deliveries[d].state))
      && (Terminal(s.db.deliveries[d].state) ==> Terminal(commit.value.deliveries[d].state))
    ensures KeepsSafe(w, s, After(s, p, commit, next, otherwise))
  {
    hide Safe;
    if commit.Ok? {
      OneDeliveryStep(s.db, commit.value, d);
    }
    DeliveryCommitSafe(w, s, p, commit, next, otherwise);
  }

  lemma OneDeliveryStep(db: Db, db': Db, d: DeliveryId)
    requires d in db.deliveries && d in db'.deliveries
    requires db'.(collectionAttempts := db.collectionAttempts) ==
      db.(deliveries := db.deliveries[d := db'.deliveries[d]])
    requires DeliveryFrozen(db.deliveries[d], db'.deliveries[d])
    requires Finished(db'.deliveries[d].state) ==> Finished(db.deliveries[d].state)
    requires Terminal(db.deliveries[d].state) ==> Terminal(db'.deliveries[d].state)
    ensures DeliveryStep(db, db') && db'.lease == db.lease
  {
    assert db'.deliveries == db.deliveries[d := db'.deliveries[d]];
  }

  lemma CollectionEventSafe(w: Windows, s: Sys, s': Sys, e: Event, p: RunId, pc: Pc)
    requires Safe(w, s) && (e.ReopenCollection? || e.CountCollectionAttempt? || e.ScheduleRetry?)
    requires p in s.procs && s.procs[p] == pc && ProcessStep(w, s, e, p, pc) == Some(s')
    ensures KeepsSafe(w, s, s')
  {
    hide Safe;
    match e
    case ReopenCollection(_) =>
      OneDeliverySafe(w, s, p, pc.d, ReopenForCollection(s.db, pc.d, p, s.clock), Gathering(pc.d), Handling(pc.d));
    case CountCollectionAttempt(_) =>
      OneDeliverySafe(w, s, p, pc.d, RecordCollectionAttempt(s.db, pc.d, p, s.clock), pc, Handling(pc.d));
    case ScheduleRetry(_, nextAttempt) =>
      OneDeliverySafe(w, s, p, pc.d, SetCollectionRetry(s.db, pc.d, nextAttempt, p, s.clock), Releasing,
        Handling(pc.d));
  }

  lemma StopEventSafe(w: Windows, s: Sys, s': Sys, e: Event, p: RunId, pc: Pc)
    requires Safe(w, s) && (e.FailNow? || e.BlockOnTarget?)
    requires p in s.procs && s.procs[p] == pc && ProcessStep(w, s, e, p, pc) == Some(s')
    ensures KeepsSafe(w, s, s')
  {
    hide Safe;
    match e
    case FailNow(_, _) =>
      OneDeliverySafe(w, s, p, pc.d, Fail(s.db, pc.d, p, s.clock), Releasing, Releasing);
    case BlockOnTarget(_, expected, actual) =>
      OneDeliverySafe(w, s, p, pc.d, MarkTargetMismatch(s.db, pc.d, expected, actual, p, s.clock), Releasing,
        Handling(pc.d));
  }

  lemma AcquireEventSafe(w: Windows, s: Sys, s': Sys, e: Event, p: RunId, pc: Pc)
    requires Safe(w, s) && e.AcquireLease? && p in s.procs && s.procs[p] == pc
    requires ProcessStep(w, s, e, p, pc) == Some(s')
    ensures KeepsSafe(w, s, s')
  {
    hide Safe;
    var lease := Acquire(s.db, p, e.ttl, s.clock).0.lease;
    LeaseStepSafe(w, s, lease, p, s'.procs[p]);
    assert s'.db == s.db.(lease := lease);
  }

  lemma RenewEventSafe(w: Windows, s: Sys, s': Sys, p: RunId, pc: Pc, ttl: int)
    requires Safe(w, s) && Carefree(pc) && HoldsDelivery(pc)
    requires s' == After(s, p, Heartbeat(s.db, p, ttl, s.clock), pc, Handling(pc.d))
    ensures KeepsSafe(w, s, s')
  {
    hide Safe;
    if LeaseHeld(s.db.lease, p, s.clock) {
      LeaseStepSafe(w, s, Some(Lease(p, s.clock + ttl)), p, pc);
    } else {
      MoveSafe(w, s, p, Handling(pc.d));
    }
  }

  lemma ReleaseEventSafe(w: Windows, s: Sys, s': Sys, p: RunId)
    requires Safe(w, s) && s' == After(s, p, Release(s.db, p, s.clock), Ended, Ended)
    ensures KeepsSafe(w, s, s')
  {
    hide Safe;
    if LeaseHeld(s.db.lease, p, s.clock) {
      LeaseStepSafe(w, s, None, p, Ended);
    } else {
      MoveSafe(w, s, p, Ended);
    }
  }

  lemma PrepareEventSafe(w: Windows, s: Sys, s': Sys, e: Event, p: RunId, pc: Pc)
    requires Safe(w, s) && e.PrepareOutbox? && p in s.procs && s.procs[p] == pc
    requires ProcessStep(w, s, e, p, pc) == Some(s')
    ensures KeepsSafe(w, s, s')
  {
    hide Safe;
    var commit := Prepare(s.db, pc.d, pc.stories, e.messages, e.indexes, e.target, p, s.clock);
    match commit
    case Ok(db') => PrepareSafe(w, s, p, pc.d, pc.stories, e.messages, e.indexes, e.target, db');
    case Err(_) => MoveSafe(w, s, p, Handling(pc.d));
  }

  lemma FinishEventSafe(w: Windows, s: Sys, s': Sys, e: Event, p: RunId, pc: Pc)
    requires Safe(w, s) && e.FinishSend? && p in s.procs && s.procs[p] == pc
    requires ProcessStep(w, s, e, p, pc) == Some(s')
    ensures KeepsSafe(w, s, s')
  {
    hide Safe;
    var commit := FinishWith(s.db, p, pc.d, pc.c, pc.number, pc.reply, e.enabled, e.fallback, e.nextAttempt,
      e.errorKind, s.clock);
    match commit
    case Ok(db') => FinishSafe(w, s, p, pc, e.enabled, e.fallback, e.nextAttempt, e.errorKind, s'.procs[p], db');
    case Err(_) => MoveSafe(w, s, p, Handling(pc.d));
  }

  lemma MoveEventSafe(w: Windows, s: Sys, s': Sys, e: Event, p: RunId, pc: Pc)
    requires Safe(w, s) && (e.Crash? || e.Raise? || e.Return? || e.ResumeCollecting? || e.ResumeSending?)
    requires p in s.procs && s.procs[p] == pc && ProcessStep(w, s, e, p, pc) == Some(s')
    ensures KeepsSafe(w, s, s')
  {
    hide Safe, MayFail, Begin, Prepare, FinishWith, Create, Recover, Fail, MarkTargetMismatch, SetCollectionRetry,
      KeepsSafe, Selectable, BudgetExhausted, HonestReply, Heartbeat, Release, Acquire, ReopenForCollection,
      RecordCollectionAttempt, Active, NoActive;
    MoveSafe(w, s, p, s'.procs[p]);
  }

  lemma ReadEventSafe(w: Windows, s: Sys, s': Sys, e: Event, p: RunId, pc: Pc)
    requires Safe(w, s) && (e.Look? || e.Select? || e.CheckBudget? || e.BreakBeforeSend?)
    requires p in s.procs && s.procs[p] == pc && ProcessStep(w, s, e, p, pc) == Some(s')
    ensures KeepsSafe(w, s, s')
  {
    assert PcSafe(w, s, p, pc);
    ReadIsSafe(w, s, s', e, p, pc);
    MoveSafe(w, s, p, s'.procs[p]);
  }

  /** What a process has just read is true. */
  lemma ReadIsSafe(w: Windows, s: Sys, s': Sys, e: Event, p: RunId, pc: Pc)
    requires p in s.procs && PcSafe(w, s, p, pc) && (e.Look? || e.Select? || e.CheckBudget? || e.BreakBeforeSend?)
    requires ProcessStep(w, s, e, p, pc) == Some(s')
    ensures p in s'.procs && s' == Goto(s, p, s'.procs[p]) && PcSafe(w, s', p, s'.procs[p])
  {
  }

  lemma LeaseEventSafe(w: Windows, s: Sys, s': Sys, e: Event, p: RunId, pc: Pc)
    requires Safe(w, s) && (e.RecoverFirst? || e.RecoverAgain? || e.AcquireLease? || e.RenewLease? || e.ReleaseLease?)
    requires p in s.procs && s.procs[p] == pc && ProcessStep(w, s, e, p, pc) == Some(s')
    ensures KeepsSafe(w, s, s')
  {
    hide Safe;
    match e
    case RecoverFirst(_) => RecoverSafe(w, s, p, Acquiring);
    case RecoverAgain(_) => RecoverSafe(w, s, p, Looking);
    case AcquireLease(_, _) => AcquireEventSafe(w, s, s', e, p, pc);
    case RenewLease(_, ttl) => RenewEventSafe(w, s, s', p, pc, ttl);
    case ReleaseLease(_) => ReleaseEventSafe(w, s, s', p);
  }

  lemma CreateOrTransmitSafe(w: Windows, s: Sys, s': Sys, e: Event, p: RunId, pc: Pc)
    requires Safe(w, s) && (e.CreateDelivery? || e.Transmit?)
    requires p == e.p && p in s.procs && s.procs[p] == pc && ProcessStep(w, s, e, p, pc) == Some(s')
    ensures KeepsSafe(w, s, s')
  {
    hide Safe;
    if e.CreateDelivery? {
      CreateSafe(w, s, s', e, p);
    } else {
      TransmitSafe(w, s, p, e.accepted, e.reply);
    }
  }

  lemma BeginEventSafe(w: Windows, s: Sys, s': Sys, p: RunId, pc: Pc)
    requires Safe(w, s) && p in s.procs && s.procs[p] == pc && BeginStep(s, p, pc) == Some(s')
    ensures KeepsSafe(w, s, s')
  {
    hide Safe, Begin;
    match Begin(s.db, pc.c, p, p, s.clock)
    case Ok(db') => BeginSafe(w, s, p, pc.d, pc.c, db');
    case Err(_) => MoveSafe(w, s, p, Handling(pc.d));
  }

  lemma ProcessStepSafe(w: Windows, s: Sys, s': Sys, e: Event, p: RunId, pc: Pc)
    requires Safe(w, s) && !e.Tick? && !e.Spawn? && !e.ResolveChunk? && !e.ReconcileDelivery?
    requires p == e.p && p in s.procs && s.procs[p] == pc && ProcessStep(w, s, e, p, pc) == Some(s')
    ensures KeepsSafe(w, s, s')
  {
    hide Safe;
    if e.RecoverFirst? || e.RecoverAgain? || e.AcquireLease? || e.RenewLease? || e.ReleaseLease? {
      LeaseEventSafe(w, s, s', e, p, pc);
    } else if e.ReopenCollection? || e.CountCollectionAttempt? || e.ScheduleRetry? {
      CollectionEventSafe(w, s, s', e, p, pc);
    } else if e.FailNow? || e.BlockOnTarget? {
      StopEventSafe(w, s, s', e, p, pc);
    } else if e.CreateDelivery? || e.Transmit? {
      CreateOrTransmitSafe(w, s, s', e, p, pc);
    } else if e.PrepareOutbox? {
      PrepareEventSafe(w, s, s', e, p, pc);
    } else if e.BeginSend? {
      BeginEventSafe(w, s, s', p, pc);
    } else if e.FinishSend? {
      FinishEventSafe(w, s, s', e, p, pc);
    } else if e.Look? || e.Select? || e.CheckBudget? || e.BreakBeforeSend? {
      ReadEventSafe(w, s, s', e, p, pc);
    } else {
      MoveEventSafe(w, s, s', e, p, pc);
    }
  }

  lemma OperatorEventSafe(w: Windows, s: Sys, e: Event, s': Sys)
    requires Safe(w, s) && (e.ResolveChunk? || e.ReconcileDelivery?) && Step(w, s, e) == Some(s')
    ensures KeepsSafe(w, s, s')
  {
    hide Safe, Resolve, Reconcile, KeepsSafe, ProcessStep, Reopens;
    match e
    case ResolveChunk(c, verdict, reason, operator) => ResolveSafe(w, s, c, verdict, reason, operator, s'.db);
    case ReconcileDelivery(d, snapshot, reason, operator) =>
      ReconcileSafe(w, s, d, snapshot, reason, operator, s'.db);
  }

  lemma StepSafe(w: Windows, s: Sys, e: Event, s': Sys)
    requires Safe(w, s) && Step(w, s, e) == Some(s')
    ensures KeepsSafe(w, s, s')
  {
    hide Safe;
    if e.Tick? {
      TickSafe(w, s, e.to);
    } else if e.Spawn? {
      MoveSafe(w, s, e.p, Opening);
    } else if e.ResolveChunk? || e.ReconcileDelivery? {
      OperatorEventSafe(w, s, e, s');
    } else {
      ProcessStepSafe(w, s, s', e, e.p, s.procs[e.p]);
    }
  }

  lemma InitSafe(w: Windows, s: Sys)
    requires Init(s)
    ensures Safe(w, s)
  {
  }

  /** The joint invariant holds after every run, and a run takes nothing back. */
  lemma {:induction false} RunKeepsSafe(w: Windows, s: Sys, events: seq<Event>, t: Sys)
    requires Safe(w, s) && Run(w, s, events) == Some(t)
    ensures KeepsSafe(w, s, t)
  {
    hide Safe, Evolves, Step;
    if events == [] {
      EvolvesSelf(s.db);
    } else {
      var before := Run(w, s, events[..|events| - 1]).value;
      RunKeepsSafe(w, s, events[..|events| - 1], before);
      StepSafe(w, before, events[|events| - 1], t);
      EvolvesComposes(s.db, before.db, t.db);
    }
  }

  lemma RunSafe(w: Windows, s: Sys, events: seq<Event>, t: Sys)
    requires Init(s) && Run(w, s, events) == Some(t)
    ensures Safe(w, t)
  {
    InitSafe(w, s);
    RunKeepsSafe(w, s, events, t);
  }

  // ----- whose lease it is

  /** An event that is not one of the process's own. */
  predicate ByOther(e: Event, p: RunId) {
    e.Tick? || e.ResolveChunk? || e.ReconcileDelivery? || e.p != p
  }

  predicate OnLease(e: Event) {
    e.RecoverFirst? || e.RecoverAgain? || e.AcquireLease? || e.RenewLease? || e.ReleaseLease?
  }

  predicate OnChunks(e: Event) {
    e.FinishSend? || e.BeginSend? || e.PrepareOutbox? || e.ResolveChunk? || e.RecoverFirst? || e.RecoverAgain?
  }

  /** Events that read, wait or end without writing a table. */
  predicate MovesOnly(e: Event) {
    e.Tick? || e.Spawn? || e.Crash? || e.Raise? || e.Return? || e.Look? || e.ResumeCollecting? || e.ResumeSending? ||
    e.Select? || e.CheckBudget? || e.Transmit? || e.BreakBeforeSend?
  }

  lemma MovesKeepTables(w: Windows, s: Sys, e: Event, t: Sys)
    requires Step(w, s, e) == Some(t) && MovesOnly(e)
    ensures t.db == s.db && t.reopened == s.reopened && s.clock <= t.clock
  {
    hide Selectable, BudgetExhausted, MayFail, HonestReply, Active, NoActive, Create, FinishWith, Begin, Prepare,
      Resolve, Recover, Reconcile, Acquire, Heartbeat, Release, Fail, SetCollectionRetry, RecordCollectionAttempt,
      ReopenForCollection, MarkTargetMismatch;
  }

  /** Another's event leaves the process where it is. */
  lemma OthersStay(w: Windows, s: Sys, e: Event, t: Sys, p: RunId)
    requires Step(w, s, e) == Some(t) && ByOther(e, p) && p in s.procs
    ensures p in t.procs && t.procs[p] == s.procs[p] && s.clock <= t.clock
  {
    hide Step;
    if MovesOnly(e) {
      OthersMove(w, s, e, t, p);
    } else if OnLease(e) || OnChunks(e) {
      OthersSend(w, s, e, t, p);
    } else {
      OthersCollect(w, s, e, t, p);
    }
  }

  lemma OthersMove(w: Windows, s: Sys, e: Event, t: Sys, p: RunId)
    requires Step(w, s, e) == Some(t) && ByOther(e, p) && MovesOnly(e) && p in s.procs
    ensures p in t.procs && t.procs[p] == s.procs[p] && s.clock <= t.clock
  {
    hide Selectable, BudgetExhausted, MayFail, HonestReply, Active, NoActive, Create, FinishWith, Begin, Prepare,
      Resolve, Recover, Reconcile, Acquire, Heartbeat, Release, Fail, SetCollectionRetry, RecordCollectionAttempt,
      ReopenForCollection, MarkTargetMismatch, Reopens;
  }

  lemma OthersSend(w: Windows, s: Sys, e: Event, t: Sys, p: RunId)
    requires Step(w, s, e) == Some(t) && ByOther(e, p) && (OnLease(e) || OnChunks(e)) && p in s.procs
    ensures p in t.procs && t.procs[p] == s.procs[p] && s.clock <= t.clock
  {
    hide Selectable, BudgetExhausted, MayFail, HonestReply, Active, NoActive, Create, FinishWith, Begin, Prepare,
      Resolve, Recover, Reconcile, Acquire, Heartbeat, Release, Fail, SetCollectionRetry, RecordCollectionAttempt,
      ReopenForCollection, MarkTargetMismatch, Reopens;
  }

  lemma OthersCollect(w: Windows, s: Sys, e: Event, t: Sys, p: RunId)
    requires Step(w, s, e) == Some(t) && ByOther(e, p) && !MovesOnly(e) && !OnLease(e) && !OnChunks(e) && p in s.procs
    ensures p in t.procs && t.procs[p] == s.procs[p] && s.clock <= t.clock
  {
    hide Selectable, BudgetExhausted, MayFail, HonestReply, Active, NoActive, Create, FinishWith, Begin, Prepare,
      Resolve, Recover, Reconcile, Acquire, Heartbeat, Release, Fail, SetCollectionRetry, RecordCollectionAttempt,
      ReopenForCollection, MarkTargetMismatch, Reopens;
  }

  /** It also leaves the process's lease as it is, unless it takes it away. */
  lemma OthersLease(w: Windows, s: Sys, e: Event, t: Sys, p: RunId)
    requires Step(w, s, e) == Some(t) && ByOther(e, p) && p in s.procs
    ensures p in t.procs && t.procs[p] == s.procs[p] && s.clock <= t.clock
    ensures t.db.lease == s.db.lease || t.db.lease.None? || t.db.lease.value.owner != p
  {
    hide Step;
    OthersStay(w, s, e, t, p);
    if MovesOnly(e) {
      MovesKeepTables(w, s, e, t);
    } else if OnLease(e) {
      LeaseEventLease(w, s, e, t, p);
    } else if OnChunks(e) {
      ChunkEventLease(w, s, e, t);
    } else {
      OtherEventLease(w, s, e, t);
    }
  }

  lemma ChunkEventLease(w: Windows, s: Sys, e: Event, t: Sys)
    requires Step(w, s, e) == Some(t) && !OnLease(e) && OnChunks(e)
    ensures t.db.lease == s.db.lease
  {
    hide BudgetExhausted, MayFail, SpentOn, Observe, Settle, ErrorClass, RecordHistory, DeliveryAfter,
      AfterConfirmation, FreshChunks, AllSent, HasChunks, HasUnresolved, TerminalRetryUsed, ItemRows, EarlierUnsent,
      DistinctFingerprints, IndexesInRange, Create, Recover, Acquire, Heartbeat, Release, Reconcile;
  }

  lemma LeaseEventLease(w: Windows, s: Sys, e: Event, t: Sys, p: RunId)
    requires Step(w, s, e) == Some(t) && OnLease(e) && e.p != p
    ensures t.db.lease == s.db.lease || t.db.lease.None? || t.db.lease.value.owner != p
  {
    hide HasInFlight, CloseOpen;
  }

  lemma OtherEventLease(w: Windows, s: Sys, e: Event, t: Sys)
    requires Step(w, s, e) == Some(t) && !OnLease(e) && !OnChunks(e) && !MovesOnly(e)
    ensures t.db.lease == s.db.lease
  {
    hide BudgetExhausted, MayFail, PredecessorFits, GenerationTaken, HasChunks, Untouched, FinishWith, Begin, Prepare,
      Resolve, Recover, Acquire, Heartbeat, Release, Observe;
  }

  /** A process past start-up stays past it. */
  lemma FencedStays(w: Windows, s: Sys, e: Event, t: Sys, p: RunId)
    requires Step(w, s, e) == Some(t) && !ByOther(e, p) && p in s.procs && Fenced(s.procs[p])
    ensures p in t.procs && Fenced(t.procs[p]) && t.clock == s.clock
  {
    hide Selectable, BudgetExhausted, MayFail, Resolve, Reconcile, Reopens, FinishWith, HonestReply, Active, NoActive,
      Create, Prepare, Begin, Fail, Heartbeat, Release, RecordCollectionAttempt, SetCollectionRetry,
      ReopenForCollection, MarkTargetMismatch, Recover, Acquire;
  }
}
