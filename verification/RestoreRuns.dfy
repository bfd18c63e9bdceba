/**
 * Runs around a restore: what a snapshot of a run turns into, what later runs
 * do with it, and the failing cases as runs from an empty database.
 */
module RestoreRuns {
  import opened Wrappers
  import opened Rows
  import opened Transactions
  import opened OutboxInvariant
  import opened HistoryInvariant
  import opened Evolution
  import opened Protocol
  import opened ProtocolInvariant
  import opened ProtocolSteps
  import opened RunTheorems
  import opened RestoreAcks
  import opened SampleRun
  import opened Spacing

  // ----- runs after a restore

  /** The states in which no run begins a chunk. */
  predicate Settled(state: ChunkState) {
    state == Sent || state == Ambiguous || state == Refused
  }

  /** The chunk is settled in this state with this text, and no process is about to send it. */
  ghost predicate Sealed(s: Sys, c: ChunkId, state: ChunkState, text: string) {
    && Settled(state) && c in s.db.chunks && c < s.db.nextChunk
    && s.db.chunks[c].state == state && s.db.chunks[c].payload == text
    && (forall p :: p in s.procs ==> !(s.procs[p].Begun? && s.procs[p].c == c))
  }

  /** A verdict that can move the chunk. */
  predicate Verdicts(e: Event, c: ChunkId, state: ChunkState) {
    state != Sent && e.ResolveChunk? && e.c == c
  }

  /** The texts the event puts on the wire, if any, are of other chunks. */
  ghost predicate SendsNoneOf(wire: seq<Transmission>, wire': seq<Transmission>, c: ChunkId) {
    |wire| <= |wire'| && wire'[..|wire|] == wire && forall i :: |wire| <= i < |wire'| ==> wire'[i].key.chunk != c
  }

  lemma BeginSeals(w: Windows, s: Sys, e: Event, t: Sys, c: ChunkId, state: ChunkState, text: string)
    requires Step(w, s, e) == Some(t) && e.BeginSend? && Sealed(s, c, state, text)
    ensures Sealed(t, c, state, text) && t.wire == s.wire
  {
    hide EarlierUnsent, Observe, SendingFrom;
  }

  lemma PrepareSeals(w: Windows, s: Sys, e: Event, t: Sys, c: ChunkId, state: ChunkState, text: string)
    requires Step(w, s, e) == Some(t) && e.PrepareOutbox? && Sealed(s, c, state, text)
    ensures Sealed(t, c, state, text) && t.wire == s.wire
  {
    hide HasChunks, ItemRows, DistinctFingerprints, IndexesInRange, FreshChunkAt;
  }

  lemma RecoverSeals(w: Windows, s: Sys, e: Event, t: Sys, c: ChunkId, state: ChunkState, text: string)
    requires Step(w, s, e) == Some(t) && (e.RecoverFirst? || e.RecoverAgain?) && Sealed(s, c, state, text)
    ensures Sealed(t, c, state, text) && t.wire == s.wire
  {
    hide HasInFlight, CloseOpen;
  }

  lemma FinishSeals(w: Windows, s: Sys, e: Event, t: Sys, c: ChunkId, state: ChunkState, text: string)
    requires Step(w, s, e) == Some(t) && e.FinishSend? && Sealed(s, c, state, text)
    ensures Sealed(t, c, state, text) && t.wire == s.wire
  {
    hide RecordHistory, DeliveryAfter, Settle, ErrorClass, SpentOn;
  }

  lemma VerdictSeals(w: Windows, s: Sys, e: Event, t: Sys, c: ChunkId, state: ChunkState, text: string)
    requires Step(w, s, e) == Some(t) && e.ResolveChunk? && !Verdicts(e, c, state) && Sealed(s, c, state, text)
    ensures Sealed(t, c, state, text) && t.wire == s.wire
  {
    hide RecordHistory, AfterConfirmation, HasUnresolved, TerminalRetryUsed;
  }

  lemma MoveSeals(w: Windows, s: Sys, e: Event, t: Sys, c: ChunkId, state: ChunkState, text: string)
    requires Step(w, s, e) == Some(t) && MovesOnly(e) && Sealed(s, c, state, text)
    ensures Sealed(t, c, state, text) && SendsNoneOf(s.wire, t.wire, c)
  {
    if e.Transmit? {
      TransmitIsOwn(w, s, e, t);
    } else {
      MoveIsSilent(w, s, e, t);
    }
    hide Step;
    MovesKeepTables(w, s, e, t);
  }

  /** A transmitted text is of the chunk its process has begun. */
  lemma TransmitIsOwn(w: Windows, s: Sys, e: Event, t: Sys)
    requires Step(w, s, e) == Some(t) && e.Transmit?
    ensures e.p in s.procs && s.procs[e.p].Begun? && e.p in t.procs && !t.procs[e.p].Begun?
    ensures t.procs == s.procs[e.p := t.procs[e.p]]
    ensures t.wire == s.wire + [Transmission(Key(s.procs[e.p].c, s.procs[e.p].number), e.accepted)]
  {
    hide HonestReply;
  }

  lemma MoveIsSilent(w: Windows, s: Sys, e: Event, t: Sys)
    requires Step(w, s, e) == Some(t) && MovesOnly(e) && !e.Transmit?
    ensures t.wire == s.wire && forall p :: p in t.procs && t.procs[p].Begun? ==>
      p in s.procs && s.procs[p] == t.procs[p]
  {
    hide Selectable, BudgetExhausted, MayFail, HonestReply, Active, NoActive, Create, FinishWith, Begin, Prepare,
      Resolve, Recover, Reconcile, Acquire, Heartbeat, Release, Fail, SetCollectionRetry, RecordCollectionAttempt,
      ReopenForCollection, MarkTargetMismatch;
  }

  lemma OthersKeepChunks(w: Windows, s: Sys, e: Event, t: Sys)
    requires Step(w, s, e) == Some(t) && !OnChunks(e) && !MovesOnly(e)
    ensures t.db.chunks == s.db.chunks && t.db.nextChunk == s.db.nextChunk && t.wire == s.wire
  {
    hide BudgetExhausted, MayFail, PredecessorFits, GenerationTaken, HasChunks, Untouched, FinishWith, Begin, Prepare,
      Resolve, Recover, Selectable, HonestReply, Active, NoActive, Observe;
  }

  lemma OthersBeginNone(w: Windows, s: Sys, e: Event, t: Sys)
    requires Step(w, s, e) == Some(t) && !OnChunks(e) && !MovesOnly(e)
    ensures forall p :: p in t.procs && t.procs[p].Begun? ==> p in s.procs && s.procs[p] == t.procs[p]
  {
    hide BudgetExhausted, MayFail, Create, FinishWith, Begin, Prepare, Resolve, Recover, Reconcile, Selectable,
      HonestReply, Active, NoActive, Acquire, Heartbeat, Release, Fail, SetCollectionRetry, RecordCollectionAttempt,
      ReopenForCollection, MarkTargetMismatch;
  }

  lemma OtherEventSeals(w: Windows, s: Sys, e: Event, t: Sys, c: ChunkId, state: ChunkState, text: string)
    requires Step(w, s, e) == Some(t) && !OnChunks(e) && !MovesOnly(e) && Sealed(s, c, state, text)
    ensures Sealed(t, c, state, text) && t.wire == s.wire
  {
    hide Step;
    OthersKeepChunks(w, s, e, t);
    OthersBeginNone(w, s, e, t);
  }

  /** No event moves a settled chunk or sends its text, except a verdict on it. */
  lemma EventSeals(w: Windows, s: Sys, e: Event, t: Sys, c: ChunkId, state: ChunkState, text: string)
    requires Step(w, s, e) == Some(t) && !Verdicts(e, c, state) && Sealed(s, c, state, text)
    ensures Sealed(t, c, state, text) && SendsNoneOf(s.wire, t.wire, c)
  {
    hide Step, Sealed;
    if MovesOnly(e) {
      MoveSeals(w, s, e, t, c, state, text);
    } else if !OnChunks(e) {
      OtherEventSeals(w, s, e, t, c, state, text);
    } else if e.FinishSend? {
      FinishSeals(w, s, e, t, c, state, text);
    } else if e.ResolveChunk? {
      VerdictSeals(w, s, e, t, c, state, text);
    } else if e.BeginSend? {
      BeginSeals(w, s, e, t, c, state, text);
    } else if e.PrepareOutbox? {
      PrepareSeals(w, s, e, t, c, state, text);
    } else {
      RecoverSeals(w, s, e, t, c, state, text);
    }
  }

  lemma SafeRows(w: Windows, s: Sys)
    requires Safe(w, s)
    ensures HashesMatch(s.db.chunks) && WellFormed(s.db) && RowsSound(s.db)
  {
    hide ProcsSafe, WireSafe, Quiet, Frugal, RefusedPlain, Shape, Ledger, Accounted, Judged;
  }

  lemma {:induction false} RunSeals(w: Windows, x: Sys, events: seq<Event>, y: Sys, c: ChunkId, state: ChunkState,
                                    text: string)
    requires Run(w, x, events) == Some(y) && Sealed(x, c, state, text)
    requires forall i :: 0 <= i < |events| ==> !Verdicts(events[i], c, state)
    ensures Sealed(y, c, state, text) && SendsNoneOf(x.wire, y.wire, c)
  {
    hide Step, Sealed, Verdicts;
    if events != [] {
      var front, last := events[..|events| - 1], events[|events| - 1];
      var before := Run(w, x, front).value;
      RunSeals(w, x, front, before, c, state, text);
      EventSeals(w, before, last, y, c, state, text);
      assert y.wire[..|x.wire|] == y.wire[..|before.wire|][..|x.wire|];
      forall i | |x.wire| <= i < |y.wire| ensures y.wire[i].key.chunk != c {
        assert i < |before.wire| ==> y.wire[..|before.wire|][i] == y.wire[i];
      }
    }
  }

  lemma ClosedSeals(x: Sys, c: ChunkId, state: ChunkState, text: string)
    requires StoreClosed(x) && Settled(state) && c in x.db.chunks && c < x.db.nextChunk
    requires x.db.chunks[c].state == state && x.db.chunks[c].payload == text
    ensures Sealed(x, c, state, text)
  {
  }

  lemma MergeKeepsIds(target: Db, backup: Db, date: string, now: Time, run: RunId)
    requires Restored(Some(target), backup, date, now, run).Ok?
    ensures Restored(Some(target), backup, date, now, run).value.nextChunk == backup.nextChunk
  {
    hide Additions, AckChunks, AckAttempts, ConcludeAll;
  }

  /**
   * A snapshot of any run, restored over any later state of it: in every run
   * that starts from the restored tables, each chunk of the snapshot stays sent
   * with its text, and no event puts a text of it on the wire.
   */
  lemma RestoredSnapshotStaysSent(w: Windows, s: Sys, past: seq<Event>, t: Sys, future: seq<Event>, u: Sys,
                                  date: string, now: Time, run: RunId, x: Sys, later: seq<Event>, y: Sys, c: ChunkId)
    requires Init(s) && Run(w, s, past) == Some(t) && Run(w, t, future) == Some(u) && c in t.db.chunks
    requires Restored(Some(u.db), t.db, date, now, run) == Ok(x.db) && StoreClosed(x)
    requires Run(w, x, later) == Some(y)
    ensures c in y.db.chunks && y.db.chunks[c].state == Sent && y.db.chunks[c].payload == t.db.chunks[c].payload
    ensures SendsNoneOf(x.wire, y.wire, c)
  {
    hide Run, Restored, StoreClosed;
    SnapshotRestoreForgetsNothing(w, s, past, t, future, u, date, now, run, c, 0, now);
    MergeKeepsIds(u.db, t.db, date, now, run);
    RunSafe(w, s, past, t);
    assert c < t.db.nextChunk by {
      hide Safe;
      SafeRows(w, t);
    }
    hide Safe;
    ClosedSeals(x, c, Sent, t.db.chunks[c].payload);
    RunSeals(w, x, later, y, c, Sent, t.db.chunks[c].payload);
  }

  /**
   * A backup restored without a target: in every run that starts from the
   * restored tables, a chunk keeps its state and its text, and no event puts a
   * text of it on the wire, until an operator decides on it.
   */
  lemma FreshlyRestoredStaysHeld(w: Windows, backup: Db, date: string, now: Time, run: RunId, x: Sys, later: seq<Event>,
                                 y: Sys, c: ChunkId)
    requires WellFormed(backup) && c in backup.chunks
    requires Restored(None, backup, date, now, run) == Ok(x.db) && StoreClosed(x)
    requires Run(w, x, later) == Some(y)
    requires forall i :: 0 <= i < |later| ==> !(later[i].ResolveChunk? && later[i].c == c)
    ensures c in y.db.chunks && y.db.chunks[c].payload == backup.chunks[c].payload
    ensures y.db.chunks[c].state == if Sendable(backup.chunks[c]) then Ambiguous else backup.chunks[c].state
    ensures SendsNoneOf(x.wire, y.wire, c)
  {
    HeldIsSettled(backup, date, now, run, c);
    hide Run, Restored, StoreClosed;
    ClosedSeals(x, c, x.db.chunks[c].state, backup.chunks[c].payload);
    RunSeals(w, x, later, y, c, x.db.chunks[c].state, backup.chunks[c].payload);
  }

  lemma HeldIsSettled(backup: Db, date: string, now: Time, run: RunId, c: ChunkId)
    requires WellFormed(backup) && c in backup.chunks && Restored(None, backup, date, now, run).Ok?
    ensures
      var r := Restored(None, backup, date, now, run).value;
      && c in r.chunks && c < r.nextChunk && Settled(r.chunks[c].state) &&
         r.chunks[c].payload == backup.chunks[c].payload
      && r.chunks[c].state == if Sendable(backup.chunks[c]) then Ambiguous else backup.chunks[c].state
  {
  }

  // ----- stories after a restore

  lemma {:induction false} AllKnownAddNone(theirs: seq<HistoryRow>, known: seq<HistoryRow>, recovery: DeliveryId)
    requires forall i :: 0 <= i < |theirs| ==> Known(known, theirs[i])
    ensures Additions(theirs, known, recovery) == []
  {
    if theirs != [] {
      AllKnownAddNone(theirs[..|theirs| - 1], known, recovery);
    }
  }

  /** Every added row is one of the target's, moved to the recovery delivery. */
  lemma {:induction false} AdditionsFrom(theirs: seq<HistoryRow>, known: seq<HistoryRow>, recovery: DeliveryId, i: nat)
    returns (m: nat)
    requires i < |Additions(theirs, known, recovery)|
    ensures m < |theirs| && Additions(theirs, known, recovery)[i] == theirs[m].(delivery := recovery, chunk := 0)
  {
    var before := Additions(theirs[..|theirs| - 1], known, recovery);
    if i < |before| {
      m := AdditionsFrom(theirs[..|theirs| - 1], known, recovery, i);
    } else {
      m := |theirs| - 1;
    }
  }

  /** Rows merged into an earlier part of the same history stay apart. */
  lemma {:induction false} AdditionsApart(w: Windows, theirs: seq<HistoryRow>, known: seq<HistoryRow>,
                                          recovery: DeliveryId)
    requires Grows(known, theirs) && Spaced(w, theirs)
    ensures Spaced(w, known + Additions(theirs, known, recovery))
  {
    if |theirs| == |known| {
      AllKnownAddNone(theirs, known, recovery);
    } else {
      var front, last := theirs[..|theirs| - 1], theirs[|theirs| - 1];
      assert front[..|known|] == known;
      AdditionsApart(w, front, known, recovery);
      var before, after := known + Additions(front, known, recovery), known + Additions(theirs, known, recovery);
      forall i, j | 0 <= i < j < |after| ensures Apart(w, after[i], after[j]) {
        if j < |before| {
          assert after[i] == before[i] && after[j] == before[j];
        } else if i < |known| {
          assert after[i] == theirs[i];
        } else {
          var m := AdditionsFrom(front, known, recovery, i - |known|);
          assert front[m] == theirs[m];
        }
      }
    }
  }

  lemma MergedRowsUnique(target: Db, backup: Db, date: string, now: Time)
    requires Rowed(backup) && RowsSound(backup) && MergeHistory(target, backup, date, now).Ok?
    ensures RowsUnique(MergeHistory(target, backup, date, now).value.history)
  {
    var recovery := backup.nextDelivery;
    var added := Additions(target.history, backup.history, recovery);
    forall i | 0 <= i < |added| ensures added[i].delivery == recovery {
      var m := AdditionsFrom(target.history, backup.history, recovery, i);
    }
    forall i | 0 <= i < |backup.history| ensures backup.history[i].delivery < recovery {
      assert RowSound(backup, backup.history[i]);
    }
  }

  lemma MergedRowed(target: Db, backup: Db, date: string, now: Time)
    requires Rowed(backup) && RowsSound(backup) && MergeHistory(target, backup, date, now).Ok?
    ensures Rowed(MergeHistory(target, backup, date, now).value)
  {
    MergedRowsUnique(target, backup, date, now);
    hide RowsUnique, Additions, DistinctTitles;
  }

  lemma ReconciledUnfinished(target: Db, backup: Db, now: Time, run: RunId)
    requires Unfinished(backup)
    ensures Unfinished(ReconcileAcks(target, backup, now, run))
  {
    hide AckAttempts, Acknowledged, ItemsOf;
  }

  lemma ReconciledRowed(target: Db, backup: Db, now: Time, run: RunId)
    requires Rowed(backup)
    ensures Rowed(ReconcileAcks(target, backup, now, run))
  {
    var r := ReconcileAcks(target, backup, now, run);
    ReconciledUnfinished(target, backup, now, run);
    hide AckAttempts, RowsUnique, WellFormed, Catalogued, Unfinished, Acknowledged, Concluded;
    SameIdsWellFormed(backup, r);
    SameIdsCatalogued(backup, r);
  }

  lemma RestoredRowed(target: Db, backup: Db, date: string, now: Time, run: RunId)
    requires Rowed(backup) && RowsSound(backup) && Restored(Some(target), backup, date, now, run).Ok?
    ensures Rowed(Restored(Some(target), backup, date, now, run).value)
  {
    hide MergeHistory, ReconcileAcks, Rowed, RowsSound, TargetUnresolved, BackupUnresolved;
    MergedRowed(target, backup, date, now);
    ReconciledRowed(target, MergeHistory(target, backup, date, now).value, now, run);
  }

  /** A restore adds rows and concludes deliveries; it activates none and moves no item. */
  lemma RestoreActivatesNone(target: Db, backup: Db, date: string, now: Time, run: RunId)
    requires Restored(Some(target), backup, date, now, run).Ok?
    ensures
      var r := Restored(Some(target), backup, date, now, run).value;
      && (forall d :: Active(r, d) ==> Active(backup, d)) && r.items == backup.items
      && r.history == backup.history + Additions(target.history, backup.history, backup.nextDelivery)
  {
    hide Additions, DistinctTitles, AckChunks, AckAttempts, AllSent;
  }

  lemma RestoredQuiet(w: Windows, target: Db, backup: Db, date: string, now: Time, run: RunId, before: Time,
                      later: Time)
    requires Restored(Some(target), backup, date, now, run).Ok? && Quiet(w, backup, before)
    requires Grows(backup.history, target.history) && Spaced(w, target.history)
    requires
      var r := Restored(Some(target), backup, date, now, run).value;
      forall c :: c in r.chunks ==> r.chunks[c].state == Sent
    ensures Quiet(w, Restored(Some(target), backup, date, now, run).value, later)
  {
    RestoreActivatesNone(target, backup, date, now, run);
    AdditionsApart(w, target.history, backup.history, backup.nextDelivery);
    var r := Restored(Some(target), backup, date, now, run).value;
    hide Restored, Spaced, Grows;
    forall d | Active(r, d) ensures FreshItems(w, r, d, later) {
      assert FreshItems(w, backup, d, before);
    }
  }

  lemma ClosedTidy(w: Windows, x: Sys)
    requires Rowed(x.db) && Quiet(w, x.db, x.clock) && StoreClosed(x)
    ensures Tidy(w, x)
  {
    hide Rowed, Quiet;
  }

  lemma SnapshotRestoreTidies(w: Windows, s: Sys, past: seq<Event>, t: Sys, future: seq<Event>, u: Sys, date: string,
                              now: Time, run: RunId, x: Sys)
    requires Init(s) && Run(w, s, past) == Some(t) && Run(w, t, future) == Some(u)
    requires NeverRepeats(w, s, past) && NeverRepeats(w, t, future)
    requires Restored(Some(u.db), t.db, date, now, run) == Ok(x.db) && StoreClosed(x)
    ensures Tidy(w, x)
  {
    hide Run, Restored, NeverRepeats, ProcsTidy, PcTidy;
    InitTidy(w, s);
    RunKeepsTidy(w, s, past, t);
    RunKeepsTidy(w, t, future, u);
    RunSafe(w, s, past, t);
    RunKeepsSafe(w, t, future, u);
    SafeRows(w, t);
    hide Safe, Rowed, RowsSound;
    SnapshotIsKnown(t.db, u.db);
    EveryChunkSentIffKnown(u.db, t.db, date, now, run);
    hide Evolves, KnownToTarget;
    RestoredRowed(u.db, t.db, date, now, run);
    RestoredQuiet(w, u.db, t.db, date, now, run, t.clock, x.clock);
    ClosedTidy(w, x);
  }

  /** The backup has no row of this story, or one as recent. */
  predicate Carried(backup: seq<HistoryRow>, row: HistoryRow) {
    !Known(backup, row) || Covers(backup, row)
  }

  /**
   * A snapshot of any run, restored over any later state of it: whatever runs
   * then follow, no story is sent twice within a window, and none that the
   * target sent and the restore carried over is sent again within it.
   */
  lemma RestoredStoriesStayApart(w: Windows, s: Sys, past: seq<Event>, t: Sys, future: seq<Event>, u: Sys,
                                 date: string, now: Time, run: RunId, x: Sys, later: seq<Event>, y: Sys)
    requires Init(s) && Run(w, s, past) == Some(t) && Run(w, t, future) == Some(u)
    requires NeverRepeats(w, s, past) && NeverRepeats(w, t, future)
    requires Restored(Some(u.db), t.db, date, now, run) == Ok(x.db) && StoreClosed(x)
    requires Run(w, x, later) == Some(y) && NeverRepeats(w, x, later)
    ensures Spaced(w, y.db.history) && Grows(x.db.history, y.db.history)
    ensures forall j, i :: 0 <= j < |u.db.history| && |x.db.history| <= i < |y.db.history| ==>
      Carried(t.db.history, u.db.history[j]) ==> Apart(w, u.db.history[j], y.db.history[i])
  {
    hide Run, Restored, NeverRepeats, StoreClosed, Known;
    SnapshotRestoreTidies(w, s, past, t, future, u, date, now, run, x);
    RunKeepsTidy(w, x, later, y);
    forall j, i | 0 <= j < |u.db.history| && |x.db.history| <= i < |y.db.history| &&
      Carried(t.db.history, u.db.history[j])
      ensures Apart(w, u.db.history[j], y.db.history[i])
    {
      HistoryCarriedIff(u.db, t.db, date, now, run, j);
      CoveredApart(w, x.db.history, y.db.history, u.db.history[j], i);
    }
  }

  lemma CoveredApart(w: Windows, history: seq<HistoryRow>, history': seq<HistoryRow>, row: HistoryRow, i: nat)
    requires Grows(history, history') && Spaced(w, history') && Covers(history, row) && |history| <= i < |history'|
    ensures Apart(w, row, history'[i])
  {
    var k :| 0 <= k < |history| && SameStory(history[k], row) && history[k].sentAt >= row.sentAt;
    assert history'[k] == history[k] && Apart(w, history'[k], history'[i]);
  }

  /** The held copy differs from the backup in states alone, and in none that is sent, terminal or finished. */
  ghost predicate HeldAs(db: Db, db': Db) {
    && db'.(chunks := db.chunks, deliveries := db.deliveries) == db
    && db'.chunks.Keys == db.chunks.Keys && db'.deliveries.Keys == db.deliveries.Keys
    && (forall c :: c in db'.chunks ==>
          db'.chunks[c].delivery == db.chunks[c].delivery && db'.chunks[c].sequence == db.chunks[c].sequence &&
          (db'.chunks[c].state == Sent <==> db.chunks[c].state == Sent))
    && (forall d :: d in db'.deliveries ==>
          (Terminal(db'.deliveries[d].state) <==> Terminal(db.deliveries[d].state)) &&
          (Finished(db'.deliveries[d].state) <==> Finished(db.deliveries[d].state)))
  }

  lemma HoldingKeepsDeliveries(backup: Db)
    ensures
      var r := HoldSendable(backup);
      && r.(chunks := backup.chunks, deliveries := backup.deliveries) == backup
      && r.deliveries.Keys == backup.deliveries.Keys
      && (forall d :: d in r.deliveries ==>
            (Terminal(r.deliveries[d].state) <==> Terminal(backup.deliveries[d].state)) &&
            (Finished(r.deliveries[d].state) <==> Finished(backup.deliveries[d].state)))
  {
    hide HoldsChunk, HoldChunks, Sendable;
  }

  lemma HoldingHolds(backup: Db, date: string, now: Time, run: RunId)
    requires Restored(None, backup, date, now, run).Ok?
    ensures HeldAs(backup, Restored(None, backup, date, now, run).value)
  {
    HoldingKeepsDeliveries(backup);
    hide HoldsChunk, MergeHistory, ReconcileAcks, TargetUnresolved, BackupUnresolved, Terminal, Finished;
  }

  lemma HeldRowed(db: Db, db': Db)
    requires Rowed(db) && HeldAs(db, db')
    ensures Rowed(db')
  {
    SameIdsWellFormed(db, db');
    SameIdsCatalogued(db, db');
    hide WellFormed, Catalogued, RowsUnique, Terminal;
  }

  lemma HeldQuiet(w: Windows, db: Db, db': Db, now: Time)
    requires Quiet(w, db, now) && HeldAs(db, db')
    ensures Quiet(w, db', now)
  {
    assert forall d :: Active(db', d) ==> Active(db, d);
    forall d | Active(db', d) ensures FreshItems(w, db', d, now) {
      assert Active(db, d) && FreshItems(w, db, d, now);
      UnsentFrame(db.chunks, db'.chunks, d);
    }
  }

  /**
   * Without a target the snapshot's own history goes on: whatever runs follow, no
   * story is sent twice within a window.
   */
  lemma FreshlyRestoredStoriesStayApart(w: Windows, s: Sys, past: seq<Event>, t: Sys, date: string, now: Time,
                                        run: RunId, x: Sys, later: seq<Event>, y: Sys)
    requires Init(s) && Run(w, s, past) == Some(t) && NeverRepeats(w, s, past)
    requires Restored(None, t.db, date, now, run) == Ok(x.db) && StoreClosed(x) && t.clock <= x.clock
    requires Run(w, x, later) == Some(y) && NeverRepeats(w, x, later)
    ensures Spaced(w, y.db.history) && Grows(t.db.history, y.db.history)
  {
    hide Run, Restored, NeverRepeats, StoreClosed, ProcsTidy, Rowed;
    InitTidy(w, s);
    RunKeepsTidy(w, s, past, t);
    HoldingHolds(t.db, date, now, run);
    HeldRowed(t.db, x.db);
    LaterQuiet(w, t.db, t.clock, x.clock);
    HeldQuiet(w, t.db, x.db, x.clock);
    assert x.db.history == t.db.history;
    hide Quiet, HeldAs;
    ClosedTidy(w, x);
    RunKeepsTidy(w, x, later, y);
  }

  // ----- deliveries without chunks

  /** No chunk, and not completed. */
  ghost predicate Chunkless(db: Db, d: DeliveryId) {
    d in db.deliveries && !Finished(db.deliveries[d].state) && !HasChunks(db.chunks, d)
  }

  /**
   * A restore declares an unfinished delivery without chunks complete exactly
   * when the target acknowledges any chunk of any delivery of the backup.
   */
  lemma ChunklessConcludedIff(target: Db, backup: Db, date: string, now: Time, run: RunId, d: DeliveryId)
    requires Restored(Some(target), backup, date, now, run).Ok? && WellFormed(backup) && Chunkless(backup, d)
    ensures
      var r := Restored(Some(target), backup, date, now, run).value;
      && d in r.deliveries
      && (Finished(r.deliveries[d].state) <==> AcknowledgedSet(target, backup) != {})
  {
    MergeKeepsOutbox(target, backup, date, now);
    var merged := MergeHistory(target, backup, date, now).value;
    hide MergeHistory, AckAttempts, AckRow;
    assert AcknowledgedSet(target, merged) == AcknowledgedSet(target, backup);
    var chunks := AckChunks(target, merged, target.chunks.Keys, now);
    assert AllSent(chunks, d);
  }

  /** In a safe database the chunk that a later state acknowledges lies in a delivery that was then active. */
  lemma AcknowledgedWasActive(target: Db, backup: Db, c: ChunkId)
    requires DbSafe(backup) && Evolves(backup, target) && TerminalStays(backup, target)
    requires !TargetUnresolved(target) && Acknowledged(target, backup, c)
    ensures Active(backup, backup.chunks[c].delivery)
  {
    var d := backup.chunks[c].delivery;
    assert !AllSent(backup.chunks, d);
    assert d in target.deliveries;
  }

  /** The only active delivery has no chunks, so no chunk is left to acknowledge. */
  lemma NothingAcknowledged(target: Db, backup: Db, d: DeliveryId)
    requires DbSafe(backup) && SingleActive(backup) && Evolves(backup, target) && TerminalStays(backup, target)
    requires !TargetUnresolved(target) && Chunkless(backup, d)
    ensures AcknowledgedSet(target, backup) == {}
  {
    assert Active(backup, d) by {
      assert d in target.deliveries;
    }
    hide DbSafe, Evolves, TerminalStays, TargetUnresolved, Acknowledged;
    forall c | c in backup.chunks ensures !Acknowledged(target, backup, c) {
      if Acknowledged(target, backup, c) {
        AcknowledgedWasActive(target, backup, c);
      }
    }
  }

  lemma RestoredIsResolved(target: Db, backup: Db, date: string, now: Time, run: RunId)
    requires Restored(Some(target), backup, date, now, run).Ok?
    ensures !TargetUnresolved(target) && !BackupUnresolved(backup)
  {
  }

  /**
   * Restoring an earlier snapshot of a run in which no operator revived a
   * delivery declares no delivery without chunks complete.
   */
  lemma SnapshotKeepsChunkless(w: Windows, s: Sys, past: seq<Event>, t: Sys, future: seq<Event>, u: Sys, date: string,
                               now: Time, run: RunId, d: DeliveryId)
    requires Init(s) && Run(w, s, past) == Some(t) && Run(w, t, future) == Some(u) && !u.reopened
    requires Restored(Some(u.db), t.db, date, now, run).Ok? && Chunkless(t.db, d)
    ensures
      var r := Restored(Some(u.db), t.db, date, now, run).value;
      d in r.deliveries && !Finished(r.deliveries[d].state)
  {
    hide Run, Restored, Chunkless, TargetUnresolved, BackupUnresolved;
    RunSafe(w, s, past, t);
    RunKeepsSafe(w, t, future, u);
    TerminalForever(w, t, future, u);
    RestoredIsResolved(u.db, t.db, date, now, run);
    ChunklessConcludedIff(u.db, t.db, date, now, run, d);
    hide Outbox, History, Frugal, RefusedPlain, ProcsSafe, WireSafe, Evolves, TerminalStays, AcknowledgedSet;
    NothingAcknowledged(u.db, t.db, d);
  }

  // ----- a failed delivery declared complete

  const NEXT_DAY := "2024-01-02"
  const STORY := Story(Sha256("title"), Sha256("url"))

  /** A first collection failed: delivery 1 is failed_terminal and has no chunks. */
  function FailedOnce(s: Sys): Sys {
    s.(db := s.db.(deliveries := map[1 := FailedDelivery(s.clock)], nextDelivery := 2, lease := None),
       procs := map[7 := Ended])
  }

  function FailedDelivery(at: Time): Delivery {
    NewDelivery(FIRST_DAY, at).(state := FailedTerminal, terminalError := OtherError)
  }

  lemma FailsCollecting(w: Windows, s: Sys) returns (events: seq<Event>)
    requires Init(s)
    ensures Run(w, s, events) == Some(FailedOnce(s))
  {
    Nothing(w, s);
    assert Idle(s) && !GenerationTaken(s.db.deliveries, FIRST_DAY, 0);
    hide Run, Idle, GenerationTaken, Step;
    events := Enters(w, s, [], s, 7);
    var vacant, created := Goto(Leased(s, 7), 7, Vacant), Created(Leased(s, 7), 7, FIRST_DAY);
    StepCreate(w, vacant, 7, FIRST_DAY);
    assert Created(vacant, 7, FIRST_DAY) == created;
    events := Extend(w, s, events, vacant, CreateDelivery(7, FIRST_DAY, 0, POLICY, NotForced), created);
    events := FailsCreated(w, s, events);
  }

  lemma FailsCreated(w: Windows, s: Sys, events: seq<Event>) returns (more: seq<Event>)
    requires Init(s) && Run(w, s, events) == Some(Created(Leased(s, 7), 7, FIRST_DAY))
    ensures Run(w, s, more) == Some(FailedOnce(s))
  {
    var created := Created(Leased(s, 7), 7, FIRST_DAY);
    var db := FailedOnce(s).db.(lease := created.db.lease);
    assert created.db.deliveries == map[1 := NewDelivery(FIRST_DAY, s.clock)];
    assert created.db.deliveries[1 := FailedDelivery(s.clock)] == db.deliveries;
    assert Fail(created.db, 1, 7, s.clock) == Ok(db);
    var failed := Goto(created.(db := db), 7, Releasing);
    assert Goto(failed.(db := db.(lease := None)), 7, Ended) == FailedOnce(s);
    hide Run, Step, Fail, FailedOnce;
    StepFail(w, created, 7, Gathering(1), db);
    more := Extend(w, s, events, created, FailNow(7, POLICY), failed);
    StepRelease(w, failed, 7);
    more := Extend(w, s, more, failed, ReleaseLease(7), FailedOnce(s));
  }

  /** Then process 8 freezes the next day's only message and dies. */
  function FrozenNext(s: Sys, text: string): Sys {
    var created := Created(Leased(FailedOnce(s), 8), 8, NEXT_DAY);
    Goto(Frozen(created, 8, 2, STORY, [text]), 8, Ended)
  }

  lemma FailedOnceIs(s: Sys)
    requires Init(s)
    ensures
      var t := FailedOnce(s);
      && Idle(t) && 8 !in t.procs && !GenerationTaken(t.db.deliveries, NEXT_DAY, 0) && t.db.history == []
      && t.db.nextDelivery == 2 && ItemsOf(t.db.items, 2) == [] && !HasChunks(t.db.chunks, 2)
  {
  }

  lemma FreezesNext(w: Windows, s: Sys, text: string) returns (events: seq<Event>)
    requires Init(s) && text != ""
    ensures Run(w, s, events) == Some(FrozenNext(s, text))
  {
    events := FailsCollecting(w, s);
    var t := FailedOnce(s);
    FailedOnceIs(s);
    assert Unseen(w, t.db.history, STORY, t.clock);
    var created := Created(Leased(t, 8), 8, NEXT_DAY);
    assert created.db.deliveries[2] == NewDelivery(NEXT_DAY, t.clock);
    hide Run, Idle, GenerationTaken, Unseen, HasChunks, FailedOnce, Step;
    events := Enters(w, s, events, t, 8);
    events := Chooses(w, s, events, Leased(t, 8), 8, NEXT_DAY, STORY);
    events := Freezes(w, s, events, created, 8, 2, STORY, [text]);
    var frozen := Frozen(created, 8, 2, STORY, [text]);
    StepCrash(w, frozen, 8);
    events := Extend(w, s, events, frozen, Crash(8), Goto(frozen, 8, Ended));
  }

  lemma FrozenNextIs(s: Sys, text: string)
    requires Init(s)
    ensures
      var b := FrozenNext(s, text).db;
      && b.chunks == map[1 := FreshChunk(2, 0, text)] && b.history == [] && b.nextDelivery == 3
      && Chunkless(b, 1) && b.deliveries[1].state == FailedTerminal
  {
    OneFresh(map[], 2, text, 1);
    hide FreshChunks;
  }

  /** A target that sent the same text under the same id, and nothing else. */
  ghost predicate SentOnly(target: Db, text: string) {
    && target.chunks.Keys == {1} && target.chunks[1].state == Sent && target.chunks[1].hash == Sha256(text)
    && (forall d :: d in target.deliveries ==> Finished(target.deliveries[d].state))
    && |target.history| == 1 && target.lease == None
  }

  lemma OneAddition(known: seq<HistoryRow>, row: HistoryRow, recovery: DeliveryId)
    requires known == []
    ensures Additions([row], known, recovery) == [row.(delivery := recovery, chunk := 0)]
  {
    assert [row][..0] == [];
    assert Additions([], known, recovery) == [];
  }

  lemma RestoredOver(target: Db, backup: Db, text: string, date: string, now: Time, run: RunId)
    requires SentOnly(target, text) && backup.chunks == map[1 := FreshChunk(2, 0, text)] && backup.history == []
    ensures Restored(Some(target), backup, date, now, run).Ok? && AcknowledgedSet(target, backup) != {}
  {
    assert target.history == [target.history[0]];
    OneAddition(backup.history, target.history[0], backup.nextDelivery);
    assert Acknowledged(target, backup, 1) && 1 in AcknowledgedSet(target, backup);
    hide Additions, AckChunks, AckAttempts, ConcludeAll, AcknowledgedSet;
  }

  lemma DeliveredAlone(s: Sys, t: Sys, text: string)
    requires Init(s) && OneMoreDelivered(s, t, 7, FIRST_DAY, STORY, text) && HashesMatch(t.db.chunks)
    ensures SentOnly(t.db, text)
  {
  }

  lemma SendsElsewhere(w: Windows, s: Sys, text: string) returns (events: seq<Event>, t: Sys)
    requires Init(s) && text != ""
    ensures Run(w, s, events) == Some(t) && SentOnly(t.db, text)
  {
    hide Run, OneMoreDelivered, Safe, SentOnly, HashesMatch, WellFormed;
    events, t := DeliversFirst(w, s, STORY, text);
    RunSafe(w, s, events, t);
    SafeRows(w, t);
    DeliveredAlone(s, t, text);
  }

  /**
   * The failing case in the concrete: the backup holds a failed delivery
   * without chunks and an unsent text; the target, another database, sent that
   * text under the same chunk id.  The restore completes the failed delivery.
   */
  lemma FailedBecomesComplete(w: Windows, s: Sys, text: string, date: string, now: Time, run: RunId)
    returns (before: seq<Event>, b: Sys, elsewhere: seq<Event>, t: Sys)
    requires Init(s) && text != ""
    ensures Run(w, s, before) == Some(b) && Run(w, s, elsewhere) == Some(t)
    ensures Chunkless(b.db, 1) && b.db.deliveries[1].state == FailedTerminal
    ensures
      var restored := Restored(Some(t.db), b.db, date, now, run);
      restored.Ok? && 1 in restored.value.deliveries && Finished(restored.value.deliveries[1].state)
  {
    hide Run;
    before := FreezesNext(w, s, text);
    b := FrozenNext(s, text);
    FrozenNextIs(s, text);
    hide FrozenNext, Restored, AcknowledgedSet, SentOnly, Safe, WellFormed, Chunkless;
    RunSafe(w, s, before, b);
    SafeRows(w, b);
    elsewhere, t := SendsElsewhere(w, s, text);
    RestoredOver(t.db, b.db, text, date, now, run);
    ChunklessConcludedIff(t.db, b.db, date, now, run, 1);
  }

  // ----- a story sent before and after the backup

  /** Ids that a safe database will hand out next are unused. */
  lemma NextIdsFresh(db: Db)
    requires WellFormed(db) && RowsSound(db)
    ensures FreshIds(db)
  {
    forall i | 0 <= i < |db.history| ensures db.history[i].delivery != db.nextDelivery {
      assert RowSound(db, db.history[i]);
    }
  }

  /** What two deliveries of one story, forty days apart, leave behind. */
  ghost predicate SentAgain(t: Sys, u: Sys, story: Story, day: Time) {
    && t.db.history == [HistoryRow(story.url, story.fingerprint, 1, 1, day)]
    && u.db.history == t.db.history + [HistoryRow(story.url, story.fingerprint, 2, 2, day + 40)]
    && (forall c :: c in t.db.chunks ==> t.db.chunks[c].state == Sent)
    && (forall c :: c in u.db.chunks ==> u.db.chunks[c].state == Sent)
    && (forall d :: d in u.db.deliveries ==> Finished(u.db.deliveries[d].state))
    && u.db.lease == None && u.clock == day + 41
  }

  lemma IdleAgain(w: Windows, s: Sys, t: Sys, day: Time, story: Story)
    requires Init(s) && OneMoreDelivered(s, t, 7, FIRST_DAY, story, "text") && s.clock == day
    requires WellFormed(t.db) && RowsSound(t.db) && w == Windows(30, 14)
    ensures
      var later := t.(clock := day + 40);
      && Idle(later) && FreshIds(later.db) && 8 !in later.procs && later.db.nextDelivery == 2 && later.db.nextChunk == 2
      && !GenerationTaken(later.db.deliveries, NEXT_DAY, 0) && Unseen(w, later.db.history, story, day + 40)
  {
    NextIdsFresh(t.db);
  }

  lemma SentAgainIs(s: Sys, t: Sys, v: Sys, u: Sys, day: Time, story: Story)
    requires Init(s) && OneMoreDelivered(s, t, 7, FIRST_DAY, story, "text") && s.clock == day
    requires OneMoreDelivered(t.(clock := day + 40), v, 8, NEXT_DAY, story, "text") && u == v.(clock := day + 41)
    ensures SentAgain(t, u, story, day)
  {
  }

  lemma Unmoved(s: Sys, t: Sys, p: RunId, date: string, story: Story)
    requires OneMoreDelivered(s, t, p, date, story, "text")
    ensures t.clock == s.clock
  {
  }

  lemma SendsFirst(w: Windows, s: Sys, story: Story) returns (events: seq<Event>, t: Sys)
    requires Init(s) && w == Windows(30, 14)
    ensures Run(w, s, events) == Some(t) && OneMoreDelivered(s, t, 7, FIRST_DAY, story, "text")
    ensures WellFormed(t.db) && RowsSound(t.db)
  {
    hide Run, OneMoreDelivered, Safe, WellFormed, RowsSound;
    events, t := DeliversFirst(w, s, story, "text");
    RunSafe(w, s, events, t);
    SafeRows(w, t);
  }

  lemma SendsAgain(w: Windows, s: Sys, story: Story)
    returns (past: seq<Event>, t: Sys, future: seq<Event>, u: Sys)
    requires Init(s) && w == Windows(30, 14)
    ensures Run(w, s, past) == Some(t) && Run(w, t, future) == Some(u) && SentAgain(t, u, story, s.clock)
  {
    hide Run, Idle, FreshIds, Unseen, GenerationTaken, OneMoreDelivered, SentAgain, WellFormed, RowsSound, Init;
    past, t := SendsFirst(w, s, story);
    IdleAgain(w, s, t, s.clock, story);
    Nothing(w, t);
    var later := t.(clock := s.clock + 40);
    Unmoved(s, t, 7, FIRST_DAY, story);
    future := Extend(w, t, [], t, Tick(s.clock + 40), later);
    var v;
    future, v := DeliversOneMore(w, t, future, later, 8, NEXT_DAY, story, "text");
    u := v.(clock := s.clock + 41);
    Unmoved(later, v, 8, NEXT_DAY, story);
    future := Extend(w, t, future, v, Tick(s.clock + 41), u);
    SentAgainIs(s, t, v, u, s.clock, story);
  }

  lemma KnownTwice(t: Sys, u: Sys, story: Story, day: Time)
    requires SentAgain(t, u, story, day)
    ensures Additions(u.db.history, t.db.history, t.db.nextDelivery) == []
  {
    var known, theirs := t.db.history, u.db.history;
    assert Known(known, theirs[0]) by { assert SameStory(known[0], theirs[0]); }
    assert Known(known, theirs[1]) by { assert SameStory(known[0], theirs[1]); }
    NoAdditions(known, t.db.nextDelivery);
    OneMoreAddition(theirs, 0, known, t.db.nextDelivery);
    OneMoreAddition(theirs, 1, known, t.db.nextDelivery);
    assert theirs[..0] == [] && theirs[..2] == theirs;
  }

  lemma ForgottenAfter(t: Sys, u: Sys, story: Story, day: Time, date: string, run: RunId)
    requires SentAgain(t, u, story, day)
    ensures
      var restored := Restored(Some(u.db), t.db, date, day + 41, run);
      && restored.Ok? && Unseen(Windows(30, 14), restored.value.history, story, day + 41)
      && !Unseen(Windows(30, 14), u.db.history, story, day + 41)
  {
    KnownTwice(t, u, story, day);
    assert u.db.history[1].sentAt == day + 40;
    hide Additions, AckChunks, AckAttempts, ConcludeAll;
  }

  /**
   * The failing case in the concrete, with windows of 30 and 14 days: a story
   * sent, backed up, sent again forty days later and restored the next day
   * looks unsent, although the database restored over knew better.
   */
  lemma ResentStoryForgotten(w: Windows, s: Sys, story: Story, date: string, run: RunId)
    returns (past: seq<Event>, t: Sys, future: seq<Event>, u: Sys)
    requires Init(s) && w == Windows(30, 14)
    ensures Run(w, s, past) == Some(t) && Run(w, t, future) == Some(u)
    ensures
      var restored := Restored(Some(u.db), t.db, date, u.clock, run);
      restored.Ok? && Unseen(w, restored.value.history, story, u.clock) && !Unseen(w, u.db.history, story, u.clock)
  {
    hide Run, Init, Restored, Unseen;
    past, t, future, u := SendsAgain(w, s, story);
    ForgottenAfter(t, u, story, s.clock, date, run);
  }
}
