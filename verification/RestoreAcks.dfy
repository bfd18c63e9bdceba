/**
 * What a restore makes of the tables: the target's acknowledgements and history
 * are carried into the restored copy, or, without a target, everything sendable
 * is held for an operator.
 */
module RestoreAcks {
  import opened Wrappers
  import opened Rows
  import opened Transactions
  import opened OutboxInvariant
  import opened HistoryInvariant
  import opened Evolution
  import opened Protocol
  import opened ProtocolInvariant
  import opened ProtocolSteps
  import opened Store

  datatype Refusal = ActiveLease | UnresolvedTarget | UnresolvedBackup | HistoryClash

  // ----- refusals

  /** Target work that a restore would overwrite. */
  predicate TargetUnresolved(target: Db) {
    || (exists c :: c in target.chunks && target.chunks[c].state != Sent)
    || (exists d :: d in target.deliveries && !Finished(target.deliveries[d].state))
  }

  predicate BackupUnresolved(backup: Db) {
    exists c :: c in backup.chunks && (backup.chunks[c].state == InFlight || backup.chunks[c].state == Ambiguous)
  }

  // ----- history

  predicate SameStory(a: HistoryRow, b: HistoryRow) {
    a.url == b.url && a.fingerprint == b.fingerprint
  }

  predicate Known(history: seq<HistoryRow>, row: HistoryRow) {
    exists i :: 0 <= i < |history| && SameStory(history[i], row)
  }

  /** The target's rows of stories the backup has no row for, as rows of the recovery delivery. */
  function Additions(theirs: seq<HistoryRow>, known: seq<HistoryRow>, recovery: DeliveryId): seq<HistoryRow> {
    if theirs == [] then []
    else
      var last := theirs[|theirs| - 1];
      Additions(theirs[..|theirs| - 1], known, recovery) +
      if Known(known, last) then [] else [last.(delivery := recovery, chunk := 0)]
  }

  /** UNIQUE(delivery_id, fingerprint) over the recovery delivery. */
  predicate DistinctTitles(rows: seq<HistoryRow>) {
    forall i, j :: 0 <= i < j < |rows| ==> rows[i].fingerprint != rows[j].fingerprint
  }

  function RecoveryDelivery(date: string, now: Time): Delivery {
    Delivery(date, 0, Empty, CompletedEmpty, "", now, None, OtherError, None, None)
  }

  /** _merge_post_backup_history. */
  function MergeHistory(target: Db, backup: Db, date: string, now: Time): Result<Db, Refusal> {
    var additions := Additions(target.history, backup.history, backup.nextDelivery);
    if additions == [] then Ok(backup)
    else if !DistinctTitles(additions) then Err(HistoryClash)
    else
      Ok(backup.(
        deliveries := backup.deliveries[backup.nextDelivery := RecoveryDelivery(date, now)],
        nextDelivery := backup.nextDelivery + 1,
        history := backup.history + additions))
  }

  // ----- acknowledgements

  /** The target sent this very text, and the backup does not know. */
  predicate Acknowledged(target: Db, backup: Db, c: ChunkId) {
    && c in target.chunks && c in backup.chunks && target.chunks[c].state == Sent
    && backup.chunks[c].hash == target.chunks[c].hash
    && backup.chunks[c].state != Sent && backup.chunks[c].state != Ambiguous
  }

  function AckRow(row: Chunk, theirs: Chunk, now: Time): Chunk {
    row.(state := Sent, messageId := theirs.messageId, sentAt := Some(theirs.sentAt.UnwrapOr(now)),
         attemptCount := Max(row.attemptCount, theirs.attemptCount), nextAttemptAt := None,
           errorClass := "restored_ack")
  }

  function AckChunks(target: Db, backup: Db, done: set<ChunkId>, now: Time): map<ChunkId, Chunk> {
    map c | c in backup.chunks ::
      if c in done && Acknowledged(target, backup, c)
      then AckRow(backup.chunks[c], target.chunks[c], now)
      else backup.chunks[c]
  }

  function AckKey(target: Db, backup: Db, c: ChunkId): AttemptKey
    requires c in backup.chunks && c in target.chunks
  {
    Key(c, Max(backup.chunks[c].attemptCount, target.chunks[c].attemptCount))
  }

  function AckKeys(target: Db, backup: Db, done: set<ChunkId>): set<AttemptKey> {
    set c | c in done && Acknowledged(target, backup, c) :: AckKey(target, backup, c)
  }

  function AckAttempt(target: Db, backup: Db, c: ChunkId, now: Time, run: RunId): Attempt
    requires c in backup.chunks && c in target.chunks
  {
    var at := target.chunks[c].sentAt.UnwrapOr(now);
    Attempt(backup.chunks[c].delivery, run, at, Accepted, Some(at))
  }

  /** One accepted attempt per acknowledged chunk; a row with that number already there stays. */
  function AckAttempts(target: Db, backup: Db, done: set<ChunkId>, now: Time, run: RunId): map<AttemptKey, Attempt> {
    AckedByKey(target, backup, AckKeys(target, backup, done), now, run) + backup.attempts
  }

  function AckedByKey(target: Db, backup: Db, keys: set<AttemptKey>, now: Time, run: RunId): map<AttemptKey, Attempt> {
    map k | k in keys && k.chunk in backup.chunks && k.chunk in target.chunks ::
      AckAttempt(target, backup, k.chunk, now, run)
  }

  /** Deliveries none of whose chunks is unsent are declared complete, those without chunks included. */
  function Concluded(row: Delivery, chunks: map<ChunkId, Chunk>, items: map<DeliveryId, seq<Item>>,
                     d: DeliveryId): Delivery
  {
    if Finished(row.state) || !AllSent(chunks, d) then row
    else row.(state := if ItemsOf(items, d) == [] then CompletedEmpty else Completed, nextAttemptAt := None)
  }

  function ConcludeAll(deliveries: map<DeliveryId, Delivery>, chunks: map<ChunkId, Chunk>,
                       items: map<DeliveryId, seq<Item>>, done: set<DeliveryId>): map<DeliveryId, Delivery>
  {
    map d | d in deliveries :: if d in done then Concluded(deliveries[d], chunks, items, d) else deliveries[d]
  }

  function AcknowledgedSet(target: Db, backup: Db): set<ChunkId> {
    set c | c in backup.chunks && Acknowledged(target, backup, c)
  }

  /** _reconcile_restored_acks. */
  function ReconcileAcks(target: Db, backup: Db, now: Time, run: RunId): Db {
    var sent := target.chunks.Keys;
    var chunks := AckChunks(target, backup, sent, now);
    backup.(
      chunks := chunks,
      attempts := AckAttempts(target, backup, sent, now, run),
      deliveries :=
        if AcknowledgedSet(target, backup) == {} then backup.deliveries
        else ConcludeAll(backup.deliveries, chunks, backup.items, backup.deliveries.Keys))
  }

  // ----- a restore without a target

  const HELD := "restored_without_reconciliation_evidence"

  predicate Sendable(row: Chunk) {
    row.state == Pending || row.state == Waiting
  }

  predicate HoldsChunk(chunks: map<ChunkId, Chunk>, d: DeliveryId) {
    exists c :: c in chunks && chunks[c].delivery == d && chunks[c].state == Ambiguous && chunks[c].errorClass == HELD
  }

  function HoldChunks(chunks: map<ChunkId, Chunk>): map<ChunkId, Chunk> {
    map c | c in chunks ::
      if Sendable(chunks[c])
      then chunks[c].(state := Ambiguous, errorClass := HELD, nextAttemptAt := None)
      else chunks[c]
  }

  /** _quarantine_unreconciled_sendable. */
  function HoldSendable(backup: Db): Db {
    if forall c :: c in backup.chunks ==> !Sendable(backup.chunks[c]) then backup
    else
      var chunks := HoldChunks(backup.chunks);
      backup.(
        chunks := chunks,
        deliveries := map d | d in backup.deliveries ::
          if HoldsChunk(chunks, d) && !Terminal(backup.deliveries[d].state) &&
            backup.deliveries[d].state != NeedsAttention
          then backup.deliveries[d].(state := NeedsAttention, terminalError := OtherError) else backup.deliveries[d])
  }

  // ----- the whole restore

  function Restored(target: Option<Db>, backup: Db, date: string, now: Time, run: RunId): Result<Db, Refusal> {
    match target
    case None => if BackupUnresolved(backup) then Err(UnresolvedBackup) else Ok(HoldSendable(backup))
    case Some(current) =>
      if LeaseLive(current.lease, now) then Err(ActiveLease)
      else if TargetUnresolved(current) then Err(UnresolvedTarget)
      else if BackupUnresolved(backup) then Err(UnresolvedBackup)
      else
        match MergeHistory(current, backup, date, now)
        case Err(refusal) => Err(refusal)
        case Ok(merged) => Ok(ReconcileAcks(current, merged, now, run))
  }

  // ----- no acknowledgement is forgotten

  /** The target holds the same text under the same id. */
  predicate KnownToTarget(target: Db, backup: Db, c: ChunkId)
    requires c in backup.chunks
  {
    c in target.chunks && target.chunks[c].hash == backup.chunks[c].hash
  }

  lemma MergeKeepsOutbox(target: Db, backup: Db, date: string, now: Time)
    requires MergeHistory(target, backup, date, now).Ok?
    ensures
      var m := MergeHistory(target, backup, date, now).value;
      && m.chunks == backup.chunks && m.attempts == backup.attempts && m.items == backup.items
      && (forall d :: d in backup.deliveries && d < backup.nextDelivery ==>
            d in m.deliveries && m.deliveries[d] == backup.deliveries[d])
  {
  }

  /**
   * An accepted restore over a target: every chunk ends up sent exactly when the
   * target holds each text the backup thinks unsent.
   */
  lemma EveryChunkSentIffKnown(target: Db, backup: Db, date: string, now: Time, run: RunId)
    requires Restored(Some(target), backup, date, now, run).Ok?
    ensures
      var r := Restored(Some(target), backup, date, now, run).value;
      && r.chunks.Keys == backup.chunks.Keys
      && ((forall c :: c in r.chunks ==> r.chunks[c].state == Sent) <==>
          (forall c :: c in backup.chunks && backup.chunks[c].state != Sent ==> KnownToTarget(target, backup, c)))
  {
    MergeKeepsOutbox(target, backup, date, now);
    var merged := MergeHistory(target, backup, date, now).value;
    var r := ReconcileAcks(target, merged, now, run);
    forall c | c in backup.chunks
      ensures r.chunks[c].state == Sent <==> backup.chunks[c].state == Sent || KnownToTarget(target, backup, c)
    {
    }
  }

  /** The verdicts then follow, if the backup's own verdicts were right. */
  lemma EveryVerdictFollows(target: Db, backup: Db, date: string, now: Time, run: RunId, d: DeliveryId)
    requires Restored(Some(target), backup, date, now, run).Ok?
    requires WellFormed(backup) && Judged(backup) && d in backup.deliveries && HasChunks(backup.chunks, d)
    requires forall c :: c in backup.chunks && backup.chunks[c].state != Sent ==> KnownToTarget(target, backup, c)
    ensures
      var r := Restored(Some(target), backup, date, now, run).value;
      d in r.deliveries && Finished(r.deliveries[d].state)
  {
    MergeKeepsOutbox(target, backup, date, now);
    EveryChunkSentIffKnown(target, backup, date, now, run);
    hide MergeHistory, AckAttempts, AckRow, HasChunks, TargetUnresolved;
    var merged := MergeHistory(target, backup, date, now).value;
    var r := ReconcileAcks(target, merged, now, run);
    if AcknowledgedSet(target, merged) == {} {
      NothingToAcknowledge(target, backup, merged, d);
    } else {
      assert AllSent(r.chunks, d);
    }
  }

  lemma NothingToAcknowledge(target: Db, backup: Db, merged: Db, d: DeliveryId)
    requires merged.chunks == backup.chunks && AcknowledgedSet(target, merged) == {} && !TargetUnresolved(target) &&
      !BackupUnresolved(backup)
    requires forall c :: c in backup.chunks && backup.chunks[c].state != Sent ==> KnownToTarget(target, backup, c)
    ensures AllSent(backup.chunks, d)
  {
    forall c | c in backup.chunks ensures backup.chunks[c].state == Sent {
      assert c !in AcknowledgedSet(target, merged);
    }
  }

  /**
   * Restoring an earlier snapshot of the same database, at any point of any run:
   * the snapshot's chunks all end up sent and its deliveries completed, so no
   * text of the snapshot can be begun again.
   */
  lemma SnapshotRestoreForgetsNothing(w: Windows, s: Sys, past: seq<Event>, t: Sys, future: seq<Event>, u: Sys,
                                      date: string, now: Time, run: RunId, c: ChunkId, p: RunId, later: Time)
    requires Init(s) && Run(w, s, past) == Some(t) && Run(w, t, future) == Some(u)
    requires Restored(Some(u.db), t.db, date, now, run).Ok? && c in t.db.chunks
    ensures
      var r := Restored(Some(u.db), t.db, date, now, run).value;
      var d := t.db.chunks[c].delivery;
      && c in r.chunks && r.chunks[c].state == Sent && r.chunks[c].payload == t.db.chunks[c].payload
      && d in r.deliveries && Finished(r.deliveries[d].state)
      && Begin(r, c, p, p, later).Err?
  {
    hide Run, Restored, Begin, History;
    RunSafe(w, s, past, t);
    RunKeepsSafe(w, t, future, u);
    var d := t.db.chunks[c].delivery;
    SnapshotIsKnown(t.db, u.db);
    EveryChunkSentIffKnown(u.db, t.db, date, now, run);
    EveryVerdictFollows(u.db, t.db, date, now, run, d);
    PayloadsKept(u.db, t.db, date, now, run, c);
    SentIsNotBegun(Restored(Some(u.db), t.db, date, now, run).value, c, p, later);
  }

  lemma SnapshotIsKnown(backup: Db, target: Db)
    requires Evolves(backup, target)
    ensures forall c :: c in backup.chunks ==> KnownToTarget(target, backup, c)
  {
    forall c | c in backup.chunks ensures KnownToTarget(target, backup, c) {
      assert ChunkFrozen(backup.chunks[c], target.chunks[c]);
    }
  }

  lemma PayloadsKept(target: Db, backup: Db, date: string, now: Time, run: RunId, c: ChunkId)
    requires Restored(Some(target), backup, date, now, run).Ok? && c in backup.chunks
    ensures
      var r := Restored(Some(target), backup, date, now, run).value;
      c in r.chunks && r.chunks[c].payload == backup.chunks[c].payload
  {
    MergeKeepsOutbox(target, backup, date, now);
  }

  lemma SentIsNotBegun(db: Db, c: ChunkId, p: RunId, now: Time)
    requires c in db.chunks && db.chunks[c].state != Pending && db.chunks[c].state != Waiting
    ensures Begin(db, c, p, p, now).Err?
  {
  }

  /** Some chunk of the delivery could still be sent. */
  predicate HasSendable(chunks: map<ChunkId, Chunk>, d: DeliveryId) {
    exists c :: c in chunks && chunks[c].delivery == d && Sendable(chunks[c])
  }

  lemma HeldExactly(backup: Db, d: DeliveryId)
    requires !BackupUnresolved(backup)
    ensures HoldsChunk(HoldChunks(backup.chunks), d) <==> HasSendable(backup.chunks, d)
  {
    var held := HoldChunks(backup.chunks);
    if HasSendable(backup.chunks, d) {
      var c :| c in backup.chunks && backup.chunks[c].delivery == d && Sendable(backup.chunks[c]);
      assert held[c].state == Ambiguous && held[c].errorClass == HELD;
    }
  }

  /**
   * Without a target nothing is left sendable: what was is held, together with
   * its delivery unless that is terminal, and everything else is as in the
   * backup, row by row.
   */
  lemma FreshRestoreHoldsEverything(backup: Db, date: string, now: Time, run: RunId, p: RunId, later: Time)
    requires Restored(None, backup, date, now, run).Ok?
    ensures
      var r := Restored(None, backup, date, now, run).value;
      && r.(chunks := backup.chunks, deliveries := backup.deliveries) == backup
      && r.chunks.Keys == backup.chunks.Keys && r.deliveries.Keys == backup.deliveries.Keys
      && (forall c :: c in r.chunks ==>
            Begin(r, c, p, p, later).Err? &&
            r.chunks[c] ==
              if Sendable(backup.chunks[c])
              then backup.chunks[c].(state := Ambiguous, errorClass := HELD, nextAttemptAt := None)
              else backup.chunks[c])
      && (forall d :: d in r.deliveries ==>
            if HasSendable(backup.chunks, d) && !Terminal(backup.deliveries[d].state)
            then r.deliveries[d].state == NeedsAttention
            else r.deliveries[d] == backup.deliveries[d])
  {
    var r := Restored(None, backup, date, now, run).value;
    forall d | d in backup.deliveries
      ensures HoldsChunk(HoldChunks(backup.chunks), d) <==> HasSendable(backup.chunks, d)
    {
      HeldExactly(backup, d);
    }
    hide HoldsChunk;
    forall c | c in r.chunks ensures Begin(r, c, p, p, later).Err? {
      SentIsNotBegun(r, c, p, later);
    }
  }

  // ----- no sent story is forgotten, except one

  /** Some row says the story was sent no earlier than this row says. */
  predicate Covers(history: seq<HistoryRow>, row: HistoryRow) {
    exists i :: 0 <= i < |history| && SameStory(history[i], row) && history[i].sentAt >= row.sentAt
  }

  lemma {:induction false} AdditionsAre(theirs: seq<HistoryRow>, known: seq<HistoryRow>, recovery: DeliveryId)
    ensures
      var added := Additions(theirs, known, recovery);
      && (forall i :: 0 <= i < |added| ==> !Known(known, added[i]))
      && (forall j :: 0 <= j < |theirs| && !Known(known, theirs[j]) ==> Covers(added, theirs[j]))
  {
    if theirs != [] {
      var front, last := theirs[..|theirs| - 1], theirs[|theirs| - 1];
      AdditionsAre(front, known, recovery);
      var before, added := Additions(front, known, recovery), Additions(theirs, known, recovery);
      forall j | 0 <= j < |theirs| && !Known(known, theirs[j])
        ensures Covers(added, theirs[j])
      {
        if j < |front| {
          assert front[j] == theirs[j];
          var i :| 0 <= i < |before| && SameStory(before[i], front[j]) && before[i].sentAt >= front[j].sentAt;
          assert added[i] == before[i];
        } else {
          assert SameStory(added[|added| - 1], last);
        }
      }
    }
  }

  /**
   * A row of the target is carried over exactly when the backup has no row of
   * that story, or one as recent: a story sent before the backup and again
   * after it keeps only its old date.
   */
  lemma HistoryCarriedIff(target: Db, backup: Db, date: string, now: Time, run: RunId, j: nat)
    requires Restored(Some(target), backup, date, now, run).Ok? && j < |target.history|
    ensures
      var r := Restored(Some(target), backup, date, now, run).value;
      var row := target.history[j];
      Covers(r.history, row) <==> !Known(backup.history, row) || Covers(backup.history, row)
  {
    var r := Restored(Some(target), backup, date, now, run).value;
    var row := target.history[j];
    var added := Additions(target.history, backup.history, backup.nextDelivery);
    AdditionsAre(target.history, backup.history, backup.nextDelivery);
    assert r.history == backup.history + added;
    if Covers(backup.history, row) {
      var i :| 0 <= i < |backup.history| && SameStory(backup.history[i], row) && backup.history[i].sentAt >= row.sentAt;
      assert r.history[i] == backup.history[i];
    }
    if !Known(backup.history, row) {
      var i :| 0 <= i < |added| && SameStory(added[i], row) && added[i].sentAt >= row.sentAt;
      assert r.history[|backup.history| + i] == added[i];
    }
    if Covers(r.history, row) && Known(backup.history, row) {
      var i :| 0 <= i < |r.history| && SameStory(r.history[i], row) && r.history[i].sentAt >= row.sentAt;
      var k :| 0 <= k < |backup.history| && SameStory(backup.history[k], row);
      assert forall x :: 0 <= x < |added| ==> !SameStory(backup.history[k], added[x]);
      assert i < |backup.history|;
    }
  }

  /** When every row is carried over, the restored history excludes every story the target's would. */
  lemma RestoredHistoryExcludes(w: Windows, target: Db, backup: Db, date: string, now: Time, run: RunId, story: Story,
                                later: Time)
    requires Restored(Some(target), backup, date, now, run).Ok?
    requires forall j :: 0 <= j < |target.history| && Known(backup.history, target.history[j]) ==>
      Covers(backup.history, target.history[j])
    requires Unseen(w, Restored(Some(target), backup, date, now, run).value.history, story, later)
    ensures Unseen(w, target.history, story, later)
  {
    var r := Restored(Some(target), backup, date, now, run).value;
    forall j | 0 <= j < |target.history|
      ensures target.history[j].url == story.url ==> target.history[j].sentAt < later - w.urlDays
      ensures w.titleDays > 0 && target.history[j].fingerprint == story.fingerprint ==>
        target.history[j].sentAt < later - w.titleDays
    {
      HistoryCarriedIff(target, backup, date, now, run, j);
      assert Covers(r.history, target.history[j]);
    }
  }

  // ----- the transactions on the restored copy, row by row

  lemma NoAdditions(known: seq<HistoryRow>, recovery: DeliveryId)
    ensures Additions([], known, recovery) == [] && DistinctTitles([])
  {
  }

  lemma OneMoreAddition(theirs: seq<HistoryRow>, i: nat, known: seq<HistoryRow>, recovery: DeliveryId)
    requires i < |theirs|
    ensures Additions(theirs[..i + 1], known, recovery) ==
      Additions(theirs[..i], known, recovery) +
        if Known(known, theirs[i]) then [] else [theirs[i].(delivery := recovery, chunk := 0)]
  {
    assert theirs[..i + 1][..i] == theirs[..i];
  }

  /** The target's rows the copy lacks, added under one recovery delivery. */
  method MergePostBackupHistory(target: Db, store: StateStore, date: string, now: Time)
    returns (refusal: Option<Refusal>)
    modifies store
    ensures
      match MergeHistory(target, old(store.Tables()), date, now)
      case Ok(merged) => refusal == None && store.Tables() == merged
      case Err(error) => refusal == Some(error) && store.Tables() == old(store.Tables())
  {
    hide DistinctTitles, Additions;
    var additions: seq<HistoryRow> := [];
    var clash := false;
    ghost var backup := store.Tables();
    NoAdditions(backup.history, backup.nextDelivery);
    for i := 0 to |target.history|
      invariant store.Tables() == backup
      invariant additions == Additions(target.history[..i], backup.history, backup.nextDelivery)
      invariant clash <==> !DistinctTitles(additions)
    {
      OneMoreAddition(target.history, i, backup.history, backup.nextDelivery);
      var row := target.history[i];
      if !Known(store.history, row) {
        TitlesGrow(additions, row.(delivery := store.nextDelivery, chunk := 0));
        clash := clash || (exists k :: 0 <= k < |additions| && additions[k].fingerprint == row.fingerprint);
        additions := additions + [row.(delivery := store.nextDelivery, chunk := 0)];
      }
    }
    assert target.history[..|target.history|] == target.history;
    if additions == [] {
      return None;
    }
    if clash {
      return Some(HistoryClash);
    }
    store.deliveries := store.deliveries[store.nextDelivery := RecoveryDelivery(date, now)];
    store.nextDelivery := store.nextDelivery + 1;
    store.history := store.history + additions;
    return None;
  }

  lemma AckOneMoreChunk(target: Db, backup: Db, done: set<ChunkId>, c: ChunkId, now: Time)
    requires c !in done
    ensures
      var chunks := AckChunks(target, backup, done, now);
      && (c in chunks <==> c in backup.chunks) && (c in chunks ==> chunks[c] == backup.chunks[c])
      && AckChunks(target, backup, done + {c}, now) ==
         if Acknowledged(target, backup, c) then chunks[c := AckRow(chunks[c], target.chunks[c], now)] else chunks
  {
  }

  lemma AckOneMoreAttempt(target: Db, backup: Db, done: set<ChunkId>, c: ChunkId, now: Time, run: RunId)
    requires c !in done
    ensures
      var attempts := AckAttempts(target, backup, done, now, run);
      AckAttempts(target, backup, done + {c}, now, run) ==
        if Acknowledged(target, backup, c) && AckKey(target, backup, c) !in attempts
        then attempts[AckKey(target, backup, c) := AckAttempt(target, backup, c, now, run)] else attempts
  {
    AckOneMoreKey(target, backup, done, c);
    hide Acknowledged, AckAttempt, AckKeys, AckKey;
    var keys := AckKeys(target, backup, done);
    if Acknowledged(target, backup, c) {
      var key, attempt := AckKey(target, backup, c), AckAttempt(target, backup, c, now, run);
      AckedKeysGrow(target, backup, keys, key, now, run);
      hide AckedByKey;
      UnderlayGrows(AckedByKey(target, backup, keys, now, run), backup.attempts, key, attempt);
    } else {
      assert keys + {} == keys;
    }
  }

  lemma AckedKeysGrow(target: Db, backup: Db, keys: set<AttemptKey>, key: AttemptKey, now: Time, run: RunId)
    requires key !in keys && key.chunk in backup.chunks && key.chunk in target.chunks
    ensures key !in AckedByKey(target, backup, keys, now, run)
    ensures AckedByKey(target, backup, keys + {key}, now, run) ==
      AckedByKey(target, backup, keys, now, run)[key := AckAttempt(target, backup, key.chunk, now, run)]
  {
    hide AckAttempt;
  }

  /** One more entry under rows that stay on top. */
  lemma UnderlayGrows(under: map<AttemptKey, Attempt>, top: map<AttemptKey, Attempt>, key: AttemptKey, attempt: Attempt)
    requires key !in under
    ensures under[key := attempt] + top == if key in under + top then under + top else (under + top)[key := attempt]
  {
  }

  lemma AckOneMoreKey(target: Db, backup: Db, done: set<ChunkId>, c: ChunkId)
    requires c !in done
    ensures Acknowledged(target, backup, c) ==> c in backup.chunks && c in target.chunks
    ensures AckKeys(target, backup, done + {c}) ==
      AckKeys(target, backup, done) + if Acknowledged(target, backup, c) then {AckKey(target, backup, c)} else {}
    ensures Acknowledged(target, backup, c) ==>
      AckKey(target, backup, c).chunk == c && AckKey(target, backup, c) !in AckKeys(target, backup, done)
  {
    if Acknowledged(target, backup, c) {
      assert AckKeys(target, backup, done + {c}) == AckKeys(target, backup, done) + {AckKey(target, backup, c)};
      assert AckKey(target, backup, c) !in AckKeys(target, backup, done);
    } else {
      assert AckKeys(target, backup, done + {c}) == AckKeys(target, backup, done);
    }
  }

  lemma AckOneMoreCount(target: Db, backup: Db, done: set<ChunkId>, c: ChunkId)
    requires c !in done
    ensures |AckedAmong(target, backup, done + {c})| ==
      |AckedAmong(target, backup, done)| + if Acknowledged(target, backup, c) then 1 else 0
  {
    if Acknowledged(target, backup, c) {
      assert AckedAmong(target, backup, done + {c}) == AckedAmong(target, backup, done) + {c};
    } else {
      assert AckedAmong(target, backup, done + {c}) == AckedAmong(target, backup, done);
    }
  }

  ghost function AckedAmong(target: Db, backup: Db, done: set<ChunkId>): set<ChunkId> {
    set c | c in done && Acknowledged(target, backup, c)
  }

  lemma TitlesGrow(rows: seq<HistoryRow>, row: HistoryRow)
    ensures DistinctTitles(rows + [row]) <==>
      DistinctTitles(rows) && forall k :: 0 <= k < |rows| ==> rows[k].fingerprint != row.fingerprint
  {
    var all := rows + [row];
    if DistinctTitles(all) {
      forall k | 0 <= k < |rows| ensures rows[k].fingerprint != row.fingerprint {
        assert all[k] == rows[k] && all[|rows|] == row;
      }
      forall i, j | 0 <= i < j < |rows| ensures rows[i].fingerprint != rows[j].fingerprint {
        assert all[i] == rows[i] && all[j] == rows[j];
      }
    }
  }

  lemma AckNothing(target: Db, backup: Db, now: Time, run: RunId)
    ensures AckChunks(target, backup, {}, now) == backup.chunks && AckedAmong(target, backup, {}) == {}
    ensures AckAttempts(target, backup, {}, now, run) == backup.attempts
  {
    assert AckKeys(target, backup, {}) == {};
  }

  /** Carries the target's acknowledgements into the copy, then concludes what they complete. */
  method ReconcileRestoredAcks(target: Db, store: StateStore, now: Time, run: RunId) returns (reconciled: nat)
    modifies store
    ensures store.Tables() == ReconcileAcks(target, old(store.Tables()), now, run)
    ensures reconciled == |AcknowledgedSet(target, old(store.Tables()))|
  {
    hide AckChunks, AckAttempts, AckedAmong, Acknowledged, AckKey, AckAttempt, AckRow, ConcludeAll;
    ghost var backup := store.Tables();
    var todo := target.chunks.Keys;
    reconciled := 0;
    ghost var done: set<ChunkId> := {};
    AckNothing(target, backup, now, run);
    while todo != {}
      invariant done + todo == target.chunks.Keys && done !! todo
      invariant store.Tables() == backup.(chunks := AckChunks(target, backup, done, now),
        attempts := AckAttempts(target, backup, done, now, run))
      invariant reconciled == |AckedAmong(target, backup, done)|
      decreases todo
    {
      var c := FirstOf(todo);
      var carried := ReconcileRow(target, store, c, now, run, backup, done);
      AckOneMoreCount(target, backup, done, c);
      if carried {
        reconciled := reconciled + 1;
      }
      todo, done := todo - {c}, done + {c};
    }
    assert done == target.chunks.Keys;
    AckedAll(target, backup);
    if reconciled > 0 {
      ConcludeDeliveries(store);
    }
  }

  /** One chunk of the target, carried over if it was sent and the copy holds the same text unsent. */
  method ReconcileRow(target: Db, store: StateStore, c: ChunkId, now: Time, run: RunId, ghost backup: Db,
                      ghost done: set<ChunkId>)
    returns (carried: bool)
    requires c in target.chunks && c !in done
    requires store.Tables() ==
      backup.(chunks := AckChunks(target, backup, done, now), attempts := AckAttempts(target, backup, done, now, run))
    modifies store
    ensures store.Tables() ==
      backup.(chunks := AckChunks(target, backup, done + {c}, now),
        attempts := AckAttempts(target, backup, done + {c}, now, run))
    ensures carried <==> Acknowledged(target, backup, c)
  {
    hide AckChunks, AckAttempts, Acknowledged, AckKey, AckAttempt, AckRow;
    AckOneMoreChunk(target, backup, done, c, now);
    AckOneMoreAttempt(target, backup, done, c, now, run);
    AcknowledgedHere(target, backup, store.chunks, c, now, run);
    carried := target.chunks[c].state == Sent && c in store.chunks && store.chunks[c].hash == target.chunks[c].hash &&
      store.chunks[c].state != Sent && store.chunks[c].state != Ambiguous;
    if carried {
      AcknowledgeChunk(target, store, c, now, run);
    }
  }

  lemma AckedAll(target: Db, backup: Db)
    ensures AckedAmong(target, backup, target.chunks.Keys) == AcknowledgedSet(target, backup)
  {
  }

  /** The test on the row as it is now is the test on the row of the backup. */
  lemma AcknowledgedHere(target: Db, backup: Db, chunks: map<ChunkId, Chunk>, c: ChunkId, now: Time, run: RunId)
    requires c in target.chunks && (c in chunks <==> c in backup.chunks) &&
      (c in chunks ==> chunks[c] == backup.chunks[c])
    ensures Acknowledged(target, backup, c) <==>
      target.chunks[c].state == Sent && c in chunks && chunks[c].hash == target.chunks[c].hash &&
      chunks[c].state != Sent && chunks[c].state != Ambiguous
    ensures c in chunks ==>
      var row := AckRow(chunks[c], target.chunks[c], now);
      var at := target.chunks[c].sentAt.UnwrapOr(now);
      AckKey(target, backup, c) == Key(c, row.attemptCount) &&
      AckAttempt(target, backup, c, now, run) == Attempt(row.delivery, run, at, Accepted, Some(at))
  {
  }

  method AcknowledgeChunk(target: Db, store: StateStore, c: ChunkId, now: Time, run: RunId)
    requires c in target.chunks && c in store.chunks
    modifies store
    ensures
      var row := AckRow(old(store.chunks[c]), target.chunks[c], now);
      var at := target.chunks[c].sentAt.UnwrapOr(now);
      store.Tables() == old(store.Tables()).(
        chunks := old(store.chunks)[c := row],
        attempts :=
          if Key(c, row.attemptCount) in old(store.attempts) then old(store.attempts)
          else old(store.attempts)[Key(c, row.attemptCount) := Attempt(row.delivery, run, at, Accepted, Some(at))])
  {
    store.chunks := store.chunks[c := AckRow(store.chunks[c], target.chunks[c], now)];
    var key := Key(c, store.chunks[c].attemptCount);
    var at := target.chunks[c].sentAt.UnwrapOr(now);
    if key !in store.attempts {
      store.attempts := store.attempts[key := Attempt(store.chunks[c].delivery, run, at, Accepted, Some(at))];
    }
  }

  method ConcludeDeliveries(store: StateStore)
    modifies store`deliveries
    ensures store.deliveries ==
      ConcludeAll(old(store.deliveries), store.chunks, store.items, old(store.deliveries).Keys)
  {
    hide AllSent;
    ghost var before := store.deliveries;
    var todo := store.deliveries.Keys;
    while todo != {}
      invariant todo <= before.Keys
      invariant store.deliveries == ConcludeAll(before, store.chunks, store.items, before.Keys - todo)
      decreases todo
    {
      var d := FirstOf(todo);
      if !Finished(store.deliveries[d].state) && AllSent(store.chunks, d) {
        var state := if ItemsOf(store.items, d) == [] then CompletedEmpty else Completed;
        store.deliveries := store.deliveries[d := store.deliveries[d].(state := state, nextAttemptAt := None)];
      }
      todo := todo - {d};
    }
  }
}
