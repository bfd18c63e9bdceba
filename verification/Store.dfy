/**
 * StateStore: the tables as fields, each transaction a method that updates
 * rows in place and either commits what its specification says or leaves every
 * table as it was.
 */
module Store {
  import opened Wrappers
  import opened Rows
  import opened Transactions

  /** What a committed or rolled-back method tells its caller. */
  datatype Answer<+T> = Done(value: T) | Failed(error: Error)

  /** The tables after a transaction: the committed ones, or the old ones. */
  function Settled(before: Db, commit: Commit): Db {
    match commit
    case Ok(after) => after
    case Err(_) => before
  }

  function AnswerTo<T>(commit: Commit, value: T): Answer<T> {
    match commit
    case Ok(_) => Done(value)
    case Err(error) => Failed(error)
  }

  // ----- recovery, one row at a time

  /** Some chunk of the delivery is among these. */
  ghost predicate Touches(db: Db, done: set<ChunkId>, d: DeliveryId) {
    exists c :: c in done && c in db.chunks && db.chunks[c].delivery == d
  }

  /** Recovery of the chunks in `done` only. */
  ghost function RecoverRows(db: Db, done: set<ChunkId>, now: Time): Db {
    db.(
      chunks := map c | c in db.chunks :: if c in done then ToAmbiguous(db.chunks[c]) else db.chunks[c],
      attempts := map k | k in db.attempts ::
        if k.chunk in done && k.chunk in db.chunks && db.chunks[k.chunk].delivery == db.attempts[k].delivery &&
          db.attempts[k].outcome == Open
        then db.attempts[k].(outcome := Unknown, endedAt := Some(now)) else db.attempts[k],
      deliveries := map d | d in db.deliveries ::
        if Touches(db, done, d) && !Terminal(db.deliveries[d].state)
        then db.deliveries[d].(state := NeedsAttention) else db.deliveries[d])
  }

  function InFlightChunks(chunks: map<ChunkId, Chunk>): set<ChunkId> {
    set c | c in chunks && chunks[c].state == InFlight
  }

  lemma SomeInFlight(db: Db, d: DeliveryId)
    ensures HasInFlight(db.chunks, d) <==> Touches(db, InFlightChunks(db.chunks), d)
  {
    if HasInFlight(db.chunks, d) {
      var c :| c in db.chunks && db.chunks[c].delivery == d && db.chunks[c].state == InFlight;
      assert c in InFlightChunks(db.chunks);
    }
  }

  lemma RecoveredChunksAgree(db: Db, now: Time)
    requires !LeaseLive(db.lease, now)
    ensures
      var a, b := RecoverRows(db, InFlightChunks(db.chunks), now), Recover(db, now);
      a.chunks == b.chunks && a.attempts == b.attempts
  {
    hide HasInFlight, Terminal;
  }

  lemma RecoveredDeliveriesAgree(db: Db, now: Time)
    requires !LeaseLive(db.lease, now)
    ensures RecoverRows(db, InFlightChunks(db.chunks), now).deliveries == Recover(db, now).deliveries
  {
    hide InFlightChunks, HasInFlight, CloseOpen, ToAmbiguous, Terminal;
    var a, b := RecoverRows(db, InFlightChunks(db.chunks), now).deliveries, Recover(db, now).deliveries;
    forall d | d in db.deliveries ensures a[d] == b[d] {
      SomeInFlight(db, d);
    }
  }

  lemma RecoverRowsIsRecover(db: Db, now: Time)
    requires !LeaseLive(db.lease, now)
    ensures RecoverRows(db, InFlightChunks(db.chunks), now).(lease := None) == Recover(db, now)
  {
    RecoveredChunksAgree(db, now);
    RecoveredDeliveriesAgree(db, now);
    var a, b := RecoverRows(db, InFlightChunks(db.chunks), now), Recover(db, now);
    assert a.(chunks := db.chunks, attempts := db.attempts, deliveries := db.deliveries) == db;
    assert b.(chunks := db.chunks, attempts := db.attempts, deliveries := db.deliveries) == db.(lease := None);
    hide RecoverRows, Recover;
  }

  /** Recovering one more chunk, table by table. */
  lemma RecoverOneRow(before: Db, done: set<ChunkId>, c: ChunkId, now: Time)
    requires c in before.chunks && c !in done
    ensures
      var a, b := RecoverRows(before, done, now), RecoverRows(before, done + {c}, now);
      var d := before.chunks[c].delivery;
      && b.chunks == a.chunks[c := ToAmbiguous(a.chunks[c])]
      && b.attempts == (map k | k in a.attempts ::
           if k.chunk == c && a.attempts[k].delivery == d && a.attempts[k].outcome == Open
           then a.attempts[k].(outcome := Unknown, endedAt := Some(now)) else a.attempts[k])
      && b.deliveries == if d in a.deliveries && !Terminal(a.deliveries[d].state)
           then a.deliveries[d := a.deliveries[d].(state := NeedsAttention)] else a.deliveries
  {
    RecoverOneDelivery(before, done, c, now);
  }

  lemma TouchesGrow(db: Db, done: set<ChunkId>, c: ChunkId, d: DeliveryId)
    requires c in db.chunks
    ensures Touches(db, done + {c}, d) <==> Touches(db, done, d) || db.chunks[c].delivery == d
  {
    if Touches(db, done, d) {
      var x :| x in done && x in db.chunks && db.chunks[x].delivery == d;
      assert x in done + {c};
    }
    if db.chunks[c].delivery == d {
      assert c in done + {c};
    }
  }

  lemma RecoverOneDelivery(before: Db, done: set<ChunkId>, c: ChunkId, now: Time)
    requires c in before.chunks && c !in done
    ensures
      var a, b := RecoverRows(before, done, now), RecoverRows(before, done + {c}, now);
      var d := before.chunks[c].delivery;
      b.deliveries == if d in a.deliveries && !Terminal(a.deliveries[d].state)
        then a.deliveries[d := a.deliveries[d].(state := NeedsAttention)] else a.deliveries
  {
    hide Touches;
    forall x | x in before.deliveries
      ensures Touches(before, done + {c}, x) <==> Touches(before, done, x) || before.chunks[c].delivery == x
    {
      TouchesGrow(before, done, c, x);
    }
  }

  /** Inserting the next message's chunk. */
  lemma FreshChunksGrow(d: DeliveryId, messages: seq<string>, base: ChunkId, sequence: nat)
    requires sequence < |messages|
    ensures FreshChunks(d, messages[..sequence + 1], base) ==
      FreshChunks(d, messages[..sequence], base)[base + sequence := FreshChunk(d, sequence, messages[sequence])]
  {
  }

  lemma RecoverNoRows(db: Db, now: Time)
    ensures RecoverRows(db, {}, now) == db
  {
    assert RecoverRows(db, {}, now).chunks == db.chunks;
    assert RecoverRows(db, {}, now).attempts == db.attempts;
    assert RecoverRows(db, {}, now).deliveries == db.deliveries;
  }

  /** The next row of a query result. */
  method FirstOf(rows: set<int>) returns (first: int)
    requires rows != {}
    ensures first in rows
  {
    assert (forall x :: x !in rows) ==> rows == {};
    first :| first in rows;
  }

  /** Distinct chunks, by sequence. */
  predicate InOrder(chunks: map<ChunkId, Chunk>, due: seq<ChunkId>) {
    && (forall i :: 0 <= i < |due| ==> due[i] in chunks)
    && (forall i, j :: 0 <= i < j < |due| ==> due[i] != due[j] && chunks[due[i]].sequence <= chunks[due[j]].sequence)
  }

  /** The first of finish_chunk's guards that fails. */
  function FinishRefusal(db: Db, c: ChunkId, outcome: Outcome, run: RunId, owner: RunId, messageId: nat,
                         now: Time): Option<Error>
  {
    if !LeaseHeld(db.lease, owner, now) then Some(LeaseLost)
    else if outcome == Open || (outcome == Accepted && messageId == 0) then Some(BadInput)
    else if c !in db.chunks || db.chunks[c].state != InFlight then Some(InvalidTransition)
    else
      var d, key := db.chunks[c].delivery, Key(c, db.chunks[c].attemptCount);
      if key !in db.attempts || db.attempts[key].delivery != d || db.attempts[key].run != run ||
         db.attempts[key].outcome != Open || d !in db.deliveries
      then Some(InvalidTransition) else None
  }

  /** What finish_chunk writes once its guards hold. */
  function FinishWrites(db: Db, c: ChunkId, outcome: Outcome, errorClass: string, errorKind: TerminalError,
                        messageId: nat, nextAttempt: Option<Time>, now: Time): Db
    requires outcome != Open && c in db.chunks && db.chunks[c].delivery in db.deliveries
    requires Key(c, db.chunks[c].attemptCount) in db.attempts
  {
    var row := db.chunks[c];
    var d, key := row.delivery, Key(c, row.attemptCount);
    var chunks := db.chunks[c := row.(
      state := ChunkStateAfter(outcome), nextAttemptAt := nextAttempt, messageId := messageId, errorClass := errorClass,
      sentAt := if outcome == Accepted then Some(now) else None)];
    db.(
      chunks := chunks,
      attempts := db.attempts[key := db.attempts[key].(outcome := outcome, endedAt := Some(now))],
      history := if outcome == Accepted
                 then RecordHistory(db.history, ItemsOf(db.items, d), d, c, row.sequence, now) else db.history,
      deliveries := db.deliveries[d := DeliveryAfter(
        Observe(db.deliveries[d], now), outcome, chunks, ItemsOf(db.items, d), d, errorKind, nextAttempt)])
  }

  lemma FinishIs(db: Db, c: ChunkId, outcome: Outcome, run: RunId, owner: RunId, errorClass: string,
                 errorKind: TerminalError, messageId: nat, nextAttempt: Option<Time>, now: Time)
    ensures
      var refusal := FinishRefusal(db, c, outcome, run, owner, messageId, now);
      Finish(db, c, outcome, run, owner, errorClass, errorKind, messageId, nextAttempt, now) ==
      if refusal.Some? then Err(refusal.value)
      else Ok(FinishWrites(db, c, outcome, errorClass, errorKind, messageId, nextAttempt, now))
  {
    hide RecordHistory, DeliveryAfter, Observe;
  }

  class StateStore {
    var deliveries: map<DeliveryId, Delivery>
    var items: map<DeliveryId, seq<Item>>
    var chunks: map<ChunkId, Chunk>
    var attempts: map<AttemptKey, Attempt>
    var collectionAttempts: map<DeliveryId, nat>
    var resolutions: seq<Resolution>
    var history: seq<HistoryRow>
    var lease: Option<Lease>
    var nextDelivery: DeliveryId
    var nextChunk: ChunkId

    function Tables(): Db
      reads this
    {
      Db(deliveries, items, chunks, attempts, collectionAttempts, resolutions, history, lease, nextDelivery, nextChunk)
    }

    constructor ()
      ensures Tables() == Db(map[], map[], map[], map[], map[], [], [], None, 1, 1)
    {
      deliveries, items, chunks, attempts, collectionAttempts := map[], map[], map[], map[], map[];
      resolutions, history, lease, nextDelivery, nextChunk := [], [], None, 1, 1;
    }

    /** The tables as another connection left them. */
    method Reload(db: Db)
      modifies this
      ensures Tables() == db
    {
      deliveries, items, chunks, attempts := db.deliveries, db.items, db.chunks, db.attempts;
      collectionAttempts, resolutions, history := db.collectionAttempts, db.resolutions, db.history;
      lease, nextDelivery, nextChunk := db.lease, db.nextDelivery, db.nextChunk;
    }

    // ----- the lease

    method AcquireLease(owner: RunId, ttl: int, now: Time) returns (acquired: bool)
      modifies this
      ensures (Tables(), acquired) == Acquire(old(Tables()), owner, ttl, now)
    {
      if lease.Some? && lease.value.owner != owner && lease.value.expiresAt > now {
        return false;
      }
      lease := Some(Lease(owner, now + ttl));
      return true;
    }

    method HeartbeatLease(owner: RunId, ttl: int, now: Time) returns (r: Answer<Time>)
      modifies this
      ensures Tables() == Settled(old(Tables()), Heartbeat(old(Tables()), owner, ttl, now))
      ensures r == AnswerTo(Heartbeat(old(Tables()), owner, ttl, now), now + ttl)
    {
      if !LeaseHeld(lease, owner, now) {
        return Failed(LeaseLost);
      }
      lease := Some(lease.value.(expiresAt := now + ttl));
      return Done(now + ttl);
    }

    method ReleaseLease(owner: RunId, now: Time) returns (r: Answer<()>)
      modifies this
      ensures Tables() == Settled(old(Tables()), Release(old(Tables()), owner, now))
      ensures r == AnswerTo(Release(old(Tables()), owner, now), ())
    {
      if !LeaseHeld(lease, owner, now) {
        return Failed(LeaseLost);
      }
      lease := None;
      return Done(());
    }

    /** Turns every in-flight chunk ambiguous, row by row, unless a lease is live. */
    method RecoverExpiredLease(now: Time) returns (recovered: bool)
      modifies this
      ensures Tables() == Recover(old(Tables()), now)
      ensures recovered <==> !LeaseLive(old(lease), now) && InFlightChunks(old(chunks)) != {}
    {
      if LeaseLive(lease, now) {
        return false;
      }
      ghost var before := Tables();
      var rows := InFlightChunks(chunks);
      var todo := rows;
      RecoverNoRows(before, now);
      assert rows - todo == {};
      hide RecoverRows, Recover;
      while todo != {}
        invariant todo <= rows == InFlightChunks(before.chunks)
        invariant Tables() == RecoverRows(before, rows - todo, now)
        decreases todo
      {
        var c := FirstOf(todo);
        RecoverChunk(c, now, before, rows - todo);
        assert rows - (todo - {c}) == (rows - todo) + {c};
        todo := todo - {c};
      }
      assert rows - todo == rows;
      RecoverRowsIsRecover(before, now);
      lease := None;
      return rows != {};
    }

    /** The three updates of one in-flight row. */
    method RecoverChunk(c: ChunkId, now: Time, ghost before: Db, ghost done: set<ChunkId>)
      requires c in InFlightChunks(before.chunks) && c !in done
      requires Tables() == RecoverRows(before, done, now)
      modifies this
      ensures Tables() == RecoverRows(before, done + {c}, now)
    {
      var d := chunks[c].delivery;
      chunks := chunks[c := chunks[c].(state := Ambiguous, nextAttemptAt := None, errorClass := TELEGRAM_AMBIGUOUS)];
      attempts := map k | k in attempts ::
        if k.chunk == c && attempts[k].delivery == d && attempts[k].outcome == Open
        then attempts[k].(outcome := Unknown, endedAt := Some(now)) else attempts[k];
      if d in deliveries && !Terminal(deliveries[d].state) {
        deliveries := deliveries[d := deliveries[d].(state := NeedsAttention)];
      }
      RecoverOneRow(before, done, c, now);
    }

    // ----- deliveries

    method CreateDelivery(date: string, generation: int, policy: Policy, force: Force, owner: RunId, now: Time)
      returns (r: Answer<DeliveryId>)
      modifies this
      ensures Tables() == Settled(old(Tables()), Create(old(Tables()), date, generation, policy, force, owner, now))
      ensures r == AnswerTo(Create(old(Tables()), date, generation, policy, force, owner, now), old(nextDelivery))
    {
      if !LeaseHeld(lease, owner, now) {
        return Failed(LeaseLost);
      }
      if generation < 0 {
        return Failed(BadInput);
      }
      if force.Forced? {
        if force.operator == "" || force.reason == "" || force.predecessor !in deliveries {
          return Failed(InvalidTransition);
        }
        var predecessor := deliveries[force.predecessor];
        if predecessor.date != date || !Finished(predecessor.state) || generation <= predecessor.generation {
          return Failed(InvalidTransition);
        }
      }
      if GenerationTaken(deliveries, date, generation) {
        return Failed(BadInput);
      }
      var id := nextDelivery;
      deliveries := deliveries[id := Delivery(date, generation, Content, Collecting, "", now, None, NoError,
        Some(policy), None)];
      nextDelivery := nextDelivery + 1;
      return Done(id);
    }

    /** Freezes items and payloads; the two insert loops run before the state moves. */
    method PrepareDelivery(d: DeliveryId, stories: seq<Story>, messages: seq<string>, indexes: map<Digest, int>,
                           target: string, owner: RunId, now: Time) returns (r: Answer<DeliveryState>)
      modifies this
      ensures Tables() == Settled(old(Tables()),
        Prepare(old(Tables()), d, stories, messages, indexes, target, owner, now))
      ensures r == AnswerTo(Prepare(old(Tables()), d, stories, messages, indexes, target, owner, now),
                           if stories == [] then PreparedEmpty else Prepared)
    {
      hide HasChunks, FreshChunks, ItemRows, DistinctFingerprints, IndexesInRange;
      if !LeaseHeld(lease, owner, now) {
        return Failed(LeaseLost);
      }
      if d !in deliveries || (deliveries[d].state != Collecting && deliveries[d].state != RetryWait) {
        return Failed(InvalidTransition);
      }
      if ItemsOf(items, d) != [] || HasChunks(chunks, d) {
        return Failed(InvalidTransition);
      }
      if messages == [] || exists i :: 0 <= i < |messages| && messages[i] == "" {
        return Failed(BadInput);
      }
      if !DistinctFingerprints(stories) || !IndexesInRange(stories, indexes, |messages|) {
        return Failed(BadInput);
      }
      if deliveries[d].target != "" && target != "" && deliveries[d].target != target {
        return Failed(InvalidTransition);
      }
      var state := if stories == [] then PreparedEmpty else Prepared;
      FreezeOutbox(d, stories, messages, indexes, target, state);
      return Done(state);
    }

    /** The inserts and updates of a preparation that passed its checks. */
    method FreezeOutbox(d: DeliveryId, stories: seq<Story>, messages: seq<string>, indexes: map<Digest, int>,
                        target: string, state: DeliveryState)
      requires d in deliveries
      modifies this
      ensures Tables() == old(Tables()).(
        items := old(items)[d := ItemRows(stories, indexes)],
        chunks := old(chunks) + FreshChunks(d, messages, old(nextChunk)),
        nextChunk := old(nextChunk) + |messages|,
        deliveries := old(deliveries)[d := old(deliveries[d]).(
          target := if old(deliveries[d].target) == "" then target else old(deliveries[d].target), state := state)])
    {
      hide FreshChunks, ItemRows;
      if target != "" && deliveries[d].target == "" {
        deliveries := deliveries[d := deliveries[d].(target := target)];
      }
      InsertItems(d, stories, indexes);
      InsertChunks(d, messages);
      deliveries := deliveries[d := deliveries[d].(state := state)];
    }

    method InsertItems(d: DeliveryId, stories: seq<Story>, indexes: map<Digest, int>)
      modifies this`items
      ensures items == old(items)[d := ItemRows(stories, indexes)]
    {
      var rows: seq<Item> := [];
      for i := 0 to |stories|
        invariant rows == ItemRows(stories, indexes)[..i]
      {
        rows := rows + [Item(stories[i].fingerprint, stories[i].url, ChunkIndexOf(indexes, stories[i].fingerprint))];
      }
      assert rows == ItemRows(stories, indexes);
      items := items[d := rows];
    }

    method InsertChunks(d: DeliveryId, messages: seq<string>)
      modifies this`chunks, this`nextChunk
      ensures chunks == old(chunks) + FreshChunks(d, messages, old(nextChunk))
      ensures nextChunk == old(nextChunk) + |messages|
    {
      ghost var base := nextChunk;
      for sequence := 0 to |messages|
        invariant nextChunk == base + sequence
        invariant chunks == old(chunks) + FreshChunks(d, messages[..sequence], base)
      {
        chunks := chunks[nextChunk := FreshChunk(d, sequence, messages[sequence])];
        nextChunk := nextChunk + 1;
        FreshChunksGrow(d, messages, base, sequence);
      }
      assert messages[..|messages|] == messages;
    }

    method SetCollectionRetry(d: DeliveryId, nextAttempt: Time, owner: RunId, now: Time) returns (r: Answer<()>)
      modifies this
      ensures Tables() == Settled(old(Tables()),
        Transactions.SetCollectionRetry(old(Tables()), d, nextAttempt, owner, now))
      ensures r == AnswerTo(Transactions.SetCollectionRetry(old(Tables()), d, nextAttempt, owner, now), ())
    {
      if !LeaseHeld(lease, owner, now) {
        return Failed(LeaseLost);
      }
      if d !in deliveries || (deliveries[d].state != Collecting && deliveries[d].state != RetryWait) {
        return Failed(InvalidTransition);
      }
      deliveries := deliveries[d := deliveries[d].(state := RetryWait, nextAttemptAt := Some(nextAttempt),
        terminalError := OtherError)];
      return Done(());
    }

    method RecordCollectionAttempt(d: DeliveryId, owner: RunId, now: Time) returns (r: Answer<nat>)
      modifies this
      ensures Tables() == Settled(old(Tables()), Transactions.RecordCollectionAttempt(old(Tables()), d, owner, now))
      ensures r.Done? ==> d in collectionAttempts && r.value == collectionAttempts[d]
    {
      if !LeaseHeld(lease, owner, now) {
        return Failed(LeaseLost);
      }
      if d !in deliveries {
        return Failed(BadInput);
      }
      var number := (if d in collectionAttempts then collectionAttempts[d] else 0) + 1;
      collectionAttempts := collectionAttempts[d := number];
      RecordRetryObservation(d, now);
      return Done(number);
    }

    method RecordRetryObservation(d: DeliveryId, now: Time)
      requires d in deliveries
      modifies this`deliveries
      ensures deliveries == old(deliveries)[d := Observe(old(deliveries[d]), now)]
    {
      if deliveries[d].firstAttemptAt.None? {
        deliveries := deliveries[d := deliveries[d].(firstAttemptAt := Some(now))];
      }
    }

    method FailDelivery(d: DeliveryId, owner: RunId, now: Time) returns (r: Answer<()>)
      modifies this
      ensures Tables() == Settled(old(Tables()), Fail(old(Tables()), d, owner, now))
      ensures r == AnswerTo(Fail(old(Tables()), d, owner, now), ())
    {
      if !LeaseHeld(lease, owner, now) {
        return Failed(LeaseLost);
      }
      if d !in deliveries || Terminal(deliveries[d].state) || deliveries[d].state == NeedsAttention {
        return Failed(InvalidTransition);
      }
      deliveries := deliveries[d := deliveries[d].(state := FailedTerminal, terminalError := OtherError)];
      return Done(());
    }

    method ReopenForCollection(d: DeliveryId, owner: RunId, now: Time) returns (r: Answer<()>)
      modifies this
      ensures Tables() == Settled(old(Tables()), Transactions.ReopenForCollection(old(Tables()), d, owner, now))
      ensures r == AnswerTo(Transactions.ReopenForCollection(old(Tables()), d, owner, now), ())
    {
      if !LeaseHeld(lease, owner, now) {
        return Failed(LeaseLost);
      }
      if d !in deliveries || deliveries[d].state != RetryWait ||
         (deliveries[d].nextAttemptAt.Some? && deliveries[d].nextAttemptAt.value > now) {
        return Failed(RetryNotDue);
      }
      deliveries := deliveries[d := deliveries[d].(state := Collecting, nextAttemptAt := None,
        terminalError := NoError)];
      return Done(());
    }

    method MarkTargetMismatch(d: DeliveryId, expected: string, actual: string, owner: RunId, now: Time)
      returns (r: Answer<()>)
      modifies this
      ensures Tables() == Settled(old(Tables()),
        Transactions.MarkTargetMismatch(old(Tables()), d, expected, actual, owner, now))
      ensures r == AnswerTo(Transactions.MarkTargetMismatch(old(Tables()), d, expected, actual, owner, now), ())
    {
      if !LeaseHeld(lease, owner, now) {
        return Failed(LeaseLost);
      }
      if d !in deliveries || (expected != "" && deliveries[d].target != expected) {
        return Failed(InvalidTransition);
      }
      if !(actual != "" && deliveries[d].target == actual) && !Terminal(deliveries[d].state) {
        deliveries := deliveries[d := deliveries[d].(state := NeedsAttention, terminalError := TargetMismatch)];
      }
      return Done(());
    }

    // ----- chunks

    /** The chunks the send loop may pick up now, in sequence order. */
    method DueChunks(d: DeliveryId, now: Time) returns (due: seq<ChunkId>)
      ensures forall c :: c in due <==> c in chunks && Due(chunks[c], d, now)
      ensures InOrder(chunks, due)
    {
      due := [];
      var todo := set c | c in chunks && Due(chunks[c], d, now);
      ghost var all := todo;
      while todo != {}
        invariant todo <= all
        invariant forall c :: c in all <==> c in chunks && Due(chunks[c], d, now)
        invariant forall c :: c in due <==> c in all && c !in todo
        invariant InOrder(chunks, due)
        invariant forall i, c :: 0 <= i < |due| && c in todo ==>
          due[i] in chunks && chunks[due[i]].sequence <= chunks[c].sequence
        decreases todo
      {
        var next := LowestSequence(todo);
        todo := todo - {next};
        due := due + [next];
      }
    }

    /** The chunk of the set that comes first in sequence order. */
    method LowestSequence(rows: set<ChunkId>) returns (lowest: ChunkId)
      requires rows != {} && rows <= chunks.Keys
      ensures lowest in rows
      ensures forall c :: c in rows ==> chunks[lowest].sequence <= chunks[c].sequence
    {
      lowest := FirstOf(rows);
      var todo := rows - {lowest};
      while todo != {}
        invariant todo <= rows && lowest in rows
        invariant forall c :: c in rows && c !in todo ==> chunks[lowest].sequence <= chunks[c].sequence
        decreases todo
      {
        var c := FirstOf(todo);
        if chunks[c].sequence < chunks[lowest].sequence {
          lowest := c;
        }
        todo := todo - {c};
      }
    }

    /** Persists the send intent: chunk, delivery and attempt row move together. */
    method BeginChunkAttempt(c: ChunkId, run: RunId, owner: RunId, now: Time) returns (r: Answer<nat>)
      modifies this
      ensures Tables() == Settled(old(Tables()), Begin(old(Tables()), c, run, owner, now))
      ensures r == AnswerTo(Begin(old(Tables()), c, run, owner, now), if c in old(chunks)
        then old(chunks)[c].attemptCount + 1 else 0)
    {
      if !LeaseHeld(lease, owner, now) {
        return Failed(LeaseLost);
      }
      if c !in chunks {
        return Failed(InvalidTransition);
      }
      var row := chunks[c];
      if row.state == Waiting && row.nextAttemptAt.Some? && row.nextAttemptAt.value > now {
        return Failed(RetryNotDue);
      }
      if row.state != Pending && row.state != Waiting {
        return Failed(InvalidTransition);
      }
      if Sha256(row.payload) != row.hash {
        return Failed(BadInput);
      }
      if EarlierUnsent(chunks, row.delivery, row.sequence) || row.delivery !in deliveries {
        return Failed(InvalidTransition);
      }
      var state := deliveries[row.delivery].state;
      if Terminal(state) || state == NeedsAttention {
        return Failed(InvalidTransition);
      }
      var number := row.attemptCount + 1;
      chunks := chunks[c := row.(state := InFlight, attemptCount := number, errorClass := "")];
      if state == Prepared || state == PreparedEmpty || state == RetryWait {
        deliveries := deliveries[row.delivery := deliveries[row.delivery].(state := Sending)];
      }
      attempts := attempts[Key(c, number) := Attempt(row.delivery, run, now, Open, None)];
      RecordRetryObservation(row.delivery, now);
      return Done(number);
    }

    /** Records the outcome of the open attempt, then history and verdict in the same transaction. */
    method FinishChunk(c: ChunkId, outcome: Outcome, run: RunId, owner: RunId, errorClass: string,
                       errorKind: TerminalError, messageId: nat, nextAttempt: Option<Time>, now: Time)
      returns (r: Answer<()>)
      modifies this
      ensures Tables() == Settled(old(Tables()),
        Finish(old(Tables()), c, outcome, run, owner, errorClass, errorKind, messageId, nextAttempt, now))
      ensures r == AnswerTo(
        Finish(old(Tables()), c, outcome, run, owner, errorClass, errorKind, messageId, nextAttempt, now), ())
    {
      FinishIs(Tables(), c, outcome, run, owner, errorClass, errorKind, messageId, nextAttempt, now);
      hide Finish, FinishWrites, LeaseHeld;
      if !LeaseHeld(lease, owner, now) {
        return Failed(LeaseLost);
      }
      if outcome == Open || (outcome == Accepted && messageId == 0) {
        return Failed(BadInput);
      }
      if c !in chunks || chunks[c].state != InFlight {
        return Failed(InvalidTransition);
      }
      var d := chunks[c].delivery;
      var key := Key(c, chunks[c].attemptCount);
      if key !in attempts || attempts[key].delivery != d || attempts[key].run != run || attempts[key].outcome != Open ||
         d !in deliveries
      {
        return Failed(InvalidTransition);
      }
      ApplyOutcome(c, outcome, errorClass, errorKind, messageId, nextAttempt, now);
      return Done(());
    }

    /** The updates of an acknowledgement that passed its checks: chunk, attempt, history, delivery. */
    method ApplyOutcome(c: ChunkId, outcome: Outcome, errorClass: string, errorKind: TerminalError, messageId: nat,
                        nextAttempt: Option<Time>, now: Time)
      requires outcome != Open && c in chunks && chunks[c].delivery in deliveries
      requires Key(c, chunks[c].attemptCount) in attempts
      modifies this
      ensures Tables() ==
        FinishWrites(old(Tables()), c, outcome, errorClass, errorKind, messageId, nextAttempt, now)
    {
      hide AllSent, RecordHistory, DeliveryAfter, ChunkStateAfter, Observe;
      var d, key := chunks[c].delivery, Key(c, chunks[c].attemptCount);
      chunks := chunks[c := chunks[c].(
        state := ChunkStateAfter(outcome), nextAttemptAt := nextAttempt, messageId := messageId,
          errorClass := errorClass,
        sentAt := if outcome == Accepted then Some(now) else None)];
      attempts := attempts[key := attempts[key].(outcome := outcome, endedAt := Some(now))];
      if outcome == Accepted {
        RecordChunkHistory(d, c, now);
      }
      MoveDelivery(d, outcome, errorKind, nextAttempt, now);
    }

    method MoveDelivery(d: DeliveryId, outcome: Outcome, errorKind: TerminalError, nextAttempt: Option<Time>, now: Time)
      requires outcome != Open && d in deliveries
      modifies this`deliveries
      ensures deliveries == old(deliveries)[d :=
        DeliveryAfter(Observe(old(deliveries[d]), now), outcome, chunks, ItemsOf(items, d), d, errorKind, nextAttempt)]
    {
      hide AllSent, AfterConfirmation;
      RecordRetryObservation(d, now);
      match outcome {
        case Accepted =>
          SettleConfirmed(d);
        case RejectedRetryable =>
          deliveries := deliveries[d := deliveries[d].(state := RetryWait, nextAttemptAt := nextAttempt)];
        case Unknown =>
          deliveries := deliveries[d := deliveries[d].(state := NeedsAttention, terminalError := errorKind)];
        case RejectedTerminal =>
          deliveries := deliveries[d := deliveries[d].(state := FailedTerminal, terminalError := errorKind)];
      }
    }

    /** The verdict on a delivery one of whose chunks was just confirmed. */
    method SettleConfirmed(d: DeliveryId)
      requires d in deliveries
      modifies this`deliveries
      ensures deliveries == old(deliveries)[d := AfterConfirmation(old(deliveries[d]), chunks, ItemsOf(items, d), d)]
    {
      if AllSent(chunks, d) {
        var state := if ItemsOf(items, d) == [] then CompletedEmpty else Completed;
        deliveries := deliveries[d := deliveries[d].(state := state, nextAttemptAt := None)];
      } else {
        deliveries := deliveries[d := deliveries[d].(state := Sending)];
      }
    }

    /** One history row per item of the chunk; an item already recorded for the delivery is skipped. */
    method RecordChunkHistory(d: DeliveryId, c: ChunkId, at: Time)
      requires c in chunks
      modifies this`history
      ensures history == RecordHistory(old(history), ItemsOf(items, d), d, c, chunks[c].sequence, at)
    {
      var rows := ItemsOf(items, d);
      for i := 0 to |rows|
        invariant history == RecordHistory(old(history), rows[..i], d, c, chunks[c].sequence, at)
      {
        assert rows[..i + 1][..i] == rows[..i];
        if rows[i].chunkIndex == chunks[c].sequence && !Recorded(history, d, rows[i].fingerprint) {
          history := history + [HistoryRow(rows[i].url, rows[i].fingerprint, d, c, at)];
        }
      }
      assert rows[..|rows|] == rows;
    }

    // ----- operator steps

    method ResolveChunk(c: ChunkId, verdict: Verdict, reason: string, operator: string, now: Time)
      returns (r: Answer<()>)
      modifies this
      ensures Tables() == Settled(old(Tables()), Resolve(old(Tables()), c, verdict, reason, operator, now))
      ensures r == AnswerTo(Resolve(old(Tables()), c, verdict, reason, operator, now), ())
    {
      hide AllSent, RecordHistory, AfterConfirmation, HasUnresolved, TerminalRetryUsed;
      if reason == "" || operator == "" {
        return Failed(BadInput);
      }
      if c !in chunks || (chunks[c].state != Ambiguous && chunks[c].state != Refused) {
        return Failed(InvalidTransition);
      }
      var d, state := chunks[c].delivery, chunks[c].state;
      if d !in deliveries {
        return Failed(InvalidTransition);
      }
      var audited := reason;
      if state == Refused {
        if verdict != Retry || !RetrySafe(chunks[c].errorClass) || HasUnresolved(chunks, d) ||
          TerminalRetryUsed(resolutions, c) {
          return Failed(InvalidTransition);
        }
        audited := TERMINAL_RETRY + reason;
      }
      resolutions := resolutions + [Resolution(c, verdict, audited, state, now)];
      if verdict == MarkSent {
        ConfirmByHand(c, d, now);
      } else {
        chunks := chunks[c := chunks[c].(state := Pending, nextAttemptAt := None, errorClass := "")];
        deliveries := deliveries[d := deliveries[d].(state := Sending, terminalError := NoError)];
      }
      return Done(());
    }

    /** The updates of a `sent` verdict: chunk, history and delivery. */
    method ConfirmByHand(c: ChunkId, d: DeliveryId, now: Time)
      requires c in chunks && d in deliveries
      modifies this`chunks, this`history, this`deliveries
      ensures chunks == old(chunks)[c := old(chunks[c]).(state := Sent, sentAt := Some(now), errorClass := "")]
      ensures history == RecordHistory(old(history), ItemsOf(items, d), d, c, old(chunks[c]).sequence, now)
      ensures
        var cleared := old(deliveries[d]).(terminalError := NoError);
        deliveries == old(deliveries)[d := AfterConfirmation(cleared, chunks, ItemsOf(items, d),
          d).(nextAttemptAt := cleared.nextAttemptAt)]
    {
      hide AllSent, RecordHistory, AfterConfirmation;
      chunks := chunks[c := chunks[c].(state := Sent, sentAt := Some(now), errorClass := "")];
      RecordChunkHistory(d, c, now);
      var resumed := deliveries[d].nextAttemptAt;
      deliveries := deliveries[d := deliveries[d].(terminalError := NoError)];
      SettleConfirmed(d);
      deliveries := deliveries[d := deliveries[d].(nextAttemptAt := resumed)];
    }

    method ReconcileDelivery(d: DeliveryId, snapshot: string, reason: string, operator: string) returns (r: Answer<()>)
      modifies this
      ensures Tables() == Settled(old(Tables()), Reconcile(old(Tables()), d, snapshot, reason, operator))
      ensures r == AnswerTo(Reconcile(old(Tables()), d, snapshot, reason, operator), ())
    {
      if reason == "" || operator == "" {
        return Failed(BadInput);
      }
      if d !in deliveries || deliveries[d].state != NeedsAttention || deliveries[d].terminalError != TargetMismatch {
        return Failed(InvalidTransition);
      }
      if deliveries[d].target == "" || snapshot != deliveries[d].target {
        return Failed(InvalidTransition);
      }
      if !HasChunks(chunks, d) || !Untouched(chunks, d) {
        return Failed(InvalidTransition);
      }
      deliveries := deliveries[d := deliveries[d].(state := Prepared, terminalError := NoError)];
      return Done(());
    }
  }
}
