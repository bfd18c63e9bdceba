/**
 * What every committed transaction keeps true of the outbox tables: the shape
 * of a delivery's chunks, the attempt ledger, the accounting of attempts that
 * are not definite rejections, and the verdict on the delivery.
 */
module OutboxInvariant {
  import opened Wrappers
  import opened Rows
  import opened Transactions

  // ----- the invariant

  /** Foreign keys, id counters and UNIQUE(delivery_id, sequence). */
  ghost predicate WellFormed(db: Db) {
    && (forall c :: c in db.chunks ==>
          db.chunks[c].delivery in db.deliveries && c < db.nextChunk && db.chunks[c].sequence >= 0)
    && (forall d :: d in db.deliveries ==> d < db.nextDelivery)
    && (forall d :: d in db.items ==> d in db.deliveries)
    && (forall i :: 0 <= i < |db.resolutions| ==> db.resolutions[i].chunk in db.chunks)
    && (forall c1, c2 | c1 in db.chunks && c2 in db.chunks && db.chunks[c1].delivery == db.chunks[c2].delivery ::
          db.chunks[c1].sequence == db.chunks[c2].sequence ==> c1 == c2)
  }

  /** In sequence order a delivery's chunks read sent* X? pending*, the pending tail never attempted. */
  ghost predicate Shape(chunks: map<ChunkId, Chunk>) {
    forall c1, c2 | c1 in chunks && c2 in chunks && chunks[c1].delivery == chunks[c2].delivery ::
      chunks[c1].sequence < chunks[c2].sequence && chunks[c1].state != Sent ==>
        chunks[c2].state == Pending && chunks[c2].attemptCount == 0
  }

  /**
   * A chunk's attempts are numbered 1..attempt_count; the open one is the last,
   * and exists iff the chunk is in flight.
   */
  ghost predicate Ledger(chunks: map<ChunkId, Chunk>, attempts: map<AttemptKey, Attempt>) {
    && (forall k :: k in attempts ==>
          k.chunk in chunks && 1 <= k.number <= chunks[k.chunk].attemptCount &&
            attempts[k].delivery == chunks[k.chunk].delivery)
    && (forall c, n :: c in chunks && 1 <= n <= chunks[c].attemptCount ==> Key(c, n) in attempts)
    && (forall k :: k in attempts ==>
          (attempts[k].outcome == Open <==>
            chunks[k.chunk].state == InFlight && k.number == chunks[k.chunk].attemptCount))
    && (forall c :: c in chunks && chunks[c].state != Pending ==> chunks[c].attemptCount >= 1)
  }

  /** The frozen text still has its frozen hash. */
  ghost predicate HashesMatch(chunks: map<ChunkId, Chunk>) {
    forall c :: c in chunks ==> chunks[c].hash == Sha256(chunks[c].payload)
  }

  /** How many of attempts 1..n may have been accepted: all but the definite rejections. */
  ghost function NonRejected(attempts: map<AttemptKey, Attempt>, c: ChunkId, n: nat): nat {
    if n == 0 then 0
    else NonRejected(attempts, c, n - 1) + if Key(c, n) in attempts &&
      !Rejected(attempts[Key(c, n)].outcome) then 1 else 0
  }

  /** Audited `retry` verdicts on the chunk while it was ambiguous. */
  ghost function AmbiguousRetries(resolutions: seq<Resolution>, c: ChunkId): nat {
    if resolutions == [] then 0
    else
      var last := resolutions[|resolutions| - 1];
      AmbiguousRetries(resolutions[..|resolutions| - 1], c) +
      if last.chunk == c && last.verdict == Retry && last.from == Ambiguous then 1 else 0
  }

  ghost predicate MaybeAccepted(state: ChunkState) {
    state == InFlight || state == Sent || state == Ambiguous
  }

  /** Non-rejected attempts are exactly those an operator released, plus the one the chunk's state stands for. */
  ghost predicate Accounted(db: Db) {
    forall c :: c in db.chunks ==> ChunkAccounted(db, c)
  }

  ghost predicate ChunkAccounted(db: Db, c: ChunkId)
    requires c in db.chunks
  {
    NonRejected(db.attempts, c, db.chunks[c].attemptCount) ==
    AmbiguousRetries(db.resolutions, c) + if MaybeAccepted(db.chunks[c].state) then 1 else 0
  }

  /** A delivery is completed or completed_empty exactly when it has chunks and all are sent; empty means no items. */
  ghost predicate Judged(db: Db) {
    forall d :: d in db.deliveries ==>
      (Finished(db.deliveries[d].state) <==> HasChunks(db.chunks, d) && AllSent(db.chunks, d)) &&
      (db.deliveries[d].state == CompletedEmpty ==> ItemsOf(db.items, d) == []) &&
      (db.deliveries[d].state == Completed ==> ItemsOf(db.items, d) != [])
  }

  ghost predicate Outbox(db: Db) {
    && WellFormed(db)
    && Shape(db.chunks)
    && Ledger(db.chunks, db.attempts)
    && HashesMatch(db.chunks)
    && Accounted(db)
    && Judged(db)
  }

  // ----- counting lemmas

  lemma {:induction false} NonRejectedAgrees(a: map<AttemptKey, Attempt>, b: map<AttemptKey, Attempt>, c: ChunkId,
                                             n: nat)
    requires forall m :: 1 <= m <= n ==>
      (Key(c, m) in a <==> Key(c, m) in b) &&
      (Key(c, m) in a ==> (Rejected(a[Key(c, m)].outcome) <==> Rejected(b[Key(c, m)].outcome)))
    ensures NonRejected(a, c, n) == NonRejected(b, c, n)
  {
    if n > 0 {
      NonRejectedAgrees(a, b, c, n - 1);
    }
  }

  lemma RetriesAppend(resolutions: seq<Resolution>, r: Resolution, c: ChunkId)
    ensures AmbiguousRetries(resolutions + [r], c) == AmbiguousRetries(resolutions, c) +
      if r.chunk == c && r.verdict == Retry && r.from == Ambiguous then 1 else 0
  {
    assert (resolutions + [r])[..|resolutions|] == resolutions;
  }

  lemma {:induction false} NoRetries(resolutions: seq<Resolution>, c: ChunkId)
    requires forall i :: 0 <= i < |resolutions| ==> resolutions[i].chunk != c
    ensures AmbiguousRetries(resolutions, c) == 0
  {
    if resolutions != [] {
      NoRetries(resolutions[..|resolutions| - 1], c);
    }
  }

  /** At most one resolution is appended, and it is about this chunk. */
  ghost predicate Audited(db: Db, db': Db, c: ChunkId) {
    || db'.resolutions == db.resolutions
    || (|db'.resolutions| == |db.resolutions| + 1 && db'.resolutions[..|db.resolutions|] == db.resolutions &&
        db'.resolutions[|db.resolutions|].chunk == c)
  }

  /** A transaction that touches one chunk keeps the account of all the others. */
  lemma AccountFrame(db: Db, db': Db, touched: ChunkId)
    requires Accounted(db)
    requires Ledger(db.chunks, db.attempts)
    requires db'.chunks.Keys == db.chunks.Keys
    requires forall c :: c in db.chunks && c != touched ==> db'.chunks[c] == db.chunks[c]
    requires forall k: AttemptKey :: k.chunk != touched ==>
      (k in db'.attempts <==> k in db.attempts) && (k in db.attempts ==> db'.attempts[k] == db.attempts[k])
    requires Audited(db, db', touched)
    requires touched in db'.chunks ==> ChunkAccounted(db', touched)
    ensures Accounted(db')
  {
    forall c | c in db'.chunks
      ensures ChunkAccounted(db', c)
    {
      if c != touched {
        assert ChunkAccounted(db, c);
        NonRejectedAgrees(db.attempts, db'.attempts, c, db.chunks[c].attemptCount);
        if db'.resolutions != db.resolutions {
          var r := db'.resolutions[|db.resolutions|];
          assert db'.resolutions == db.resolutions + [r];
          RetriesAppend(db.resolutions, r, c);
        }
      }
    }
  }

  // ----- one chunk changes

  /** The frame of begin, finish and resolve: one chunk row and its delivery's row change. */
  ghost predicate OneChunk(db: Db, db': Db, c: ChunkId) {
    && c in db.chunks && c in db'.chunks
    && var row, row' := db.chunks[c], db'.chunks[c];
    && db'.chunks == db.chunks[c := row']
    && row'.delivery == row.delivery && row'.sequence == row.sequence
    && row'.payload == row.payload && row'.hash == row.hash
    && row.delivery in db.deliveries
    && db'.deliveries.Keys == db.deliveries.Keys
    && (forall d :: d in db.deliveries && d != row.delivery ==> db'.deliveries[d] == db.deliveries[d])
    && db'.items == db.items && db'.nextDelivery == db.nextDelivery && db'.nextChunk == db.nextChunk
  }

  lemma ShapeKept(db: Db, db': Db, c: ChunkId)
    requires OneChunk(db, db', c) && Shape(db.chunks)
    requires db.chunks[c].state == Sent ==> db'.chunks[c].state == Sent
    requires db.chunks[c].state == Pending ==> !EarlierUnsent(db.chunks, db.chunks[c].delivery, db.chunks[c].sequence)
    ensures Shape(db'.chunks)
  {
    forall c1, c2 | c1 in db'.chunks && c2 in db'.chunks && db'.chunks[c1].delivery == db'.chunks[c2].delivery &&
      db'.chunks[c1].sequence < db'.chunks[c2].sequence && db'.chunks[c1].state != Sent
      ensures db'.chunks[c2].state == Pending && db'.chunks[c2].attemptCount == 0
    {
      assert db.chunks[c1].state != Sent && db.chunks[c1].sequence < db.chunks[c2].sequence;
    }
  }

  /** The chunk's last attempt is added or closed, or the attempts stay. */
  ghost predicate LastAttempt(db: Db, db': Db, c: ChunkId)
    requires c in db.chunks && c in db'.chunks
  {
    var row, row' := db.chunks[c], db'.chunks[c];
    var key := Key(c, row'.attemptCount);
    || (db'.attempts == db.attempts && row'.attemptCount == row.attemptCount >= 1 &&
        row.state != InFlight && row'.state != InFlight)
    || (key in db'.attempts && db'.attempts == db.attempts[key := db'.attempts[key]] &&
        row'.attemptCount >= 1 && db'.attempts[key].delivery == row.delivery &&
        (db'.attempts[key].outcome == Open <==> row'.state == InFlight) &&
        ((row'.attemptCount == row.attemptCount && row.state == InFlight) ||
         (row'.attemptCount == row.attemptCount + 1 && row.state != InFlight)))
  }

  lemma LedgerKept(db: Db, db': Db, c: ChunkId)
    requires OneChunk(db, db', c) && LastAttempt(db, db', c) && Ledger(db.chunks, db.attempts)
    ensures Ledger(db'.chunks, db'.attempts)
  {
    if db'.attempts != db.attempts {
      forall k | k in db'.attempts && k != Key(c, db'.chunks[c].attemptCount)
        ensures k in db.attempts && db'.attempts[k] == db.attempts[k]
      {
      }
    }
  }

  lemma JudgedKept(db: Db, db': Db, c: ChunkId)
    requires OneChunk(db, db', c) && WellFormed(db) && Judged(db)
    requires
      var d := db.chunks[c].delivery;
      && (Finished(db'.deliveries[d].state) <==> AllSent(db'.chunks, d))
      && (db'.deliveries[d].state == CompletedEmpty ==> ItemsOf(db.items, d) == [])
      && (db'.deliveries[d].state == Completed ==> ItemsOf(db.items, d) != [])
    ensures Judged(db')
  {
    var touched := db.chunks[c].delivery;
    assert HasChunks(db.chunks, touched);
    hide HasChunks, AllSent;
    forall d | d in db'.deliveries
      ensures HasChunks(db'.chunks, d) <==> HasChunks(db.chunks, d)
      ensures d != touched ==> (AllSent(db'.chunks, d) <==> AllSent(db.chunks, d))
    {
      HasChunksFrame(db.chunks, db'.chunks, d);
      if d != touched {
        AllSentFrame(db.chunks, db'.chunks, d);
      }
    }
  }

  lemma HasChunksFrame(chunks: map<ChunkId, Chunk>, chunks': map<ChunkId, Chunk>, d: DeliveryId)
    requires chunks'.Keys == chunks.Keys
    requires forall c :: c in chunks ==> chunks'[c].delivery == chunks[c].delivery
    ensures HasChunks(chunks', d) <==> HasChunks(chunks, d)
  {
    if x :| x in chunks && chunks[x].delivery == d {
      assert chunks'[x].delivery == d;
    }
    if x :| x in chunks' && chunks'[x].delivery == d {
      assert chunks[x].delivery == d;
    }
  }

  lemma AllSentFrame(chunks: map<ChunkId, Chunk>, chunks': map<ChunkId, Chunk>, d: DeliveryId)
    requires chunks'.Keys == chunks.Keys
    requires forall c :: c in chunks ==> chunks'[c].delivery == chunks[c].delivery
    requires forall c :: c in chunks && chunks[c].delivery == d ==> chunks'[c].state == chunks[c].state
    ensures AllSent(chunks', d) <==> AllSent(chunks, d)
  {
    if AllSent(chunks', d) {
      forall c | c in chunks && chunks[c].delivery == d ensures chunks[c].state == Sent {
        assert chunks'[c].delivery == d;
      }
    }
  }

  lemma WellFormedKept(db: Db, db': Db, c: ChunkId)
    requires OneChunk(db, db', c) && WellFormed(db)
    requires Audited(db, db', c)
    ensures WellFormed(db')
  {
    forall c1, c2 | c1 in db'.chunks && c2 in db'.chunks && db'.chunks[c1].delivery == db'.chunks[c2].delivery &&
      db'.chunks[c1].sequence == db'.chunks[c2].sequence
      ensures c1 == c2
    {
      assert db.chunks[c1].sequence == db.chunks[c2].sequence;
    }
    forall i | 0 <= i < |db'.resolutions| ensures db'.resolutions[i].chunk in db'.chunks {
      if i < |db.resolutions| {
        assert db'.resolutions[i] == db.resolutions[i];
      }
    }
  }

  function Bit(b: bool): nat {
    if b then 1 else 0
  }

  /** What a begin, finish or resolve does to one chunk, its last attempt, its audit and its delivery. */
  ghost predicate ChunkStep(db: Db, db': Db, c: ChunkId) {
    && OneChunk(db, db', c)
    && LastAttempt(db, db', c)
    && var row, row' := db.chunks[c], db'.chunks[c];
    && (row.state == Sent ==> row'.state == Sent)
    && (row.state == Pending ==> !EarlierUnsent(db.chunks, row.delivery, row.sequence))
    && Audited(db, db', c)
    && Bit(MaybeAccepted(row'.state)) + AmbiguousRetries(db'.resolutions, c) - AmbiguousRetries(db.resolutions, c) ==
       Bit(MaybeAccepted(row.state)) +
       (if db'.attempts == db.attempts then 0
        else
          Bit(!Rejected(db'.attempts[Key(c, row'.attemptCount)].outcome)) -
          Bit(row'.attemptCount == row.attemptCount))
    && (Finished(db'.deliveries[row.delivery].state) <==> AllSent(db'.chunks, row.delivery))
    && (db'.deliveries[row.delivery].state == CompletedEmpty ==> ItemsOf(db.items, row.delivery) == [])
    && (db'.deliveries[row.delivery].state == Completed ==> ItemsOf(db.items, row.delivery) != [])
  }

  lemma TouchedAccount(db: Db, db': Db, c: ChunkId)
    requires ChunkStep(db, db', c) && ChunkAccounted(db, c) && Ledger(db.chunks, db.attempts)
    ensures ChunkAccounted(db', c)
  {
    var row, row' := db.chunks[c], db'.chunks[c];
    if db'.attempts != db.attempts {
      var n := row'.attemptCount;
      NonRejectedAgrees(db.attempts, db'.attempts, c, n - 1);
      if n == row.attemptCount {
        assert Key(c, n) in db.attempts && db.attempts[Key(c, n)].outcome == Open;
        assert NonRejected(db.attempts, c, n) == NonRejected(db.attempts, c, n - 1) + 1;
      }
      assert NonRejected(db'.attempts, c, n) ==
        NonRejected(db'.attempts, c, n - 1) + Bit(!Rejected(db'.attempts[Key(c, n)].outcome));
    }
  }

  lemma AccountKept(db: Db, db': Db, c: ChunkId)
    requires ChunkStep(db, db', c) && Accounted(db) && Ledger(db.chunks, db.attempts)
    ensures Accounted(db')
  {
    TouchedAccount(db, db', c);
    AccountFrame(db, db', c);
  }

  lemma ChunkStepKeepsOutbox(db: Db, db': Db, c: ChunkId)
    requires Outbox(db) && ChunkStep(db, db', c)
    ensures Outbox(db')
  {
    hide WellFormed, Shape, Ledger, Accounted, Judged;
    WellFormedKept(db, db', c);
    ShapeKept(db, db', c);
    LedgerKept(db, db', c);
    AccountKept(db, db', c);
    JudgedKept(db, db', c);
  }

  // ----- every transaction keeps the invariant

  lemma BeginKeepsOutbox(db: Db, c: ChunkId, run: RunId, owner: RunId, now: Time)
    requires Outbox(db)
    requires Begin(db, c, run, owner, now).Ok?
    ensures Outbox(Begin(db, c, run, owner, now).value)
  {
    BeginIsChunkStep(db, c, run, owner, now);
    ChunkStepKeepsOutbox(db, Begin(db, c, run, owner, now).value, c);
  }

  lemma BeginIsChunkStep(db: Db, c: ChunkId, run: RunId, owner: RunId, now: Time)
    requires Ledger(db.chunks, db.attempts)
    requires Begin(db, c, run, owner, now).Ok?
    ensures ChunkStep(db, Begin(db, c, run, owner, now).value, c)
  {
    var db' := Begin(db, c, run, owner, now).value;
    assert OneChunk(db, db', c);
    assert LastAttempt(db, db', c);
    assert db'.chunks[c].delivery == db.chunks[c].delivery && db'.chunks[c].state == InFlight;
    assert Key(c, db.chunks[c].attemptCount + 1) in db'.attempts;
  }

  lemma FinishKeepsOutbox(db: Db, c: ChunkId, outcome: Outcome, run: RunId, owner: RunId, errorClass: string,
                          errorKind: TerminalError, messageId: nat, nextAttempt: Option<Time>, now: Time)
    requires Outbox(db)
    requires Finish(db, c, outcome, run, owner, errorClass, errorKind, messageId, nextAttempt, now).Ok?
    ensures Outbox(Finish(db, c, outcome, run, owner, errorClass, errorKind, messageId, nextAttempt, now).value)
  {
    FinishIsChunkStep(db, c, outcome, run, owner, errorClass, errorKind, messageId, nextAttempt, now);
    ChunkStepKeepsOutbox(db, Finish(db, c, outcome, run, owner, errorClass, errorKind, messageId,
      nextAttempt, now).value, c);
  }

  /** The chunk's row and its open attempt move; nothing is audited. */
  lemma FinishRows(db: Db, c: ChunkId, outcome: Outcome, run: RunId, owner: RunId, errorClass: string,
                   errorKind: TerminalError, messageId: nat, nextAttempt: Option<Time>, now: Time)
    requires Ledger(db.chunks, db.attempts)
    requires Finish(db, c, outcome, run, owner, errorClass, errorKind, messageId, nextAttempt, now).Ok?
    ensures
      var db' := Finish(db, c, outcome, run, owner, errorClass, errorKind, messageId, nextAttempt, now).value;
      && OneChunk(db, db', c) && LastAttempt(db, db', c) && db'.resolutions == db.resolutions
      && db.chunks[c].state == InFlight && db'.chunks[c].state == ChunkStateAfter(outcome)
      && db'.chunks[c].attemptCount == db.chunks[c].attemptCount && db'.attempts != db.attempts
      && db'.attempts[Key(c, db.chunks[c].attemptCount)].outcome == outcome
  {
    var db' := Finish(db, c, outcome, run, owner, errorClass, errorKind, messageId, nextAttempt, now).value;
    hide RecordHistory, DeliveryAfter, Observe;
    var key := Key(c, db.chunks[c].attemptCount);
    assert db'.attempts[key].outcome == outcome && db.attempts[key].outcome == Open;
  }

  /** The delivery's verdict follows its chunks. */
  lemma FinishVerdict(db: Db, c: ChunkId, outcome: Outcome, run: RunId, owner: RunId, errorClass: string,
                      errorKind: TerminalError, messageId: nat, nextAttempt: Option<Time>, now: Time)
    requires Finish(db, c, outcome, run, owner, errorClass, errorKind, messageId, nextAttempt, now).Ok?
    ensures
      var db' := Finish(db, c, outcome, run, owner, errorClass, errorKind, messageId, nextAttempt, now).value;
      var d := db.chunks[c].delivery;
      && d in db'.deliveries
      && (Finished(db'.deliveries[d].state) <==> AllSent(db'.chunks, d))
      && (db'.deliveries[d].state == CompletedEmpty ==> ItemsOf(db.items, d) == [])
      && (db'.deliveries[d].state == Completed ==> ItemsOf(db.items, d) != [])
  {
    var db' := Finish(db, c, outcome, run, owner, errorClass, errorKind, messageId, nextAttempt, now).value;
    hide RecordHistory, Observe;
    if outcome != Accepted {
      assert db'.chunks[c].state != Sent && db'.chunks[c].delivery == db.chunks[c].delivery;
      assert !AllSent(db'.chunks, db.chunks[c].delivery);
    }
  }

  lemma FinishIsChunkStep(db: Db, c: ChunkId, outcome: Outcome, run: RunId, owner: RunId, errorClass: string,
                          errorKind: TerminalError, messageId: nat, nextAttempt: Option<Time>, now: Time)
    requires Ledger(db.chunks, db.attempts)
    requires Finish(db, c, outcome, run, owner, errorClass, errorKind, messageId, nextAttempt, now).Ok?
    ensures
      var db' := Finish(db, c, outcome, run, owner, errorClass, errorKind, messageId, nextAttempt, now).value;
      ChunkStep(db, db', c)
  {
    FinishRows(db, c, outcome, run, owner, errorClass, errorKind, messageId, nextAttempt, now);
    FinishVerdict(db, c, outcome, run, owner, errorClass, errorKind, messageId, nextAttempt, now);
    hide Finish, AllSent, Ledger;
  }

  lemma ResolveKeepsOutbox(db: Db, c: ChunkId, verdict: Verdict, reason: string, operator: string, now: Time)
    requires Outbox(db)
    requires Resolve(db, c, verdict, reason, operator, now).Ok?
    ensures Outbox(Resolve(db, c, verdict, reason, operator, now).value)
  {
    ResolveIsChunkStep(db, c, verdict, reason, operator, now);
    ChunkStepKeepsOutbox(db, Resolve(db, c, verdict, reason, operator, now).value, c);
  }

  lemma ResolveAudits(db: Db, c: ChunkId, verdict: Verdict, reason: string, operator: string, now: Time)
    requires Resolve(db, c, verdict, reason, operator, now).Ok?
    ensures
      var db' := Resolve(db, c, verdict, reason, operator, now).value;
      && Audited(db, db', c)
      && AmbiguousRetries(db'.resolutions, c) == AmbiguousRetries(db.resolutions, c) +
         if verdict == Retry && db.chunks[c].state == Ambiguous then 1 else 0
  {
    hide RecordHistory, AfterConfirmation, HasUnresolved, TerminalRetryUsed, AmbiguousRetries, ItemsOf;
    var db' := Resolve(db, c, verdict, reason, operator, now).value;
    var audit := db'.resolutions[|db.resolutions|];
    assert db'.resolutions == db.resolutions + [audit];
    RetriesAppend(db.resolutions, audit, c);
  }

  lemma ResolveRows(db: Db, c: ChunkId, verdict: Verdict, reason: string, operator: string, now: Time)
    requires Ledger(db.chunks, db.attempts)
    requires Resolve(db, c, verdict, reason, operator, now).Ok?
    ensures
      var db' := Resolve(db, c, verdict, reason, operator, now).value;
      && OneChunk(db, db', c) && LastAttempt(db, db', c) && db'.attempts == db.attempts
      && (db.chunks[c].state == Ambiguous || db.chunks[c].state == Refused)
      && (db.chunks[c].state == Refused ==> verdict == Retry)
      && db'.chunks[c].state == (if verdict == MarkSent then Sent else Pending)
  {
    hide RecordHistory, AfterConfirmation, HasUnresolved, TerminalRetryUsed, ItemsOf;
  }

  lemma ResolveVerdict(db: Db, c: ChunkId, verdict: Verdict, reason: string, operator: string, now: Time)
    requires Resolve(db, c, verdict, reason, operator, now).Ok?
    ensures
      var db' := Resolve(db, c, verdict, reason, operator, now).value;
      var d := db.chunks[c].delivery;
      && d in db'.deliveries
      && (Finished(db'.deliveries[d].state) <==> AllSent(db'.chunks, d))
      && (db'.deliveries[d].state == CompletedEmpty ==> ItemsOf(db.items, d) == [])
      && (db'.deliveries[d].state == Completed ==> ItemsOf(db.items, d) != [])
  {
    hide RecordHistory, HasUnresolved, TerminalRetryUsed;
    var db' := Resolve(db, c, verdict, reason, operator, now).value;
    if verdict == Retry {
      assert db'.chunks[c].state == Pending && db'.chunks[c].delivery == db.chunks[c].delivery;
      assert !AllSent(db'.chunks, db.chunks[c].delivery);
    }
  }

  lemma ResolveIsChunkStep(db: Db, c: ChunkId, verdict: Verdict, reason: string, operator: string, now: Time)
    requires Ledger(db.chunks, db.attempts)
    requires Resolve(db, c, verdict, reason, operator, now).Ok?
    ensures ChunkStep(db, Resolve(db, c, verdict, reason, operator, now).value, c)
  {
    ResolveRows(db, c, verdict, reason, operator, now);
    ResolveAudits(db, c, verdict, reason, operator, now);
    ResolveVerdict(db, c, verdict, reason, operator, now);
    hide Resolve, AllSent, Ledger, AmbiguousRetries;
  }

  lemma RecoverKeepsOutbox(db: Db, now: Time)
    requires Outbox(db)
    ensures Outbox(Recover(db, now))
  {
    RecoverIsRecovered(db, now);
    RecoverKeepsLedger(db, now);
    RecoveredKeepsOutbox(db, Recover(db, now));
  }

  lemma RecoverIsRecovered(db: Db, now: Time)
    ensures Recovered(db, Recover(db, now))
  {
  }

  lemma RecoveredKeepsOutbox(db: Db, db': Db)
    requires Outbox(db) && Recovered(db, db') && Ledger(db'.chunks, db'.attempts)
    ensures Outbox(db')
  {
    RecoveredRows(db, db');
    RecoveredAccount(db, db');
    RecoveredJudged(db, db');
  }

  /** Recovery only moves chunks from in_flight to ambiguous, attempts from open to unknown, deliveries to attention. */
  ghost predicate Recovered(db: Db, db': Db) {
    && db'.chunks.Keys == db.chunks.Keys && db'.deliveries.Keys == db.deliveries.Keys &&
       db'.attempts.Keys == db.attempts.Keys
    && db'.(chunks := db.chunks, deliveries := db.deliveries, attempts := db.attempts, lease := db.lease) == db
    && (forall c :: c in db.chunks ==>
          db'.chunks[c] == db.chunks[c] ||
            (db.chunks[c].state == InFlight && db'.chunks[c] == ToAmbiguous(db.chunks[c])))
    && (forall d :: d in db.deliveries ==>
          db'.deliveries[d] == db.deliveries[d] ||
          (!Terminal(db.deliveries[d].state) && db'.deliveries[d] == db.deliveries[d].(state := NeedsAttention)))
    && (forall k :: k in db.attempts ==>
          Rejected(db'.attempts[k].outcome) == Rejected(db.attempts[k].outcome) &&
            db'.attempts[k].run == db.attempts[k].run &&
          db'.attempts[k].delivery == db.attempts[k].delivery)
  }

  lemma RecoveredRows(db: Db, db': Db)
    requires Recovered(db, db') && WellFormed(db) && Shape(db.chunks) && HashesMatch(db.chunks)
    ensures WellFormed(db') && Shape(db'.chunks) && HashesMatch(db'.chunks)
  {
    assert forall c :: c in db'.chunks ==>
      db'.chunks[c].delivery == db.chunks[c].delivery && db'.chunks[c].sequence == db.chunks[c].sequence;
    ShapeFrame(db.chunks, db'.chunks);
    forall c1, c2 | c1 in db'.chunks && c2 in db'.chunks && db'.chunks[c1].delivery == db'.chunks[c2].delivery &&
      db'.chunks[c1].sequence == db'.chunks[c2].sequence
      ensures c1 == c2
    {
      assert db.chunks[c1].sequence == db.chunks[c2].sequence;
    }
  }

  lemma ShapeFrame(chunks: map<ChunkId, Chunk>, chunks': map<ChunkId, Chunk>)
    requires Shape(chunks) && chunks'.Keys == chunks.Keys
    requires forall c :: c in chunks ==>
      chunks'[c] == chunks[c] || (chunks[c].state == InFlight && chunks'[c] == ToAmbiguous(chunks[c]))
    ensures Shape(chunks')
  {
    forall c1, c2 | c1 in chunks' && c2 in chunks' && chunks'[c1].delivery == chunks'[c2].delivery &&
      chunks'[c1].sequence < chunks'[c2].sequence && chunks'[c1].state != Sent
      ensures chunks'[c2].state == Pending && chunks'[c2].attemptCount == 0
    {
      assert chunks[c1].sequence < chunks[c2].sequence && chunks[c1].state != Sent;
    }
  }

  lemma RecoverKeepsLedger(db: Db, now: Time)
    requires Ledger(db.chunks, db.attempts)
    ensures Ledger(Recover(db, now).chunks, Recover(db, now).attempts)
  {
  }

  lemma RecoveredAccount(db: Db, db': Db)
    requires Recovered(db, db') && Accounted(db)
    ensures Accounted(db')
  {
    forall c | c in db'.chunks
      ensures ChunkAccounted(db', c)
    {
      assert ChunkAccounted(db, c);
      NonRejectedAgrees(db.attempts, db'.attempts, c, db.chunks[c].attemptCount);
    }
  }

  lemma RecoveredJudged(db: Db, db': Db)
    requires Recovered(db, db') && Judged(db)
    ensures Judged(db')
  {
    forall d | d in db'.deliveries
      ensures HasChunks(db'.chunks, d) <==> HasChunks(db.chunks, d)
      ensures AllSent(db'.chunks, d) <==> AllSent(db.chunks, d)
    {
      if HasChunks(db.chunks, d) {
        var x :| x in db.chunks && db.chunks[x].delivery == d;
        assert db'.chunks[x].delivery == d;
      }
      if AllSent(db'.chunks, d) {
        forall x | x in db.chunks && db.chunks[x].delivery == d ensures db.chunks[x].state == Sent {
          assert db'.chunks[x].delivery == d;
        }
      }
    }
  }

  lemma PrepareKeepsOutbox(db: Db, d: DeliveryId, stories: seq<Story>, messages: seq<string>, indexes: map<Digest, int>,
                           target: string, owner: RunId, now: Time)
    requires Outbox(db)
    requires Prepare(db, d, stories, messages, indexes, target, owner, now).Ok?
    ensures Outbox(Prepare(db, d, stories, messages, indexes, target, owner, now).value)
  {
    var db' := Prepare(db, d, stories, messages, indexes, target, owner, now).value;
    FreshChunksKeepOutbox(db, db', d, messages);
  }

  /** The frame of prepare: fresh chunks of a delivery that had none, everything else but items and state kept. */
  ghost predicate FreshOutbox(db: Db, db': Db, d: DeliveryId, messages: seq<string>) {
    && d in db.deliveries && !HasChunks(db.chunks, d) && messages != []
    && db'.chunks == db.chunks + FreshChunks(d, messages, db.nextChunk)
    && db'.nextChunk == db.nextChunk + |messages| && db'.nextDelivery == db.nextDelivery
    && db'.deliveries.Keys == db.deliveries.Keys
    && (forall x :: x in db.deliveries && x != d ==> db'.deliveries[x] == db.deliveries[x])
    && db'.items.Keys == db.items.Keys + {d}
    && (forall x :: x in db.items && x != d ==> db'.items[x] == db.items[x])
    && db'.attempts == db.attempts && db'.resolutions == db.resolutions
    && !Finished(db'.deliveries[d].state)
  }

  lemma FreshChunksKeepOutbox(db: Db, db': Db, d: DeliveryId, messages: seq<string>)
    requires FreshOutbox(db, db', d, messages) && Outbox(db)
    ensures Outbox(db')
  {
    FreshOrOld(db, db', d, messages);
    FreshWellFormed(db, db', d);
    FreshShape(db, db', d);
    FreshLedger(db, db', d);
    FreshJudged(db, db', d, messages);
  }

  /** Every chunk after prepare is an old one of another delivery or a fresh one of this delivery. */
  ghost predicate FreshRows(db: Db, db': Db, d: DeliveryId) {
    && (forall c :: c in db.chunks ==> c in db'.chunks && db'.chunks[c] == db.chunks[c] && db.chunks[c].delivery != d)
    && (forall c :: c in db'.chunks && c !in db.chunks ==>
          db.nextChunk <= c < db'.nextChunk && db'.chunks[c] == FreshChunk(d, c - db.nextChunk, db'.chunks[c].payload))
  }

  lemma FreshOrOld(db: Db, db': Db, d: DeliveryId, messages: seq<string>)
    requires FreshOutbox(db, db', d, messages) && WellFormed(db)
    ensures FreshRows(db, db', d) && db'.nextChunk >= db.nextChunk
    ensures db.nextChunk in db'.chunks && db'.chunks[db.nextChunk].delivery == d &&
      db'.chunks[db.nextChunk].state == Pending
  {
  }

  lemma FreshWellFormed(db: Db, db': Db, d: DeliveryId)
    requires FreshRows(db, db', d) && WellFormed(db) && db'.nextChunk >= db.nextChunk &&
      db'.nextDelivery == db.nextDelivery
    requires d in db.deliveries && db'.deliveries.Keys == db.deliveries.Keys && db'.items.Keys == db.items.Keys + {d}
    requires db'.resolutions == db.resolutions
    ensures WellFormed(db') && (HashesMatch(db.chunks) ==> HashesMatch(db'.chunks))
  {
    forall c1, c2 | c1 in db'.chunks && c2 in db'.chunks && db'.chunks[c1].delivery == db'.chunks[c2].delivery &&
      db'.chunks[c1].sequence == db'.chunks[c2].sequence
      ensures c1 == c2
    {
      if c1 in db.chunks {
        assert c2 in db.chunks;
      } else {
        assert c2 !in db.chunks;
      }
    }
  }

  lemma FreshShape(db: Db, db': Db, d: DeliveryId)
    requires FreshRows(db, db', d) && Shape(db.chunks)
    ensures Shape(db'.chunks)
  {
    forall c1, c2 | c1 in db'.chunks && c2 in db'.chunks && db'.chunks[c1].delivery == db'.chunks[c2].delivery &&
      db'.chunks[c1].sequence < db'.chunks[c2].sequence && db'.chunks[c1].state != Sent
      ensures db'.chunks[c2].state == Pending && db'.chunks[c2].attemptCount == 0
    {
      if c2 in db.chunks {
        assert c1 in db.chunks;
      }
    }
  }

  lemma FreshLedger(db: Db, db': Db, d: DeliveryId)
    requires FreshRows(db, db', d) && Ledger(db.chunks, db.attempts) && Accounted(db) && WellFormed(db)
    requires db'.attempts == db.attempts && db'.resolutions == db.resolutions
    ensures Ledger(db'.chunks, db'.attempts) && Accounted(db')
  {
    forall c | c in db'.chunks
      ensures ChunkAccounted(db', c)
    {
      if c in db.chunks {
        assert ChunkAccounted(db, c);
      } else {
        NoRetries(db.resolutions, c);
      }
    }
  }

  /** New chunks of one delivery change nothing about the chunks of another. */
  lemma FreshElsewhere(db: Db, db': Db, d: DeliveryId, x: DeliveryId)
    requires FreshRows(db, db', d) && x != d
    ensures HasChunks(db'.chunks, x) <==> HasChunks(db.chunks, x)
    ensures AllSent(db'.chunks, x) <==> AllSent(db.chunks, x)
  {
    if HasChunks(db'.chunks, x) {
      var c :| c in db'.chunks && db'.chunks[c].delivery == x;
      assert c in db.chunks;
    }
    if HasChunks(db.chunks, x) {
      var c :| c in db.chunks && db.chunks[c].delivery == x;
      assert c in db'.chunks;
    }
    if AllSent(db'.chunks, x) {
      forall c | c in db.chunks && db.chunks[c].delivery == x ensures db.chunks[c].state == Sent {
        assert c in db'.chunks;
      }
    }
    if AllSent(db.chunks, x) {
      forall c | c in db'.chunks && db'.chunks[c].delivery == x ensures db'.chunks[c].state == Sent {
        assert c in db.chunks;
      }
    }
  }

  lemma FreshJudged(db: Db, db': Db, d: DeliveryId, messages: seq<string>)
    requires FreshRows(db, db', d) && FreshOutbox(db, db', d, messages) && Judged(db)
    requires db.nextChunk in db'.chunks && db'.chunks[db.nextChunk].delivery == d
    requires db'.chunks[db.nextChunk].state == Pending
    ensures Judged(db')
  {
    assert !AllSent(db'.chunks, d);
    hide FreshRows, AllSent, HasChunks;
    forall x | x in db'.deliveries && x != d
      ensures HasChunks(db'.chunks, x) <==> HasChunks(db.chunks, x)
      ensures AllSent(db'.chunks, x) <==> AllSent(db.chunks, x)
    {
      FreshElsewhere(db, db', d, x);
    }
  }

  /**
   * Transactions that move no chunk, item or attempt keep the invariant if they
   * neither finish a delivery nor revive a finished one.
   */
  lemma DeliveryStepKeepsOutbox(db: Db, db': Db)
    requires Outbox(db)
    requires db'.chunks == db.chunks && db'.attempts == db.attempts && db'.resolutions == db.resolutions &&
      db'.items == db.items
    requires db'.nextChunk == db.nextChunk && db'.nextDelivery >= db.nextDelivery
    requires forall d :: d in db.deliveries ==> d in db'.deliveries
    requires forall d :: d in db'.deliveries && d in db.deliveries ==>
      db'.deliveries[d].state == db.deliveries[d].state ||
      (!Finished(db.deliveries[d].state) && !Finished(db'.deliveries[d].state))
    requires forall d :: d in db'.deliveries && d !in db.deliveries ==>
      db.nextDelivery <= d < db'.nextDelivery && !Finished(db'.deliveries[d].state)
    ensures Outbox(db')
  {
    forall c | c in db'.chunks
      ensures ChunkAccounted(db', c)
    {
      assert ChunkAccounted(db, c);
    }
    assert WellFormed(db');
    forall d | d in db'.deliveries && d !in db.deliveries
      ensures !HasChunks(db'.chunks, d)
    {
    }
  }
}
