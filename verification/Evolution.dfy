/**
 * What no transaction ever takes back: frozen payloads and items, confirmed
 * chunks, closed attempts, completed deliveries, and the append-only audit.
 */
module Evolution {
  import opened Wrappers
  import opened Rows
  import opened Transactions
  import opened OutboxInvariant
  import opened HistoryInvariant

  // ----- the relation

  ghost predicate ChunkFrozen(row: Chunk, row': Chunk) {
    && row'.delivery == row.delivery && row'.sequence == row.sequence
    && row'.payload == row.payload && row'.hash == row.hash
    && row'.attemptCount >= row.attemptCount
    && (row.state == Sent ==> row'.state == Sent)
  }

  ghost predicate AttemptFrozen(row: Attempt, row': Attempt) {
    && row'.delivery == row.delivery && row'.run == row.run && row'.startedAt == row.startedAt
    && (row.outcome != Open ==> row' == row)
  }

  ghost predicate DeliveryFrozen(row: Delivery, row': Delivery) {
    && row'.date == row.date && row'.generation == row.generation && row'.kind == row.kind
    && row'.startedAt == row.startedAt && row'.policy == row.policy
    && (row.target != "" ==> row'.target == row.target)
    && (Finished(row.state) ==> row'.state == row.state)
  }

  ghost predicate Evolves(db: Db, db': Db) {
    && (forall c :: c in db.chunks ==> c in db'.chunks && ChunkFrozen(db.chunks[c], db'.chunks[c]))
    && (forall k :: k in db.attempts ==> k in db'.attempts && AttemptFrozen(db.attempts[k], db'.attempts[k]))
    && (forall d :: d in db.deliveries ==> d in db'.deliveries && DeliveryFrozen(db.deliveries[d], db'.deliveries[d]))
    && (forall d :: d in db.items && db.items[d] != [] ==> d in db'.items && db'.items[d] == db.items[d])
    && |db.history| <= |db'.history| && db'.history[..|db.history|] == db.history
    && |db.resolutions| <= |db'.resolutions| && db'.resolutions[..|db.resolutions|] == db.resolutions
  }

  lemma EvolvesComposes(a: Db, b: Db, c: Db)
    requires Evolves(a, b) && Evolves(b, c)
    ensures Evolves(a, c)
  {
    assert c.history[..|a.history|] == (c.history[..|b.history|])[..|a.history|];
    assert c.resolutions[..|a.resolutions|] == (c.resolutions[..|b.resolutions|])[..|a.resolutions|];
  }

  // ----- every transaction

  lemma BeginEvolves(db: Db, c: ChunkId, run: RunId, owner: RunId, now: Time)
    requires Ledger(db.chunks, db.attempts)
    requires Begin(db, c, run, owner, now).Ok?
    ensures Evolves(db, Begin(db, c, run, owner, now).value)
  {
  }

  /** One chunk's step takes nothing back if its own three rows do not. */
  lemma StepEvolves(db: Db, db': Db, c: ChunkId, at: Time)
    requires HistoryStep(db, db', c, at) && LastAttempt(db, db', c) && Audited(db, db', c)
    requires Ledger(db.chunks, db.attempts)
    requires ChunkFrozen(db.chunks[c], db'.chunks[c])
    requires DeliveryFrozen(db.deliveries[db.chunks[c].delivery], db'.deliveries[db.chunks[c].delivery])
    requires
      var key := Key(c, db'.chunks[c].attemptCount);
      key in db.attempts ==> key in db'.attempts && AttemptFrozen(db.attempts[key], db'.attempts[key])
    ensures Evolves(db, db')
  {
    var row := db.chunks[c];
    RecordHistorySpec(db.history, ItemsOf(db.items, row.delivery), row.delivery, c, row.sequence, at);
  }

  /** A delivery with an unsent chunk is not finished. */
  lemma UnsentIsUnfinished(db: Db, c: ChunkId)
    requires WellFormed(db) && Judged(db) && c in db.chunks && db.chunks[c].state != Sent
    ensures !Finished(db.deliveries[db.chunks[c].delivery].state)
  {
    assert !AllSent(db.chunks, db.chunks[c].delivery);
  }

  lemma FinishEvolves(db: Db, c: ChunkId, outcome: Outcome, run: RunId, owner: RunId, errorClass: string,
                      errorKind: TerminalError, messageId: nat, nextAttempt: Option<Time>, now: Time)
    requires Outbox(db)
    requires Finish(db, c, outcome, run, owner, errorClass, errorKind, messageId, nextAttempt, now).Ok?
    ensures Evolves(db, Finish(db, c, outcome, run, owner, errorClass, errorKind, messageId, nextAttempt, now).value)
  {
    UnsentIsUnfinished(db, c);
    FinishIsChunkStep(db, c, outcome, run, owner, errorClass, errorKind, messageId, nextAttempt, now);
    var db' := Finish(db, c, outcome, run, owner, errorClass, errorKind, messageId, nextAttempt, now).value;
    StepEvolves(db, db', c, now);
  }

  lemma ResolveEvolves(db: Db, c: ChunkId, verdict: Verdict, reason: string, operator: string, now: Time)
    requires Outbox(db)
    requires Resolve(db, c, verdict, reason, operator, now).Ok?
    ensures Evolves(db, Resolve(db, c, verdict, reason, operator, now).value)
  {
    hide Shape, Accounted, HashesMatch, RecordHistory, HasUnresolved, TerminalRetryUsed;
    UnsentIsUnfinished(db, c);
    ResolveIsChunkStep(db, c, verdict, reason, operator, now);
    StepEvolves(db, Resolve(db, c, verdict, reason, operator, now).value, c, now);
  }

  lemma RecoverEvolves(db: Db, now: Time)
    ensures Evolves(db, Recover(db, now))
  {
  }

  lemma PrepareEvolves(db: Db, d: DeliveryId, stories: seq<Story>, messages: seq<string>, indexes: map<Digest, int>,
                       target: string, owner: RunId, now: Time)
    requires WellFormed(db)
    requires Prepare(db, d, stories, messages, indexes, target, owner, now).Ok?
    ensures Evolves(db, Prepare(db, d, stories, messages, indexes, target, owner, now).value)
  {
    var db' := Prepare(db, d, stories, messages, indexes, target, owner, now).value;
    FreshOrOld(db, db', d, messages);
    FreshEvolves(db, db', d);
  }

  lemma FreshEvolves(db: Db, db': Db, d: DeliveryId)
    requires FreshRows(db, db', d) && d in db.deliveries && ItemsOf(db.items, d) == []
    requires db'.(chunks := db.chunks, nextChunk := db.nextChunk, items := db.items, deliveries := db.deliveries) == db
    requires db'.items.Keys == db.items.Keys + {d} &&
      (forall x :: x in db.items && x != d ==> db'.items[x] == db.items[x])
    requires db'.deliveries.Keys == db.deliveries.Keys && DeliveryFrozen(db.deliveries[d], db'.deliveries[d])
    requires forall x :: x in db.deliveries && x != d ==> db'.deliveries[x] == db.deliveries[x]
    ensures Evolves(db, db')
  {
  }
}
