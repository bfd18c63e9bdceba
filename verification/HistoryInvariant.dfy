/**
 * The acknowledged-story history against the frozen items: an item has a row
 * for its delivery exactly when the chunk its index names is sent.
 */
module HistoryInvariant {
  import opened Wrappers
  import opened Rows
  import opened Transactions
  import opened OutboxInvariant

  // ----- the invariant

  /** Frozen items have distinct fingerprints and name existing chunks of their delivery. */
  ghost predicate Catalogued(db: Db) {
    forall d :: d in db.items ==> ItemsFit(db.chunks, db.items[d], d)
  }

  ghost predicate ItemsFit(chunks: map<ChunkId, Chunk>, items: seq<Item>, d: DeliveryId) {
    && (forall i, j :: 0 <= i < j < |items| ==> items[i].fingerprint != items[j].fingerprint)
    && (forall i :: 0 <= i < |items| ==> HasSequence(chunks, d, items[i].chunkIndex))
  }

  ghost predicate HasSequence(chunks: map<ChunkId, Chunk>, d: DeliveryId, sequence: int) {
    exists c :: c in chunks && chunks[c].delivery == d && chunks[c].sequence == sequence
  }

  /** The row was written for an item of a chunk that is sent. */
  ghost predicate RowSound(db: Db, row: HistoryRow) {
    && row.chunk in db.chunks && db.chunks[row.chunk].state == Sent && db.chunks[row.chunk].delivery == row.delivery
    && FromItem(ItemsOf(db.items, row.delivery), row, db.chunks[row.chunk].sequence)
  }

  ghost predicate FromItem(items: seq<Item>, row: HistoryRow, sequence: int) {
    exists i :: 0 <= i < |items| && items[i] == Item(row.fingerprint, row.url, sequence)
  }

  ghost predicate RowsSound(db: Db) {
    forall i :: 0 <= i < |db.history| ==> RowSound(db, db.history[i])
  }

  /** Every item of a sent chunk has its row. */
  ghost predicate RowsComplete(db: Db) {
    forall c :: c in db.chunks && db.chunks[c].state == Sent ==>
      ChunkRecorded(db.history, ItemsOf(db.items, db.chunks[c].delivery), db.chunks[c].delivery, db.chunks[c].sequence)
  }

  ghost predicate ChunkRecorded(history: seq<HistoryRow>, items: seq<Item>, d: DeliveryId, sequence: int) {
    forall i :: 0 <= i < |items| && items[i].chunkIndex == sequence ==> Recorded(history, d, items[i].fingerprint)
  }

  /** UNIQUE(delivery_id, fingerprint). */
  ghost predicate RowsUnique(history: seq<HistoryRow>) {
    forall i, j :: 0 <= i < j < |history| ==>
      !(history[i].delivery == history[j].delivery && history[i].fingerprint == history[j].fingerprint)
  }

  ghost predicate History(db: Db) {
    Catalogued(db) && RowsSound(db) && RowsComplete(db) && RowsUnique(db.history)
  }

  /** The reading of the invariant: recorded exactly when the item's own chunk is sent. */
  lemma HistoryMatchesAcknowledgements(db: Db, d: DeliveryId, i: nat, c: ChunkId)
    requires WellFormed(db) && History(db)
    requires d in db.items && i < |db.items[d]|
    requires c in db.chunks && db.chunks[c].delivery == d && db.chunks[c].sequence == db.items[d][i].chunkIndex
    ensures Recorded(db.history, d, db.items[d][i].fingerprint) <==> db.chunks[c].state == Sent
  {
    var items := db.items[d];
    if db.chunks[c].state == Sent {
      assert ChunkRecorded(db.history, items, d, items[i].chunkIndex);
    }
    if Recorded(db.history, d, items[i].fingerprint) {
      var r :| 0 <= r < |db.history| && db.history[r].delivery == d &&
        db.history[r].fingerprint == items[i].fingerprint;
      var row := db.history[r];
      assert RowSound(db, row);
      var j :| 0 <= j < |items| && items[j] == Item(row.fingerprint, row.url, db.chunks[row.chunk].sequence);
      assert ItemsFit(db.chunks, items, d);
      assert i == j;
      assert row.chunk == c;
    }
  }

  // ----- writing the rows of one chunk

  /** What _record_chunk_history appends: rows of unrecorded items of the chunk, until all of them are recorded. */
  lemma {:induction false} RecordHistorySpec(history: seq<HistoryRow>, items: seq<Item>, d: DeliveryId, c: ChunkId,
                                             sequence: int, at: Time)
    ensures
      var history' := RecordHistory(history, items, d, c, sequence, at);
      && |history| <= |history'| && history'[..|history|] == history
      && (forall j :: |history| <= j < |history'| ==>
            FromItem(items, history'[j], sequence) &&
            history'[j] == HistoryRow(history'[j].url, history'[j].fingerprint, d, c, at) &&
            !Recorded(history, d, history'[j].fingerprint))
      && ChunkRecorded(history', items, d, sequence)
      && (RowsUnique(history) ==> RowsUnique(history'))
  {
    if items != [] {
      var n := |items| - 1;
      var before := RecordHistory(history, items[..n], d, c, sequence, at);
      RecordHistorySpec(history, items[..n], d, c, sequence, at);
      var history' := RecordHistory(history, items, d, c, sequence, at);
      assert forall row :: FromItem(items[..n], row, sequence) ==> FromItem(items, row, sequence) by {
        forall row | FromItem(items[..n], row, sequence) ensures FromItem(items, row, sequence) {
          var i :| 0 <= i < n && items[..n][i] == Item(row.fingerprint, row.url, sequence);
          assert items[i] == Item(row.fingerprint, row.url, sequence);
        }
      }
      assert |before| <= |history'| && history'[..|before|] == before;
      RecordedGrows(before, history', d);
      RecordedGrows(history, before, d);
      forall i | 0 <= i < |items| && items[i].chunkIndex == sequence
        ensures Recorded(history', d, items[i].fingerprint)
      {
        if i < n {
          assert items[..n][i] == items[i];
        } else if history' != before {
          assert history'[|before|].fingerprint == items[n].fingerprint;
        }
      }
      if history' != before {
        assert items[n] == Item(history'[|before|].fingerprint, history'[|before|].url, sequence);
        assert FromItem(items, history'[|before|], sequence);
      }
    }
  }

  lemma RecordedGrows(history: seq<HistoryRow>, history': seq<HistoryRow>, d: DeliveryId)
    requires |history| <= |history'| && history'[..|history|] == history
    ensures forall f :: Recorded(history, d, f) ==> Recorded(history', d, f)
  {
    forall f | Recorded(history, d, f) ensures Recorded(history', d, f) {
      var i :| 0 <= i < |history| && history[i].delivery == d && history[i].fingerprint == f;
      assert history'[i] == history[i];
    }
  }

  // ----- one chunk changes

  /** The chunk keeps sent, and becomes sent only together with the rows of its items. */
  ghost predicate HistoryStep(db: Db, db': Db, c: ChunkId, at: Time) {
    && OneChunk(db, db', c)
    && (db.chunks[c].state == Sent ==> db'.chunks[c].state == Sent)
    && db'.history ==
         if db'.chunks[c].state == Sent && db.chunks[c].state != Sent
         then RecordHistory(db.history, ItemsOf(db.items, db.chunks[c].delivery), db.chunks[c].delivery, c,
           db.chunks[c].sequence, at)
         else db.history
  }

  lemma HistoryStepKept(db: Db, db': Db, c: ChunkId, at: Time)
    requires HistoryStep(db, db', c, at) && WellFormed(db) && History(db)
    ensures History(db')
  {
    var d, sequence := db.chunks[c].delivery, db.chunks[c].sequence;
    var items := ItemsOf(db.items, d);
    RecordHistorySpec(db.history, items, d, c, sequence, at);
    CataloguedKept(db, db', c);
    forall i | 0 <= i < |db'.history| ensures RowSound(db', db'.history[i]) {
      if i < |db.history| {
        assert db'.history[i] == db.history[i];
        assert RowSound(db, db.history[i]);
      }
    }
    forall x | x in db'.chunks && db'.chunks[x].state == Sent
      ensures ChunkRecorded(db'.history, ItemsOf(db'.items, db'.chunks[x].delivery), db'.chunks[x].delivery,
        db'.chunks[x].sequence)
    {
      var e := db'.chunks[x].delivery;
      RecordedGrows(db.history, db'.history, e);
      if x != c || db.chunks[c].state == Sent {
        assert db.chunks[x].state == Sent;
        assert ChunkRecorded(db.history, ItemsOf(db.items, e), e, db.chunks[x].sequence);
      }
    }
  }

  lemma CataloguedKept(db: Db, db': Db, c: ChunkId)
    requires OneChunk(db, db', c) && Catalogued(db)
    ensures Catalogued(db')
  {
    forall d, sequence | HasSequence(db.chunks, d, sequence) ensures HasSequence(db'.chunks, d, sequence) {
      var x :| x in db.chunks && db.chunks[x].delivery == d && db.chunks[x].sequence == sequence;
      assert db'.chunks[x].sequence == sequence;
    }
    forall d | d in db'.items ensures ItemsFit(db'.chunks, db'.items[d], d) {
      assert ItemsFit(db.chunks, db.items[d], d);
    }
  }

  lemma BeginKeepsHistory(db: Db, c: ChunkId, run: RunId, owner: RunId, now: Time)
    requires WellFormed(db) && History(db)
    requires Begin(db, c, run, owner, now).Ok?
    ensures History(Begin(db, c, run, owner, now).value)
  {
    HistoryStepKept(db, Begin(db, c, run, owner, now).value, c, now);
  }

  lemma FinishKeepsHistory(db: Db, c: ChunkId, outcome: Outcome, run: RunId, owner: RunId, errorClass: string,
                           errorKind: TerminalError, messageId: nat, nextAttempt: Option<Time>, now: Time)
    requires WellFormed(db) && History(db)
    requires Finish(db, c, outcome, run, owner, errorClass, errorKind, messageId, nextAttempt, now).Ok?
    ensures History(Finish(db, c, outcome, run, owner, errorClass, errorKind, messageId, nextAttempt, now).value)
  {
    var db' := Finish(db, c, outcome, run, owner, errorClass, errorKind, messageId, nextAttempt, now).value;
    HistoryStepKept(db, db', c, now);
  }

  lemma ResolveKeepsHistory(db: Db, c: ChunkId, verdict: Verdict, reason: string, operator: string, now: Time)
    requires WellFormed(db) && History(db)
    requires Resolve(db, c, verdict, reason, operator, now).Ok?
    ensures History(Resolve(db, c, verdict, reason, operator, now).value)
  {
    HistoryStepKept(db, Resolve(db, c, verdict, reason, operator, now).value, c, now);
  }

  // ----- recover, prepare and the delivery-only transactions

  lemma RecoverKeepsHistory(db: Db, now: Time)
    requires History(db)
    ensures History(Recover(db, now))
  {
    RecoverIsRecovered(db, now);
    RecoveredKeepsHistory(db, Recover(db, now));
  }

  lemma RecoveredKeepsHistory(db: Db, db': Db)
    requires Recovered(db, db') && History(db)
    ensures History(db')
  {
    forall d, sequence | HasSequence(db.chunks, d, sequence) ensures HasSequence(db'.chunks, d, sequence) {
      var x :| x in db.chunks && db.chunks[x].delivery == d && db.chunks[x].sequence == sequence;
      assert db'.chunks[x].sequence == sequence;
    }
    forall d | d in db'.items ensures ItemsFit(db'.chunks, db'.items[d], d) {
      assert ItemsFit(db.chunks, db.items[d], d);
    }
    forall i | 0 <= i < |db'.history| ensures RowSound(db', db'.history[i]) {
      assert RowSound(db, db.history[i]);
    }
    forall x | x in db'.chunks && db'.chunks[x].state == Sent
      ensures ChunkRecorded(db'.history, ItemsOf(db'.items, db'.chunks[x].delivery), db'.chunks[x].delivery,
        db'.chunks[x].sequence)
    {
      assert db.chunks[x] == db'.chunks[x];
    }
  }

  lemma PrepareKeepsHistory(db: Db, d: DeliveryId, stories: seq<Story>, messages: seq<string>,
                            indexes: map<Digest, int>, target: string, owner: RunId, now: Time)
    requires WellFormed(db) && History(db)
    requires Prepare(db, d, stories, messages, indexes, target, owner, now).Ok?
    ensures History(Prepare(db, d, stories, messages, indexes, target, owner, now).value)
  {
    var db' := Prepare(db, d, stories, messages, indexes, target, owner, now).value;
    FreshOrOld(db, db', d, messages);
    FreshItemsFit(db, db', d, stories, messages, indexes);
    FreshKeepsHistory(db, db', d);
  }

  /** Every item of a fresh delivery names one of its fresh chunks. */
  lemma FreshItemsFit(db: Db, db': Db, d: DeliveryId, stories: seq<Story>, messages: seq<string>,
                      indexes: map<Digest, int>)
    requires FreshOutbox(db, db', d, messages) && WellFormed(db)
    requires DistinctFingerprints(stories) && IndexesInRange(stories, indexes, |messages|)
    ensures ItemsFit(db'.chunks, ItemRows(stories, indexes), d)
  {
    var items := ItemRows(stories, indexes);
    forall i | 0 <= i < |items| ensures HasSequence(db'.chunks, d, items[i].chunkIndex) {
      var x := db.nextChunk + items[i].chunkIndex;
      assert 0 <= items[i].chunkIndex < |messages|;
      assert db'.chunks[x] == FreshChunk(d, items[i].chunkIndex, messages[items[i].chunkIndex]);
    }
  }

  lemma FreshKeepsHistory(db: Db, db': Db, d: DeliveryId)
    requires FreshRows(db, db', d) && WellFormed(db) && History(db) && d in db'.items
    requires db'.history == db.history && db'.items == db.items[d := db'.items[d]]
    requires ItemsFit(db'.chunks, db'.items[d], d)
    ensures History(db')
  {
    forall e, sequence | HasSequence(db.chunks, e, sequence) ensures HasSequence(db'.chunks, e, sequence) {
      var x :| x in db.chunks && db.chunks[x].delivery == e && db.chunks[x].sequence == sequence;
      assert db'.chunks[x].sequence == sequence;
    }
    forall e | e in db'.items ensures ItemsFit(db'.chunks, db'.items[e], e) {
      if e != d {
        assert ItemsFit(db.chunks, db.items[e], e);
      }
    }
    forall i | 0 <= i < |db'.history| ensures RowSound(db', db'.history[i]) {
      assert RowSound(db, db.history[i]);
    }
    forall x | x in db'.chunks && db'.chunks[x].state == Sent
      ensures ChunkRecorded(db'.history, ItemsOf(db'.items, db'.chunks[x].delivery), db'.chunks[x].delivery,
        db'.chunks[x].sequence)
    {
      assert x in db.chunks;
    }
  }

  lemma DeliveryStepKeepsHistory(db: Db, db': Db)
    requires History(db)
    requires db'.chunks == db.chunks && db'.items == db.items && db'.history == db.history
    ensures History(db')
  {
    forall i | 0 <= i < |db'.history| ensures RowSound(db', db'.history[i]) {
      assert RowSound(db, db.history[i]);
    }
  }
}
