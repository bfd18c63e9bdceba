/** The joint invariant of the tables, the processes and the wire. */
module ProtocolInvariant {
  import opened Wrappers
  import opened Rows
  import opened Transactions
  import opened OutboxInvariant
  import opened HistoryInvariant
  import opened Evolution
  import opened Protocol

  ghost predicate Live(s: Sys, p: RunId) {
    LeaseHeld(s.db.lease, p, s.clock)
  }

  // ----- what the tables keep beyond the outbox and history invariants

  /** No chunk is attempted more often than its delivery's frozen policy allows; a waiting chunk has attempts left. */
  ghost predicate Frugal(db: Db) {
    forall c :: c in db.chunks ==> WithinBudget(db, c)
  }

  ghost predicate WithinBudget(db: Db, c: ChunkId)
    requires c in db.chunks
  {
    var row := db.chunks[c];
    row.delivery in db.deliveries && db.deliveries[row.delivery].policy.Some? ==>
      var limit := db.deliveries[row.delivery].policy.value.maxAttempts;
      row.attemptCount <= Max(1, limit) && (row.state == Waiting ==> row.attemptCount < limit)
  }

  /** The runtime never stores an error class that is allowlisted for a terminal retry. */
  ghost predicate RefusedPlain(chunks: map<ChunkId, Chunk>) {
    forall c :: c in chunks && chunks[c].state == Refused ==> !RetrySafe(chunks[c].errorClass)
  }

  ghost predicate DbSafe(db: Db) {
    Outbox(db) && History(db) && Frugal(db) && RefusedPlain(db.chunks)
  }

  // ----- processes

  ghost predicate OwnsAttempt(db: Db, p: RunId, d: DeliveryId, key: AttemptKey) {
    key in db.attempts && db.attempts[key].run == p && db.attempts[key].delivery == d
  }

  ghost predicate StillOpen(db: Db, d: DeliveryId, c: ChunkId, number: nat) {
    && c in db.chunks && db.chunks[c].delivery == d && db.chunks[c].state == InFlight &&
       db.chunks[c].attemptCount == number
    && Active(db, d)
  }

  ghost predicate HasRoom(db: Db, d: DeliveryId, c: ChunkId) {
    && c in db.chunks && db.chunks[c].delivery == d && d in db.deliveries
    && (db.deliveries[d].policy.Some? ==> db.chunks[c].attemptCount < Max(1, db.deliveries[d].policy.value.maxAttempts))
  }

  ghost predicate NotOnWire(wire: seq<Transmission>, key: AttemptKey) {
    forall i :: 0 <= i < |wire| ==> wire[i].key != key
  }

  ghost predicate NotAccepted(wire: seq<Transmission>, key: AttemptKey) {
    forall i :: 0 <= i < |wire| && wire[i].key == key ==> !wire[i].accepted
  }

  ghost predicate AllUnseen(w: Windows, history: seq<HistoryRow>, stories: seq<Story>, now: Time) {
    forall i :: 0 <= i < |stories| ==> Unseen(w, history, stories[i], now)
  }

  /** What a process may rely on at its program counter; the fenced part only while its lease is live. */
  ghost predicate PcSafe(w: Windows, s: Sys, p: RunId, pc: Pc) {
    match pc
    case Vacant => Live(s, p) ==> NoActive(s.db)
    case Chosen(_, stories) => DistinctUrls(stories) && (Live(s, p) ==> AllUnseen(w, s.db.history, stories, s.clock))
    case Cleared(d, c) => Live(s, p) ==> HasRoom(s.db, d, c)
    case Begun(d, c, number) =>
      OwnsAttempt(s.db, p, d, Key(c, number)) && !Rejected(s.db.attempts[Key(c, number)].outcome) &&
      NotOnWire(s.wire, Key(c, number)) &&
      (Live(s, p) ==> StillOpen(s.db, d, c, number))
    case Answered(d, c, number, reply) =>
      OwnsAttempt(s.db, p, d, Key(c, number)) && (reply.Raised? ==> KnownReason(reply.reason)) &&
      (Rejected(ReplyOutcome(reply)) ==> NotAccepted(s.wire, Key(c, number))) &&
      (Live(s, p) ==> StillOpen(s.db, d, c, number))
    case _ => true
  }

  ghost predicate ProcsSafe(w: Windows, s: Sys) {
    forall p :: p in s.procs ==> PcSafe(w, s, p, s.procs[p])
  }

  // ----- the wire

  ghost predicate WireSafe(db: Db, wire: seq<Transmission>) {
    && (forall i :: 0 <= i < |wire| ==>
          wire[i].key in db.attempts && (wire[i].accepted ==> !Rejected(db.attempts[wire[i].key].outcome)))
    && (forall i, j :: 0 <= i < j < |wire| ==> wire[i].key != wire[j].key)
  }

  // ----- runs in which no operator reopens a failed delivery

  ghost predicate SingleActive(db: Db) {
    forall d1, d2 :: Active(db, d1) && Active(db, d2) ==> d1 == d2
  }

  ghost predicate Apart(w: Windows, older: HistoryRow, newer: HistoryRow) {
    && (older.url == newer.url ==> older.sentAt + w.urlDays < newer.sentAt)
    && (w.titleDays > 0 && older.fingerprint == newer.fingerprint ==> older.sentAt + w.titleDays < newer.sentAt)
  }

  /** Rows of one URL, and of one title, are further apart than their window. */
  ghost predicate Spaced(w: Windows, history: seq<HistoryRow>) {
    forall i, j :: 0 <= i < j < |history| ==> Apart(w, history[i], history[j])
  }

  ghost predicate Unsent(chunks: map<ChunkId, Chunk>, d: DeliveryId, sequence: int) {
    exists c :: c in chunks && chunks[c].delivery == d && chunks[c].sequence == sequence && chunks[c].state != Sent
  }

  function StoryOf(item: Item): Story {
    Story(item.fingerprint, item.url)
  }

  /** The unsent items of an active delivery could still be selected today. */
  ghost predicate FreshItems(w: Windows, db: Db, d: DeliveryId, now: Time) {
    var items := ItemsOf(db.items, d);
    && (forall i, j :: 0 <= i < j < |items| ==> items[i].url != items[j].url)
    && (forall i :: 0 <= i < |items| && Unsent(db.chunks, d, items[i].chunkIndex) ==>
          Unseen(w, db.history, StoryOf(items[i]), now))
  }

  ghost predicate Quiet(w: Windows, db: Db, now: Time) {
    SingleActive(db) && Spaced(w, db.history) && forall d :: Active(db, d) ==> FreshItems(w, db, d, now)
  }

  // ----- the joint invariant

  ghost predicate Safe(w: Windows, s: Sys) {
    && DbSafe(s.db)
    && ProcsSafe(w, s)
    && WireSafe(s.db, s.wire)
    && (!s.reopened ==> Quiet(w, s.db, s.clock))
  }

  // ----- frames

  /** What one process's event may do, seen from the others. */
  ghost predicate SeenByOthers(s: Sys, s': Sys, p: RunId) {
    && s'.clock == s.clock && p in s'.procs && s'.procs == s.procs[p := s'.procs[p]]
    && Evolves(s.db, s'.db)
    && (forall k :: k in s.db.attempts && k in s'.db.attempts && s.db.attempts[k].run != p ==>
          (Rejected(s'.db.attempts[k].outcome) ==> Rejected(s.db.attempts[k].outcome)))
    && (|| (forall q :: q != p ==> !Live(s', q))
        || s'.db == s.db)
    && (|| s'.wire == s.wire
        || (|s'.wire| == |s.wire| + 1 && s'.wire[..|s.wire|] == s.wire && s'.wire[|s.wire|].key in s.db.attempts &&
            s.db.attempts[s'.wire[|s.wire|].key].run == p))
  }

  lemma OthersStaySafe(w: Windows, s: Sys, s': Sys, p: RunId)
    requires ProcsSafe(w, s) && SeenByOthers(s, s', p)
    requires PcSafe(w, s', p, s'.procs[p])
    ensures ProcsSafe(w, s')
  {
    forall q | q in s'.procs && q != p ensures PcSafe(w, s', q, s'.procs[q]) {
      assert q in s.procs && s'.procs[q] == s.procs[q];
      assert PcSafe(w, s, q, s.procs[q]);
      OtherStaysSafe(w, s, s', p, q);
    }
  }

  lemma OtherStaysSafe(w: Windows, s: Sys, s': Sys, p: RunId, q: RunId)
    requires SeenByOthers(s, s', p) && q != p && q in s.procs && q in s'.procs && s'.procs[q] == s.procs[q]
    requires PcSafe(w, s, q, s.procs[q])
    ensures PcSafe(w, s', q, s'.procs[q])
  {
    if s.procs[q].Begun? || s.procs[q].Answered? {
      var key := Key(s.procs[q].c, s.procs[q].number);
      assert AttemptFrozen(s.db.attempts[key], s'.db.attempts[key]);
      if s'.wire != s.wire {
        assert s'.wire[|s.wire|].key != key;
        forall i | 0 <= i < |s'.wire| && s'.wire[i].key == key ensures 0 <= i < |s.wire| && s'.wire[i] == s.wire[i] {
        }
      }
    }
  }

  /** The wire stays safe when no attempt whose text was accepted turns into a rejection. */
  lemma WireStaysSafe(db: Db, db': Db, wire: seq<Transmission>)
    requires WireSafe(db, wire) && Evolves(db, db')
    requires forall k :: k in db.attempts && k in db'.attempts ==>
      (Rejected(db'.attempts[k].outcome) ==> Rejected(db.attempts[k].outcome) || NotAccepted(wire, k))
    ensures WireSafe(db', wire)
  {
  }

  /**
   * The delivery-only transactions: no chunk, item, attempt or row moves, and a
   * revived delivery means a vacant store.
   */
  ghost predicate DeliveryStep(db: Db, db': Db) {
    && db'.chunks == db.chunks && db'.attempts == db.attempts && db'.resolutions == db.resolutions &&
       db'.items == db.items
    && db'.history == db.history && db'.nextChunk == db.nextChunk && db'.nextDelivery >= db.nextDelivery
    && (forall d :: d in db.deliveries ==>
          d in db'.deliveries && DeliveryFrozen(db.deliveries[d], db'.deliveries[d]) &&
          (Finished(db'.deliveries[d].state) ==> Finished(db.deliveries[d].state)))
    && (forall d :: d in db'.deliveries && d !in db.deliveries ==>
          db.nextDelivery <= d < db'.nextDelivery && !Finished(db'.deliveries[d].state))
    && (forall d :: Active(db', d) && !Active(db, d) ==> d !in db.deliveries && NoActive(db))
    && (forall d1, d2 | d1 in db'.deliveries && d2 in db'.deliveries ::
          d1 !in db.deliveries && d2 !in db.deliveries ==> d1 == d2)
  }

  lemma DeliveryStepFrugal(db: Db, db': Db)
    requires WellFormed(db) && Frugal(db) && DeliveryStep(db, db')
    ensures Frugal(db') && Evolves(db, db')
  {
    forall c | c in db'.chunks ensures WithinBudget(db', c) {
      assert WithinBudget(db, c);
    }
  }

  lemma DeliveryStepQuiet(w: Windows, db: Db, db': Db, now: Time)
    requires WellFormed(db) && DeliveryStep(db, db') && Quiet(w, db, now)
    ensures Quiet(w, db', now)
  {
    hide Unseen, Unsent, Spaced;
    forall d | Active(db', d) ensures FreshItems(w, db', d, now) {
      if Active(db, d) {
        assert FreshItems(w, db, d, now);
      } else {
        assert ItemsOf(db'.items, d) == [];
      }
    }
  }

  lemma DeliveryStepSafe(w: Windows, db: Db, db': Db, now: Time)
    requires DbSafe(db) && DeliveryStep(db, db')
    ensures DbSafe(db') && Evolves(db, db')
    ensures Quiet(w, db, now) ==> Quiet(w, db', now)
  {
    hide Shape, Ledger, HashesMatch, Accounted, Judged, WellFormed, History, Frugal, RefusedPlain, Evolves, Quiet;
    DeliveryStepKeepsOutbox(db, db');
    DeliveryStepKeepsHistory(db, db');
    DeliveryStepFrugal(db, db');
    if Quiet(w, db, now) {
      DeliveryStepQuiet(w, db, db', now);
    }
  }
}
