/**
 * What each StateStore transaction commits, as a function of the tables: `Ok`
 * carries the committed tables, `Err` means the transaction rolled back.
 */
module Transactions {
  import opened Wrappers
  import opened Rows

  datatype Error = LeaseLost | InvalidTransition | RetryNotDue | BadInput

  type Commit = Result<Db, Error>

  // ----- the lease

  /** acquire_lease: the second component is false when another owner is still live. */
  function Acquire(db: Db, owner: RunId, ttl: int, now: Time): (Db, bool) {
    if db.lease.Some? && db.lease.value.owner != owner && db.lease.value.expiresAt > now then (db, false)
    else (db.(lease := Some(Lease(owner, now + ttl))), true)
  }

  function Heartbeat(db: Db, owner: RunId, ttl: int, now: Time): Commit {
    if !LeaseHeld(db.lease, owner, now) then Err(LeaseLost)
    else Ok(db.(lease := Some(Lease(owner, now + ttl))))
  }

  function Release(db: Db, owner: RunId, now: Time): Commit {
    if !LeaseHeld(db.lease, owner, now) then Err(LeaseLost)
    else Ok(db.(lease := None))
  }

  const TELEGRAM_AMBIGUOUS := "telegram_ambiguous"

  function ToAmbiguous(row: Chunk): Chunk {
    row.(state := Ambiguous, nextAttemptAt := None, errorClass := TELEGRAM_AMBIGUOUS)
  }

  /** The open attempts of in-flight chunks, closed as ambiguous. */
  function CloseOpen(chunks: map<ChunkId, Chunk>, attempts: map<AttemptKey, Attempt>,
                     now: Time): map<AttemptKey, Attempt>
  {
    map k | k in attempts ::
      if k.chunk in chunks && chunks[k.chunk].state == InFlight &&
         chunks[k.chunk].delivery == attempts[k].delivery && attempts[k].outcome == Open
      then attempts[k].(outcome := Unknown, endedAt := Some(now))
      else attempts[k]
  }

  /** recover_expired_lease: nothing while a lease is live, else every in-flight chunk becomes ambiguous. */
  function Recover(db: Db, now: Time): Db {
    if LeaseLive(db.lease, now) then db
    else
      db.(
        chunks := map c | c in db.chunks ::
          if db.chunks[c].state == InFlight then ToAmbiguous(db.chunks[c]) else db.chunks[c],
        attempts := CloseOpen(db.chunks, db.attempts, now),
        deliveries := map d | d in db.deliveries ::
          if HasInFlight(db.chunks, d) && !Terminal(db.deliveries[d].state)
          then db.deliveries[d].(state := NeedsAttention) else db.deliveries[d],
        lease := None)
  }

  // ----- deliveries

  predicate GenerationTaken(deliveries: map<DeliveryId, Delivery>, date: string, generation: int) {
    exists d :: d in deliveries && deliveries[d].date == date && deliveries[d].generation == generation
  }

  datatype Force = NotForced | Forced(predecessor: DeliveryId, operator: string, reason: string)

  predicate PredecessorFits(db: Db, force: Force, date: string, generation: int) {
    force.Forced? ==>
      force.operator != "" && force.reason != "" &&
      force.predecessor in db.deliveries &&
      db.deliveries[force.predecessor].date == date &&
      Finished(db.deliveries[force.predecessor].state) &&
      generation > db.deliveries[force.predecessor].generation
  }

  /** create_delivery, as run_once calls it: kind content, state collecting, a frozen retry policy. */
  function Create(db: Db, date: string, generation: int, policy: Policy, force: Force, owner: RunId, now: Time): Commit
  {
    if !LeaseHeld(db.lease, owner, now) then Err(LeaseLost)
    else if generation < 0 then Err(BadInput)
    else if !PredecessorFits(db, force, date, generation) then Err(InvalidTransition)
    else if GenerationTaken(db.deliveries, date, generation) then Err(BadInput)
    else
      var row := Delivery(date, generation, Content, Collecting, "", now, None, NoError, Some(policy), None);
      Ok(db.(deliveries := db.deliveries[db.nextDelivery := row], nextDelivery := db.nextDelivery + 1))
  }

  /** An item as selected, before it has a chunk. */
  datatype Story = Story(fingerprint: Digest, url: Digest)

  function ChunkIndexOf(indexes: map<Digest, int>, fingerprint: Digest): int {
    if fingerprint in indexes then indexes[fingerprint] else 0
  }

  function ItemRows(stories: seq<Story>, indexes: map<Digest, int>): (rows: seq<Item>)
    ensures |rows| == |stories|
    ensures forall i :: 0 <= i < |rows| ==>
      rows[i] == Item(stories[i].fingerprint, stories[i].url, ChunkIndexOf(indexes, stories[i].fingerprint))
  {
    seq(|stories|, i requires 0 <= i < |stories| =>
      Item(stories[i].fingerprint, stories[i].url, ChunkIndexOf(indexes, stories[i].fingerprint)))
  }

  function FreshChunk(d: DeliveryId, sequence: int, payload: string): Chunk {
    Chunk(d, sequence, payload, Sha256(payload), Pending, 0, None, 0, "", None)
  }

  function FreshChunkAt(d: DeliveryId, messages: seq<string>, base: ChunkId, c: ChunkId): Chunk
    requires base <= c < base + |messages|
  {
    FreshChunk(d, c - base, messages[c - base])
  }

  /** The chunk rows inserted for the messages, with ids from `base` upwards. */
  function FreshChunks(d: DeliveryId, messages: seq<string>, base: ChunkId): map<ChunkId, Chunk> {
    map c: ChunkId | base <= c < base + |messages| :: FreshChunkAt(d, messages, base, c)
  }

  predicate DistinctFingerprints(stories: seq<Story>) {
    forall i, j :: 0 <= i < j < |stories| ==> stories[i].fingerprint != stories[j].fingerprint
  }

  predicate IndexesInRange(stories: seq<Story>, indexes: map<Digest, int>, count: nat) {
    forall i :: 0 <= i < |stories| && stories[i].fingerprint in indexes ==>
      0 <= indexes[stories[i].fingerprint] < count
  }

  /** prepare_delivery: freezes the items, the payloads with their hashes and the destination. */
  function Prepare(db: Db, d: DeliveryId, stories: seq<Story>, messages: seq<string>, indexes: map<Digest, int>,
                   target: string, owner: RunId, now: Time): Commit
  {
    if !LeaseHeld(db.lease, owner, now) then Err(LeaseLost)
    else if d !in db.deliveries then Err(InvalidTransition)
    else
      var row := db.deliveries[d];
      if row.state != Collecting && row.state != RetryWait then Err(InvalidTransition)
      else if ItemsOf(db.items, d) != [] || HasChunks(db.chunks, d) then Err(InvalidTransition)
      else if messages == [] || (exists i :: 0 <= i < |messages| && messages[i] == "") then Err(BadInput)
      else if !DistinctFingerprints(stories) || !IndexesInRange(stories, indexes, |messages|) then Err(BadInput)
      else if row.target != "" && target != "" && row.target != target then Err(InvalidTransition)
      else
        Ok(db.(
          items := db.items[d := ItemRows(stories, indexes)],
          chunks := db.chunks + FreshChunks(d, messages, db.nextChunk),
          nextChunk := db.nextChunk + |messages|,
          deliveries := db.deliveries[d := row.(
            target := if row.target == "" then target else row.target,
            state := if stories == [] then PreparedEmpty else Prepared)]))
  }

  function SetCollectionRetry(db: Db, d: DeliveryId, nextAttempt: Time, owner: RunId, now: Time): Commit {
    if !LeaseHeld(db.lease, owner, now) then Err(LeaseLost)
    else if d !in db.deliveries then Err(InvalidTransition)
    else if db.deliveries[d].state != Collecting && db.deliveries[d].state != RetryWait then Err(InvalidTransition)
    else Ok(db.(deliveries := db.deliveries[d := db.deliveries[d].(
           state := RetryWait, nextAttemptAt := Some(nextAttempt), terminalError := OtherError)]))
  }

  function RecordCollectionAttempt(db: Db, d: DeliveryId, owner: RunId, now: Time): Commit {
    if !LeaseHeld(db.lease, owner, now) then Err(LeaseLost)
    else if d !in db.deliveries then Err(BadInput)
    else
      var count := if d in db.collectionAttempts then db.collectionAttempts[d] else 0;
      Ok(db.(collectionAttempts := db.collectionAttempts[d := count + 1],
             deliveries := db.deliveries[d := Observe(db.deliveries[d], now)]))
  }

  /** fail_delivery: refused once the delivery is terminal or awaits an operator. */
  function Fail(db: Db, d: DeliveryId, owner: RunId, now: Time): Commit {
    if !LeaseHeld(db.lease, owner, now) then Err(LeaseLost)
    else if d !in db.deliveries then Err(InvalidTransition)
    else if Terminal(db.deliveries[d].state) || db.deliveries[d].state == NeedsAttention then Err(InvalidTransition)
    else Ok(db.(deliveries := db.deliveries[d := db.deliveries[d].(state := FailedTerminal,
      terminalError := OtherError)]))
  }

  function ReopenForCollection(db: Db, d: DeliveryId, owner: RunId, now: Time): Commit {
    if !LeaseHeld(db.lease, owner, now) then Err(LeaseLost)
    else if d !in db.deliveries || db.deliveries[d].state != RetryWait then Err(RetryNotDue)
    else if db.deliveries[d].nextAttemptAt.Some? && db.deliveries[d].nextAttemptAt.value > now then Err(RetryNotDue)
    else Ok(db.(deliveries := db.deliveries[d := db.deliveries[d].(
           state := Collecting, nextAttemptAt := None, terminalError := NoError)]))
  }

  function MarkTargetMismatch(db: Db, d: DeliveryId, expected: string, actual: string, owner: RunId, now: Time): Commit
  {
    if !LeaseHeld(db.lease, owner, now) then Err(LeaseLost)
    else if d !in db.deliveries then Err(InvalidTransition)
    else if expected != "" && db.deliveries[d].target != expected then Err(InvalidTransition)
    else if actual != "" && db.deliveries[d].target == actual then Ok(db)
    else if Terminal(db.deliveries[d].state) then Ok(db)
    else Ok(db.(deliveries := db.deliveries[d := db.deliveries[d].(
           state := NeedsAttention, terminalError := TargetMismatch)]))
  }

  // ----- chunks

  /** The part of _record_retry_observation the budget reads: the first attempt's time. */
  function Observe(row: Delivery, now: Time): Delivery {
    row.(firstAttemptAt := if row.firstAttemptAt.Some? then row.firstAttemptAt else Some(now))
  }

  /** The delivery state after a send intent: prepared work moves to sending, other states stay. */
  function SendingFrom(state: DeliveryState): DeliveryState {
    if state == Prepared || state == PreparedEmpty || state == RetryWait then Sending else state
  }

  /** begin_chunk_attempt: persists the send intent before the request may leave the process. */
  function Begin(db: Db, c: ChunkId, run: RunId, owner: RunId, now: Time): Commit {
    if !LeaseHeld(db.lease, owner, now) then Err(LeaseLost)
    else if c !in db.chunks then Err(InvalidTransition)
    else
      var row := db.chunks[c];
      if row.state == Waiting && row.nextAttemptAt.Some? && row.nextAttemptAt.value > now then Err(RetryNotDue)
      else if row.state != Pending && row.state != Waiting then Err(InvalidTransition)
      else if Sha256(row.payload) != row.hash then Err(BadInput)
      else if EarlierUnsent(db.chunks, row.delivery, row.sequence) then Err(InvalidTransition)
      else if row.delivery !in db.deliveries then Err(InvalidTransition)
      else
        var delivery := db.deliveries[row.delivery];
        if Terminal(delivery.state) || delivery.state == NeedsAttention then Err(InvalidTransition)
        else
          var number := row.attemptCount + 1;
          Ok(db.(
            chunks := db.chunks[c := row.(state := InFlight, attemptCount := number, errorClass := "")],
            deliveries := db.deliveries[row.delivery := Observe(delivery.(state := SendingFrom(delivery.state)), now)],
            attempts := db.attempts[Key(c, number) := Attempt(row.delivery, run, now, Open, None)]))
  }

  function ChunkStateAfter(outcome: Outcome): ChunkState
    requires outcome != Open
  {
    match outcome
    case Accepted => Sent
    case RejectedRetryable => Waiting
    case RejectedTerminal => Refused
    case Unknown => Ambiguous
  }

  /** _record_chunk_history: one row per item of the chunk, never a second row for an item. */
  function RecordHistory(history: seq<HistoryRow>, items: seq<Item>, d: DeliveryId, c: ChunkId, sequence: int,
                         at: Time): seq<HistoryRow>
  {
    if items == [] then history
    else
      var before := RecordHistory(history, items[..|items| - 1], d, c, sequence, at);
      var item := items[|items| - 1];
      if item.chunkIndex == sequence && !Recorded(before, d, item.fingerprint)
      then before + [HistoryRow(item.url, item.fingerprint, d, c, at)] else before
  }

  /** The delivery row once a chunk of it has been confirmed. */
  function AfterConfirmation(row: Delivery, chunks: map<ChunkId, Chunk>, items: seq<Item>, d: DeliveryId): Delivery {
    if AllSent(chunks, d) then row.(state := if items == [] then CompletedEmpty else Completed, nextAttemptAt := None)
    else row.(state := Sending)
  }

  /** The delivery row after an outcome, given the chunks as they are then. */
  function DeliveryAfter(row: Delivery, outcome: Outcome, chunks: map<ChunkId, Chunk>, items: seq<Item>, d: DeliveryId,
                         errorKind: TerminalError, nextAttempt: Option<Time>): Delivery
  {
    match outcome
    case Accepted => AfterConfirmation(row, chunks, items, d)
    case RejectedRetryable => row.(state := RetryWait, nextAttemptAt := nextAttempt)
    case Unknown => row.(state := NeedsAttention, terminalError := errorKind)
    case _ => row.(state := FailedTerminal, terminalError := errorKind)
  }

  /** finish_chunk: records the outcome of the open attempt and moves chunk and delivery together. */
  function Finish(db: Db, c: ChunkId, outcome: Outcome, run: RunId, owner: RunId, errorClass: string,
                  errorKind: TerminalError, messageId: nat, nextAttempt: Option<Time>, now: Time): Commit
  {
    if !LeaseHeld(db.lease, owner, now) then Err(LeaseLost)
    else if outcome == Open then Err(BadInput)
    else if outcome == Accepted && messageId == 0 then Err(BadInput)
    else if c !in db.chunks || db.chunks[c].state != InFlight then Err(InvalidTransition)
    else
      var row := db.chunks[c];
      var d := row.delivery;
      var key := Key(c, row.attemptCount);
      if key !in db.attempts || db.attempts[key].delivery != d || db.attempts[key].run != run ||
        db.attempts[key].outcome != Open
      then Err(InvalidTransition)
      else if d !in db.deliveries then Err(InvalidTransition)
      else
        var chunks := db.chunks[c := row.(
          state := ChunkStateAfter(outcome), nextAttemptAt := nextAttempt, messageId := messageId,
            errorClass := errorClass,
          sentAt := if outcome == Accepted then Some(now) else None)];
        var delivery := DeliveryAfter(
          Observe(db.deliveries[d], now), outcome, chunks, ItemsOf(db.items, d), d, errorKind, nextAttempt);
        Ok(db.(
          chunks := chunks,
          attempts := db.attempts[key := db.attempts[key].(outcome := outcome, endedAt := Some(now))],
          history := if outcome == Accepted
                     then RecordHistory(db.history, ItemsOf(db.items, d), d, c, row.sequence, now) else db.history,
          deliveries := db.deliveries[d := delivery]))
  }

  // ----- operator steps

  /** resolve_chunk: an operator's audited verdict on an ambiguous or retry-safe refused chunk. */
  function Resolve(db: Db, c: ChunkId, verdict: Verdict, reason: string, operator: string, now: Time): Commit {
    if reason == "" || operator == "" then Err(BadInput)
    else if c !in db.chunks || (db.chunks[c].state != Ambiguous && db.chunks[c].state != Refused)
      then Err(InvalidTransition)
    else
      var row := db.chunks[c];
      var d := row.delivery;
      if d !in db.deliveries then Err(InvalidTransition)
      else if row.state == Refused && (verdict != Retry || !RetrySafe(row.errorClass)) then Err(InvalidTransition)
      else if row.state == Refused && HasUnresolved(db.chunks, d) then Err(InvalidTransition)
      else if row.state == Refused && TerminalRetryUsed(db.resolutions, c) then Err(InvalidTransition)
      else
        var audit := Resolution(c, verdict, if row.state == Refused then TERMINAL_RETRY + reason
          else reason, row.state, now);
        var resolutions := db.resolutions + [audit];
        if verdict == MarkSent then
          var chunks := db.chunks[c := row.(state := Sent, sentAt := Some(now), errorClass := "")];
          var cleared := db.deliveries[d].(terminalError := NoError);
          Ok(db.(
            resolutions := resolutions,
            chunks := chunks,
            history := RecordHistory(db.history, ItemsOf(db.items, d), d, c, row.sequence, now),
            deliveries := db.deliveries[d :=
              AfterConfirmation(cleared, chunks, ItemsOf(db.items, d), d).(nextAttemptAt := cleared.nextAttemptAt)]))
        else
          Ok(db.(
            resolutions := resolutions,
            chunks := db.chunks[c := row.(state := Pending, nextAttemptAt := None, errorClass := "")],
            deliveries := db.deliveries[d := db.deliveries[d].(state := Sending, terminalError := NoError)]))
  }

  /** reconcile_delivery: resumes a wholly unsent delivery whose destination matches again. */
  function Reconcile(db: Db, d: DeliveryId, snapshot: string, reason: string, operator: string): Commit {
    if reason == "" || operator == "" then Err(BadInput)
    else if d !in db.deliveries then Err(InvalidTransition)
    else
      var row := db.deliveries[d];
      if row.state != NeedsAttention || row.terminalError != TargetMismatch then Err(InvalidTransition)
      else if row.target == "" || snapshot != row.target then Err(InvalidTransition)
      else if !HasChunks(db.chunks, d) || !Untouched(db.chunks, d) then Err(InvalidTransition)
      else Ok(db.(deliveries := db.deliveries[d := row.(state := Prepared, terminalError := NoError)]))
  }
}
