/**
 * The tables of the state database, one datatype per row, and the queries the
 * store runs over them.  Timestamps are integers; SHA-256 is symbolic, so equal
 * digests have equal preimages.
 */
module Rows {
  import opened Wrappers

  type DeliveryId = int
  type ChunkId = int
  type RunId = int
  type Time = int

  datatype Digest = Sha256(preimage: string)

  datatype DeliveryState =
    | Collecting | Prepared | PreparedEmpty | Sending | RetryWait
    | NeedsAttention | Completed | CompletedEmpty | FailedTerminal

  /** `Waiting` is the chunk state retry_wait, `Refused` is failed_terminal. */
  datatype ChunkState = Pending | InFlight | Sent | Waiting | Refused | Ambiguous

  /** `Open` is the attempt outcome in_flight, `Unknown` is ambiguous. */
  datatype Outcome = Open | Accepted | RejectedRetryable | RejectedTerminal | Unknown

  datatype Kind = Content | Empty | CollectionRetry

  datatype TerminalError = NoError | TargetMismatch | OtherError

  datatype Policy = Policy(maxAttempts: int, maxElapsed: int)

  datatype Delivery = Delivery(
    date: string, generation: int, kind: Kind, state: DeliveryState, target: string,
    startedAt: Time, nextAttemptAt: Option<Time>, terminalError: TerminalError,
    policy: Option<Policy>, firstAttemptAt: Option<Time>)

  datatype Chunk = Chunk(
    delivery: DeliveryId, sequence: int, payload: string, hash: Digest, state: ChunkState,
    attemptCount: nat, nextAttemptAt: Option<Time>, messageId: nat, errorClass: string,
    sentAt: Option<Time>)

  datatype AttemptKey = Key(chunk: ChunkId, number: nat)

  datatype Attempt = Attempt(
    delivery: DeliveryId, run: RunId, startedAt: Time, outcome: Outcome, endedAt: Option<Time>)

  /** A row of delivery_items; the fingerprint is the title key. */
  datatype Item = Item(fingerprint: Digest, url: Digest, chunkIndex: int)

  datatype HistoryRow = HistoryRow(
    url: Digest, fingerprint: Digest, delivery: DeliveryId, chunk: ChunkId, sentAt: Time)

  datatype Lease = Lease(owner: RunId, expiresAt: Time)

  datatype Verdict = MarkSent | Retry

  /** A row of delivery_resolutions; `from` is the from_state of its audit row. */
  datatype Resolution = Resolution(chunk: ChunkId, verdict: Verdict, reason: string, from: ChunkState, at: Time)

  datatype Db = Db(
    deliveries: map<DeliveryId, Delivery>,
    items: map<DeliveryId, seq<Item>>,
    chunks: map<ChunkId, Chunk>,
    attempts: map<AttemptKey, Attempt>,
    collectionAttempts: map<DeliveryId, nat>,
    resolutions: seq<Resolution>,
    history: seq<HistoryRow>,
    lease: Option<Lease>,
    nextDelivery: DeliveryId,
    nextChunk: ChunkId)

  // ----- queries

  predicate Terminal(state: DeliveryState) {
    state == Completed || state == CompletedEmpty || state == FailedTerminal
  }

  predicate Finished(state: DeliveryState) {
    state == Completed || state == CompletedEmpty
  }

  /** Outcomes after which the remote is known not to have accepted the text. */
  predicate Rejected(outcome: Outcome) {
    outcome == RejectedRetryable || outcome == RejectedTerminal
  }

  predicate LeaseHeld(lease: Option<Lease>, owner: RunId, now: Time) {
    lease.Some? && lease.value.owner == owner && lease.value.expiresAt > now
  }

  predicate LeaseLive(lease: Option<Lease>, now: Time) {
    lease.Some? && lease.value.expiresAt > now
  }

  predicate HasChunks(chunks: map<ChunkId, Chunk>, d: DeliveryId) {
    exists c :: c in chunks && chunks[c].delivery == d
  }

  /** No chunk of the delivery is outside state sent. */
  predicate AllSent(chunks: map<ChunkId, Chunk>, d: DeliveryId) {
    forall c :: c in chunks && chunks[c].delivery == d ==> chunks[c].state == Sent
  }

  predicate EarlierUnsent(chunks: map<ChunkId, Chunk>, d: DeliveryId, sequence: int) {
    exists c :: c in chunks && chunks[c].delivery == d && chunks[c].sequence < sequence && chunks[c].state != Sent
  }

  predicate HasInFlight(chunks: map<ChunkId, Chunk>, d: DeliveryId) {
    exists c :: c in chunks && chunks[c].delivery == d && chunks[c].state == InFlight
  }

  predicate HasUnresolved(chunks: map<ChunkId, Chunk>, d: DeliveryId) {
    exists c :: c in chunks && chunks[c].delivery == d && (chunks[c].state == Ambiguous || chunks[c].state == InFlight)
  }

  predicate Untouched(chunks: map<ChunkId, Chunk>, d: DeliveryId) {
    forall c :: c in chunks && chunks[c].delivery == d ==> chunks[c].state == Pending && chunks[c].attemptCount == 0
  }

  /** A chunk the send loop may pick up: pending, or waiting and past its retry time. */
  predicate Due(row: Chunk, d: DeliveryId, now: Time) {
    row.delivery == d &&
    (row.state == Pending ||
     (row.state == Waiting && (row.nextAttemptAt.None? || row.nextAttemptAt.value <= now)))
  }

  function ItemsOf(items: map<DeliveryId, seq<Item>>, d: DeliveryId): seq<Item> {
    if d in items then items[d] else []
  }

  predicate Recorded(history: seq<HistoryRow>, d: DeliveryId, fingerprint: Digest) {
    exists i :: 0 <= i < |history| && history[i].delivery == d && history[i].fingerprint == fingerprint
  }

  predicate HasPrefix(text: string, prefix: string) {
    |prefix| <= |text| && text[..|prefix|] == prefix
  }

  const TERMINAL_RETRY := "terminal_retry:"

  /** An earlier resolution already consumed the chunk's one terminal retry. */
  predicate TerminalRetryUsed(resolutions: seq<Resolution>, c: ChunkId) {
    exists i :: 0 <= i < |resolutions| && resolutions[i].chunk == c && resolutions[i].verdict == Retry &&
                HasPrefix(resolutions[i].reason, TERMINAL_RETRY)
  }

  predicate RetrySafe(errorClass: string) {
    errorClass == "telegram_terminal_retry_safe" || errorClass == "operator_retry_safe"
  }

  function Max(a: int, b: int): int {
    if a < b then b else a
  }

  /** The policy frozen with the delivery, or the caller's when none was frozen. */
  function EffectivePolicy(d: Delivery, fallback: Policy): Policy {
    if d.policy.Some? then d.policy.value else fallback
  }

  /** Attempt and elapsed limits of one chunk (or of collection), both fail-closed. */
  predicate BudgetExhausted(db: Db, d: DeliveryId, chunk: Option<ChunkId>, fallback: Policy, now: Time) {
    if d !in db.deliveries then true
    else
      var row := db.deliveries[d];
      var policy := EffectivePolicy(row, fallback);
      var attempts :=
        match chunk
        case None => if d in db.collectionAttempts then db.collectionAttempts[d] else 0
        case Some(c) => if c in db.chunks && db.chunks[c].delivery == d then db.chunks[c].attemptCount else 0;
      var started := if row.firstAttemptAt.Some? then row.firstAttemptAt.value else row.startedAt;
      attempts >= Max(1, policy.maxAttempts) || now < started || now - started >= Max(1, policy.maxElapsed)
  }
}
