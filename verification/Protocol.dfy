/**
 * run_once as a client of the store: any number of processes, a clock that
 * never goes back, crashes between any two calls, and operators who act only
 * when no runtime holds the store open.  `Step` is one event of such a run.
 */
module Protocol {
  import opened Wrappers
  import opened Rows
  import opened Transactions

  // ----- the remote

  /** What sending a text can end in: a message id, a classified failure, or an unclassified exception. */
  datatype Reply = Confirmed(messageId: nat) | Raised(reason: string) | Broke(name: string)

  /** TelegramSendError.outcome. */
  function Classify(reason: string): (outcome: Outcome)
    ensures outcome != Open && outcome != Accepted
  {
    if reason == "telegram_ambiguous" || reason == "telegram_malformed_response" then Unknown
    else if reason == "telegram_rate_limited" || reason == "telegram_retryable" then RejectedRetryable
    else RejectedTerminal
  }

  /** The reason codes the client raises. */
  predicate KnownReason(reason: string) {
    reason == "telegram_ambiguous" || reason == "telegram_malformed_response" ||
    reason == "telegram_rate_limited" || reason == "telegram_terminal"
  }

  function ReplyOutcome(reply: Reply): (outcome: Outcome)
    ensures outcome != Open
  {
    match reply
    case Confirmed(_) => Accepted
    case Raised(reason) => Classify(reason)
    case Broke(_) => Unknown
  }

  /** A reply the remote may give to a text it did or did not accept. */
  predicate HonestReply(reply: Reply, accepted: bool) {
    match reply
    case Confirmed(messageId) => accepted && messageId > 0
    case Raised(reason) => KnownReason(reason) && (Rejected(Classify(reason)) ==> !accepted)
    case Broke(_) => true
  }

  /** One text put on the wire, and whether the remote accepted it. */
  datatype Transmission = Transmission(key: AttemptKey, accepted: bool)

  // ----- processes

  /** The program counter of one run_once; `Ended` also covers a crash. */
  datatype Pc =
    | Opening
    | Acquiring
    | Rechecking
    | Looking
    | Vacant
    | Resuming(d: DeliveryId)
    | Gathering(d: DeliveryId)
    | Chosen(d: DeliveryId, stories: seq<Story>)
    | Delivering(d: DeliveryId)
    | Cleared(d: DeliveryId, c: ChunkId)
    | Begun(d: DeliveryId, c: ChunkId, number: nat)
    | Answered(d: DeliveryId, c: ChunkId, number: nat, reply: Reply)
    | Handling(d: DeliveryId)
    | Releasing
    | Ended

  /** Days for which a sent URL, and a sent title, excludes a story; a zero title window is off. */
  datatype Windows = Windows(urlDays: int, titleDays: int)

  datatype Sys = Sys(db: Db, clock: Time, procs: map<RunId, Pc>, wire: seq<Transmission>, reopened: bool)

  datatype Event =
    | Tick(to: Time)
    | Spawn(p: RunId)
    | Crash(p: RunId)
    | RecoverFirst(p: RunId)
    | AcquireLease(p: RunId, ttl: int)
    | RecoverAgain(p: RunId)
    | Look(p: RunId, found: Option<DeliveryId>)
    | CreateDelivery(p: RunId, date: string, generation: int, policy: Policy, force: Force)
    | ReopenCollection(p: RunId)
    | ResumeCollecting(p: RunId)
    | ResumeSending(p: RunId)
    | RenewLease(p: RunId, ttl: int)
    | CountCollectionAttempt(p: RunId)
    | ScheduleRetry(p: RunId, nextAttempt: Time)
    | FailNow(p: RunId, fallback: Policy)
    | Select(p: RunId, stories: seq<Story>)
    | PrepareOutbox(p: RunId, messages: seq<string>, indexes: map<Digest, int>, target: string)
    | BlockOnTarget(p: RunId, expected: string, actual: string)
    | CheckBudget(p: RunId, c: ChunkId, fallback: Policy)
    | BeginSend(p: RunId)
    | Transmit(p: RunId, accepted: bool, reply: Reply)
    | BreakBeforeSend(p: RunId, name: string)
    | FinishSend(p: RunId, enabled: bool, fallback: Policy, nextAttempt: Time, errorKind: TerminalError)
    | Raise(p: RunId)
    | Return(p: RunId)
    | ReleaseLease(p: RunId)
    | ResolveChunk(c: ChunkId, verdict: Verdict, reason: string, operator: string)
    | ReconcileDelivery(d: DeliveryId, snapshot: string, reason: string, operator: string)

  predicate Active(db: Db, d: DeliveryId) {
    d in db.deliveries && !Terminal(db.deliveries[d].state)
  }

  predicate NoActive(db: Db) {
    forall d :: d in db.deliveries ==> Terminal(db.deliveries[d].state)
  }

  /** identity_keys finds no row of this URL (or title) inside its window. */
  predicate Unseen(w: Windows, history: seq<HistoryRow>, story: Story, now: Time) {
    && (forall i :: 0 <= i < |history| && history[i].url == story.url ==> history[i].sentAt < now - w.urlDays)
    && (w.titleDays > 0 ==>
        forall i :: 0 <= i < |history| && history[i].fingerprint == story.fingerprint ==>
          history[i].sentAt < now - w.titleDays)
  }

  predicate DistinctUrls(stories: seq<Story>) {
    forall i, j :: 0 <= i < j < |stories| ==> stories[i].url != stories[j].url
  }

  /** What the ranking pipeline may hand over: distinct URLs, nothing the history excludes. */
  predicate Selectable(w: Windows, db: Db, stories: seq<Story>, now: Time) {
    DistinctUrls(stories) && forall i :: 0 <= i < |stories| ==> Unseen(w, db.history, stories[i], now)
  }

  /**
   * The outcome run_once records for a reply: a retryable rejection turns
   * terminal once retries or budget are spent.
   */
  function Settle(db: Db, d: DeliveryId, c: ChunkId, number: nat, reply: Reply, enabled: bool, fallback: Policy,
                  now: Time): (outcome: Outcome)
    ensures outcome != Open
    ensures outcome == ReplyOutcome(reply) || (ReplyOutcome(reply) == RejectedRetryable && outcome == RejectedTerminal)
  {
    var outcome := ReplyOutcome(reply);
    if outcome != RejectedRetryable then outcome
    else if enabled && d in db.deliveries && number < EffectivePolicy(db.deliveries[d], fallback).maxAttempts &&
            !BudgetExhausted(db, d, Some(c), fallback, now)
    then RejectedRetryable else RejectedTerminal
  }

  /** A retryable rejection met an exhausted budget. */
  predicate SpentOn(db: Db, d: DeliveryId, c: ChunkId, reply: Reply, fallback: Policy, now: Time) {
    ReplyOutcome(reply) == RejectedRetryable && BudgetExhausted(db, d, Some(c), fallback, now)
  }

  /** The error class stored with the chunk: the client's reason, unless the budget is what ended the retries. */
  function ErrorClass(reply: Reply, spent: bool): string {
    match reply
    case Confirmed(_) => ""
    case Raised(reason) => if spent then "retry_budget_exhausted" else reason
    case Broke(name) => name
  }

  function MessageIdOf(reply: Reply): nat {
    if reply.Confirmed? then reply.messageId else 0
  }

  function FinishWith(db: Db, p: RunId, d: DeliveryId, c: ChunkId, number: nat, reply: Reply, enabled: bool,
                      fallback: Policy, nextAttempt: Time, errorKind: TerminalError, now: Time): Commit
  {
    var outcome := Settle(db, d, c, number, reply, enabled, fallback, now);
    var errorClass := ErrorClass(reply, SpentOn(db, d, c, reply, fallback, now));
    var after := if outcome == RejectedRetryable then Some(nextAttempt) else None;
    Finish(db, c, outcome, p, p, errorClass, errorKind, MessageIdOf(reply), after, now)
  }

  predicate HoldsDelivery(pc: Pc) {
    pc.Resuming? || pc.Gathering? || pc.Chosen? || pc.Delivering? || pc.Cleared? || pc.Begun? ||
      pc.Answered? || pc.Handling?
  }

  /** Past the start-up recovery, so every table change is fenced by the lease. */
  predicate Fenced(pc: Pc) {
    !pc.Opening? && !pc.Acquiring? && !pc.Rechecking?
  }

  predicate StoreClosed(s: Sys) {
    forall p :: p in s.procs ==> s.procs[p] == Ended
  }

  function Goto(s: Sys, p: RunId, pc: Pc): Sys {
    s.(procs := s.procs[p := pc])
  }

  /** The process goes on at `next` if its transaction committed, else handles the exception. */
  function After(s: Sys, p: RunId, commit: Commit, next: Pc, otherwise: Pc): Sys {
    match commit
    case Ok(db) => s.(db := db, procs := s.procs[p := next])
    case Err(_) => s.(procs := s.procs[p := otherwise])
  }

  // ----- one event

  function Step(w: Windows, s: Sys, e: Event): Option<Sys> {
    match e
    case Tick(to) => if s.clock <= to then Some(s.(clock := to)) else None
    case Spawn(p) => if p in s.procs then None else Some(Goto(s, p, Opening))
    case ResolveChunk(c, verdict, reason, operator) =>
      if !StoreClosed(s) then None
      else (match Resolve(s.db, c, verdict, reason, operator, s.clock)
            case Err(_) => None
            case Ok(db) => Some(s.(db := db, reopened := s.reopened || Reopens(s.db, c))))
    case ReconcileDelivery(d, snapshot, reason, operator) =>
      if !StoreClosed(s) then None
      else (match Reconcile(s.db, d, snapshot, reason, operator)
            case Err(_) => None
            case Ok(db) => Some(s.(db := db)))
    case _ =>
      if e.p !in s.procs || s.procs[e.p] == Ended then None else ProcessStep(w, s, e, e.p, s.procs[e.p])
  }

  /** The operator's verdict moves a chunk of a failed_terminal delivery. */
  predicate Reopens(db: Db, c: ChunkId) {
    c in db.chunks && db.chunks[c].delivery in db.deliveries &&
      db.deliveries[db.chunks[c].delivery].state == FailedTerminal
  }

  /**
   * When run_once fails its delivery: a retry out of budget, a collection that
   * came to nothing, a due chunk out of budget, or an exception with no request
   * in flight.
   */
  predicate MayFail(db: Db, pc: Pc, fallback: Policy, now: Time) {
    match pc
    case Resuming(d) => d in db.deliveries && db.deliveries[d].state == RetryWait &&
      BudgetExhausted(db, d, None, fallback, now)
    case Gathering(_) => true
    case Delivering(d) =>
      exists c :: c in db.chunks && Due(db.chunks[c], d, now) && BudgetExhausted(db, d, Some(c), fallback, now)
    case Handling(d) => d in db.deliveries && db.deliveries[d].state != RetryWait && !HasInFlight(db.chunks, d)
    case _ => false
  }

  function ProcessStep(w: Windows, s: Sys, e: Event, p: RunId, pc: Pc): Option<Sys> {
    var db, now := s.db, s.clock;
    match e
    case Crash(_) => Some(Goto(s, p, Ended))
    case Raise(_) => Some(Goto(s, p, if HoldsDelivery(pc) then Handling(pc.d) else Releasing))
    case Return(_) => Some(Goto(s, p, Releasing))
    case RecoverFirst(_) =>
      if pc != Opening then None else Some(Goto(s.(db := Recover(db, now)), p, Acquiring))
    case AcquireLease(_, ttl) =>
      if pc != Acquiring then None
      else
        var (db', acquired) := Acquire(db, p, ttl, now);
        Some(Goto(s.(db := db'), p, if acquired then Rechecking else Ended))
    case RecoverAgain(_) =>
      if pc != Rechecking then None else Some(Goto(s.(db := Recover(db, now)), p, Looking))
    case Look(_, found) =>
      if pc != Looking then None
      else (match found
            case Some(d) => if Active(db, d) then Some(Goto(s, p, Resuming(d))) else None
            case None => if NoActive(db) then Some(Goto(s, p, Vacant)) else None)
    case CreateDelivery(_, date, generation, policy, force) =>
      if pc != Vacant then None
      else Some(After(s, p, Create(db, date, generation, policy, force, p, now), Gathering(db.nextDelivery), Releasing))
    case ReopenCollection(_) =>
      if !pc.Resuming? then None
      else Some(After(s, p, ReopenForCollection(db, pc.d, p, now), Gathering(pc.d), Handling(pc.d)))
    case ResumeCollecting(_) => if !pc.Resuming? then None else Some(Goto(s, p, Gathering(pc.d)))
    case ResumeSending(_) => if !pc.Resuming? then None else Some(Goto(s, p, Delivering(pc.d)))
    case RenewLease(_, ttl) =>
      if !pc.Gathering? && !pc.Delivering? then None
      else Some(After(s, p, Heartbeat(db, p, ttl, now), pc, Handling(pc.d)))
    case CountCollectionAttempt(_) =>
      if !pc.Gathering? then None
      else Some(After(s, p, RecordCollectionAttempt(db, pc.d, p, now), pc, Handling(pc.d)))
    case ScheduleRetry(_, nextAttempt) =>
      if !pc.Gathering? then None
      else Some(After(s, p, SetCollectionRetry(db, pc.d, nextAttempt, p, now), Releasing, Handling(pc.d)))
    case FailNow(_, fallback) =>
      if !MayFail(db, pc, fallback, now) then None
      else Some(After(s, p, Fail(db, pc.d, p, now), Releasing, Releasing))
    case Select(_, stories) =>
      if !pc.Gathering? || !Selectable(w, db, stories, now) then None
      else Some(Goto(s, p, Chosen(pc.d, stories)))
    case PrepareOutbox(_, messages, indexes, target) =>
      if !pc.Chosen? then None
      else Some(After(s, p, Prepare(db, pc.d, pc.stories, messages, indexes, target, p, now), Delivering(pc.d),
        Handling(pc.d)))
    case BlockOnTarget(_, expected, actual) =>
      if !pc.Delivering? then None
      else Some(After(s, p, MarkTargetMismatch(db, pc.d, expected, actual, p, now), Releasing, Handling(pc.d)))
    case CheckBudget(_, c, fallback) =>
      if !pc.Delivering? || c !in db.chunks || db.chunks[c].delivery != pc.d ||
         BudgetExhausted(db, pc.d, Some(c), fallback, now)
      then None else Some(Goto(s, p, Cleared(pc.d, c)))
    case BeginSend(_) =>
      BeginStep(s, p, pc)
    case Transmit(_, accepted, reply) =>
      if !pc.Begun? || !HonestReply(reply, accepted) then None
      else Some(Goto(s.(wire := s.wire + [Transmission(Key(pc.c, pc.number), accepted)]), p,
                     Answered(pc.d, pc.c, pc.number, reply)))
    case BreakBeforeSend(_, name) =>
      if !pc.Begun? then None else Some(Goto(s, p, Answered(pc.d, pc.c, pc.number, Broke(name))))
    case FinishSend(_, enabled, fallback, nextAttempt, errorKind) =>
      if !pc.Answered? then None
      else
        var commit :=
          FinishWith(db, p, pc.d, pc.c, pc.number, pc.reply, enabled, fallback, nextAttempt, errorKind, now);
        Some(After(s, p, commit, if pc.reply.Confirmed? then Delivering(pc.d) else Releasing, Handling(pc.d)))
    case ReleaseLease(_) =>
      if pc != Releasing then None else Some(After(s, p, Release(db, p, now), Ended, Ended))
    case _ => None
  }

  function BeginStep(s: Sys, p: RunId, pc: Pc): Option<Sys> {
    if !pc.Cleared? || pc.c !in s.db.chunks then None
    else
      var number := s.db.chunks[pc.c].attemptCount + 1;
      Some(After(s, p, Begin(s.db, pc.c, p, p, s.clock), Begun(pc.d, pc.c, number), Handling(pc.d)))
  }

  // ----- runs

  predicate Init(s: Sys) {
    s.db == Db(map[], map[], map[], map[], map[], [], [], None, 1, 1) && s.procs == map[] && s.wire == [] && !s.reopened
  }

  /** The state after a sequence of events, if every event was possible when its turn came. */
  function Run(w: Windows, s: Sys, events: seq<Event>): Option<Sys> {
    if events == [] then Some(s)
    else
      match Run(w, s, events[..|events| - 1])
      case None => None
      case Some(t) => Step(w, t, events[|events| - 1])
  }
}
