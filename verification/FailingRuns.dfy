/** A run that ends with two active deliveries, step by step from an empty database. */
module FailingRuns {
  import opened Wrappers
  import opened Rows
  import opened Transactions
  import opened OutboxInvariant
  import opened Protocol
  import opened ProtocolInvariant
  import opened ProtocolSteps
  import opened SampleRun

  const STORY := Story(Sha256("title"), Sha256("url"))
  const NEW_DATE := "2024-01-02"

  function TheDelivery(at: Time, state: DeliveryState): Delivery {
    NewDelivery(FIRST_DAY, at).(
      state := state, target := "chat", firstAttemptAt := Some(at),
      terminalError := if state == FailedTerminal then OtherError else NoError)
  }

  function FirstChunk(state: ChunkState): Chunk {
    FreshChunk(1, 0, "one").(
      state := state, attemptCount := 1, errorClass := if state == Ambiguous then TELEGRAM_AMBIGUOUS else "")
  }

  function FirstAttempt(at: Time, chunk: ChunkState): Attempt {
    if chunk == Ambiguous then Attempt(1, 7, at, Unknown, Some(at + TTL)) else Attempt(1, 7, at, Open, None)
  }

  /** Delivery 1 of two chunks, the first begun by process 7 at time `at`, in the given states. */
  function OneDelivery(at: Time, delivery: DeliveryState, first: ChunkState, lease: Option<Lease>): Db {
    Db(map[1 := TheDelivery(at, delivery)], map[1 := [Item(STORY.fingerprint, STORY.url, 0)]],
       map[1 := FirstChunk(first), 2 := FreshChunk(1, 1, "two")], map[Key(1, 1) := FirstAttempt(at, first)],
       map[], [], [], lease, 2, 3)
  }

  lemma TwoFresh()
    ensures map[] + FreshChunks(1, ["one", "two"], 1) == map[1 := FreshChunk(1, 0, "one"), 2 := FreshChunk(1, 1, "two")]
  {
    var chunks := FreshChunks(1, ["one", "two"], 1);
    assert chunks.Keys == {1, 2};
    assert chunks[1] == FreshChunk(1, 0, "one") && chunks[2] == FreshChunk(1, 1, "two");
  }

  /** The state before the first message is begun. */
  function TwoPrepared(at: Time): Sys {
    var d := NewDelivery(FIRST_DAY, at).(state := Prepared, target := "chat");
    var db := Db(map[1 := d], map[1 := [Item(STORY.fingerprint, STORY.url, 0)]],
                 map[1 := FreshChunk(1, 0, "one"), 2 := FreshChunk(1, 1, "two")], map[], map[], [], [],
                 Some(Lease(7, at + TTL)), 2, 3);
    Sys(db, at, map[7 := Delivering(1)], [], false)
  }

  lemma TwoPreparedIs(s: Sys)
    requires Init(s)
    ensures
      var created := Created(Leased(s, 7), 7, FIRST_DAY);
      1 in created.db.deliveries && Frozen(created, 7, 1, STORY, ["one", "two"]) == TwoPrepared(s.clock)
  {
    TwoFresh();
    hide FreshChunks;
    var created := Created(Leased(s, 7), 7, FIRST_DAY);
    assert created.db.deliveries == map[1 := NewDelivery(FIRST_DAY, s.clock)];
    var frozen := Frozen(created, 7, 1, STORY, ["one", "two"]);
    assert frozen.db.deliveries == TwoPrepared(s.clock).db.deliveries;
    assert frozen.procs == map[7 := Delivering(1)];
  }

  /** The state once the process that began the first message is gone. */
  function OneBegun(at: Time): Sys {
    Sys(OneDelivery(at, Sending, InFlight, Some(Lease(7, at + TTL))), at, map[7 := Ended], [], false)
  }

  lemma OneBegunIs(at: Time)
    ensures Startable(TwoPrepared(at), 7, 1)
    ensures Goto(Started(TwoPrepared(at), 7, 1), 7, Ended) == OneBegun(at)
  {
  }

  lemma PreparesTwo(w: Windows, s: Sys) returns (events: seq<Event>)
    requires Init(s)
    ensures Run(w, s, events) == Some(TwoPrepared(s.clock))
  {
    Nothing(w, s);
    assert Idle(s);
    hide Run, Idle;
    events := Enters(w, s, [], s, 7);
    assert Unseen(w, [], STORY, s.clock);
    assert !GenerationTaken(s.db.deliveries, FIRST_DAY, 0);
    events := Chooses(w, s, events, Leased(s, 7), 7, FIRST_DAY, STORY);
    TwoPreparedIs(s);
    hide TwoPrepared, Frozen;
    events := Freezes(w, s, events, Created(Leased(s, 7), 7, FIRST_DAY), 7, 1, STORY, ["one", "two"]);
  }

  /** Process 7 freezes two messages, begins the first and dies. */
  lemma Orphans(w: Windows, s: Sys) returns (events: seq<Event>)
    requires Init(s)
    ensures Run(w, s, events) == Some(OneBegun(s.clock))
  {
    hide Run;
    events := PreparesTwo(w, s);
    var prepared := TwoPrepared(s.clock);
    OneBegunIs(s.clock);
    events := Begins(w, s, events, prepared, 7, 1);
    StepCrash(w, Started(prepared, 7, 1), 7);
    events := Extend(w, s, events, Started(prepared, 7, 1), Crash(7), OneBegun(s.clock));
  }

  /** Process 8 beside the dead one. */
  function With(at: Time, clock: Time, delivery: DeliveryState, first: ChunkState, lease: Option<Lease>, pc: Pc): Sys {
    Sys(OneDelivery(at, delivery, first, lease), clock, map[7 := Ended][8 := pc], [], false)
  }

  lemma Moves(at: Time, clock: Time, delivery: DeliveryState, first: ChunkState, lease: Option<Lease>, pc: Pc, next: Pc)
    ensures Goto(With(at, clock, delivery, first, lease, pc), 8, next) == With(at, clock, delivery, first, lease, next)
  {
    hide OneDelivery;
    assert map[7 := Ended][8 := pc][8 := next] == map[7 := Ended][8 := next];
  }

  lemma Facts(at: Time, clock: Time, delivery: DeliveryState, first: ChunkState, lease: Option<Lease>, pc: Pc)
    ensures
      var s := With(at, clock, delivery, first, lease, pc);
      && 8 in s.procs && s.procs[8] == pc && s.db.lease == lease && s.clock == clock
      && (forall to :: s.(clock := to) == With(at, to, delivery, first, lease, pc))
      && (forall other :: s.(db := s.db.(lease := other)) == With(at, clock, delivery, first, other, pc))
      && (Active(s.db, 1) <==> !Terminal(delivery))
      && (NoActive(s.db) <==> Terminal(delivery))
  {
  }

  /** Start-up recovery finds the dead owner's lease live and changes nothing. */
  lemma NothingRecovered(at: Time)
    ensures
      var opening := With(at, at, Sending, InFlight, Some(Lease(7, at + TTL)), Opening);
      && 8 !in OneBegun(at).procs && Goto(OneBegun(at), 8, Opening) == opening
      && opening.(db := Recover(opening.db, at)) == opening
  {
    hide OneDelivery, Recover;
    var opening := With(at, at, Sending, InFlight, Some(Lease(7, at + TTL)), Opening);
    LeaseOf(at, Sending, InFlight, Some(Lease(7, at + TTL)));
    RecoversNothing(opening.db, at);
  }

  lemma LeaseOf(at: Time, delivery: DeliveryState, first: ChunkState, lease: Option<Lease>)
    ensures OneDelivery(at, delivery, first, lease).lease == lease
  {
  }

  /** Process 8 arrives while the dead owner's lease still lives. */
  lemma Arrives(w: Windows, s0: Sys, events: seq<Event>, at: Time) returns (more: seq<Event>)
    requires Run(w, s0, events) == Some(OneBegun(at))
    ensures Run(w, s0, more) == Some(With(at, at, Sending, InFlight, Some(Lease(7, at + TTL)), Acquiring))
  {
    var dead := Some(Lease(7, at + TTL));
    var opening := With(at, at, Sending, InFlight, dead, Opening);
    Facts(at, at, Sending, InFlight, dead, Opening);
    NothingRecovered(at);
    Moves(at, at, Sending, InFlight, dead, Opening, Acquiring);
    hide Run, OneDelivery, Recover, Step, With, OneBegun;
    StepSpawn(w, OneBegun(at), 8);
    more := Extend(w, s0, events, OneBegun(at), Spawn(8), opening);
    StepRecoverFirst(w, opening, 8);
    more := Extend(w, s0, more, opening, RecoverFirst(8), With(at, at, Sending, InFlight, dead, Acquiring));
  }

  /** The dead owner's lease lapses, and process 8 takes over what is left. */
  lemma TakesOver(w: Windows, s0: Sys, events: seq<Event>, at: Time) returns (more: seq<Event>)
    requires Run(w, s0, events) == Some(With(at, at, Sending, InFlight, Some(Lease(7, at + TTL)), Acquiring))
    ensures
      Run(w, s0, more) ==
      Some(With(at, at + TTL, Sending, InFlight, Some(Lease(8, at + TTL + TTL)), Looking))
  {
    var now := at + TTL;
    var dead, taken := Some(Lease(7, at + TTL)), Some(Lease(8, now + TTL));
    var waiting := With(at, at, Sending, InFlight, dead, Acquiring);
    var lapsed := With(at, now, Sending, InFlight, dead, Acquiring);
    Facts(at, at, Sending, InFlight, dead, Acquiring);
    Facts(at, now, Sending, InFlight, dead, Acquiring);
    Facts(at, now, Sending, InFlight, taken, Rechecking);
    Moves(at, now, Sending, InFlight, taken, Acquiring, Rechecking);
    Moves(at, now, Sending, InFlight, taken, Rechecking, Looking);
    hide Run, With;
    more := Extend(w, s0, events, waiting, Tick(now), lapsed);
    StepAcquire(w, lapsed, 8);
    more := Extend(w, s0, more, lapsed, AcquireLease(8, TTL), With(at, now, Sending, InFlight, taken, Rechecking));
    StepRecoverAgain(w, With(at, now, Sending, InFlight, taken, Rechecking), 8);
    more := Extend(w, s0, more, With(at, now, Sending, InFlight, taken, Rechecking), RecoverAgain(8),
                   With(at, now, Sending, InFlight, taken, Looking));
  }

  lemma StepResumeSending(w: Windows, s: Sys, p: RunId, d: DeliveryId)
    requires p in s.procs && s.procs[p] == Resuming(d)
    ensures Step(w, s, ResumeSending(p)) == Some(Goto(s, p, Delivering(d)))
  {
  }

  lemma Resumes(w: Windows, s0: Sys, events: seq<Event>, at: Time, now: Time, lease: Option<Lease>)
    returns (more: seq<Event>)
    requires Run(w, s0, events) == Some(With(at, now, Sending, InFlight, lease, Looking))
    ensures Run(w, s0, more) == Some(With(at, now, Sending, InFlight, lease, Delivering(1)))
  {
    var looking := With(at, now, Sending, InFlight, lease, Looking);
    var resuming := With(at, now, Sending, InFlight, lease, Resuming(1));
    Facts(at, now, Sending, InFlight, lease, Looking);
    Facts(at, now, Sending, InFlight, lease, Resuming(1));
    Moves(at, now, Sending, InFlight, lease, Looking, Resuming(1));
    Moves(at, now, Sending, InFlight, lease, Resuming(1), Delivering(1));
    hide Run, With, Step;
    StepLook(w, looking, 8, Some(1));
    more := Extend(w, s0, events, looking, Look(8, Some(1)), resuming);
    StepResumeSending(w, resuming, 8, 1);
    more := Extend(w, s0, more, resuming, ResumeSending(8), With(at, now, Sending, InFlight, lease, Delivering(1)));
  }

  /** The second message is due, and its budget, 100 since the first attempt, is spent. */
  lemma SecondIsSpent(at: Time, lease: Option<Lease>)
    ensures MayFail(OneDelivery(at, Sending, InFlight, lease), Delivering(1), POLICY, at + TTL)
  {
    var db := OneDelivery(at, Sending, InFlight, lease);
    assert Due(db.chunks[2], 1, at + TTL);
    assert BudgetExhausted(db, 1, Some(2), POLICY, at + TTL);
  }

  lemma FailCommits(at: Time, lease: Option<Lease>, now: Time)
    requires LeaseHeld(lease, 8, now)
    ensures Fail(OneDelivery(at, Sending, InFlight, lease), 1, 8, now) ==
      Ok(OneDelivery(at, FailedTerminal, InFlight, lease))
  {
    assert map[1 := TheDelivery(at, Sending)][1 := TheDelivery(at, FailedTerminal)] ==
      map[1 := TheDelivery(at, FailedTerminal)];
  }

  /** Process 8 finds the second message out of budget and fails the delivery over the orphaned first one. */
  lemma FailsOver(w: Windows, s0: Sys, events: seq<Event>, at: Time) returns (more: seq<Event>)
    requires
      var taken := Some(Lease(8, at + TTL + TTL));
      Run(w, s0, events) == Some(With(at, at + TTL, Sending, InFlight, taken, Delivering(1)))
    ensures Run(w, s0, more) == Some(With(at, at + TTL, FailedTerminal, InFlight, None, Ended))
  {
    var now, taken := at + TTL, Some(Lease(8, at + TTL + TTL));
    var delivering := With(at, now, Sending, InFlight, taken, Delivering(1));
    var failed := With(at, now, FailedTerminal, InFlight, taken, Releasing);
    SecondIsSpent(at, taken);
    FailCommits(at, taken, now);
    Facts(at, now, Sending, InFlight, taken, Delivering(1));
    Facts(at, now, FailedTerminal, InFlight, taken, Releasing);
    Moves(at, now, FailedTerminal, InFlight, taken, Delivering(1), Releasing);
    Moves(at, now, FailedTerminal, InFlight, None, Releasing, Ended);
    hide Run, MayFail, Fail, OneDelivery, Step;
    StepFail(w, delivering, 8, Delivering(1), OneDelivery(at, FailedTerminal, InFlight, taken));
    hide With;
    more := Extend(w, s0, events, delivering, FailNow(8, POLICY), failed);
    StepRelease(w, failed, 8);
    more := Extend(w, s0, more, failed, ReleaseLease(8), With(at, now, FailedTerminal, InFlight, None, Ended));
  }

  /** Without a live lease, start-up recovery makes the orphaned chunk ambiguous; the delivery stays failed. */
  lemma RecoverCommits(at: Time)
    ensures Recover(OneDelivery(at, FailedTerminal, InFlight, None), at + TTL) ==
      OneDelivery(at, FailedTerminal, Ambiguous, None)
  {
    var db, now := OneDelivery(at, FailedTerminal, InFlight, None), at + TTL;
    var next := Recover(db, now);
    assert next.chunks == map[1 := FirstChunk(Ambiguous), 2 := FreshChunk(1, 1, "two")];
    assert next.attempts == map[Key(1, 1) := FirstAttempt(at, Ambiguous)];
    assert next.deliveries == db.deliveries;
  }

  /** What process 9 finds: delivery 1 failed, its first chunk ambiguous. */
  function Stranded(at: Time): Sys {
    With(at, at + TTL, FailedTerminal, Ambiguous, None, Ended)
  }

  lemma FailedStrands(at: Time)
    ensures
      var failed := With(at, at + TTL, FailedTerminal, InFlight, None, Ended);
      && 9 !in failed.procs && failed.clock == at + TTL && Recover(failed.db, at + TTL) == Stranded(at).db
      && Goto(Goto(failed, 9, Opening).(db := Stranded(at).db), 9, Acquiring) == Goto(Stranded(at), 9, Acquiring)
  {
    RecoverCommits(at);
    hide OneDelivery, Recover;
  }

  lemma Strands(w: Windows, s0: Sys, events: seq<Event>, at: Time) returns (more: seq<Event>)
    requires Run(w, s0, events) == Some(With(at, at + TTL, FailedTerminal, InFlight, None, Ended))
    ensures Run(w, s0, more) == Some(Goto(Stranded(at), 9, Acquiring))
  {
    var failed := With(at, at + TTL, FailedTerminal, InFlight, None, Ended);
    FailedStrands(at);
    hide Run, Recover, OneDelivery, Step, With, Stranded;
    StepSpawn(w, failed, 9);
    more := Extend(w, s0, events, failed, Spawn(9), Goto(failed, 9, Opening));
    StepRecoverFirst(w, Goto(failed, 9, Opening), 9);
    more := Extend(w, s0, more, Goto(failed, 9, Opening), RecoverFirst(9), Goto(Stranded(at), 9, Acquiring));
  }

  lemma StrandedIs(at: Time)
    ensures Stranded(at).db.lease == None && Stranded(at).clock == at + TTL
    ensures NoActive(Stranded(at).db) && !GenerationTaken(Stranded(at).db.deliveries, NEW_DATE, 0)
  {
  }

  /** Process 9 takes the lease and finds nothing active. */
  lemma FindsVacant(w: Windows, s0: Sys, events: seq<Event>, at: Time) returns (more: seq<Event>)
    requires Run(w, s0, events) == Some(Goto(Stranded(at), 9, Acquiring))
    ensures Run(w, s0, more) == Some(Goto(Leased(Stranded(at), 9), 9, Vacant))
  {
    var s := Stranded(at);
    StrandedIs(at);
    StillNoActive(s.db, Leased(s, 9).db.lease);
    hide Run, Stranded, Step, NoActive, GenerationTaken;
    StepAcquire(w, Goto(s, 9, Acquiring), 9);
    assert Goto(Leased(Goto(s, 9, Acquiring), 9), 9, Rechecking) == Goto(Leased(s, 9), 9, Rechecking);
    more := Extend(w, s0, events, Goto(s, 9, Acquiring), AcquireLease(9, TTL), Goto(Leased(s, 9), 9, Rechecking));
    more := FindsNothing(w, s0, more, Leased(s, 9), 9);
  }

  /** Process 9 creates the next day's delivery and dies. */
  lemma CreatesSecond(w: Windows, s0: Sys, events: seq<Event>, at: Time) returns (more: seq<Event>)
    requires Run(w, s0, events) == Some(Goto(Leased(Stranded(at), 9), 9, Vacant))
    ensures Run(w, s0, more) == Some(Goto(Created(Leased(Stranded(at), 9), 9, NEW_DATE), 9, Ended))
  {
    var leased := Leased(Stranded(at), 9);
    StrandedIs(at);
    var vacant, created := Goto(leased, 9, Vacant), Created(leased, 9, NEW_DATE);
    assert Created(vacant, 9, NEW_DATE) == created && vacant.procs[9] == Vacant && created.procs[9].Gathering?;
    assert LeaseHeld(vacant.db.lease, 9, vacant.clock) && vacant.db.deliveries == Stranded(at).db.deliveries;
    hide Run, Stranded, Step, NoActive, GenerationTaken, Created, Leased;
    StepCreate(w, vacant, 9, NEW_DATE);
    more := Extend(w, s0, events, vacant, CreateDelivery(9, NEW_DATE, 0, POLICY, NotForced), created);
    StepCrash(w, created, 9);
    more := Extend(w, s0, more, created, Crash(9), Goto(created, 9, Ended));
  }

  /** The verdict that revives delivery 1. */
  const VERDICT := ResolveChunk(1, Retry, "verified unsent", "operator")

  /** A `retry` on an ambiguous chunk makes its delivery active and leaves the others as they are. */
  lemma RetryRevives(db: Db, c: ChunkId, now: Time)
    requires c in db.chunks && db.chunks[c].state == Ambiguous && db.chunks[c].delivery in db.deliveries
    ensures
      var resolved := Resolve(db, c, Retry, "verified unsent", "operator", now);
      && resolved.Ok? && Active(resolved.value, db.chunks[c].delivery)
      && forall d :: d != db.chunks[c].delivery ==> (Active(resolved.value, d) <==> Active(db, d))
  {
    hide RecordHistory, HasUnresolved, TerminalRetryUsed;
  }

  /** The state before the verdict. */
  function TwoDays(at: Time): Sys {
    Goto(Created(Leased(Stranded(at), 9), 9, NEW_DATE), 9, Ended)
  }

  lemma TwoDaysIs(at: Time)
    ensures
      var t := TwoDays(at);
      && t.procs == map[7 := Ended, 8 := Ended, 9 := Ended] && !t.reopened
      && 1 in t.db.chunks && t.db.chunks[1].state == Ambiguous && t.db.chunks[1].delivery == 1
      && 1 in t.db.deliveries && Active(t.db, 2)
  {
  }

  lemma VerdictRevives(w: Windows, at: Time) returns (u: Sys)
    ensures Step(w, TwoDays(at), VERDICT) == Some(u) && !TwoDays(at).reopened && Active(u.db, 1) && Active(u.db, 2)
  {
    var t := TwoDays(at);
    TwoDaysIs(at);
    RetryRevives(t.db, 1, t.clock);
    hide TwoDays, Resolve;
    var resolved := Resolve(t.db, 1, Retry, "verified unsent", "operator", t.clock);
    u := t.(db := resolved.value, reopened := t.reopened || Reopens(t.db, 1));
  }

  /**
   * The failing case in the concrete, from an empty database: a process dies
   * with the first of two messages in flight; the next one takes the lease over
   * when it lapses, finds the second message out of budget and fails the
   * delivery; a third one's recovery makes the first message ambiguous, and its
   * run creates the next delivery.  A `retry` verdict then makes both active.
   */
  lemma RevivedDeliveryIsSecond(w: Windows, s: Sys) returns (events: seq<Event>, t: Sys, u: Sys)
    requires Init(s)
    ensures Run(w, s, events) == Some(t) && !t.reopened && SingleActive(t.db)
    ensures Run(w, s, events + [VERDICT]) == Some(u) && Active(u.db, 1) && Active(u.db, 2)
  {
    hide Run, Step, Stranded, OneBegun, With, Created;
    events := Orphans(w, s);
    events := Arrives(w, s, events, s.clock);
    events := TakesOver(w, s, events, s.clock);
    events := Resumes(w, s, events, s.clock, s.clock + TTL, Some(Lease(8, s.clock + TTL + TTL)));
    events := FailsOver(w, s, events, s.clock);
    events := Strands(w, s, events, s.clock);
    events := FindsVacant(w, s, events, s.clock);
    events := CreatesSecond(w, s, events, s.clock);
    t := TwoDays(s.clock);
    u := VerdictRevives(w, s.clock);
    Then(w, s, events, t, VERDICT, u);
    RunSafe(w, s, events, t);
  }

  // ----- a story sent twice

  /** Delivery 1 failed with its first chunk ambiguous, and nobody about. */
  function Abandoned(at: Time): Sys {
    Goto(Stranded(at), 9, Ended)
  }

  lemma AbandonedIs(at: Time)
    ensures
      var s := Abandoned(at);
      && Idle(s) && FreshIds(s.db) && 10 !in s.procs && !GenerationTaken(s.db.deliveries, NEW_DATE, 0)
      && s.db.history == [] && s.db.nextDelivery == 2 && s.db.nextChunk == 3 && s.clock == at + TTL
  {
  }

  lemma Abandons(w: Windows, s0: Sys, events: seq<Event>, at: Time) returns (more: seq<Event>)
    requires Run(w, s0, events) == Some(Goto(Stranded(at), 9, Acquiring))
    ensures Run(w, s0, more) == Some(Abandoned(at))
  {
    hide Run, Stranded, Step;
    var acquiring := Goto(Stranded(at), 9, Acquiring);
    StepCrash(w, acquiring, 9);
    assert Goto(acquiring, 9, Ended) == Abandoned(at);
    more := Extend(w, s0, events, acquiring, Crash(9), Abandoned(at));
  }

  /** The verdict on the first delivery's chunk, once the second delivery has sent the same story. */
  const MARK := ResolveChunk(1, MarkSent, "seen in the chat", "operator")

  function SentIn(d: DeliveryId, c: ChunkId, at: Time): HistoryRow {
    HistoryRow(STORY.url, STORY.fingerprint, d, c, at)
  }

  lemma DeliveredAgain(at: Time, t: Sys)
    requires OneMoreDelivered(Abandoned(at), t, 10, NEW_DATE, STORY, "one")
    ensures StoreClosed(t) && t.clock == at + TTL && t.db.history == [SentIn(2, 3, at + TTL)]
    ensures 1 in t.db.deliveries && 1 in t.db.chunks && t.db.chunks[1] == FirstChunk(Ambiguous)
    ensures ItemsOf(t.db.items, 1) == [Item(STORY.fingerprint, STORY.url, 0)]
  {
    AbandonedIs(at);
    assert t.db.history == [] + [SentIn(2, 3, at + TTL)];
  }

  lemma MarkRecords(t: Sys)
    requires 1 in t.db.deliveries && 1 in t.db.chunks && t.db.chunks[1] == FirstChunk(Ambiguous)
    requires ItemsOf(t.db.items, 1) == [Item(STORY.fingerprint, STORY.url, 0)]
    requires forall i :: 0 <= i < |t.db.history| ==> t.db.history[i].delivery != 1
    ensures
      var resolved := Resolve(t.db, 1, MarkSent, "seen in the chat", "operator", t.clock);
      resolved.Ok? && resolved.value.history == t.db.history + [SentIn(1, 1, t.clock)]
  {
    hide RecordHistory, AfterConfirmation, HasUnresolved, TerminalRetryUsed;
    Records(t.db.history, STORY, 1, 1, t.clock);
  }

  /**
   * The same stranded chunk, but the day's second delivery sends its story: an
   * operator who then marks the chunk as sent records the story a second time,
   * at the very same time.
   */
  lemma RevivedStoryIsRepeated(w: Windows, s: Sys) returns (events: seq<Event>, t: Sys, u: Sys)
    requires Init(s)
    ensures Run(w, s, events) == Some(t) && t.db.history == [SentIn(2, 3, s.clock + TTL)]
    ensures Run(w, s, events + [MARK]) == Some(u)
    ensures u.db.history == [SentIn(2, 3, s.clock + TTL), SentIn(1, 1, s.clock + TTL)]
  {
    hide Run, Step, Stranded, OneBegun, With, Abandoned, OneMoreDelivered, Idle, FreshIds, GenerationTaken, StoreClosed;
    events := Orphans(w, s);
    events := Arrives(w, s, events, s.clock);
    events := TakesOver(w, s, events, s.clock);
    events := Resumes(w, s, events, s.clock, s.clock + TTL, Some(Lease(8, s.clock + TTL + TTL)));
    events := FailsOver(w, s, events, s.clock);
    events := Strands(w, s, events, s.clock);
    events := Abandons(w, s, events, s.clock);
    AbandonedIs(s.clock);
    events, t := DeliversOneMore(w, s, events, Abandoned(s.clock), 10, NEW_DATE, STORY, "one");
    DeliveredAgain(s.clock, t);
    u := Marks(w, t);
    Then(w, s, events, t, MARK, u);
  }

  lemma Marks(w: Windows, t: Sys) returns (u: Sys)
    requires StoreClosed(t) && 1 in t.db.deliveries && 1 in t.db.chunks && t.db.chunks[1] == FirstChunk(Ambiguous)
    requires ItemsOf(t.db.items, 1) == [Item(STORY.fingerprint, STORY.url, 0)]
    requires forall i :: 0 <= i < |t.db.history| ==> t.db.history[i].delivery != 1
    ensures Step(w, t, MARK) == Some(u) && u.db.history == t.db.history + [SentIn(1, 1, t.clock)]
  {
    MarkRecords(t);
    hide Resolve;
    var resolved := Resolve(t.db, 1, MarkSent, "seen in the chat", "operator", t.clock);
    u := t.(db := resolved.value, reopened := t.reopened || Reopens(t.db, 1));
  }
}
