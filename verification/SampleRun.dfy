/**
 * The protocol at work, step by step: the runs that statements about every run
 * are about, and the building blocks of the failing cases.
 */
module SampleRun {
  import opened Wrappers
  import opened Rows
  import opened Transactions
  import opened Protocol

  const TTL: int := 180
  const POLICY := Policy(4, 100)

  // ----- putting runs together

  lemma Nothing(w: Windows, s: Sys)
    ensures Run(w, s, []) == Some(s)
  {
  }

  /** One more event. */
  lemma Then(w: Windows, s: Sys, events: seq<Event>, t: Sys, e: Event, u: Sys)
    requires Run(w, s, events) == Some(t) && Step(w, t, e) == Some(u)
    ensures Run(w, s, events + [e]) == Some(u)
  {
    assert (events + [e])[..|events|] == events;
  }

  // ----- single steps

  /** Nothing to recover, nobody live, nothing active. */
  ghost predicate Idle(s: Sys) {
    && NoActive(s.db) && !LeaseLive(s.db.lease, s.clock)
    && (forall c :: c in s.db.chunks ==> s.db.chunks[c].state != InFlight)
  }

  lemma RecoversNothing(db: Db, now: Time)
    requires LeaseLive(db.lease, now) || forall c :: c in db.chunks ==> db.chunks[c].state != InFlight
    ensures Recover(db, now) == if LeaseLive(db.lease, now) then db else db.(lease := None)
  {
    if !LeaseLive(db.lease, now) {
      assert forall d :: !HasInFlight(db.chunks, d);
      forall c | c in db.chunks ensures db.chunks[c].state != InFlight && Recover(db, now).chunks[c] == db.chunks[c] {
      }
      assert Recover(db, now).chunks == db.chunks;
      assert Recover(db, now).attempts == db.attempts;
      assert Recover(db, now).deliveries == db.deliveries;
    }
  }

  function Leased(s: Sys, p: RunId): Sys {
    s.(db := s.db.(lease := Some(Lease(p, s.clock + TTL))))
  }

  lemma StepSpawn(w: Windows, s: Sys, p: RunId)
    requires p !in s.procs
    ensures Step(w, s, Spawn(p)) == Some(Goto(s, p, Opening))
  {
  }

  lemma StepRecoverFirst(w: Windows, s: Sys, p: RunId)
    requires p in s.procs && s.procs[p] == Opening
    ensures Step(w, s, RecoverFirst(p)) == Some(Goto(s.(db := Recover(s.db, s.clock)), p, Acquiring))
  {
    hide Recover;
  }

  lemma StepAcquire(w: Windows, s: Sys, p: RunId)
    requires p in s.procs && s.procs[p] == Acquiring && !LeaseLive(s.db.lease, s.clock)
    ensures Step(w, s, AcquireLease(p, TTL)) == Some(Goto(Leased(s, p), p, Rechecking))
  {
  }

  /** The second recovery finds the process's own lease live and does nothing. */
  lemma StepRecoverAgain(w: Windows, s: Sys, p: RunId)
    requires p in s.procs && s.procs[p] == Rechecking && LeaseLive(s.db.lease, s.clock)
    ensures Step(w, s, RecoverAgain(p)) == Some(Goto(s, p, Looking))
  {
  }

  lemma StepLook(w: Windows, s: Sys, p: RunId, found: Option<DeliveryId>)
    requires p in s.procs && s.procs[p] == Looking
    requires if found.Some? then Active(s.db, found.value) else NoActive(s.db)
    ensures Step(w, s, Look(p, found)) == Some(Goto(s, p, if found.Some? then Resuming(found.value) else Vacant))
  {
    hide NoActive;
  }

  function NewDelivery(date: string, now: Time): Delivery {
    Delivery(date, 0, Content, Collecting, "", now, None, NoError, Some(POLICY), None)
  }

  function Created(s: Sys, p: RunId, date: string): Sys {
    var d := s.db.nextDelivery;
    s.(db := s.db.(deliveries := s.db.deliveries[d := NewDelivery(date, s.clock)], nextDelivery := d + 1),
       procs := s.procs[p := Gathering(d)])
  }

  lemma StepCreate(w: Windows, s: Sys, p: RunId, date: string)
    requires p in s.procs && s.procs[p] == Vacant && LeaseHeld(s.db.lease, p, s.clock)
    requires !GenerationTaken(s.db.deliveries, date, 0)
    ensures Step(w, s, CreateDelivery(p, date, 0, POLICY, NotForced)) == Some(Created(s, p, date))
  {
    hide GenerationTaken;
  }

  lemma StepSelect(w: Windows, s: Sys, p: RunId, stories: seq<Story>)
    requires p in s.procs && s.procs[p].Gathering? && Selectable(w, s.db, stories, s.clock)
    ensures Step(w, s, Select(p, stories)) == Some(Goto(s, p, Chosen(s.procs[p].d, stories)))
  {
    hide Selectable;
  }

  /** One story, and messages of which the first holds it. */
  function Frozen(s: Sys, p: RunId, d: DeliveryId, story: Story, messages: seq<string>): Sys
    requires d in s.db.deliveries
  {
    s.(db := s.db.(
         items := s.db.items[d := [Item(story.fingerprint, story.url, 0)]],
         chunks := s.db.chunks + FreshChunks(d, messages, s.db.nextChunk),
         nextChunk := s.db.nextChunk + |messages|,
         deliveries := s.db.deliveries[d := s.db.deliveries[d].(target := "chat", state := Prepared)]),
       procs := s.procs[p := Delivering(d)])
  }

  lemma StepPrepare(w: Windows, s: Sys, p: RunId, d: DeliveryId, story: Story, messages: seq<string>)
    requires p in s.procs && s.procs[p] == Chosen(d, [story]) && LeaseHeld(s.db.lease, p, s.clock)
    requires d in s.db.deliveries && s.db.deliveries[d].state == Collecting && s.db.deliveries[d].target == ""
    requires ItemsOf(s.db.items, d) == [] && !HasChunks(s.db.chunks, d)
    requires messages != [] && forall i :: 0 <= i < |messages| ==> messages[i] != ""
    ensures Step(w, s, PrepareOutbox(p, messages, map[], "chat")) == Some(Frozen(s, p, d, story, messages))
  {
    hide HasChunks, FreshChunks;
    assert ItemRows([story], map[]) == [Item(story.fingerprint, story.url, 0)];
  }

  lemma StepCheckBudget(w: Windows, s: Sys, p: RunId, c: ChunkId)
    requires p in s.procs && s.procs[p].Delivering? && c in s.db.chunks && s.db.chunks[c].delivery == s.procs[p].d
    requires !BudgetExhausted(s.db, s.procs[p].d, Some(c), POLICY, s.clock)
    ensures Step(w, s, CheckBudget(p, c, POLICY)) == Some(Goto(s, p, Cleared(s.procs[p].d, c)))
  {
    hide BudgetExhausted;
  }

  function Started(s: Sys, p: RunId, c: ChunkId): Sys
    requires c in s.db.chunks && s.db.chunks[c].delivery in s.db.deliveries
  {
    var row := s.db.chunks[c];
    var delivery := s.db.deliveries[row.delivery];
    s.(db := s.db.(
         chunks := s.db.chunks[c := row.(state := InFlight, attemptCount := 1, errorClass := "")],
         deliveries := s.db.deliveries[row.delivery := Observe(delivery.(state := Sending), s.clock)],
         attempts := s.db.attempts[Key(c, 1) := Attempt(row.delivery, p, s.clock, Open, None)]),
       procs := s.procs[p := Begun(row.delivery, c, 1)])
  }

  lemma StepBegin(w: Windows, s: Sys, p: RunId, c: ChunkId)
    requires c in s.db.chunks && s.db.chunks[c].delivery in s.db.deliveries && LeaseHeld(s.db.lease, p, s.clock)
    requires p in s.procs && s.procs[p] == Cleared(s.db.chunks[c].delivery, c)
    requires s.db.chunks[c].state == Pending && s.db.chunks[c].attemptCount == 0
    requires s.db.chunks[c].hash == Sha256(s.db.chunks[c].payload)
    requires !EarlierUnsent(s.db.chunks, s.db.chunks[c].delivery, s.db.chunks[c].sequence)
    requires s.db.deliveries[s.db.chunks[c].delivery].state == Prepared
    ensures Step(w, s, BeginSend(p)) == Some(Started(s, p, c))
  {
    hide EarlierUnsent;
  }

  lemma StepTransmit(w: Windows, s: Sys, p: RunId)
    requires p in s.procs && s.procs[p].Begun?
    ensures
      var pc := s.procs[p];
      Step(w, s, Transmit(p, true, Confirmed(5))) ==
      Some(Goto(s.(wire := s.wire + [Transmission(Key(pc.c, pc.number), true)]), p,
        Answered(pc.d, pc.c, pc.number, Confirmed(5))))
  {
  }

  /** The only chunk of a delivery with one story is confirmed. */
  function Done(s: Sys, p: RunId, d: DeliveryId, c: ChunkId, story: Story): Sys
    requires c in s.db.chunks && d in s.db.deliveries && Key(c, 1) in s.db.attempts
  {
    s.(db := s.db.(
         chunks := s.db.chunks[c := s.db.chunks[c].(
           state := Sent, nextAttemptAt := None, messageId := 5, errorClass := "", sentAt := Some(s.clock))],
         attempts := s.db.attempts[Key(c, 1) := s.db.attempts[Key(c, 1)].(outcome := Accepted,
           endedAt := Some(s.clock))],
         history := s.db.history + [HistoryRow(story.url, story.fingerprint, d, c, s.clock)],
         deliveries := s.db.deliveries[d :=
           Observe(s.db.deliveries[d], s.clock).(state := Completed, nextAttemptAt := None)]),
       procs := s.procs[p := Delivering(d)])
  }

  lemma Records(history: seq<HistoryRow>, story: Story, d: DeliveryId, c: ChunkId, at: Time)
    requires forall i :: 0 <= i < |history| ==> history[i].delivery != d
    ensures RecordHistory(history, [Item(story.fingerprint, story.url, 0)], d, c, 0, at) ==
      history + [HistoryRow(story.url, story.fingerprint, d, c, at)]
  {
    assert [Item(story.fingerprint, story.url, 0)][..0] == [];
  }

  lemma StepConfirm(w: Windows, s: Sys, p: RunId, d: DeliveryId, c: ChunkId, story: Story)
    requires p in s.procs && s.procs[p] == Answered(d, c, 1, Confirmed(5)) && LeaseHeld(s.db.lease, p, s.clock)
    requires c in s.db.chunks && d in s.db.deliveries && s.db.chunks[c].delivery == d && s.db.chunks[c].sequence == 0
    requires s.db.chunks[c].state == InFlight && s.db.chunks[c].attemptCount == 1
    requires Key(c, 1) in s.db.attempts && s.db.attempts[Key(c, 1)].delivery == d
    requires s.db.attempts[Key(c, 1)].run == p && s.db.attempts[Key(c, 1)].outcome == Open
    requires ItemsOf(s.db.items, d) == [Item(story.fingerprint, story.url, 0)]
    requires forall i :: 0 <= i < |s.db.history| ==> s.db.history[i].delivery != d
    requires forall x :: x in s.db.chunks && s.db.chunks[x].delivery == d ==> x == c
    ensures Step(w, s, FinishSend(p, true, POLICY, 0, NoError)) == Some(Done(s, p, d, c, story))
  {
    hide RecordHistory, Settle, BudgetExhausted;
    Records(s.db.history, story, d, c, s.clock);
    Settles(s.db, d, c, s.clock);
  }

  lemma Settles(db: Db, d: DeliveryId, c: ChunkId, now: Time)
    ensures Settle(db, d, c, 1, Confirmed(5), true, POLICY, now) == Accepted
  {
    hide BudgetExhausted;
  }

  lemma StepCrash(w: Windows, s: Sys, p: RunId)
    requires p in s.procs && s.procs[p] != Ended
    ensures Step(w, s, Crash(p)) == Some(Goto(s, p, Ended))
  {
  }

  lemma StepReturn(w: Windows, s: Sys, p: RunId)
    requires p in s.procs && s.procs[p] != Ended
    ensures Step(w, s, Return(p)) == Some(Goto(s, p, Releasing))
  {
  }

  lemma StepFail(w: Windows, s: Sys, p: RunId, pc: Pc, db: Db)
    requires p in s.procs && s.procs[p] == pc && HoldsDelivery(pc) && MayFail(s.db, pc, POLICY, s.clock)
    requires Fail(s.db, pc.d, p, s.clock) == Ok(db)
    ensures Step(w, s, FailNow(p, POLICY)) == Some(Goto(s.(db := db), p, Releasing))
  {
    hide MayFail, Fail;
  }

  lemma StepRelease(w: Windows, s: Sys, p: RunId)
    requires p in s.procs && s.procs[p] == Releasing && LeaseHeld(s.db.lease, p, s.clock)
    ensures Step(w, s, ReleaseLease(p)) == Some(Goto(s.(db := s.db.(lease := None)), p, Ended))
  {
  }

  // ----- stretches of a run

  lemma Extend(w: Windows, s: Sys, events: seq<Event>, t: Sys, e: Event, u: Sys) returns (more: seq<Event>)
    requires Run(w, s, events) == Some(t) && Step(w, t, e) == Some(u)
    ensures Run(w, s, more) == Some(u)
  {
    Then(w, s, events, t, e, u);
    more := events + [e];
  }

  /** Spawned on an idle store: recovery, the lease, recovery again, nothing to resume. */
  lemma Enters(w: Windows, s0: Sys, events: seq<Event>, s: Sys, p: RunId) returns (more: seq<Event>)
    requires Run(w, s0, events) == Some(s) && Idle(s) && p !in s.procs
    ensures Run(w, s0, more) == Some(Goto(Leased(s, p), p, Vacant))
  {
    hide Run, Step, Recover, NoActive;
    var unleased := s.(db := s.db.(lease := None));
    RecoversNothing(s.db, s.clock);
    StepSpawn(w, s, p);
    more := Extend(w, s0, events, s, Spawn(p), Goto(s, p, Opening));
    StepRecoverFirst(w, Goto(s, p, Opening), p);
    assert Goto(Goto(s, p, Opening).(db := unleased.db), p, Acquiring) == Goto(unleased, p, Acquiring);
    more := Extend(w, s0, more, Goto(s, p, Opening), RecoverFirst(p), Goto(unleased, p, Acquiring));
    StepAcquire(w, Goto(unleased, p, Acquiring), p);
    assert Goto(Leased(Goto(unleased, p, Acquiring), p), p, Rechecking) == Goto(Leased(s, p), p, Rechecking);
    more := Extend(w, s0, more, Goto(unleased, p, Acquiring), AcquireLease(p, TTL), Goto(Leased(s, p), p, Rechecking));
    StillNoActive(s.db, Some(Lease(p, s.clock + TTL)));
    more := FindsNothing(w, s0, more, Leased(s, p), p);
  }

  lemma StillNoActive(db: Db, lease: Option<Lease>)
    requires NoActive(db)
    ensures NoActive(db.(lease := lease))
  {
  }

  lemma FindsNothing(w: Windows, s0: Sys, events: seq<Event>, s: Sys, p: RunId) returns (more: seq<Event>)
    requires Run(w, s0, events) == Some(Goto(s, p, Rechecking)) && LeaseLive(s.db.lease, s.clock) && NoActive(s.db)
    ensures Run(w, s0, more) == Some(Goto(s, p, Vacant))
  {
    hide Run, Step, NoActive;
    StepRecoverAgain(w, Goto(s, p, Rechecking), p);
    assert Goto(Goto(s, p, Rechecking), p, Looking) == Goto(s, p, Looking);
    more := Extend(w, s0, events, Goto(s, p, Rechecking), RecoverAgain(p), Goto(s, p, Looking));
    StepLook(w, Goto(s, p, Looking), p, None);
    assert Goto(Goto(s, p, Looking), p, Vacant) == Goto(s, p, Vacant);
    more := Extend(w, s0, more, Goto(s, p, Looking), Look(p, None), Goto(s, p, Vacant));
  }

  /** A new delivery and its story chosen. */
  lemma Chooses(w: Windows, s0: Sys, events: seq<Event>, s: Sys, p: RunId, date: string, story: Story)
    returns (more: seq<Event>)
    requires Run(w, s0, events) == Some(Goto(s, p, Vacant)) && LeaseHeld(s.db.lease, p, s.clock)
    requires !GenerationTaken(s.db.deliveries, date, 0) && Unseen(w, s.db.history, story, s.clock)
    ensures Run(w, s0, more) == Some(Goto(Created(s, p, date), p, Chosen(s.db.nextDelivery, [story])))
  {
    hide Run, Step, GenerationTaken, Unseen;
    var created := Created(s, p, date);
    StepCreate(w, Goto(s, p, Vacant), p, date);
    assert Created(Goto(s, p, Vacant), p, date) == created;
    more := Extend(w, s0, events, Goto(s, p, Vacant), CreateDelivery(p, date, 0, POLICY, NotForced), created);
    StepSelect(w, created, p, [story]);
    more := Extend(w, s0, more, created, Select(p, [story]), Goto(created, p, Chosen(s.db.nextDelivery, [story])));
  }

  /** The chosen story's messages are frozen. */
  lemma Freezes(w: Windows, s0: Sys, events: seq<Event>, s: Sys, p: RunId, d: DeliveryId, story: Story,
                messages: seq<string>)
    returns (more: seq<Event>)
    requires Run(w, s0, events) == Some(Goto(s, p, Chosen(d, [story]))) && LeaseHeld(s.db.lease, p, s.clock)
    requires d in s.db.deliveries && s.db.deliveries[d].state == Collecting && s.db.deliveries[d].target == ""
    requires ItemsOf(s.db.items, d) == [] && !HasChunks(s.db.chunks, d)
    requires messages != [] && forall i :: 0 <= i < |messages| ==> messages[i] != ""
    ensures Run(w, s0, more) == Some(Frozen(s, p, d, story, messages))
  {
    hide Run, Step, HasChunks, FreshChunks;
    var chosen := Goto(s, p, Chosen(d, [story]));
    StepPrepare(w, chosen, p, d, story, messages);
    assert Frozen(chosen, p, d, story, messages) == Frozen(s, p, d, story, messages);
    more := Extend(w, s0, events, chosen, PrepareOutbox(p, messages, map[], "chat"), Frozen(s, p, d, story, messages));
  }

  /** A pending chunk of the process's delivery that may begin now. */
  ghost predicate Startable(s: Sys, p: RunId, c: ChunkId) {
    && c in s.db.chunks && s.db.chunks[c].delivery in s.db.deliveries && LeaseHeld(s.db.lease, p, s.clock)
    && p in s.procs && s.procs[p] == Delivering(s.db.chunks[c].delivery)
    && s.db.chunks[c].state == Pending && s.db.chunks[c].attemptCount == 0 &&
       s.db.chunks[c].hash == Sha256(s.db.chunks[c].payload)
    && !EarlierUnsent(s.db.chunks, s.db.chunks[c].delivery, s.db.chunks[c].sequence)
    && s.db.deliveries[s.db.chunks[c].delivery].state == Prepared
    && !BudgetExhausted(s.db, s.db.chunks[c].delivery, Some(c), POLICY, s.clock)
  }

  lemma Begins(w: Windows, s0: Sys, events: seq<Event>, s: Sys, p: RunId, c: ChunkId) returns (more: seq<Event>)
    requires Run(w, s0, events) == Some(s) && Startable(s, p, c)
    ensures Run(w, s0, more) == Some(Started(s, p, c))
  {
    hide Run, Step, EarlierUnsent, BudgetExhausted;
    var cleared := Goto(s, p, Cleared(s.db.chunks[c].delivery, c));
    StepCheckBudget(w, s, p, c);
    more := Extend(w, s0, events, s, CheckBudget(p, c, POLICY), cleared);
    StepBegin(w, cleared, p, c);
    assert Started(cleared, p, c) == Started(s, p, c);
    more := Extend(w, s0, more, cleared, BeginSend(p), Started(s, p, c));
  }

  /** The process's begun chunk is the only one of its delivery, which holds one story, unrecorded. */
  ghost predicate Deliverable(s: Sys, p: RunId, d: DeliveryId, c: ChunkId, story: Story) {
    && p in s.procs && s.procs[p] == Begun(d, c, 1) && LeaseHeld(s.db.lease, p, s.clock)
    && c in s.db.chunks && d in s.db.deliveries && s.db.chunks[c].delivery == d && s.db.chunks[c].sequence == 0
    && s.db.chunks[c].state == InFlight && s.db.chunks[c].attemptCount == 1
    && Key(c, 1) in s.db.attempts && s.db.attempts[Key(c, 1)].delivery == d
    && s.db.attempts[Key(c, 1)].run == p && s.db.attempts[Key(c, 1)].outcome == Open
    && ItemsOf(s.db.items, d) == [Item(story.fingerprint, story.url, 0)]
    && (forall i :: 0 <= i < |s.db.history| ==> s.db.history[i].delivery != d)
    && (forall x :: x in s.db.chunks && s.db.chunks[x].delivery == d ==> x == c)
  }

  /** The begun chunk is transmitted and confirmed, which completes its delivery. */
  lemma Delivers(w: Windows, s0: Sys, events: seq<Event>, s: Sys, p: RunId, d: DeliveryId, c: ChunkId, story: Story)
    returns (more: seq<Event>)
    requires Run(w, s0, events) == Some(s) && Deliverable(s, p, d, c, story)
    ensures Run(w, s0, more) == Some(Done(s.(wire := s.wire + [Transmission(Key(c, 1), true)]), p, d, c, story))
  {
    hide Run, Step;
    var answered := Goto(s.(wire := s.wire + [Transmission(Key(c, 1), true)]), p, Answered(d, c, 1, Confirmed(5)));
    StepTransmit(w, s, p);
    more := Extend(w, s0, events, s, Transmit(p, true, Confirmed(5)), answered);
    StepConfirm(w, answered, p, d, c, story);
    var done := Done(answered, p, d, c, story);
    assert done == Done(s.(wire := s.wire + [Transmission(Key(c, 1), true)]), p, d, c, story);
    more := Extend(w, s0, more, answered, FinishSend(p, true, POLICY, 0, NoError), done);
  }

  /** The process returns and gives its lease back. */
  lemma Leaves(w: Windows, s0: Sys, events: seq<Event>, s: Sys, p: RunId) returns (more: seq<Event>)
    requires Run(w, s0, events) == Some(s) && p in s.procs && s.procs[p] != Ended && LeaseHeld(s.db.lease, p, s.clock)
    ensures Run(w, s0, more) == Some(Goto(s.(db := s.db.(lease := None)), p, Ended))
  {
    hide Run, Step;
    StepReturn(w, s, p);
    more := Extend(w, s0, events, s, Return(p), Goto(s, p, Releasing));
    StepRelease(w, Goto(s, p, Releasing), p);
    var left := Goto(s.(db := s.db.(lease := None)), p, Ended);
    assert Goto(Goto(s, p, Releasing).(db := s.db.(lease := None)), p, Ended) == left;
    more := Extend(w, s0, more, Goto(s, p, Releasing), ReleaseLease(p), left);
  }

  // ----- a whole run

  /** The next ids are unused. */
  ghost predicate FreshIds(db: Db) {
    var d := db.nextDelivery;
    && d !in db.deliveries && d !in db.items && !HasChunks(db.chunks, d) && db.nextChunk !in db.chunks
    && (forall i :: 0 <= i < |db.history| ==> db.history[i].delivery != d)
  }

  /** What a run that delivers one story in one message has made of an idle state. */
  ghost predicate OneMoreDelivered(s: Sys, t: Sys, p: RunId, date: string, story: Story, text: string) {
    var d, c := s.db.nextDelivery, s.db.nextChunk;
    && t.clock == s.clock && t.reopened == s.reopened && t.procs == s.procs[p := Ended] && t.db.lease == None
    && t.wire == s.wire + [Transmission(Key(c, 1), true)]
    && c in t.db.chunks && t.db.chunks == s.db.chunks[c := t.db.chunks[c]]
    && t.db.chunks[c].delivery == d && t.db.chunks[c].state == Sent && t.db.chunks[c].payload == text
    && d in t.db.deliveries && t.db.deliveries == s.db.deliveries[d := t.db.deliveries[d]]
    && t.db.deliveries[d].state == Completed && t.db.deliveries[d].date == date
    && t.db.history == s.db.history + [HistoryRow(story.url, story.fingerprint, d, c, s.clock)]
    && t.db.items == s.db.items[d := [Item(story.fingerprint, story.url, 0)]]
    && t.db.nextDelivery == d + 1 && t.db.nextChunk == c + 1
  }

  /** The state once the story's only chunk is frozen. */
  function Ready(s: Sys, p: RunId, date: string, story: Story, text: string): Sys {
    Frozen(Created(Leased(s, p), p, date), p, s.db.nextDelivery, story, [text])
  }

  /** The frozen chunk is the delivery's only one. */
  lemma ReadyChunks(s: Sys, p: RunId, date: string, story: Story, text: string)
    requires FreshIds(s.db)
    ensures
      var t, d, c := Ready(s, p, date, story, text), s.db.nextDelivery, s.db.nextChunk;
      && t.db.chunks == s.db.chunks[c := FreshChunk(d, 0, text)]
      && forall x :: x in t.db.chunks && t.db.chunks[x].delivery == d ==> x == c
  {
    OneFresh(s.db.chunks, s.db.nextDelivery, text, s.db.nextChunk);
    hide FreshChunks, FreshChunk;
    NoneBefore(s.db.chunks, s.db.nextDelivery);
  }

  lemma OneFresh(chunks: map<ChunkId, Chunk>, d: DeliveryId, text: string, c: ChunkId)
    ensures chunks + FreshChunks(d, [text], c) == chunks[c := FreshChunk(d, 0, text)]
  {
    assert FreshChunks(d, [text], c) == map[c := FreshChunk(d, 0, text)];
  }

  lemma NoneBefore(chunks: map<ChunkId, Chunk>, d: DeliveryId)
    requires !HasChunks(chunks, d)
    ensures forall x :: x in chunks ==> chunks[x].delivery != d
  {
  }

  lemma ReadyStarts(s: Sys, p: RunId, date: string, story: Story, text: string)
    requires FreshIds(s.db)
    ensures Startable(Ready(s, p, date, story, text), p, s.db.nextChunk)
  {
    ReadyChunks(s, p, date, story, text);
    hide FreshChunks, HasChunks;
  }

  lemma StartedDelivers(s: Sys, p: RunId, date: string, story: Story, text: string)
    requires FreshIds(s.db)
    ensures Startable(Ready(s, p, date, story, text), p, s.db.nextChunk)
    ensures Deliverable(Started(Ready(s, p, date, story, text), p, s.db.nextChunk), p, s.db.nextDelivery,
      s.db.nextChunk, story)
  {
    ReadyStarts(s, p, date, story, text);
    ReadyChunks(s, p, date, story, text);
    hide FreshChunks, HasChunks, BudgetExhausted, EarlierUnsent;
  }

  /** The state after the delivery, its process gone. */
  ghost function Delivered(s: Sys, p: RunId, date: string, story: Story, text: string): Sys
    requires FreshIds(s.db)
  {
    var d, c := s.db.nextDelivery, s.db.nextChunk;
    StartedDelivers(s, p, date, story, text);
    var started := Started(Ready(s, p, date, story, text), p, c);
    var done := Done(started.(wire := started.wire + [Transmission(Key(c, 1), true)]), p, d, c, story);
    Goto(done.(db := done.db.(lease := None)), p, Ended)
  }

  /** What the frozen state has kept and changed of the idle one. */
  lemma ReadyIs(s: Sys, p: RunId, date: string, story: Story, text: string)
    requires FreshIds(s.db)
    ensures
      var d, c := s.db.nextDelivery, s.db.nextChunk;
      var t := Ready(s, p, date, story, text);
      && t.clock == s.clock && t.reopened == s.reopened && t.procs == s.procs[p := Delivering(d)] && t.wire == s.wire
      && t.db.chunks == s.db.chunks[c := FreshChunk(d, 0, text)]
      && d in t.db.deliveries && t.db.deliveries == s.db.deliveries[d := t.db.deliveries[d]]
      && t.db.deliveries[d].date == date && t.db.history == s.db.history
      && t.db.items == s.db.items[d := [Item(story.fingerprint, story.url, 0)]]
      && t.db.nextDelivery == d + 1 && t.db.nextChunk == c + 1
  {
    ReadyChunks(s, p, date, story, text);
    hide FreshChunks, HasChunks, FreshIds;
  }

  /** Beginning, whatever the frozen state. */
  lemma StartedFrom(t: Sys, p: RunId, c: ChunkId)
    requires c in t.db.chunks && t.db.chunks[c].delivery in t.db.deliveries
    ensures
      var d := t.db.chunks[c].delivery;
      var u := Started(t, p, c);
      && u.clock == t.clock && u.reopened == t.reopened && u.procs == t.procs[p := Begun(d, c, 1)] && u.wire == t.wire
      && u.db.chunks == t.db.chunks[c := t.db.chunks[c].(state := InFlight, attemptCount := 1, errorClass := "")]
      && d in u.db.deliveries && u.db.deliveries == t.db.deliveries[d := u.db.deliveries[d]]
      && u.db.deliveries[d].date == t.db.deliveries[d].date && u.db.history == t.db.history
      && u.db.items == t.db.items && u.db.nextDelivery == t.db.nextDelivery && u.db.nextChunk == t.db.nextChunk &&
         Key(c, 1) in u.db.attempts
  {
  }

  /** What the begun state has kept and changed of the idle one. */
  lemma StartedIs(s: Sys, p: RunId, date: string, story: Story, text: string)
    requires FreshIds(s.db)
    ensures Startable(Ready(s, p, date, story, text), p, s.db.nextChunk)
    ensures
      var d, c := s.db.nextDelivery, s.db.nextChunk;
      var t := Started(Ready(s, p, date, story, text), p, c);
      && t.clock == s.clock && t.reopened == s.reopened && t.procs == s.procs[p := Begun(d, c, 1)] && t.wire == s.wire
      && t.db.chunks == s.db.chunks[c := FreshChunk(d, 0, text).(state := InFlight, attemptCount := 1)]
      && d in t.db.deliveries && t.db.deliveries == s.db.deliveries[d := t.db.deliveries[d]]
      && t.db.deliveries[d].date == date && t.db.history == s.db.history
      && t.db.items == s.db.items[d := [Item(story.fingerprint, story.url, 0)]]
      && t.db.nextDelivery == d + 1 && t.db.nextChunk == c + 1 && Key(c, 1) in t.db.attempts
  {
    var d, c := s.db.nextDelivery, s.db.nextChunk;
    StartedDelivers(s, p, date, story, text);
    ReadyIs(s, p, date, story, text);
    hide Ready, Started, Startable, Deliverable, FreshIds;
    var ready := Ready(s, p, date, story, text);
    StartedFrom(ready, p, c);
    var t := Started(ready, p, c);
    Overwrite(s.procs, p, Delivering(d), Begun(d, c, 1));
    Overwrite(s.db.chunks, c, ready.db.chunks[c], t.db.chunks[c]);
    Overwrite(s.db.deliveries, d, ready.db.deliveries[d], t.db.deliveries[d]);
  }

  /** Confirming and leaving, whatever the begun state. */
  lemma LeftIs(t: Sys, p: RunId, d: DeliveryId, c: ChunkId, story: Story)
    requires c in t.db.chunks && d in t.db.deliveries && Key(c, 1) in t.db.attempts
    ensures
      var done := Done(t.(wire := t.wire + [Transmission(Key(c, 1), true)]), p, d, c, story);
      var u := Goto(done.(db := done.db.(lease := None)), p, Ended);
      && u.clock == t.clock && u.reopened == t.reopened && u.procs == t.procs[p := Ended] && u.db.lease == None
      && u.wire == t.wire + [Transmission(Key(c, 1), true)]
      && c in u.db.chunks && u.db.chunks == t.db.chunks[c := u.db.chunks[c]] && u.db.chunks[c].state == Sent
      && u.db.chunks[c].delivery == t.db.chunks[c].delivery && u.db.chunks[c].payload == t.db.chunks[c].payload
      && d in u.db.deliveries && u.db.deliveries == t.db.deliveries[d := u.db.deliveries[d]]
      && u.db.deliveries[d].state == Completed && u.db.deliveries[d].date == t.db.deliveries[d].date
      && u.db.history == t.db.history + [HistoryRow(story.url, story.fingerprint, d, c, t.clock)]
      && u.db.items == t.db.items && u.db.nextDelivery == t.db.nextDelivery && u.db.nextChunk == t.db.nextChunk
  {
  }

  lemma Overwrite<V>(m: map<int, V>, k: int, a: V, b: V)
    ensures m[k := a][k := b] == m[k := b]
  {
  }

  lemma DeliveredIs(s: Sys, p: RunId, date: string, story: Story, text: string)
    requires FreshIds(s.db)
    ensures OneMoreDelivered(s, Delivered(s, p, date, story, text), p, date, story, text)
  {
    hide Ready, Started, Done, Goto, HasChunks, Deliverable, FreshIds, BudgetExhausted, EarlierUnsent;
    var d, c := s.db.nextDelivery, s.db.nextChunk;
    StartedIs(s, p, date, story, text);
    var t, u := Started(Ready(s, p, date, story, text), p, c), Delivered(s, p, date, story, text);
    LeftIs(t, p, d, c, story);
    hide Delivered, Startable;
    Overwrite(s.db.chunks, c, t.db.chunks[c], u.db.chunks[c]);
    Overwrite(s.db.deliveries, d, t.db.deliveries[d], u.db.deliveries[d]);
    Overwrite(s.procs, p, Begun(d, c, 1), Ended);
  }

  /** From any idle state with unused ids, one story is delivered. */
  lemma DeliversOneMore(w: Windows, s0: Sys, events: seq<Event>, s: Sys, p: RunId, date: string, story: Story,
                        text: string)
    returns (more: seq<Event>, t: Sys)
    requires Run(w, s0, events) == Some(s) && Idle(s) && FreshIds(s.db) && p !in s.procs && text != ""
    requires !GenerationTaken(s.db.deliveries, date, 0) && Unseen(w, s.db.history, story, s.clock)
    ensures Run(w, s0, more) == Some(t) && OneMoreDelivered(s, t, p, date, story, text)
  {
    hide Run, GenerationTaken, Unseen, Idle, Startable, OneMoreDelivered, Deliverable, HasChunks;
    var d, c := s.db.nextDelivery, s.db.nextChunk;
    more := Enters(w, s0, events, s, p);
    more := Chooses(w, s0, more, Leased(s, p), p, date, story);
    more := Freezes(w, s0, more, Created(Leased(s, p), p, date), p, d, story, [text]);
    StartedDelivers(s, p, date, story, text);
    var ready := Ready(s, p, date, story, text);
    more := Begins(w, s0, more, ready, p, c);
    more := Finishes(w, s0, more, s, p, date, story, text);
    t := Delivered(s, p, date, story, text);
    DeliveredIs(s, p, date, story, text);
  }

  lemma Finishes(w: Windows, s0: Sys, events: seq<Event>, s: Sys, p: RunId, date: string, story: Story, text: string)
    returns (more: seq<Event>)
    requires FreshIds(s.db) && Startable(Ready(s, p, date, story, text), p, s.db.nextChunk)
    requires Run(w, s0, events) == Some(Started(Ready(s, p, date, story, text), p, s.db.nextChunk))
    ensures Run(w, s0, more) == Some(Delivered(s, p, date, story, text))
  {
    hide Run, FreshChunks, HasChunks;
    var d, c := s.db.nextDelivery, s.db.nextChunk;
    var started := Started(Ready(s, p, date, story, text), p, c);
    StartedDelivers(s, p, date, story, text);
    more := Delivers(w, s0, events, started, p, d, c, story);
    var done := Done(started.(wire := started.wire + [Transmission(Key(c, 1), true)]), p, d, c, story);
    more := Leaves(w, s0, more, done, p);
  }

  const FIRST_DAY := "2024-01-01"

  /** From an empty store, one story is delivered. */
  lemma DeliversFirst(w: Windows, s: Sys, story: Story, text: string) returns (events: seq<Event>, t: Sys)
    requires Init(s) && text != ""
    ensures Run(w, s, events) == Some(t) && OneMoreDelivered(s, t, 7, FIRST_DAY, story, text)
  {
    Nothing(w, s);
    assert Idle(s) && FreshIds(s.db) && Unseen(w, s.db.history, story, s.clock);
    assert !GenerationTaken(s.db.deliveries, FIRST_DAY, 0);
    hide Run, Idle, FreshIds, GenerationTaken, Unseen, OneMoreDelivered;
    events, t := DeliversOneMore(w, s, [], s, 7, FIRST_DAY, story, text);
  }

  /** A complete run: from an empty store, one story ends up sent, recorded and its delivery completed. */
  lemma SomeRunDelivers(w: Windows, s: Sys, story: Story, text: string) returns (events: seq<Event>, t: Sys)
    requires Init(s) && text != ""
    ensures Run(w, s, events) == Some(t)
    ensures t.db.chunks.Keys == {1} && t.db.chunks[1].state == Sent && t.db.chunks[1].payload == text
    ensures t.db.deliveries.Keys == {1} && t.db.deliveries[1].state == Completed
    ensures t.db.history == [HistoryRow(story.url, story.fingerprint, 1, 1, s.clock)]
    ensures t.wire == [Transmission(Key(1, 1), true)]
  {
    hide Run;
    events, t := DeliversFirst(w, s, story, text);
  }
}
