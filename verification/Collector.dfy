/**
 * The scheduler of collect_all: jobs wait, run in bounded numbers per host and
 * in all, and finish with one verdict each.  Processes, pipes and the clock are
 * the world's.
 */
module Collector {
  import opened Wrappers
  import opened Ordering
  import opened Ranking

  datatype Job = Job(id: string, host: string)

  datatype Verdict = Collected(data: string) | SourceFailed(reason: string)

  /** What the parent finds when it looks at a worker. */
  datatype Report =
    | Silent(alive: bool)
    | Delivered(data: string)
    | Excepted(reason: string)
    | Unusable(reason: string)
    | MemoryFault

  /**
   * How long each step takes, what each start and each look finds, and whether a
   * worker can be reaped, call by call.
   */
  datatype World = World(elapsed: nat -> nat, startFails: nat -> bool, look: nat -> Report, reaps: nat -> bool)

  /** Within the first `calls` calls a worker exhausted memory or could not be reaped. */
  ghost predicate Trouble(world: World, calls: nat) {
    exists k: nat :: k <= calls && (world.look(k) == MemoryFault || !world.reaps(k))
  }

  datatype Worker = Worker(job: nat, host: string, startedAt: int)

  const PER_HOST: nat := 2
  const MOST_WORKERS: nat := 10
  const PAUSE: int := 20

  function Least(a: int, b: int): int {
    if a <= b then a else b
  }

  function Most(a: int, b: int): int {
    if a >= b then a else b
  }

  ghost function OnHost(active: map<nat, Worker>, host: string): set<nat> {
    set p | p in active && active[p].host == host
  }

  function CountOn(counts: map<string, int>, host: string): int {
    if host in counts then counts[host] else 0
  }

  lemma WorkerAdded(active: map<nat, Worker>, p: nat, worker: Worker, host: string)
    requires p !in active
    ensures |OnHost(active[p := worker], host)| == |OnHost(active, host)| + if worker.host == host then 1 else 0
    ensures |active[p := worker]| == |active| + 1
  {
    var grown := OnHost(active[p := worker], host);
    if worker.host == host {
      assert grown == OnHost(active, host) + {p};
    } else {
      assert grown == OnHost(active, host);
    }
  }

  lemma WorkerRemoved(active: map<nat, Worker>, p: nat, host: string)
    requires p in active
    ensures |OnHost(active - {p}, host)| == |OnHost(active, host)| - if active[p].host == host then 1 else 0
    ensures |active - {p}| == |active| - 1
  {
    assert active == (active - {p})[p := active[p]];
    WorkerAdded(active - {p}, p, active[p], host);
  }

  // ----- what the scheduler keeps

  ghost predicate Running(active: map<nat, Worker>, j: nat) {
    exists p :: p in active && active[p].job == j
  }

  ghost predicate DistinctIds(jobs: seq<Job>) {
    forall i, j :: 0 <= i < j < |jobs| ==> jobs[i].id != jobs[j].id
  }

  /**
   * The jobs waiting, running and finished are all the jobs, each once; the
   * finished ones have a verdict under their id, their own if ids are distinct.
   */
  ghost predicate Conserved(jobs: seq<Job>, pending: seq<nat>, active: map<nat, Worker>, done: map<nat, Verdict>,
                            results: map<string, Verdict>)
  {
    && (forall i :: 0 <= i < |pending| ==> pending[i] < |jobs| && pending[i] !in done && !Running(active, pending[i]))
    && (forall i, j :: 0 <= i < j < |pending| ==> pending[i] != pending[j])
    && (forall p :: p in active ==> active[p].job < |jobs| && active[p].job !in done)
    && (forall p, q :: p in active && q in active && p != q ==> active[p].job != active[q].job)
    && (forall j :: j in done ==>
          j < |jobs| && jobs[j].id in results && (DistinctIds(jobs) ==> results[jobs[j].id] == done[j]))
    && (forall j: nat :: j < |jobs| ==> j in pending || j in done || Running(active, j))
  }

  /** The host counters are the true numbers, within both bounds. */
  ghost predicate Bounded(jobs: seq<Job>, active: map<nat, Worker>, counts: map<string, int>, started: nat,
                          maxWorkers: nat)
  {
    && (forall h :: CountOn(counts, h) == |OnHost(active, h)| <= PER_HOST)
    && |active| <= maxWorkers <= MOST_WORKERS && maxWorkers >= 1
    && (forall p :: p in active ==> p < started && active[p].job < |jobs| && active[p].host == jobs[active[p].job].host)
  }

  function Without(pending: seq<nat>, index: nat): seq<nat>
    requires index < |pending|
  {
    pending[..index] + pending[index + 1..]
  }

  lemma WithoutIs(pending: seq<nat>, index: nat)
    requires index < |pending| && forall i, j :: 0 <= i < j < |pending| ==> pending[i] != pending[j]
    ensures
      var rest := Without(pending, index);
      && |rest| == |pending| - 1
      && (forall i, j :: 0 <= i < j < |rest| ==> rest[i] != rest[j])
      && (forall x :: x in rest <==> x in pending && x != pending[index])
  {
    var rest := Without(pending, index);
    forall x | x in pending && x != pending[index] ensures x in rest {
      var k :| 0 <= k < |pending| && pending[k] == x;
      assert if k < index then rest[k] == x else rest[k - 1] == x;
    }
  }

  /** A waiting job becomes a running one. */
  lemma JobStarts(jobs: seq<Job>, pending: seq<nat>, active: map<nat, Worker>, done: map<nat, Verdict>,
                  results: map<string, Verdict>, index: nat, p: nat, worker: Worker)
    requires Conserved(jobs, pending, active, done, results)
    requires index < |pending| && p !in active && worker.job == pending[index]
    ensures Conserved(jobs, Without(pending, index), active[p := worker], done, results)
  {
    WithoutIs(pending, index);
    var rest, active' := Without(pending, index), active[p := worker];
    RunningGrows(active, p, worker);
    forall q | q in active ensures active[q].job != worker.job {
      assert Running(active, active[q].job);
    }
    hide Running, Without;
    forall i | 0 <= i < |rest| ensures rest[i] < |jobs| && rest[i] !in done && !Running(active', rest[i]) {
      assert rest[i] in rest;
      var k :| 0 <= k < |pending| && pending[k] == rest[i];
    }
  }

  lemma RunningGrows(active: map<nat, Worker>, p: nat, worker: Worker)
    requires p !in active
    ensures forall j :: Running(active[p := worker], j) <==> Running(active, j) || j == worker.job
  {
    var active' := active[p := worker];
    forall j ensures Running(active', j) <==> Running(active, j) || j == worker.job {
      if Running(active, j) {
        var q :| q in active && active[q].job == j;
        assert active'[q].job == j;
      }
      if j == worker.job {
        assert active'[p].job == j;
      }
    }
  }

  /** A waiting job is finished without running. */
  lemma JobRefused(jobs: seq<Job>, pending: seq<nat>, active: map<nat, Worker>, done: map<nat, Verdict>,
                   results: map<string, Verdict>, index: nat, verdict: Verdict)
    requires Conserved(jobs, pending, active, done, results) && index < |pending|
    ensures Conserved(jobs, Without(pending, index), active, done[pending[index] := verdict],
      results[jobs[pending[index]].id := verdict])
  {
    WithoutIs(pending, index);
    var rest := Without(pending, index);
    forall i | 0 <= i < |rest|
      ensures rest[i] < |jobs| && rest[i] !in done[pending[index] := verdict] && !Running(active, rest[i])
    {
      assert rest[i] in rest;
      var k :| 0 <= k < |pending| && pending[k] == rest[i];
    }
    forall p | p in active ensures active[p].job != pending[index] {
      assert Running(active, active[p].job);
    }
  }

  /** A running job is finished. */
  lemma JobFinishes(jobs: seq<Job>, pending: seq<nat>, active: map<nat, Worker>, done: map<nat, Verdict>,
                    results: map<string, Verdict>, p: nat, verdict: Verdict)
    requires Conserved(jobs, pending, active, done, results) && p in active
    ensures Conserved(jobs, pending, active - {p}, done[active[p].job := verdict],
      results[jobs[active[p].job].id := verdict])
  {
    var active', done' := active - {p}, done[active[p].job := verdict];
    assert Running(active, active[p].job);
    forall i | 0 <= i < |pending| ensures pending[i] !in done' && !Running(active', pending[i]) {
      assert !Running(active, pending[i]);
      assert forall q :: q in active' ==> q in active && active'[q] == active[q];
    }
    forall j: nat | j < |jobs| ensures j in pending || j in done' || Running(active', j) {
      if Running(active, j) && j != active[p].job {
        var q :| q in active && active[q].job == j;
        assert active'[q].job == j;
      }
    }
  }

  lemma WorkerCounted(jobs: seq<Job>, active: map<nat, Worker>, counts: map<string, int>, started: nat, maxWorkers: nat,
                      worker: Worker)
    requires Bounded(jobs, active, counts, started, maxWorkers) && |active| < maxWorkers
    requires worker.job < |jobs| && worker.host == jobs[worker.job].host && CountOn(counts, worker.host) < PER_HOST
    ensures started !in active
    ensures Bounded(jobs, active[started := worker], counts[worker.host := CountOn(counts, worker.host) + 1],
      started + 1, maxWorkers)
  {
    WorkerAdded(active, started, worker, worker.host);
    var active', counts' := active[started := worker], counts[worker.host := CountOn(counts, worker.host) + 1];
    forall h ensures CountOn(counts', h) == |OnHost(active', h)| <= PER_HOST {
      WorkerAdded(active, started, worker, h);
      assert CountOn(counts, h) == |OnHost(active, h)| <= PER_HOST;
    }
  }

  lemma WorkerDiscounted(jobs: seq<Job>, active: map<nat, Worker>, counts: map<string, int>, started: nat,
                         maxWorkers: nat, p: nat)
    requires Bounded(jobs, active, counts, started, maxWorkers) && p in active
    ensures
      var host := active[p].host;
      Bounded(jobs, active - {p}, counts[host := CountOn(counts, host) - 1], started, maxWorkers)
  {
    var host := active[p].host;
    WorkerRemoved(active, p, host);
    var active', counts' := active - {p}, counts[host := CountOn(counts, host) - 1];
    forall h ensures CountOn(counts', h) == |OnHost(active', h)| <= PER_HOST {
      WorkerRemoved(active, p, h);
      assert CountOn(counts, h) == |OnHost(active, h)| <= PER_HOST;
    }
  }

  lemma AllWaiting(jobs: seq<Job>, pending: seq<nat>)
    requires |pending| == |jobs| && forall i :: 0 <= i < |pending| ==> pending[i] == i
    ensures Conserved(jobs, pending, map[], map[], map[])
  {
    forall j: nat | j < |jobs| ensures j in pending {
      assert pending[j] == j;
    }
  }

  class Scheduler {
    const jobs: seq<Job>
    const world: World
    const deadline: int
    const sourceDeadline: int
    const maxWorkers: nat
    var pending: seq<nat>
    var active: map<nat, Worker>
    var hostActive: map<string, int>
    var results: map<string, Verdict>
    var started: nat
    var now: int
    var calls: nat
    /** The jobs that have their verdict, with it. */
    ghost var done: map<nat, Verdict>

    constructor (jobs: seq<Job>, world: World, now: int, cycleDeadline: int, sourceDeadline: int)
      ensures this.jobs == jobs && Valid() && done == map[]
    {
      this.jobs, this.world, this.now := jobs, world, now;
      this.deadline, this.sourceDeadline := now + cycleDeadline, sourceDeadline;
      maxWorkers := Least(MOST_WORKERS, Most(1, |jobs|));
      pending := seq(|jobs|, i => i);
      active, hostActive, results, started, calls, done := map[], map[], map[], 0, 0, map[];
      new;
      AllWaiting(this.jobs, pending);
      assert forall h :: OnHost(active, h) == {};
    }

    ghost predicate Valid()
      reads this
    {
      Conserved(jobs, pending, active, done, results) && Bounded(jobs, active, hostActive, started, maxWorkers)
    }

    /** No waiting job could run now. */
    ghost predicate Saturated()
      reads this
    {
      || |active| >= maxWorkers || now >= deadline
      || forall i :: 0 <= i < |pending| ==>
         pending[i] < |jobs| && CountOn(hostActive, jobs[pending[i]].host) >= PER_HOST
    }

    /** Running jobs count once, waiting jobs twice: what starting, refusing and finishing all lower. */
    ghost function Work(): nat
      reads this
    {
      2 * |pending| + |active|
    }

    method Clock() returns (time: int)
      modifies this`now, this`calls
      ensures now >= old(now) && time == now && calls > old(calls)
    {
      now, calls := now + world.elapsed(calls), calls + 1;
      return now;
    }

    /** Starts waiting jobs while a slot is free and some host has room. */
    method StartEligible()
      requires Valid()
      modifies this`pending, this`active, this`hostActive, this`results, this`started, this`now, this`calls, this`done
      ensures Valid() && Saturated() && now >= old(now) && Work() <= old(Work())
    {
      hide Conserved, Bounded;
      var startedOne := true;
      var time := Clock();
      while pending != [] && |active| < maxWorkers && startedOne && time < deadline
        invariant Valid() && time == now >= old(now) && Work() <= old(Work())
        invariant !startedOne ==>
          forall i :: 0 <= i < |pending| ==>
            pending[i] < |jobs| && CountOn(hostActive, jobs[pending[i]].host) >= PER_HOST
        decreases |pending|, startedOne
      {
        startedOne := StartOne();
        time := Clock();
      }
    }

    /** The first waiting job whose host has room is started, or fails to start. */
    method StartOne() returns (startedOne: bool)
      requires Valid() && |active| < maxWorkers
      modifies this`pending, this`active, this`hostActive, this`results, this`started, this`calls, this`done
      ensures Valid() && Work() <= old(Work())
      ensures startedOne ==> |pending| < |old(pending)|
      ensures !startedOne ==> pending == old(pending) && active == old(active)
      ensures !startedOne ==>
        forall i :: 0 <= i < |pending| ==> pending[i] < |jobs| && CountOn(hostActive, jobs[pending[i]].host) >= PER_HOST
    {
      assert forall i :: 0 <= i < |pending| ==> pending[i] < |jobs|;
      hide Conserved, Bounded;
      var index := 0;
      while index < |pending|
        invariant index <= |pending|
        invariant forall i :: 0 <= i < index ==> CountOn(hostActive, jobs[pending[i]].host) >= PER_HOST
      {
        if CountOn(hostActive, jobs[pending[index]].host) < PER_HOST {
          Launch(index);
          return true;
        }
        index := index + 1;
      }
      return false;
    }

    /** Takes the job out of the queue and starts its worker. */
    method Launch(index: nat)
      requires Valid() && |active| < maxWorkers && index < |pending| && pending[index] < |jobs|
      requires CountOn(hostActive, jobs[pending[index]].host) < PER_HOST
      modifies this`pending, this`active, this`hostActive, this`results, this`started, this`calls, this`done
      ensures Valid() && |pending| == |old(pending)| - 1 && Work() < old(Work())
    {
      hide Conserved, Bounded;
      var j := pending[index];
      var worker := Worker(j, jobs[j].host, now);
      calls := calls + 1;
      if world.startFails(calls) {
        JobRefused(jobs, pending, active, done, results, index, SourceFailed("process_start_failed"));
        results := results[jobs[j].id := SourceFailed("process_start_failed")];
        done := done[j := SourceFailed("process_start_failed")];
      } else {
        WorkerCounted(jobs, active, hostActive, started, maxWorkers, worker);
        JobStarts(jobs, pending, active, done, results, index, started, worker);
        active := active[started := worker];
        hostActive := hostActive[worker.host := CountOn(hostActive, worker.host) + 1];
        started := started + 1;
      }
      pending := pending[..index] + pending[index + 1..];
    }

    /** Terminates and joins a worker; false if it outlives even that. */
    method Reap() returns (reaped: bool)
      modifies this`calls
      ensures calls == old(calls) + 1 && reaped == world.reaps(calls)
    {
      calls := calls + 1;
      return world.reaps(calls);
    }

    /** Looks at every worker once; those that are through leave with a verdict. */
    method Poll() returns (progressed: bool, fault: bool)
      requires Valid()
      modifies this`active, this`hostActive, this`results, this`now, this`calls, this`done
      ensures !fault ==> Valid()
      ensures now >= old(now) && calls >= old(calls) && (fault ==> Trouble(world, calls))
      ensures Work() <= old(Work()) && (progressed && !fault ==> Work() < old(Work()))
    {
      hide Conserved, Bounded, Trouble;
      progressed, fault := false, false;
      var last := started;
      var p := 0;
      while p < last
        invariant p <= last && Valid() && pending == old(pending) && now >= old(now) && calls >= old(calls)
        invariant |active| <= |old(active)| && (progressed ==> |active| < |old(active)|)
      {
        if p in active {
          var through;
          through, fault := Visit(p);
          if fault {
            return true, true;
          }
          progressed := progressed || through;
        }
        p := p + 1;
      }
    }

    /**
     * One worker: still running within its deadline, or gone with a verdict.
     * One that exhausted memory, or cannot be reaped, ends the collection.
     */
    method Visit(p: nat) returns (through: bool, fault: bool)
      requires Valid() && p in active
      modifies this`active, this`hostActive, this`results, this`now, this`calls, this`done
      ensures now >= old(now) && calls > old(calls)
      ensures !fault ==> Valid()
      ensures fault ==> |active| <= |old(active)| && (world.look(old(calls) + 1) == MemoryFault || !world.reaps(calls))
      ensures fault ==> Trouble(world, calls)
      ensures !through && !fault ==> active == old(active) && done == old(done)
      ensures through && !fault ==>
        var j := old(active)[p].job;
        && world.reaps(calls) && active == old(active) - {p} && |active| < |old(active)|
        && j in done && done == old(done)[j := done[j]]
        && (forall data :: done[j] == Collected(data) <==> world.look(old(calls) + 1) == Delivered(data))
    {
      hide Conserved, Bounded;
      calls := calls + 1;
      var report := world.look(calls);
      var verdict := Judge(report, active[p].startedAt);
      if verdict.None? {
        return false, false;
      }
      var reaped := Reap();
      if !reaped {
        return true, true;
      }
      if report.MemoryFault? {
        Drop(p);
        return true, true;
      }
      Retire(p, verdict.value);
      return true, false;
    }

    /** What a look means; nothing while the worker lives within its own deadline. */
    method Judge(report: Report, startedAt: int) returns (verdict: Option<Verdict>)
      modifies this`now, this`calls
      ensures now >= old(now) && calls >= old(calls)
      ensures verdict.None? <==> report.Silent? && report.alive && now - startedAt < sourceDeadline
      ensures report.Delivered? ==> verdict == Some(Collected(report.data))
      ensures verdict.Some? && !report.Delivered? ==> verdict.value.SourceFailed?
    {
      match report {
        case Silent(alive) =>
          var time := Clock();
          if alive && time - startedAt < sourceDeadline {
            return None;
          }
          return Some(SourceFailed(if alive then "source_deadline_exceeded" else "worker_no_result"));
        case Delivered(data) => return Some(Collected(data));
        case Excepted(reason) => return Some(SourceFailed(reason));
        case Unusable(reason) => return Some(SourceFailed(reason));
        case MemoryFault => return Some(SourceFailed("worker_no_result"));
      }
    }

    /** Frees the worker's slot. */
    method Drop(p: nat)
      requires Valid() && p in active
      modifies this`active, this`hostActive
      ensures active == old(active) - {p} && |active| < |old(active)|
      ensures Bounded(jobs, active, hostActive, started, maxWorkers)
    {
      hide Conserved, Bounded, OnHost;
      var worker := active[p];
      WorkerDiscounted(jobs, active, hostActive, started, maxWorkers, p);
      WorkerRemoved(active, p, worker.host);
      active := active - {p};
      hostActive := hostActive[worker.host := CountOn(hostActive, worker.host) - 1];
    }

    /** Frees the worker's slot and records its job's verdict. */
    method Retire(p: nat, verdict: Verdict)
      requires Valid() && p in active
      modifies this`active, this`hostActive, this`results, this`done
      ensures Valid() && active == old(active) - {p} && |active| < |old(active)|
      ensures done == old(done)[old(active)[p].job := verdict]
    {
      hide Conserved, Bounded;
      var worker := active[p];
      RunningIsJob(jobs, pending, active, done, results, p);
      JobFinishes(jobs, pending, active, done, results, p, verdict);
      Drop(p);
      results := results[jobs[worker.job].id := verdict];
      done := done[worker.job := verdict];
    }

    /**
     * The cycle deadline: running jobs are stopped, waiting ones given up, all
     * with a verdict.  A worker that cannot be reaped stops this short, and it
     * and those not yet stopped are left running.
     */
    method TimeOut() returns (fault: bool)
      requires Valid()
      modifies this`pending, this`active, this`hostActive, this`results, this`calls, this`done
      ensures calls >= old(calls) && (fault ==> !world.reaps(calls) && calls > old(calls))
      ensures fault <==> active != map[]
      ensures !fault ==> Valid() && pending == []
      ensures forall j :: j in old(done) ==> j in done
      ensures forall j :: j in done && j !in old(done) ==> done[j] == SourceFailed("cycle_deadline_exceeded")
    {
      hide Conserved, Bounded;
      var verdict := SourceFailed("cycle_deadline_exceeded");
      while active != map[]
        invariant Valid() && pending == old(pending) && calls >= old(calls)
        invariant forall j :: j in old(done) ==> j in done
        invariant forall j :: j in done && j !in old(done) ==> done[j] == verdict
        decreases |active|
      {
        assert active.Keys != {};
        var p :| p in active;
        var reaped := Reap();
        if !reaped {
          return true;
        }
        Retire(p, verdict);
      }
      while pending != []
        invariant Valid() && active == map[] && calls >= old(calls)
        invariant forall j :: j in old(done) ==> j in done
        invariant forall j :: j in done && j !in old(done) ==> done[j] == verdict
        decreases |pending|
      {
        Waiting(jobs, pending, active, done, results, 0);
        JobRefused(jobs, pending, active, done, results, 0, verdict);
        results := results[jobs[pending[0]].id := verdict];
        done := done[pending[0] := verdict];
        assert Without(pending, 0) == pending[1..];
        pending := pending[1..];
      }
      return false;
    }

    /** Stops every worker after a fault, whether each can be reaped or not. */
    method Cleanup()
      modifies this`active, this`calls
      ensures active == map[] && calls >= old(calls)
    {
      while active != map[]
        invariant calls >= old(calls)
        decreases |active|
      {
        assert active.Keys != {};
        var p :| p in active;
        var reaped := Reap();
        WorkerRemoved(active, p, active[p].host);
        active := active - {p};
      }
    }

    /**
     * The whole collection: `None` if a worker exhausted memory or could not be
     * reaped, otherwise one verdict for every job.  Workers are left running
     * only by a worker that could not be reaped at the cycle deadline.
     */
    method CollectAll() returns (verdicts: Option<seq<(string, Verdict)>>)
      requires Valid() && jobs != []
      modifies this
      ensures verdicts.None? ==> Trouble(world, calls)
      ensures active != map[] ==> verdicts.None? && now >= deadline && !world.reaps(calls)
      ensures verdicts.Some? ==>
        var ordered := InIdOrder(jobs);
        && |verdicts.value| == |jobs|
        && (forall i :: 0 <= i < |jobs| ==> verdicts.value[i] == (ordered[i].id, VerdictOf(results, ordered[i].id)))
        && (forall j: nat :: j < |jobs| ==>
              j in done && jobs[j].id in results && (DistinctIds(jobs) ==> results[jobs[j].id] == done[j]))
    {
      hide Conserved, Bounded;
      while pending != [] || active != map[]
        invariant Valid()
        decreases Work(), Most(0, deadline - now)
      {
        var time := Clock();
        if time >= deadline {
          var stuck := TimeOut();
          if stuck {
            return None;
          }
          break;
        }
        StartEligible();
        var progressed, fault := Poll();
        if fault {
          ghost var before := calls;
          Cleanup();
          TroubleStays(world, before, calls);
          return None;
        }
        if !progressed {
          time := Clock();
          now := now + Least(PAUSE, Most(0, deadline - time));
        }
      }
      AllDone(jobs, pending, active, done, results);
      var ordered, found := InIdOrder(jobs), results;
      return Some(seq(|ordered|, i requires 0 <= i < |ordered| => (ordered[i].id, VerdictOf(found, ordered[i].id))));
    }
  }

  lemma TroubleStays(world: World, calls: nat, more: nat)
    requires Trouble(world, calls) && calls <= more
    ensures Trouble(world, more)
  {
  }

  function IdOf(job: Job): seq<int> {
    Codes(job.id)
  }

  function InIdOrder(jobs: seq<Job>): (ordered: seq<Job>)
    ensures |ordered| == |jobs|
  {
    SortBySorts(IdOf, jobs);
    SortBy(IdOf, jobs)
  }

  function VerdictOf(results: map<string, Verdict>, id: string): Verdict {
    if id in results then results[id] else SourceFailed("")
  }

  lemma RunningIsJob(jobs: seq<Job>, pending: seq<nat>, active: map<nat, Worker>, done: map<nat, Verdict>,
                     results: map<string, Verdict>, p: nat)
    requires Conserved(jobs, pending, active, done, results) && p in active
    ensures active[p].job < |jobs|
  {
  }

  lemma Waiting(jobs: seq<Job>, pending: seq<nat>, active: map<nat, Worker>, done: map<nat, Verdict>,
                results: map<string, Verdict>, i: nat)
    requires Conserved(jobs, pending, active, done, results) && i < |pending|
    ensures pending[i] < |jobs|
  {
  }

  lemma AllDone(jobs: seq<Job>, pending: seq<nat>, active: map<nat, Worker>, done: map<nat, Verdict>,
                results: map<string, Verdict>)
    requires Conserved(jobs, pending, active, done, results) && pending == [] && active == map[]
    ensures forall j: nat :: j < |jobs| ==>
      j in done && jobs[j].id in results && (DistinctIds(jobs) ==> results[jobs[j].id] == done[j])
  {
    assert forall j: nat :: !Running(active, j);
  }
}
