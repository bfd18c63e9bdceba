/**
 * The file swap of restore_backup: a database and its sidecars are parked under
 * a reserved name, the new file takes their place, and a crash or an exception
 * after any step is repaired by start-up recovery or by the in-process rollback.
 */
module RestoreSwap {
  import opened Wrappers

  /** The files around the target; sidecar `k` is one of -wal, -shm and -journal. */
  datatype Path =
    | Main | Side(k: nat) | Temp | Intent
    | Prev(n: nat) | PrevSide(n: nat, k: nat) | Orphan(id: nat, k: nat)

  const SIDECARS: nat := 3

  datatype Content = Bytes(data: string) | Naming(previous: Option<nat>)

  type Files = map<Path, Content>

  function Rename(f: Files, a: Path, b: Path): Files
    requires a in f
  {
    (f - {a})[b := f[a]]
  }

  /** The reserved names: of the parked database, and of each sidecar found without one. */
  datatype Plan = Plan(previous: nat, orphans: seq<nat>)

  predicate PlanFits(plan: Plan) {
    |plan.orphans| == SIDECARS
  }

  /** Where sidecar `k` goes: beside the parked database, or into quarantine. */
  function Destination(plan: Plan, hadMain: bool, k: nat): Path
    requires PlanFits(plan) && k < SIDECARS
  {
    if hadMain then PrevSide(plan.previous, k) else Orphan(plan.orphans[k], k)
  }

  /** Every reserved name is free. */
  predicate Reserved(f: Files, plan: Plan) {
    && PlanFits(plan) && Prev(plan.previous) !in f
    && (forall k :: 0 <= k < SIDECARS ==> PrevSide(plan.previous, k) !in f && Orphan(plan.orphans[k], k) !in f)
  }

  // ----- start-up recovery

  datatype Finding = Fine | RolledBack | Cleared | NeedsOperator | LegacyFound

  function ReturnSide(f: Files, n: nat, k: nat): Files {
    if PrevSide(n, k) in f && Side(k) !in f then Rename(f, PrevSide(n, k), Side(k)) else f
  }

  function ReturnSides(f: Files, n: nat, count: nat): (r: Files)
    ensures Main in f ==> Main in r
  {
    if count == 0 then f else ReturnSide(ReturnSides(f, n, count - 1), n, count - 1)
  }

  /** The database named by the intent record, when it is readable and names a file. */
  function NamedPrevious(f: Files): Option<nat> {
    if Intent in f && f[Intent].Naming? && f[Intent].previous.Some? && Prev(f[Intent].previous.value) in f
    then f[Intent].previous else None
  }

  function Recovered(f: Files): (Files, Finding) {
    if Intent in f then
      if Main !in f && NamedPrevious(f).Some? then
        var n := NamedPrevious(f).value;
        (ReturnSides(Rename(f, Prev(n), Main), n, SIDECARS) - {Intent}, RolledBack)
      else if Main in f then (f - {Intent}, Cleared)
      else (f, NeedsOperator)
    else if Main !in f && Prev(0) in f then (f, LegacyFound)
    else (f, Fine)
  }

  /** No half-done restore is left to repair. */
  predicate Calm(f: Files) {
    (Main in f ==> Intent !in f) && (Main !in f && Intent in f ==> NamedPrevious(f).None?)
  }

  // ----- the swap, stage by stage

  /** `noted` is false between a rename and the assignment that remembers it. */
  datatype Stage =
    | Building(temp: Option<Content>)
    | Announced(noted: bool)
    | Parking(done: nat, noted: bool)
    | Installed(noted: bool)
    | Finished

  function ParkSide(f: Files, plan: Plan, hadMain: bool, k: nat): Files
    requires PlanFits(plan) && k < SIDECARS
  {
    if Side(k) in f then Rename(f, Side(k), Destination(plan, hadMain, k)) else f
  }

  function ParkSides(f: Files, plan: Plan, hadMain: bool, count: nat): Files
    requires PlanFits(plan) && count <= SIDECARS
  {
    if count == 0 then f else ParkSide(ParkSides(f, plan, hadMain, count - 1), plan, hadMain, count - 1)
  }

  /** The renames to undo, in the order they were made. */
  function Notes(f: Files, plan: Plan, hadMain: bool, count: nat): seq<(Path, Path)>
    requires PlanFits(plan) && count <= SIDECARS
  {
    if count == 0 then []
    else
      Notes(f, plan, hadMain, count - 1) +
      if Side(count - 1) in f then [(Side(count - 1), Destination(plan, hadMain, count - 1))] else []
  }

  predicate StageFits(f: Files, stage: Stage) {
    match stage
    case Building(_) => true
    case Announced(_) => Main in f
    case Parking(done, noted) => done <= SIDECARS && (!noted ==> done > 0 && Side(done - 1) in f)
    case Installed(_) => true
    case Finished => true
  }

  /** The target's database parked, if there was one. */
  function ParkMain(f: Files, plan: Plan): Files {
    if Main in f then Rename(f, Main, Prev(plan.previous)) else f
  }

  function Announce(f: Files, plan: Plan): Files {
    if Main in f then f[Intent := Naming(Some(plan.previous))] else f
  }

  function ParkedAll(f: Files, plan: Plan, incoming: Content, done: nat): Files
    requires PlanFits(plan) && done <= SIDECARS
  {
    ParkSides(ParkMain(Announce(f[Temp := incoming], plan), plan), plan, Main in f, done)
  }

  function Swapped(f: Files, plan: Plan, incoming: Content): Files
    requires PlanFits(plan)
  {
    var parked := ParkedAll(f, plan, incoming, SIDECARS);
    parked[Main := incoming] - {Temp}
  }

  /** What is on disk at a stage of the swap that starts from `f`. */
  function FilesAt(f: Files, plan: Plan, incoming: Content, stage: Stage): Files
    requires PlanFits(plan) && StageFits(f, stage)
  {
    match stage
    case Building(temp) => if temp.None? then f - {Temp} else f[Temp := temp.value]
    case Announced(_) => Announce(f[Temp := incoming], plan)
    case Parking(done, _) => ParkedAll(f, plan, incoming, done)
    case Installed(_) => Swapped(f, plan, incoming)
    case Finished => Swapped(f, plan, incoming) - {Intent}
  }

  // ----- what the process remembers, and its rollback

  datatype Memory = Memory(previous: Option<nat>, moved: seq<(Path, Path)>, quarantined: seq<(Path, Path)>,
    installed: bool)

  function Noting(f: Files, plan: Plan, count: nat, installed: bool): Memory
    requires PlanFits(plan) && count <= SIDECARS
  {
    var notes := Notes(f, plan, Main in f, count);
    if Main in f then Memory(Some(plan.previous), notes, [], installed) else Memory(None, [], notes, installed)
  }

  function MemoryAt(f: Files, plan: Plan, stage: Stage): Memory
    requires PlanFits(plan) && StageFits(f, stage)
  {
    match stage
    case Building(_) => Memory(None, [], [], false)
    case Announced(noted) => Memory(if noted then Some(plan.previous) else None, [], [], false)
    case Parking(done, noted) => Noting(f, plan, if noted then done else done - 1, false)
    case Installed(noted) => Noting(f, plan, SIDECARS, noted)
    case Finished => Noting(f, plan, SIDECARS, true)
  }

  function UndoRename(f: Files, pair: (Path, Path)): Files {
    if pair.1 in f && pair.0 !in f then Rename(f, pair.1, pair.0) else f
  }

  /** The noted renames undone, last first. */
  function Undo(f: Files, pairs: seq<(Path, Path)>): Files
    decreases |pairs|
  {
    if pairs == [] then f else Undo(UndoRename(f, pairs[|pairs| - 1]), pairs[..|pairs| - 1])
  }

  function RolledBackMain(f: Files, previous: Option<nat>): Files {
    if previous.Some? && Prev(previous.value) in f && Main !in f then Rename(f, Prev(previous.value), Main) else f
  }

  function RolledBackFiles(f: Files, m: Memory): Files {
    var removed := if m.installed then f - {Main} else f;
    var returned := RolledBackMain(Undo(Undo(removed, m.moved), m.quarantined), m.previous);
    (if Main in returned then returned - {Intent} else returned) - {Temp}
  }

  // ----- outcomes

  predicate Same(f: Files, g: Files, p: Path) {
    (p in f <==> p in g) && (p in f ==> g[p] == f[p])
  }

  /** The target is as it was: its database, if any, and exactly its sidecars. */
  predicate Intact(f: Files, g: Files) {
    Same(f, g, Main) && forall k :: 0 <= k < SIDECARS ==> Same(f, g, Side(k))
  }

  /** The target is the restored database with no sidecar. */
  predicate Replaced(g: Files, incoming: Content) {
    Main in g && g[Main] == incoming && forall k :: 0 <= k < SIDECARS ==> Side(k) !in g
  }

  predicate AllOrNothing(f: Files, g: Files, incoming: Content) {
    Intact(f, g) || Replaced(g, incoming)
  }

  predicate HasSide(f: Files, count: nat) {
    exists k :: 0 <= k < count && Side(k) in f
  }

  /** Every old file is still there, in place or under its reserved name. */
  predicate NothingLost(f: Files, g: Files, plan: Plan)
    requires PlanFits(plan)
  {
    && (Main in f ==>
          || (Main in g && g[Main] == f[Main])
          || (Prev(plan.previous) in g && g[Prev(plan.previous)] == f[Main]))
    && (forall k :: 0 <= k < SIDECARS && Side(k) in f ==>
          || (Side(k) in g && g[Side(k)] == f[Side(k)])
          || (Destination(plan, Main in f, k) in g && g[Destination(plan, Main in f, k)] == f[Side(k)]))
  }

  // ----- path by path

  /** Neither a sidecar nor the place one is parked at. */
  predicate Apart(p: Path) {
    !p.Side? && !p.PrevSide? && !p.Orphan?
  }

  lemma {:induction false} ParkedSides(f: Files, plan: Plan, hadMain: bool, count: nat)
    requires PlanFits(plan) && count <= SIDECARS
    requires forall k :: 0 <= k < SIDECARS ==> Destination(plan, hadMain, k) !in f
    ensures
      var g := ParkSides(f, plan, hadMain, count);
      && (forall k :: 0 <= k < SIDECARS ==>
            (Side(k) in g <==> k >= count && Side(k) in f) && (Side(k) in g ==> g[Side(k)] == f[Side(k)]))
      && (forall k :: 0 <= k < SIDECARS ==>
            (Destination(plan, hadMain, k) in g <==> k < count && Side(k) in f) &&
            (Destination(plan, hadMain, k) in g ==> g[Destination(plan, hadMain, k)] == f[Side(k)]))
      && (forall p :: Apart(p) ==> Same(f, g, p))
  {
    if count > 0 {
      ParkedSides(f, plan, hadMain, count - 1);
    }
  }

  lemma {:induction false} ReturnedSides(f: Files, n: nat, count: nat)
    ensures
      var g := ReturnSides(f, n, count);
      && (forall k :: 0 <= k < count ==>
            if Side(k) in f then Same(f, g, Side(k)) && Same(f, g, PrevSide(n, k))
            else
              PrevSide(n, k) !in g && (PrevSide(n, k) in f <==> Side(k) in g) &&
              (Side(k) in g ==> g[Side(k)] == f[PrevSide(n, k)]))
      && (forall k :: k >= count ==> Same(f, g, Side(k)) && Same(f, g, PrevSide(n, k)))
      && (forall p :: Apart(p) ==> Same(f, g, p))
  {
    if count > 0 {
      ReturnedSides(f, n, count - 1);
    }
  }

  /**
   * The sidecars of `f` below `count` are at their destinations in `g` and back
   * in place in `r`; nothing else moved.
   */
  ghost predicate Returned(f: Files, plan: Plan, hadMain: bool, count: nat, g: Files, r: Files)
    requires PlanFits(plan) && count <= SIDECARS
  {
    && (forall k :: 0 <= k < SIDECARS ==>
          var place := Destination(plan, hadMain, k);
          if k < count && Side(k) in f then place in g && Side(k) in r && r[Side(k)] == g[place]
          else Same(g, r, Side(k)) && Same(g, r, place))
    && (forall p :: Apart(p) ==> Same(g, r, p))
  }

  lemma UndoneLast(f: Files, plan: Plan, hadMain: bool, count: nat, g: Files, h: Files, r: Files)
    requires PlanFits(plan) && 0 < count <= SIDECARS
    requires Destination(plan, hadMain, count - 1) in g && Side(count - 1) !in g && Side(count - 1) in f
    requires h == Rename(g, Destination(plan, hadMain, count - 1), Side(count - 1))
    requires Returned(f, plan, hadMain, count - 1, h, r)
    ensures Returned(f, plan, hadMain, count, g, r)
  {
    forall k | 0 <= k < SIDECARS
      ensures var place := Destination(plan, hadMain, k);
        if k < count && Side(k) in f then place in g && Side(k) in r && r[Side(k)] == g[place]
        else Same(g, r, Side(k)) && Same(g, r, place)
    {
      assert k != count - 1 ==> Same(g, h, Side(k)) && Same(g, h, Destination(plan, hadMain, k));
      assert Same(h, r, Side(count - 1));
    }
  }

  /** Undoing the notes of the first sidecars, on any files that hold them at their destinations. */
  lemma {:induction false} UndoneNotes(f: Files, plan: Plan, hadMain: bool, count: nat, g: Files)
    requires PlanFits(plan) && count <= SIDECARS
    requires forall k :: 0 <= k < count && Side(k) in f ==> Destination(plan, hadMain, k) in g && Side(k) !in g
    ensures Returned(f, plan, hadMain, count, g, Undo(g, Notes(f, plan, hadMain, count)))
  {
    hide Returned;
    if count == 0 {
      NothingReturned(f, plan, hadMain, g);
    } else if Side(count - 1) in f {
      var last := (Side(count - 1), Destination(plan, hadMain, count - 1));
      var notes := Notes(f, plan, hadMain, count);
      assert notes[|notes| - 1] == last && notes[..|notes| - 1] == Notes(f, plan, hadMain, count - 1);
      var h := UndoRename(g, last);
      UndoneNotes(f, plan, hadMain, count - 1, h);
      UndoneLast(f, plan, hadMain, count, g, h, Undo(g, notes));
    } else {
      assert Notes(f, plan, hadMain, count) == Notes(f, plan, hadMain, count - 1);
      UndoneNotes(f, plan, hadMain, count - 1, g);
      UnnotedLast(f, plan, hadMain, count, g, Undo(g, Notes(f, plan, hadMain, count)));
    }
  }

  lemma NothingReturned(f: Files, plan: Plan, hadMain: bool, g: Files)
    requires PlanFits(plan)
    ensures Returned(f, plan, hadMain, 0, g, g)
  {
  }

  lemma UnnotedLast(f: Files, plan: Plan, hadMain: bool, count: nat, g: Files, r: Files)
    requires PlanFits(plan) && 0 < count <= SIDECARS && Side(count - 1) !in f
    requires Returned(f, plan, hadMain, count - 1, g, r)
    ensures Returned(f, plan, hadMain, count, g, r)
  {
  }

  // ----- after a crash

  /** The files once `done` sidecars are parked. */
  lemma ParkedFiles(f: Files, plan: Plan, incoming: Content, done: nat)
    requires Reserved(f, plan) && done <= SIDECARS
    ensures
      var g := ParkedAll(f, plan, incoming, done);
      && (forall k :: 0 <= k < SIDECARS ==>
            (Side(k) in g <==> k >= done && Side(k) in f) && (Side(k) in g ==> g[Side(k)] == f[Side(k)]))
      && (forall k :: 0 <= k < SIDECARS ==>
            (Destination(plan, Main in f, k) in g <==> k < done && Side(k) in f) &&
            (Destination(plan, Main in f, k) in g ==> g[Destination(plan, Main in f, k)] == f[Side(k)]))
      && Main !in g && Temp in g && g[Temp] == incoming
      && (Main in f ==>
            Intent in g && g[Intent] == Naming(Some(plan.previous)) && Prev(plan.previous) in g &&
              g[Prev(plan.previous)] == f[Main])
      && (Main !in f ==> Same(f, g, Intent) && forall n :: Same(f, g, Prev(n)))
  {
    var base := ParkMain(Announce(f[Temp := incoming], plan), plan);
    ParkedSides(base, plan, Main in f, done);
    var g := ParkedAll(f, plan, incoming, done);
    assert Same(base, g, Main) && Same(base, g, Temp) && Same(base, g, Intent);
    assert forall n :: Same(base, g, Prev(n));
  }

  /** Recovery of a parked database brings back it and every parked sidecar. */
  lemma CrashWhileParking(f: Files, plan: Plan, incoming: Content, done: nat)
    requires Calm(f) && Reserved(f, plan) && done <= SIDECARS
    ensures
      var g := ParkedAll(f, plan, incoming, done);
      var r := Recovered(g).0;
      && (Main in f ==> Intact(f, r) && Intent !in r)
      && (Main !in f ==> r == g)
  {
    var g := ParkedAll(f, plan, incoming, done);
    ParkedFiles(f, plan, incoming, done);
    if Main in f {
      var n := plan.previous;
      assert forall k :: 0 <= k < SIDECARS ==> Destination(plan, true, k) == PrevSide(n, k);
      var back := Rename(g, Prev(n), Main);
      ReturnedSides(back, n, SIDECARS);
      assert Same(back, ReturnSides(back, n, SIDECARS), Main);
    }
  }

  /**
   * A crash after any step, then one recovery pass.  With a database at the
   * target the outcome is always the old file set or the new one; without one,
   * it is so exactly when no sidecar had been quarantined yet.
   */
  lemma CrashIsAllOrNothing(f: Files, plan: Plan, incoming: Content, stage: Stage)
    requires Calm(f) && Reserved(f, plan) && StageFits(f, stage)
    ensures
      var r := Recovered(FilesAt(f, plan, incoming, stage)).0;
      && (AllOrNothing(f, r, incoming) <==> (Main in f || !stage.Parking? || !HasSide(f, stage.done)))
      && (stage.Installed? || stage.Finished? ==> Replaced(r, incoming))
      && (Main in f && !stage.Installed? && !stage.Finished? ==> Intact(f, r))
  {
    match stage
    case Building(_) =>
    case Announced(_) =>
    case Parking(done, _) =>
      CrashWhileParking(f, plan, incoming, done);
      ParkedFiles(f, plan, incoming, done);
      if Main !in f && HasSide(f, done) {
        var k :| 0 <= k < done && Side(k) in f;
        assert !Same(f, ParkedAll(f, plan, incoming, done), Side(k));
      }
    case Installed(_) => ParkedFiles(f, plan, incoming, SIDECARS);
    case Finished => ParkedFiles(f, plan, incoming, SIDECARS);
  }

  // ----- after an exception

  /** The rollback once the noted sidecars are back: the parked database returns unless one is in place. */
  lemma RolledBackLast(f: Files, plan: Plan, noted: nat, g: Files, installed: bool, removed: Files, undone: Files)
    requires PlanFits(plan) && noted <= SIDECARS
    requires removed == if installed then g - {Main} else g
    requires undone == Undo(removed, Notes(f, plan, Main in f, noted))
    requires forall p :: Apart(p) ==> Same(removed, undone, p)
    ensures
      var r := RolledBackFiles(g, Noting(f, plan, noted, installed));
      && (forall p :: !Apart(p) ==> Same(undone, r, p))
      && (if Main in g && !installed then Same(g, r, Main) && Same(g, r, Prev(plan.previous))
          else if Main in f && Prev(plan.previous) in g then Main in r && r[Main] == g[Prev(plan.previous)]
          else Main !in r && Same(g, r, Prev(plan.previous)))
  {
    hide Notes;
    var notes := Notes(f, plan, Main in f, noted);
    assert Undo(Undo(removed, []), notes) == undone == Undo(Undo(removed, notes), []);
    assert Same(removed, undone, Main) && Same(removed, undone, Prev(plan.previous));
    hide Undo;
  }

  /** The rollback of a process that noted the first `noted` renames. */
  lemma RolledBackPaths(f: Files, plan: Plan, noted: nat, g: Files, installed: bool)
    requires PlanFits(plan) && noted <= SIDECARS
    requires forall k :: 0 <= k < noted && Side(k) in f ==> Destination(plan, Main in f, k) in g && Side(k) !in g
    ensures
      var r := RolledBackFiles(g, Noting(f, plan, noted, installed));
      && (forall k :: 0 <= k < SIDECARS ==>
            var place := Destination(plan, Main in f, k);
            if k < noted && Side(k) in f then Side(k) in r && r[Side(k)] == g[place]
            else Same(g, r, Side(k)) && Same(g, r, place))
      && (if Main in g && !installed then Same(g, r, Main) && Same(g, r, Prev(plan.previous))
          else if Main in f && Prev(plan.previous) in g then Main in r && r[Main] == g[Prev(plan.previous)]
          else Main !in r && Same(g, r, Prev(plan.previous)))
  {
    var removed := if installed then g - {Main} else g;
    var undone := Undo(removed, Notes(f, plan, Main in f, noted));
    UndoneNotes(f, plan, Main in f, noted, removed);
    hide Undo, Notes, RolledBackFiles, Noting;
    RolledBackLast(f, plan, noted, g, installed, removed, undone);
    var r := RolledBackFiles(g, Noting(f, plan, noted, installed));
    forall k | 0 <= k < SIDECARS
      ensures
        var place := Destination(plan, Main in f, k);
        if k < noted && Side(k) in f then Side(k) in r && r[Side(k)] == g[place]
        else Same(g, r, Side(k)) && Same(g, r, place)
    {
      assert Same(undone, r, Side(k)) && Same(undone, r, Destination(plan, Main in f, k));
    }
  }

  /** A file has been renamed and the process does not know it yet. */
  predicate Unnoted(stage: Stage) {
    (stage.Parking? || stage.Installed?) && !stage.noted
  }

  /** Where an interruption between a rename and its bookkeeping does harm. */
  predicate Harmful(f: Files, incoming: Content, stage: Stage) {
    var differs := Main !in f || f[Main] != incoming;
    match stage
    case Parking(done, noted) => !noted && (differs || exists k :: 0 <= k < SIDECARS && k != done - 1 && Side(k) in f)
    case Installed(noted) => !noted && differs && HasSide(f, SIDECARS)
    case _ => false
  }

  /**
   * An exception after any step, then the in-process rollback.  The outcome is
   * the old file set or the new one exactly when the exception did not fall
   * between a rename and the assignment that remembers it (a sidecar that is
   * then left parked, or old sidecars put back beside the new database).
   */
  lemma RollbackIsAllOrNothing(f: Files, plan: Plan, incoming: Content, stage: Stage)
    requires Calm(f) && Reserved(f, plan) && StageFits(f, stage)
    ensures
      var r := RolledBackFiles(FilesAt(f, plan, incoming, stage), MemoryAt(f, plan, stage));
      && (AllOrNothing(f, r, incoming) <==> !Harmful(f, incoming, stage))
      && (!Unnoted(stage) ==> Intact(f, r))
      && NothingLost(f, r, plan)
  {
    match stage
    case Building(_) =>
    case Announced(_) =>
    case Parking(done, noted) =>
      RolledBackParking(f, plan, incoming, done, noted);
      if noted {
        SidesDecide(f, RolledBackFiles(FilesAt(f, plan, incoming, stage), MemoryAt(f, plan, stage)), plan,
          incoming, SIDECARS);
      } else {
        SidesDecide(f, RolledBackFiles(FilesAt(f, plan, incoming, stage), MemoryAt(f, plan, stage)), plan,
          incoming, done - 1);
      }
    case Installed(noted) => RolledBackInstalled(f, plan, incoming, noted);
    case Finished => RolledBackInstalled(f, plan, incoming, true);
  }

  /** The old database back in place with every sidecar but the missing one, which is at its destination. */
  ghost predicate AllBackBut(f: Files, r: Files, plan: Plan, missing: nat)
    requires PlanFits(plan)
  {
    && Same(f, r, Main)
    && (forall k :: 0 <= k < SIDECARS && k != missing ==> Same(f, r, Side(k)))
    && (missing < SIDECARS ==>
          var place := Destination(plan, Main in f, missing);
          Side(missing) in f && Side(missing) !in r && place in r && r[place] == f[Side(missing)])
  }

  lemma RolledBackParking(f: Files, plan: Plan, incoming: Content, done: nat, noted: bool)
    requires Calm(f) && Reserved(f, plan) && StageFits(f, Parking(done, noted))
    ensures
      var stage := Parking(done, noted);
      var r := RolledBackFiles(FilesAt(f, plan, incoming, stage), MemoryAt(f, plan, stage));
      AllBackBut(f, r, plan, if noted then SIDECARS else done - 1)
  {
    ParkedFiles(f, plan, incoming, done);
    RolledBackPaths(f, plan, if noted then done else done - 1, ParkedAll(f, plan, incoming, done), false);
  }

  lemma SidesDecide(f: Files, r: Files, plan: Plan, incoming: Content, missing: nat)
    requires PlanFits(plan) && AllBackBut(f, r, plan, missing) && missing <= SIDECARS
    ensures NothingLost(f, r, plan)
    ensures missing == SIDECARS ==> Intact(f, r)
    ensures missing < SIDECARS ==>
      (AllOrNothing(f, r, incoming) <==>
        Main in f && f[Main] == incoming && forall k :: 0 <= k < SIDECARS && k != missing ==> Side(k) !in f)
  {
    if missing < SIDECARS {
      assert !Same(f, r, Side(missing));
    }
  }

  /** Before `installed` is set the new database stays, and the old sidecars come back beside it. */
  lemma RolledBackInstalled(f: Files, plan: Plan, incoming: Content, noted: bool)
    requires Calm(f) && Reserved(f, plan)
    ensures
      var m := Noting(f, plan, SIDECARS, noted);
      var r1 := RolledBackFiles(Swapped(f, plan, incoming), m);
      var r2 := RolledBackFiles(Swapped(f, plan, incoming) - {Intent}, m);
      && (noted ==> Intact(f, r1) && Intact(f, r2) && NothingLost(f, r2, plan))
      && (!noted ==> (AllOrNothing(f, r1, incoming) <==> !Harmful(f, incoming, Installed(false))))
      && NothingLost(f, r1, plan)
  {
    ParkedFiles(f, plan, incoming, SIDECARS);
    RolledBackPaths(f, plan, SIDECARS, Swapped(f, plan, incoming), noted);
    RolledBackPaths(f, plan, SIDECARS, Swapped(f, plan, incoming) - {Intent}, noted);
  }

  /**
   * The failing exception in the concrete: right after the new file took its
   * place, it leaves the new database beside the old journal.
   */
  lemma NewDatabaseBesideOldJournal()
    ensures
      var f: Files := map[Main := Bytes("old"), Side(0) := Bytes("journal")];
      var plan := Plan(0, [0, 0, 0]);
      var r := RolledBackFiles(FilesAt(f, plan, Bytes("new"), Installed(false)), MemoryAt(f, plan, Installed(false)));
      && Main in r && r[Main] == Bytes("new") && Side(0) in r && r[Side(0)] == Bytes("journal")
      && !AllOrNothing(f, r, Bytes("new"))
  {
    var f: Files := map[Main := Bytes("old"), Side(0) := Bytes("journal")];
    var plan := Plan(0, [0, 0, 0]);
    assert Side(0) in f && HasSide(f, SIDECARS);
    ParkedFiles(f, plan, Bytes("new"), SIDECARS);
    RolledBackPaths(f, plan, SIDECARS, Swapped(f, plan, Bytes("new")), false);
    hide ParkedAll, RolledBackFiles, Noting;
    RollbackIsAllOrNothing(f, plan, Bytes("new"), Installed(false));
  }

  /**
   * The failing crash in the concrete: without a database at the target, a
   * journal already quarantined stays there, and recovery finds nothing to do.
   */
  lemma QuarantinedJournalStays()
    ensures
      var f: Files := map[Side(0) := Bytes("journal")];
      var plan := Plan(0, [0, 0, 0]);
      var (r, finding) := Recovered(FilesAt(f, plan, Bytes("new"), Parking(1, true)));
      && finding == Fine && Main !in r && Side(0) !in r && Orphan(0, 0) in r && r[Orphan(0, 0)] == Bytes("journal")
      && !AllOrNothing(f, r, Bytes("new"))
  {
    var f: Files := map[Side(0) := Bytes("journal")];
    var plan := Plan(0, [0, 0, 0]);
    assert Side(0) in f && HasSide(f, 1);
    ParkedFiles(f, plan, Bytes("new"), 1);
    assert Destination(plan, false, 0) == Orphan(0, 0);
    var g := ParkedAll(f, plan, Bytes("new"), 1);
    assert Intent !in g && Prev(0) !in g by {
      assert Same(f, g, Intent) && Same(f, g, Prev(0));
    }
    CrashIsAllOrNothing(f, plan, Bytes("new"), Parking(1, true));
  }

  // ----- the imperative swap

  class Restore {
    var files: Files
    var previous: Option<nat>
    var moved: seq<(Path, Path)>
    var quarantined: seq<(Path, Path)>
    var installed: bool
    /** Steps left before the process is interrupted. */
    var steps: nat
    ghost var stage: Stage

    constructor (files: Files, steps: nat)
      ensures this.files == files && Memo() == Memory(None, [], [], false)
    {
      this.files, previous, moved, quarantined, installed, this.steps := files, None, [], [], false, steps;
      stage := Building(None);
    }

    ghost function Memo(): Memory
      reads this
    {
      Memory(previous, moved, quarantined, installed)
    }

    method Proceed() returns (go: bool)
      modifies this`steps
    {
      go := steps > 0;
      if go {
        steps := steps - 1;
      }
    }

    /** The swap and where it stopped: disk and memory are those of the stage reached. */
    method Swap(plan: Plan, partial: Content, incoming: Content) returns (completed: bool)
      requires Reserved(files, plan) && Calm(files) && Temp !in files
      requires Memo() == Memory(None, [], [], false)
      modifies this
      ensures StageFits(old(files), stage)
      ensures files == FilesAt(old(files), plan, incoming, stage) && Memo() == MemoryAt(old(files), plan, stage)
      ensures completed ==> stage == Finished
    {
      ghost var f := files;
      stage := Building(None);
      assert f - {Temp} == f;
      completed := Proceed();
      if !completed {
        return;
      }
      files := files[Temp := partial];
      stage := Building(Some(partial));
      completed := Proceed();
      if !completed {
        return;
      }
      files := files[Temp := incoming];
      stage := Building(Some(incoming));
      completed := ParkDatabase(plan, incoming, f);
      if !completed {
        return;
      }
      completed := ParkSidecars(plan, incoming, f);
      if !completed {
        return;
      }
      completed := Install(plan, incoming, f);
    }

    /** Publishes the intent, then parks the database. */
    method ParkDatabase(plan: Plan, incoming: Content, ghost f: Files) returns (completed: bool)
      requires Reserved(f, plan) && stage == Building(Some(incoming)) && files == f[Temp := incoming]
      requires Memo() == Memory(None, [], [], false)
      modifies this
      ensures StageFits(f, stage) && files == FilesAt(f, plan, incoming, stage) && Memo() == MemoryAt(f, plan, stage)
      ensures completed ==> stage == Parking(0, true)
    {
      if Main in files {
        completed := Proceed();
        if !completed {
          return;
        }
        files := files[Intent := Naming(Some(plan.previous))];
        stage := Announced(false);
        completed := Proceed();
        if !completed {
          return;
        }
        previous := Some(plan.previous);
        stage := Announced(true);
        completed := Proceed();
        if !completed {
          return;
        }
        files := Rename(files, Main, Prev(plan.previous));
      }
      stage := Parking(0, true);
      completed := true;
    }

    method ParkSidecars(plan: Plan, incoming: Content, ghost f: Files) returns (completed: bool)
      requires Reserved(f, plan) && stage == Parking(0, true)
      requires files == FilesAt(f, plan, incoming, stage) && Memo() == MemoryAt(f, plan, stage)
      modifies this
      ensures StageFits(f, stage) && files == FilesAt(f, plan, incoming, stage) && Memo() == MemoryAt(f, plan, stage)
      ensures completed ==> stage == Parking(SIDECARS, true)
    {
      for k := 0 to SIDECARS
        invariant stage == Parking(k, true)
        invariant files == FilesAt(f, plan, incoming, stage) && Memo() == MemoryAt(f, plan, stage)
      {
        completed := ParkSidecar(k, plan, incoming, f);
        if !completed {
          return;
        }
      }
      completed := true;
    }

    method ParkSidecar(k: nat, plan: Plan, incoming: Content, ghost f: Files) returns (completed: bool)
      requires Reserved(f, plan) && k < SIDECARS && stage == Parking(k, true)
      requires files == FilesAt(f, plan, incoming, stage) && Memo() == MemoryAt(f, plan, stage)
      modifies this
      ensures StageFits(f, stage) && files == FilesAt(f, plan, incoming, stage) && Memo() == MemoryAt(f, plan, stage)
      ensures completed ==> stage == Parking(k + 1, true)
    {
      ParkedFiles(f, plan, incoming, k);
      if Side(k) in files {
        var place := if previous.Some? then PrevSide(plan.previous, k) else Orphan(plan.orphans[k], k);
        completed := Proceed();
        if !completed {
          return;
        }
        files := Rename(files, Side(k), place);
        stage := Parking(k + 1, false);
        completed := Proceed();
        if !completed {
          return;
        }
        if previous.Some? {
          moved := moved + [(Side(k), place)];
        } else {
          quarantined := quarantined + [(Side(k), place)];
        }
      }
      stage := Parking(k + 1, true);
      completed := true;
    }

    /** Puts the new database in place and withdraws the intent. */
    method Install(plan: Plan, incoming: Content, ghost f: Files) returns (completed: bool)
      requires Reserved(f, plan) && stage == Parking(SIDECARS, true)
      requires files == FilesAt(f, plan, incoming, stage) && Memo() == MemoryAt(f, plan, stage)
      modifies this
      ensures StageFits(f, stage) && files == FilesAt(f, plan, incoming, stage) && Memo() == MemoryAt(f, plan, stage)
      ensures completed ==> stage == Finished
    {
      ParkedFiles(f, plan, incoming, SIDECARS);
      completed := Proceed();
      if !completed {
        return;
      }
      files := Rename(files, Temp, Main);
      stage := Installed(false);
      assert files == Swapped(f, plan, incoming);
      completed := Proceed();
      if !completed {
        return;
      }
      installed := true;
      stage := Installed(true);
      completed := Proceed();
      if !completed {
        return;
      }
      files := files - {Intent};
      stage := Finished;
      completed := Proceed();
    }

    /** Start-up recovery, also run before every restore. */
    method Recover() returns (finding: Finding)
      modifies this`files
      ensures (files, finding) == Recovered(old(files))
    {
      if Intent in files {
        var named := NamedPrevious(files);
        if Main !in files && named.Some? {
          files := Rename(files, Prev(named.value), Main);
          ghost var renamed := files;
          for k := 0 to SIDECARS
            invariant files == ReturnSides(renamed, named.value, k)
          {
            if PrevSide(named.value, k) in files && Side(k) !in files {
              files := Rename(files, PrevSide(named.value, k), Side(k));
            }
          }
          files := files - {Intent};
          return RolledBack;
        }
        if Main in files {
          files := files - {Intent};
          return Cleared;
        }
        return NeedsOperator;
      }
      return if Main !in files && Prev(0) in files then LegacyFound else Fine;
    }

    /** The exception handler: removes what was installed, undoes the noted renames, puts the database back. */
    method RollBack()
      modifies this`files
      ensures files == RolledBackFiles(old(files), old(Memo()))
    {
      if installed && Main in files {
        files := files - {Main};
      }
      assert installed ==> files == old(files) - {Main};
      UndoAll(moved);
      UndoAll(quarantined);
      if previous.Some? && Prev(previous.value) in files && Main !in files {
        files := Rename(files, Prev(previous.value), Main);
      }
      if Main in files {
        files := files - {Intent};
      }
      files := files - {Temp};
    }

    method UndoAll(pairs: seq<(Path, Path)>)
      modifies this`files
      ensures files == Undo(old(files), pairs)
    {
      var left := |pairs|;
      assert pairs[..left] == pairs;
      while left > 0
        invariant left <= |pairs| && Undo(files, pairs[..left]) == Undo(old(files), pairs)
      {
        left := left - 1;
        assert pairs[..left + 1][..left] == pairs[..left];
        var pair := pairs[left];
        if pair.1 in files && pair.0 !in files {
          files := Rename(files, pair.1, pair.0);
        }
      }
    }

    /**
     * A whole restore, cut short after any number of steps by a crash (then
     * start-up recovery) or by an exception (then the rollback).
     */
    method Run(plan: Plan, partial: Content, incoming: Content, crash: bool) returns (completed: bool)
      requires Reserved(files, plan) && Calm(files) && Temp !in files
      requires Memo() == Memory(None, [], [], false)
      modifies this
      ensures completed ==> Replaced(files, incoming)
      ensures !completed && crash ==>
        (AllOrNothing(old(files), files, incoming) <==>
          (Main in old(files) || !stage.Parking? || !HasSide(old(files), stage.done)))
      ensures !completed && !crash ==>
        (AllOrNothing(old(files), files, incoming) <==> !Harmful(old(files), incoming, stage))
      ensures !completed && !crash && !Unnoted(stage) ==> Intact(old(files), files)
      ensures !completed && !crash ==> NothingLost(old(files), files, plan)
    {
      ghost var f := files;
      completed := Swap(plan, partial, incoming);
      if completed {
        ParkedFiles(f, plan, incoming, SIDECARS);
      } else if crash {
        previous, moved, quarantined, installed := None, [], [], false;
        var finding := Recover();
        CrashIsAllOrNothing(f, plan, incoming, stage);
      } else {
        RollBack();
        RollbackIsAllOrNothing(f, plan, incoming, stage);
      }
    }
  }

  /** A recovery pass leaves nothing half-done behind, so a restore may start and a second pass changes nothing. */
  lemma RecoveryCalms(f: Files)
    ensures Calm(Recovered(f).0) && Recovered(Recovered(f).0).0 == Recovered(f).0
  {
    if Intent in f && Main !in f && NamedPrevious(f).Some? {
      var n := NamedPrevious(f).value;
      ReturnedSides(Rename(f, Prev(n), Main), n, SIDECARS);
    }
  }
}
