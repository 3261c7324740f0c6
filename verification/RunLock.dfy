/** The in-process coordinator: one lock object per run, created on demand and
    reference-counted, under every interleaving of its callers. */
module RunLocks {
  import opened Common

  type RunId = nat
  type LockId = nat
  type Caller = nat

  /** The coordinator's two tables; `made` numbers the lock objects made so far. */
  datatype Tables = Tables(locks: map<RunId, LockId>, holders: map<RunId, int>, made: LockId)

  const EMPTY := Tables(map[], map[], 0)

  /** `setdefault(run, Lock())`: the new object is dropped when the run has one. */
  function Adopt(t: Tables, run: RunId): Tables {
    t.(locks := if run in t.locks then t.locks else t.locks[run := t.made], made := t.made + 1)
  }

  function CountIn(t: Tables, run: RunId): Tables {
    t.(holders := t.holders[run := (if run in t.holders then t.holders[run] else 0) + 1])
  }

  /** None is the `KeyError` of reading a run that is not counted. */
  function CountOut(t: Tables, run: RunId): Option<Tables> {
    if run !in t.holders then None
    else if t.holders[run] - 1 <= 0 then Some(t.(holders := t.holders - {run}))
    else Some(t.(holders := t.holders[run := t.holders[run] - 1]))
  }

  function DropLock(t: Tables, run: RunId): Tables { t.(locks := t.locks - {run}) }

  /** Where one call of `lock` stands. A caller without an entry has not begun or is done. */
  datatype Point =
    | Entering(run: RunId)
    | Adopted(run: RunId, lock: LockId)
    | Waiting(run: RunId, lock: LockId)
    | Inside(run: RunId, lock: LockId)
    | Leaving(run: RunId, lock: LockId)
    | Exiting(run: RunId, lock: LockId)
    | Dropping(run: RunId, lock: LockId)
    | Crashed(run: RunId)

  /** `held` is the set of lock objects whose locked flag is set. */
  datatype State = State(tables: Tables, held: set<LockId>, guard: Option<Caller>, callers: map<Caller, Point>)

  const INITIAL := State(EMPTY, {}, None, map[])

  /** Every write of the guarded sections is a step of its own; a wait may end by
      acquiring or by cancellation, and a body may return or raise. */
  datatype Step =
    | TakeEntryGuard(caller: Caller, run: RunId)
    | SetDefault(caller: Caller)
    | Register(caller: Caller)
    | Acquire(caller: Caller)
    | AbandonWait(caller: Caller)
    | LeaveBody(caller: Caller)
    | TakeExitGuard(caller: Caller)
    | Unregister(caller: Caller)
    | Forget(caller: Caller)

  function At(s: State, c: Caller): Option<Point> { if c in s.callers then Some(s.callers[c]) else None }

  function Move(s: State, c: Caller, p: Point): State { s.(callers := s.callers[c := p]) }

  predicate Enabled(s: State, step: Step) {
    var p := At(s, step.caller);
    match step
    case TakeEntryGuard(_, _) => p.None? && s.guard.None?
    case SetDefault(_) => p.Some? && p.value.Entering?
    case Register(_) => p.Some? && p.value.Adopted?
    case Acquire(_) => p.Some? && p.value.Waiting? && p.value.lock !in s.held
    case AbandonWait(_) => p.Some? && p.value.Waiting?
    case LeaveBody(_) => p.Some? && p.value.Inside?
    case TakeExitGuard(_) => p.Some? && p.value.Leaving? && s.guard.None?
    case Unregister(_) => p.Some? && p.value.Exiting?
    case Forget(_) => p.Some? && p.value.Dropping?
  }

  function Perform(s: State, step: Step): State
    requires Enabled(s, step)
  {
    var c := step.caller;
    match step
    case TakeEntryGuard(_, run) => Move(s, c, Entering(run)).(guard := Some(c))
    case SetDefault(_) =>
      var run := s.callers[c].run;
      var t := Adopt(s.tables, run);
      Move(s, c, Adopted(run, t.locks[run])).(tables := t)
    case Register(_) =>
      var p := s.callers[c];
      Move(s, c, Waiting(p.run, p.lock)).(tables := CountIn(s.tables, p.run), guard := None)
    case Acquire(_) =>
      var p := s.callers[c];
      Move(s, c, Inside(p.run, p.lock)).(held := s.held + {p.lock})
    case AbandonWait(_) =>
      var p := s.callers[c];
      Move(s, c, Leaving(p.run, p.lock))
    case LeaveBody(_) =>
      var p := s.callers[c];
      Move(s, c, Leaving(p.run, p.lock)).(held := s.held - {p.lock})
    case TakeExitGuard(_) =>
      var p := s.callers[c];
      Move(s, c, Exiting(p.run, p.lock)).(guard := Some(c))
    case Unregister(_) =>
      var p := s.callers[c];
      (match CountOut(s.tables, p.run)
       case None => Move(s, c, Crashed(p.run)).(guard := None)
       case Some(t) =>
         if p.run in t.holders then s.(tables := t, guard := None, callers := s.callers - {c})
         else Move(s, c, Dropping(p.run, p.lock)).(tables := t))
    case Forget(_) =>
      s.(tables := DropLock(s.tables, s.callers[c].run), guard := None, callers := s.callers - {c})
  }

  function Next(s: State, step: Step): State { if Enabled(s, step) then Perform(s, step) else s }

  function Exec(steps: seq<Step>): State {
    if steps == [] then INITIAL else Next(Exec(steps[..|steps| - 1]), steps[|steps| - 1])
  }

  // ---- the invariant ----

  predicate Guarded(p: Point) { p.Entering? || p.Adopted? || p.Exiting? || p.Dropping? }

  /** Has taken a lock object from the table. */
  predicate HasLock(p: Point) { !p.Entering? && !p.Crashed? }

  /** Is included in the run's holder count. */
  predicate Counted(p: Point) { p.Waiting? || p.Inside? || p.Leaving? || p.Exiting? }

  function Users(s: State, run: RunId): set<Caller> {
    set c | c in s.callers && Counted(s.callers[c]) && s.callers[c].run == run
  }

  /** Only the guard's holder is in a guarded section. */
  ghost predicate GuardInv(s: State) {
    && (forall c :: c in s.callers && Guarded(s.callers[c]) ==> s.guard == Some(c))
    && (s.guard.Some? ==> s.guard.value in s.callers && Guarded(s.callers[s.guard.value]))
    && (forall c :: c in s.callers ==> !s.callers[c].Crashed?)
  }

  /** A lock object is shared by everyone who uses the run and by nobody else. */
  ghost predicate LockInv(s: State) {
    && (forall c :: c in s.callers && HasLock(s.callers[c]) ==>
          s.callers[c].run in s.tables.locks && s.tables.locks[s.callers[c].run] == s.callers[c].lock)
    && (forall run :: run in s.tables.locks ==> s.tables.locks[run] < s.tables.made)
    && (forall a, b :: a in s.tables.locks && b in s.tables.locks && a != b ==> s.tables.locks[a] != s.tables.locks[b])
  }

  ghost predicate CountInv(s: State) {
    forall run :: CountedRight(s, run)
  }

  ghost predicate CountedRight(s: State, run: RunId) {
    && (run in s.tables.holders <==> Users(s, run) != {})
    && (run in s.tables.holders ==> s.tables.holders[run] == |Users(s, run)|)
  }

  /** Both tables know only runs in use. */
  ghost predicate TableInv(s: State) {
    && (forall run :: run in s.tables.locks ==> InUse(s, run))
    && (forall c :: c in s.callers && s.callers[c].Dropping? ==> Users(s, s.callers[c].run) == {})
  }

  ghost predicate InUse(s: State, run: RunId) {
    exists c :: c in s.callers && s.callers[c].run == run
  }

  /** The locked flag is set exactly while one caller is inside. */
  ghost predicate HeldInv(s: State) {
    && (forall c :: c in s.callers && s.callers[c].Inside? ==> s.callers[c].lock in s.held)
    && (forall l :: l in s.held ==> Occupied(s, l))
    && (forall a, b :: a in s.callers && b in s.callers && s.callers[a].Inside? && s.callers[b].Inside? ==>
          s.callers[a].lock == s.callers[b].lock ==> a == b)
  }

  ghost predicate Occupied(s: State, l: LockId) {
    exists c :: c in s.callers && s.callers[c].Inside? && s.callers[c].lock == l
  }

  ghost predicate Inv(s: State) { GuardInv(s) && LockInv(s) && CountInv(s) && TableInv(s) && HeldInv(s) }

  /** A step moves its own caller and nobody else. */
  lemma OthersStay(s: State, step: Step, d: Caller)
    requires Enabled(s, step) && d != step.caller
    ensures d in Perform(s, step).callers <==> d in s.callers
    ensures d in s.callers ==> Perform(s, step).callers[d] == s.callers[d]
  {
  }

  lemma StepKeepsGuard(s: State, step: Step)
    requires GuardInv(s) && CountInv(s) && Enabled(s, step)
    ensures GuardInv(Perform(s, step))
  {
    if step.Unregister? {
      var c := step.caller;
      assert CountedRight(s, s.callers[c].run);
      assert c in Users(s, s.callers[c].run);
    }
  }

  /** When a run's lock is dropped, nobody else has taken it. */
  lemma ForgetIsSafe(s: State, c: Caller, d: Caller)
    requires GuardInv(s) && TableInv(s) && Enabled(s, Forget(c))
    requires d in s.callers && d != c && s.callers[d].run == s.callers[c].run
    ensures !HasLock(s.callers[d])
  {
    assert d !in Users(s, s.callers[c].run);
  }

  lemma StepKeepsLocks(s: State, step: Step)
    requires GuardInv(s) && LockInv(s) && TableInv(s) && Enabled(s, step)
    ensures LockInv(Perform(s, step))
  {
    var c := step.caller;
    hide GuardInv, TableInv;
    if step.Forget? {
      forall d | d in s.callers && d != c && s.callers[d].run == s.callers[c].run
        ensures !HasLock(s.callers[d])
      {
        ForgetIsSafe(s, c, d);
      }
    }
  }

  lemma UsersAfter(s: State, step: Step, run: RunId)
    requires Enabled(s, step)
    ensures Users(Perform(s, step), run) ==
      if step.Register? && s.callers[step.caller].run == run then Users(s, run) + {step.caller}
      else if step.Unregister? && s.callers[step.caller].run == run then Users(s, run) - {step.caller}
      else Users(s, run)
    ensures step.Register? ==> step.caller !in Users(s, run)
    ensures step.Unregister? ==> (step.caller in Users(s, run) <==> s.callers[step.caller].run == run)
  {
    var n := Perform(s, step);
    forall d | d != step.caller
      ensures d in Users(n, run) <==> d in Users(s, run)
    {
      OthersStay(s, step, d);
    }
  }

  function Holding(s: State, run: RunId): int { if run in s.tables.holders then s.tables.holders[run] else 0 }

  lemma HoldersAfter(s: State, step: Step, run: RunId)
    requires Enabled(s, step)
    requires step.Unregister? ==> s.callers[step.caller].run in s.tables.holders
    requires run in s.tables.holders ==> s.tables.holders[run] > 0
    ensures var n := Perform(s, step);
      && Holding(n, run) == Holding(s, run)
          + (if step.Register? && s.callers[step.caller].run == run then 1 else 0)
          - (if step.Unregister? && s.callers[step.caller].run == run then 1 else 0)
      && (run in n.tables.holders <==> Holding(n, run) > 0)
  {
  }

  lemma StepKeepsCounts(s: State, step: Step)
    requires CountInv(s) && Enabled(s, step)
    ensures CountInv(Perform(s, step))
  {
    var n := Perform(s, step);
    if step.Unregister? {
      UsersAfter(s, step, s.callers[step.caller].run);
      assert CountedRight(s, s.callers[step.caller].run);
    }
    forall run
      ensures CountedRight(n, run)
    {
      assert CountedRight(s, run);
      UsersAfter(s, step, run);
      hide Users, CountInv, Perform, Enabled;
      assert run in s.tables.holders ==> s.tables.holders[run] > 0;
      HoldersAfter(s, step, run);
      assert |Users(n, run)| == Holding(n, run);
    }
  }

  lemma LocksStayInUse(s: State, step: Step, run: RunId)
    requires Enabled(s, step) && CountedRight(Perform(s, step), run) && run in Perform(s, step).tables.locks
    requires run in s.tables.locks ==> InUse(s, run)
    requires step.Unregister? ==> CountOut(s.tables, s.callers[step.caller].run).Some?
    ensures InUse(Perform(s, step), run)
  {
    var c, n := step.caller, Perform(s, step);
    if c in n.callers && n.callers[c].run == run {
    } else if step.Unregister? && s.callers[c].run == run {
      var d :| d in Users(n, run);
    } else {
      var d :| d in s.callers && s.callers[d].run == run;
      if d != c {
        OthersStay(s, step, d);
      }
    }
  }

  lemma StepKeepsTables(s: State, step: Step)
    requires GuardInv(s) && CountInv(s) && TableInv(s) && Enabled(s, step)
    ensures TableInv(Perform(s, step))
  {
    var c, n := step.caller, Perform(s, step);
    StepKeepsCounts(s, step);
    StepKeepsGuard(s, step);
    forall run | run in n.tables.locks
      ensures InUse(n, run)
    {
      hide InUse, Users;
      assert CountedRight(n, run);
      LocksStayInUse(s, step, run);
    }
    forall d | d in n.callers && n.callers[d].Dropping?
      ensures Users(n, n.callers[d].run) == {}
    {
      assert CountedRight(n, n.callers[d].run);
      UsersAfter(s, step, n.callers[d].run);
      hide Users, InUse;
      if d != c {
        OthersStay(s, step, d);
        assert n.guard == Some(d) && s.guard == Some(d);
      }
    }
  }

  lemma StepKeepsHeld(s: State, step: Step)
    requires HeldInv(s) && Enabled(s, step)
    ensures HeldInv(Perform(s, step))
  {
    var c, n := step.caller, Perform(s, step);
    forall l | l in n.held
      ensures Occupied(n, l)
    {
      if step.Acquire? && l == s.callers[c].lock {
        assert n.callers[c].Inside? && n.callers[c].lock == l;
      } else {
        assert Occupied(s, l);
        var d :| d in s.callers && s.callers[d].Inside? && s.callers[d].lock == l;
        OthersStay(s, step, d);
      }
    }
    hide Occupied;
  }

  lemma StepKeepsInv(s: State, step: Step)
    requires Inv(s)
    ensures Inv(Next(s, step))
  {
    if Enabled(s, step) {
      StepKeepsGuard(s, step);
      StepKeepsLocks(s, step);
      StepKeepsCounts(s, step);
      StepKeepsTables(s, step);
      StepKeepsHeld(s, step);
    }
  }

  lemma {:induction false} InvAlways(steps: seq<Step>)
    ensures Inv(Exec(steps))
  {
    if steps != [] {
      InvAlways(steps[..|steps| - 1]);
      StepKeepsInv(Exec(steps[..|steps| - 1]), steps[|steps| - 1]);
    }
  }

  // ---- what it means ----

  /** Under every interleaving at most one caller is inside a run. */
  lemma MutualExclusion(steps: seq<Step>, a: Caller, b: Caller)
    requires var s := Exec(steps);
      a in s.callers && b in s.callers && s.callers[a].Inside? && s.callers[b].Inside? && s.callers[a].run == s.callers[b].run
    ensures a == b
  {
    InvAlways(steps);
  }

  /** Callers hold the same lock object exactly when they are on the same run. */
  lemma OneLockPerRun(steps: seq<Step>, a: Caller, b: Caller)
    requires var s := Exec(steps);
      a in s.callers && b in s.callers && HasLock(s.callers[a]) && HasLock(s.callers[b])
    ensures var s := Exec(steps); s.callers[a].lock == s.callers[b].lock <==> s.callers[a].run == s.callers[b].run
  {
    InvAlways(steps);
  }

  /** The count is the number of registered callers, and outside the guarded
      sections both tables hold exactly the runs somebody uses. */
  lemma NothingIsLeaked(steps: seq<Step>, run: RunId)
    ensures var s := Exec(steps);
      && (if run in s.tables.holders then s.tables.holders[run] else 0) == |Users(s, run)|
      && (run in s.tables.holders <==> Users(s, run) != {})
      && (s.guard.None? ==> (run in s.tables.locks <==> Users(s, run) != {}))
      && (!InUse(s, run) ==> run !in s.tables.locks && run !in s.tables.holders)
  {
    InvAlways(steps);
    var s := Exec(steps);
    assert CountedRight(s, run);
    if Users(s, run) != {} {
      var c :| c in Users(s, run);
    }
    if s.guard.None? && run in s.tables.locks {
      var c :| c in s.callers && s.callers[c].run == run;
      assert c in Users(s, run);
    }
  }

  /** A caller that waits can be let in, unless another is inside the same run. */
  lemma WaitersAreNotForgotten(steps: seq<Step>, c: Caller)
    requires c in Exec(steps).callers && Exec(steps).callers[c].Waiting?
    ensures var s := Exec(steps);
      !Enabled(s, Acquire(c)) <==>
        exists d :: d in s.callers && s.callers[d].Inside? && s.callers[d].run == s.callers[c].run
  {
    InvAlways(steps);
    var s := Exec(steps);
    var l := s.callers[c].lock;
    if l in s.held {
      assert Occupied(s, l);
    }
  }

  /** No caller crashes, and while any is under way some caller can take a step
      other than giving up. */
  lemma NeverDeadlocked(steps: seq<Step>)
    requires Exec(steps).callers != map[]
    ensures exists step: Step :: step.caller in Exec(steps).callers && !step.AbandonWait? && Enabled(Exec(steps), step)
    ensures forall c :: c in Exec(steps).callers ==> !Exec(steps).callers[c].Crashed?
  {
    InvAlways(steps);
    var s := Exec(steps);
    var c :| c in s.callers;
    if s.guard.Some? {
      c := s.guard.value;
    } else if s.callers[c].Waiting? && s.callers[c].lock in s.held {
      assert Occupied(s, s.callers[c].lock);
      c :| c in s.callers && s.callers[c].Inside?;
    }
    var step := match s.callers[c]
      case Entering(_) => SetDefault(c)
      case Adopted(_, _) => Register(c)
      case Waiting(_, _) => Acquire(c)
      case Inside(_, _) => LeaveBody(c)
      case Leaving(_, _) => TakeExitGuard(c)
      case Exiting(_, _) => Unregister(c)
      case Dropping(_, _) => Forget(c)
      case Crashed(_) => Forget(c);
    assert step.caller in s.callers && !step.AbandonWait? && Enabled(s, step);
  }

  // ---- the coordinator's own sections ----

  class InProcessRunCoordinator {
    var locks: map<RunId, LockId>
    var holders: map<RunId, int>
    ghost var made: LockId

    constructor ()
      ensures locks == map[] && holders == map[] && made == 0
    {
      locks, holders, made := map[], map[], 0;
    }

    ghost function Contents(): Tables reads this { Tables(locks, holders, made) }

    /** The guarded section on entry; `candidate` is the lock object made for the call. */
    method Enter(run: RunId, candidate: LockId) returns (lock: LockId)
      requires candidate == made
      modifies this
      ensures Contents() == CountIn(Adopt(old(Contents()), run), run)
      ensures run in locks && lock == locks[run]
    {
      if run !in locks {
        locks := locks[run := candidate];
      }
      lock := locks[run];
      var others := if run in holders then holders[run] else 0;
      holders := holders[run := others + 1];
      made := made + 1;
    }

    /** The guarded section on exit. */
    method Exit(run: RunId)
      requires run in holders
      modifies this
      ensures var t := CountOut(old(Contents()), run);
        && t.Some?
        && Contents() == if run in t.value.holders then t.value else DropLock(t.value, run)
    {
      var remaining := holders[run] - 1;
      if remaining <= 0 {
        holders := holders - {run};
        locks := locks - {run};
      } else {
        holders := holders[run := remaining];
      }
    }
  }
}
