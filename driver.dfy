/**
  * The bookkeeping of the forward run (`Mf6Adj.solve_gwf`): time steps are
  * taken until the solver's clock reaches the end time, each step makes at
  * most MXITER solve calls, a step that never converges is counted, a
  * stress period / time step pair may be visited once only, one solution
  * group is written per step, and the time-step sequences are written to
  * the `aux` group at the end. The flow solver is an abstract trace: what
  * each of its steps reports, in order.
  */
module ForwardDriver {
  import opened Wrappers
  import opened Snapshot

  /** A one-based counter of the solver's time discretisation (KPER, KSTP). */
  type Counter = x: int | x >= 1 witness 1

  /**
    * One time step as the driver sees it: KPER and KSTP once the step is
    * prepared, whether solve call number `c` (from 0) of the step reports
    * convergence, and the current time and step length after the step is
    * finalised.
    */
  datatype SolverStep = SolverStep(kper: Counter, kstp: Counter, converges: nat -> bool, ctime: real, dt: real)

  /** A solver session: its clock at the start, its end time, MXITER, and the time steps it takes. */
  datatype Session = Session(startTime: real, endTime: real, maxIter: int, steps: seq<SolverStep>)

  /** The solver's clock before step `n`. */
  function TimeBefore(s: Session, n: nat): real
    requires n <= |s.steps|
  {
    if n == 0 then s.startTime else s.steps[n - 1].ctime
  }

  /** The trace lists exactly the steps taken while the clock is short of the end time. */
  predicate Consistent(s: Session) {
    forall n :: 0 <= n <= |s.steps| ==> (TimeBefore(s, n) < s.endTime <==> n < |s.steps|)
  }

  /** The local variables of `solve_gwf` that outlive one step; `convg` is unbound before the first solve. */
  datatype DriverState = DriverState(
    convg: Option<bool>,
    numFails: nat,
    visited: seq<(nat, nat)>,
    ctimes: seq<real>,
    dts: seq<real>,
    kpers: seq<int>,
    kstps: seq<int>)

  function Initial(): DriverState {
    DriverState(None, 0, [], [], [], [], [])
  }

  /** What stops a forward run. */
  datatype DriverError =
    | ConvergenceUnset                    // `convg` read before any solve call (MXITER <= 0)
    | AlreadyVisited(kper: int, kstp: int) // "(kper, kstp) already visited"
    | GroupExists(name: string)            // "group_name ... already in hdf file"

  /** The end of a run: the driver's variables, the groups in the store, and the error that stopped it, if any. */
  datatype DriveEnd = DriveEnd(state: DriverState, groups: seq<string>, error: Option<DriverError>)

  // ----- one step's solve loop -----

  /**
    * The solve loop of a step from call `kiter` on, `convg` being the flag
    * held so far: the flag it leaves and the number of solve calls made.
    */
  function Iterate(conv: nat -> bool, maxIter: int, kiter: nat, convg: Option<bool>): (Option<bool>, nat)
    decreases maxIter - kiter
  {
    if kiter >= maxIter then (convg, 0)
    else if conv(kiter) then (Some(true), 1)
    else
      var r := Iterate(conv, maxIter, kiter + 1, Some(false));
      (r.0, r.1 + 1)
  }

  /** `while kiter < max_iter: convg = solve(1); if convg: break; kiter += 1` */
  method SolveStep(conv: nat -> bool, maxIter: int, convgIn: Option<bool>) returns (convg: Option<bool>, calls: nat)
    ensures (convg, calls) == Iterate(conv, maxIter, 0, convgIn)
  {
    convg := convgIn;
    var kiter: nat := 0;
    calls := 0;
    while kiter < maxIter
      invariant calls == kiter
      invariant kiter > 0 ==> convg == Some(false)
      invariant Iterate(conv, maxIter, 0, convgIn) ==
        var r := Iterate(conv, maxIter, kiter, convg); (r.0, r.1 + calls)
      decreases maxIter - kiter
    {
      convg := Some(conv(kiter));
      calls := calls + 1;
      if conv(kiter) {
        break;
      }
      kiter := kiter + 1;
    }
  }

  /** Some solve call of the step within the iteration budget reports convergence. */
  ghost predicate ConvergesWithin(conv: nat -> bool, maxIter: int) {
    exists k: nat :: k < maxIter && conv(k)
  }

  // ----- the run -----

  /** The zero-based `(kper, kstp)` of a step. */
  function Pair(step: SolverStep): (nat, nat) {
    (step.kper - 1, step.kstp - 1)
  }

  /** The solution group of a step. */
  function StepGroup(step: SolverStep): string {
    GroupName(Pair(step).0, Pair(step).1)
  }

  /** `write_group_to_hdf` on the store's list of groups. */
  function Write(groups: seq<string>, name: string): Option<seq<string>> {
    if name in groups then None else Some(groups + [name])
  }

  /** What one step leaves: the run goes on, or stops with an error. */
  datatype StepEnd = Continue(state: DriverState, groups: seq<string>) | Stop(end: DriveEnd)

  /**
    * One pass of the time-step loop on `step`: the solve loop, the failure
    * count, the four time-step sequences, the visited check and the
    * solution group.
    */
  function TakeStep(maxIter: int, step: SolverStep, st: DriverState, groups: seq<string>): StepEnd {
    var convg := Iterate(step.converges, maxIter, 0, st.convg).0;
    if convg.None? then Stop(DriveEnd(st, groups, Some(ConvergenceUnset)))
    else
      var st1 := st.(convg := convg,
                     numFails := if convg.value then st.numFails else st.numFails + 1,
                     ctimes := st.ctimes + [step.ctime], dts := st.dts + [step.dt],
                     kpers := st.kpers + [step.kper - 1], kstps := st.kstps + [step.kstp - 1]);
      if Pair(step) in st.visited then Stop(DriveEnd(st1, groups, Some(AlreadyVisited(step.kper - 1, step.kstp - 1))))
      else
        var st2 := st1.(visited := st.visited + [Pair(step)]);
        match Write(groups, StepGroup(step))
        case None => Stop(DriveEnd(st2, groups, Some(GroupExists(StepGroup(step)))))
        case Some(g) => Continue(st2, g)
  }

  /** After the last step: the `aux` group, then the `gwf_info` group. */
  function Finish(st: DriverState, groups: seq<string>): DriveEnd {
    match Write(groups, AuxGroup)
    case None => DriveEnd(st, groups, Some(GroupExists(AuxGroup)))
    case Some(g1) =>
      match Write(g1, GwfInfoGroup)
      case None => DriveEnd(st, g1, Some(GroupExists(GwfInfoGroup)))
      case Some(g2) => DriveEnd(st, g2, None)
  }

  /** The run from step `n` on, with the driver's variables `st` and the store holding `groups`. */
  function Drive(s: Session, n: nat, st: DriverState, groups: seq<string>): DriveEnd
    requires n <= |s.steps|
    decreases |s.steps| - n
  {
    if n == |s.steps| then Finish(st, groups)
    else
      match TakeStep(s.maxIter, s.steps[n], st, groups)
      case Stop(e) => e
      case Continue(st', g) => Drive(s, n + 1, st', g)
  }

  /**
    * One pass of the time-step loop of `solve_gwf` on the solver's `step`:
    * the solve loop, the failure count, the time-step sequences, the
    * visited check and the write of the step's solution group.
    */
  method TimeStep(maxIter: int, step: SolverStep, st: DriverState, store: SnapshotStore) returns (r: StepEnd)
    modifies store
    ensures r == TakeStep(maxIter, step, st, old(store.groups))
    ensures store.groups == if r.Continue? then r.groups else r.end.groups
  {
    var kper: nat, kstp: nat := step.kper - 1, step.kstp - 1;
    var convg, calls := SolveStep(step.converges, maxIter, st.convg);
    if convg.None? {
      IterateMeaning(step.converges, maxIter, 0, st.convg);
      return Stop(DriveEnd(st, store.groups, Some(ConvergenceUnset)));
    }
    var numFails := st.numFails;
    if !convg.value {
      numFails := numFails + 1;
    }
    var ctime, dt1 := step.ctime, step.dt;
    var st1 := st.(convg := convg, numFails := numFails,
                   ctimes := st.ctimes + [ctime], dts := st.dts + [dt1],
                   kpers := st.kpers + [kper], kstps := st.kstps + [kstp]);
    if (kper, kstp) in st.visited {
      return Stop(DriveEnd(st1, store.groups, Some(AlreadyVisited(kper, kstp))));
    }
    var st2 := st1.(visited := st.visited + [(kper, kstp)]);
    var name := GroupName(kper, kstp);
    var refused := store.WriteGroup(name);
    if refused {
      return Stop(DriveEnd(st2, store.groups, Some(GroupExists(name))));
    }
    r := Continue(st2, store.groups);
  }

  /** Step `n` of the run, stated as the run it continues with or the end it stops at. */
  method DriveStep(s: Session, n: nat, st: DriverState, store: SnapshotStore) returns (r: StepEnd)
    requires n < |s.steps|
    modifies store
    ensures r.Stop? ==> store.groups == r.end.groups && Drive(s, n, st, old(store.groups)) == r.end
    ensures r.Continue? ==>
      store.groups == r.groups && Drive(s, n, st, old(store.groups)) == Drive(s, n + 1, r.state, r.groups)
  {
    r := TimeStep(s.maxIter, s.steps[n], st, store);
  }

  /**
    * `solve_gwf`: opens a new store, takes the solver's steps until its clock
    * reaches the end time, and writes one solution group per step and then
    * the `aux` and `gwf_info` groups. Returns the store, the driver's
    * variables and the error that stopped the run, if any.
    */
  method SolveGwf(s: Session) returns (store: SnapshotStore, st: DriverState, err: Option<DriverError>)
    requires Consistent(s)
    ensures fresh(store)
    ensures DriveEnd(st, store.groups, err) == Drive(s, 0, Initial(), [])
  {
    store := new SnapshotStore();
    var ctime, etime := s.startTime, s.endTime;
    st := Initial();
    var n := 0;
    while ctime < etime
      invariant n <= |s.steps| && ctime == TimeBefore(s, n)
      invariant Drive(s, n, st, store.groups) == Drive(s, 0, Initial(), [])
      decreases |s.steps| - n
    {
      ClockRuns(s, n);
      var r := DriveStep(s, n, st, store);
      if r.Stop? {
        return store, r.end.state, r.end.error;
      }
      st := r.state;
      ctime := s.steps[n].ctime;
      n := n + 1;
    }
    ClockRuns(s, n);
    err := WriteFinalGroups(st, store);
  }

  /** The clock is short of the end time exactly while steps remain. */
  lemma ClockRuns(s: Session, n: nat)
    requires Consistent(s) && n <= |s.steps|
    ensures TimeBefore(s, n) < s.endTime <==> n < |s.steps|
  {
  }

  /** The writes of the `aux` and `gwf_info` groups once the clock reaches the end time. */
  method WriteFinalGroups(st: DriverState, store: SnapshotStore) returns (err: Option<DriverError>)
    modifies store
    ensures DriveEnd(st, store.groups, err) == Finish(st, old(store.groups))
  {
    var refused := store.WriteGroup(AuxGroup);
    if refused {
      return Some(GroupExists(AuxGroup));
    }
    refused := store.WriteGroup(GwfInfoGroup);
    if refused {
      return Some(GroupExists(GwfInfoGroup));
    }
    err := None;
  }

  // ----- lemmas -----

  /**
    * A step's solve loop makes at most MXITER calls and stops at the first
    * call that converges; it leaves the flag set to converged exactly when
    * some call within the budget converges. With no budget it makes no call
    * and leaves the flag as it was.
    */
  lemma {:induction false} IterateMeaning(conv: nat -> bool, maxIter: int, kiter: nat, convg: Option<bool>)
    ensures var (c, calls) := Iterate(conv, maxIter, kiter, convg);
      (kiter >= maxIter ==> c == convg && calls == 0) &&
      (kiter < maxIter ==>
        kiter + calls <= maxIter &&
        (c == Some(true) <==> exists k: nat :: kiter <= k < maxIter && conv(k)) &&
        (c == Some(true) ==> calls >= 1 && conv(kiter + calls - 1) &&
                             forall k: nat :: kiter <= k < kiter + calls - 1 ==> !conv(k)) &&
        (c != Some(true) ==> c == Some(false) && kiter + calls == maxIter))
    decreases maxIter - kiter
  {
    if kiter < maxIter && !conv(kiter) {
      IterateMeaning(conv, maxIter, kiter + 1, Some(false));
      var (c, calls) := Iterate(conv, maxIter, kiter + 1, Some(false));
      if c != Some(true) {
        forall k: nat | kiter <= k < maxIter ensures !conv(k) {
          if k > kiter {
            assert !(kiter + 1 <= k < maxIter && conv(k));
          }
        }
      }
    }
  }

  /** The number of steps among the first `n` whose solve calls never converge within the budget. */
  ghost function Failures(s: Session, n: nat): nat
    requires n <= |s.steps|
  {
    if n == 0 then 0
    else Failures(s, n - 1) + if ConvergesWithin(s.steps[n - 1].converges, s.maxIter) then 0 else 1
  }

  /** No two of the first `n` steps share a stress period and time step. */
  ghost predicate DistinctUpTo(s: Session, n: nat)
    requires n <= |s.steps|
  {
    forall a, b :: 0 <= a < b < n ==> Pair(s.steps[a]) != Pair(s.steps[b])
  }

  /** The four time-step sequences and `visited` hold one entry for each of the first `n` steps, the store their groups. */
  ghost predicate Recorded(s: Session, n: nat, st: DriverState, groups: seq<string>)
    requires n <= |s.steps|
  {
    |st.visited| == n && |st.ctimes| == n && |st.dts| == n && |st.kpers| == n && |st.kstps| == n &&
    groups == GroupNames(st.visited) &&
    forall m :: 0 <= m < n ==>
      st.visited[m] == Pair(s.steps[m]) && st.ctimes[m] == s.steps[m].ctime &&
      st.dts[m] == s.steps[m].dt && st.kpers[m] == s.steps[m].kper - 1 &&
      st.kstps[m] == s.steps[m].kstp - 1
  }

  /** The driver's variables and the store after the first `n` steps of a run that has not stopped. */
  ghost predicate After(s: Session, n: nat, st: DriverState, groups: seq<string>) {
    n <= |s.steps| &&
    Recorded(s, n, st, groups) &&
    DistinctUpTo(s, n) &&
    st.numFails == Failures(s, n) &&
    (n > 0 ==> st.convg.Some?)
  }

  lemma IterateConverges(conv: nat -> bool, maxIter: int, convg: Option<bool>)
    requires maxIter > 0
    ensures var c := Iterate(conv, maxIter, 0, convg).0;
      c.Some? && (c.value <==> ConvergesWithin(conv, maxIter))
  {
    IterateMeaning(conv, maxIter, 0, convg);
  }

  /**
    * One step of a run that has not stopped, with a positive budget: it
    * stops exactly when its pair was visited before, and then with that
    * error and one more entry in each time-step sequence than there are
    * solution groups; otherwise the run goes on from the next step.
    */
  lemma TakeStepAfter(s: Session, n: nat, st: DriverState, groups: seq<string>)
    requires s.maxIter > 0 && After(s, n, st, groups) && n < |s.steps|
    ensures match TakeStep(s.maxIter, s.steps[n], st, groups)
      case Stop(e) =>
        Pair(s.steps[n]) in st.visited &&
        e.error == Some(AlreadyVisited(s.steps[n].kper - 1, s.steps[n].kstp - 1)) &&
        |e.state.ctimes| == |e.state.dts| == |e.state.kpers| == |e.state.kstps| == |e.groups| + 1
      case Continue(st', g) =>
        Pair(s.steps[n]) !in st.visited && After(s, n + 1, st', g)
  {
    assert groups == GroupNames(st.visited);
    GroupNamesHas(st.visited, Pair(s.steps[n]));
    if Pair(s.steps[n]) in st.visited {
      TakeStepRevisit(s, n, st, groups);
    } else {
      TakeStepNew(s, n, st, groups);
    }
  }

  /** A step on a pair already visited stops with one more entry in each sequence than there are groups. */
  lemma TakeStepRevisit(s: Session, n: nat, st: DriverState, groups: seq<string>)
    requires s.maxIter > 0 && After(s, n, st, groups) && n < |s.steps|
    requires Pair(s.steps[n]) in st.visited
    ensures var e := TakeStep(s.maxIter, s.steps[n], st, groups);
      e.Stop? &&
      e.end.error == Some(AlreadyVisited(s.steps[n].kper - 1, s.steps[n].kstp - 1)) &&
      |e.end.state.ctimes| == |e.end.state.dts| == |e.end.state.kpers| == |e.end.state.kstps| == |e.end.groups| + 1
  {
    var step := s.steps[n];
    IterateConverges(step.converges, s.maxIter, st.convg);
    assert |groups| == |st.visited| == n;
  }

  /** A step on a new pair extends the bookkeeping by that step. */
  lemma TakeStepNew(s: Session, n: nat, st: DriverState, groups: seq<string>)
    requires s.maxIter > 0 && After(s, n, st, groups) && n < |s.steps|
    requires Pair(s.steps[n]) !in st.visited && StepGroup(s.steps[n]) !in groups
    ensures var e := TakeStep(s.maxIter, s.steps[n], st, groups);
      e.Continue? && After(s, n + 1, e.state, e.groups)
  {
    var e := TakeStep(s.maxIter, s.steps[n], st, groups);
    StepOnNewPair(s.maxIter, s.steps[n], st, groups);
    AfterExtend(s, n, st, groups, e.state, e.groups);
  }

  /** A step with a positive budget on a new pair whose group is new: the variables and groups it leaves. */
  lemma StepOnNewPair(maxIter: int, step: SolverStep, st: DriverState, groups: seq<string>)
    requires maxIter > 0 && Pair(step) !in st.visited && StepGroup(step) !in groups
    ensures var e := TakeStep(maxIter, step, st, groups);
      e.Continue? &&
      e.state.convg == Some(ConvergesWithin(step.converges, maxIter)) &&
      e.state.numFails == st.numFails + (if ConvergesWithin(step.converges, maxIter) then 0 else 1) &&
      e.state.visited == st.visited + [Pair(step)] &&
      e.state.ctimes == st.ctimes + [step.ctime] && e.state.dts == st.dts + [step.dt] &&
      e.state.kpers == st.kpers + [step.kper - 1] && e.state.kstps == st.kstps + [step.kstp - 1] &&
      e.groups == groups + [StepGroup(step)]
  {
    IterateConverges(step.converges, maxIter, st.convg);
  }

  /** Appending step `n` to the variables and the store of a run that has not stopped. */
  lemma AfterExtend(s: Session, n: nat, st: DriverState, groups: seq<string>, st2: DriverState, g: seq<string>)
    requires After(s, n, st, groups) && n < |s.steps|
    requires Pair(s.steps[n]) !in st.visited
    requires st2.convg.Some?
    requires st2.numFails == st.numFails + if ConvergesWithin(s.steps[n].converges, s.maxIter) then 0 else 1
    requires st2.visited == st.visited + [Pair(s.steps[n])]
    requires st2.ctimes == st.ctimes + [s.steps[n].ctime] && st2.dts == st.dts + [s.steps[n].dt]
    requires st2.kpers == st.kpers + [s.steps[n].kper - 1] && st2.kstps == st.kstps + [s.steps[n].kstp - 1]
    requires g == groups + [StepGroup(s.steps[n])]
    ensures After(s, n + 1, st2, g)
  {
    assert st2.visited[..n] == st.visited;
    assert DistinctUpTo(s, n + 1) by {
      forall a, b | 0 <= a < b < n + 1 ensures Pair(s.steps[a]) != Pair(s.steps[b]) {
        if b == n {
          assert st.visited[a] == Pair(s.steps[a]);
        }
      }
    }
    assert Recorded(s, n + 1, st2, g) by {
      forall m | 0 <= m < n + 1
        ensures st2.visited[m] == Pair(s.steps[m]) && st2.ctimes[m] == s.steps[m].ctime &&
          st2.dts[m] == s.steps[m].dt && st2.kpers[m] == s.steps[m].kper - 1 &&
          st2.kstps[m] == s.steps[m].kstp - 1
      {
        if m < n {
          assert st2.visited[m] == st.visited[m] && st2.ctimes[m] == st.ctimes[m] && st2.dts[m] == st.dts[m];
          assert st2.kpers[m] == st.kpers[m] && st2.kstps[m] == st.kstps[m];
        }
      }
    }
    assert st2.numFails == Failures(s, n + 1);
  }

  /** The end of a run that has not stopped: the `aux` and `gwf_info` groups are added. */
  lemma FinishAfter(s: Session, st: DriverState, groups: seq<string>)
    requires After(s, |s.steps|, st, groups)
    ensures Finish(st, groups) == DriveEnd(st, groups + [AuxGroup, GwfInfoGroup], None)
  {
    GroupNamesNotReserved(st.visited);
  }

  /**
    * From any point of a run with a positive budget: the run ends without
    * error exactly when no pair is visited twice; it is only ever stopped by
    * a revisited pair, never by the store refusing a group. On success the
    * four time-step sequences hold one entry per step, in order, the store
    * holds one solution group per step, in order, then `aux` and
    * `gwf_info`, and `num_fails` counts the steps that never converged. On a
    * revisit the sequences hold one entry more than the solution groups.
    */
  lemma {:induction false} DriveFrom(s: Session, n: nat, st: DriverState, groups: seq<string>)
    requires s.maxIter > 0 && After(s, n, st, groups)
    ensures var e := Drive(s, n, st, groups);
      (e.error.None? <==> DistinctUpTo(s, |s.steps|)) &&
      (e.error.Some? ==>
        e.error.value.AlreadyVisited? &&
        |e.state.ctimes| == |e.state.dts| == |e.state.kpers| == |e.state.kstps| == |e.groups| + 1) &&
      (e.error.None? ==>
        |e.groups| == |s.steps| + 2 &&
        After(s, |s.steps|, e.state, e.groups[..|s.steps|]) &&
        e.groups[|s.steps|..] == [AuxGroup, GwfInfoGroup])
    decreases |s.steps| - n
  {
    if n == |s.steps| {
      FinishAfter(s, st, groups);
      assert (groups + [AuxGroup, GwfInfoGroup])[..n] == groups;
    } else {
      TakeStepAfter(s, n, st, groups);
      match TakeStep(s.maxIter, s.steps[n], st, groups)
      case Stop(e) =>
        var m :| 0 <= m < n && st.visited[m] == Pair(s.steps[n]);
        assert Pair(s.steps[m]) == Pair(s.steps[n]);
      case Continue(st', g) =>
        DriveFrom(s, n + 1, st', g);
    }
  }

  /**
    * A whole run with a positive MXITER: it completes exactly when no stress
    * period / time step pair comes twice, and then `ctimes`, `dts`, `kpers`
    * and `kstps` all have as many entries as there are solution groups, one
    * per step in the order taken, with `kpers` and `kstps` the solver's
    * counters less one; the store holds those groups and then `aux` and
    * `gwf_info`; `num_fails` is the number of steps that never converged.
    */
  lemma RunBookkeeping(s: Session)
    requires s.maxIter > 0
    ensures var e := Drive(s, 0, Initial(), []);
      (e.error.None? <==> DistinctUpTo(s, |s.steps|)) &&
      (e.error.Some? ==> e.error.value.AlreadyVisited?) &&
      (e.error.None? ==>
        |e.state.ctimes| == |e.state.dts| == |e.state.kpers| == |e.state.kstps| == |s.steps| &&
        |e.groups| == |s.steps| + 2 &&
        (forall m :: 0 <= m < |s.steps| ==>
          e.state.kpers[m] == s.steps[m].kper - 1 && e.state.kstps[m] == s.steps[m].kstp - 1 &&
          e.groups[m] == GroupName(e.state.kpers[m], e.state.kstps[m]) &&
          e.state.ctimes[m] == s.steps[m].ctime && e.state.dts[m] == s.steps[m].dt) &&
        e.groups[|s.steps|..] == [AuxGroup, GwfInfoGroup] &&
        e.state.numFails == Failures(s, |s.steps|))
  {
    DriveFrom(s, 0, Initial(), []);
    var e := Drive(s, 0, Initial(), []);
    if e.error.None? {
      var k := |s.steps|;
      forall m | 0 <= m < k
        ensures e.groups[m] == GroupName(e.state.kpers[m], e.state.kstps[m])
      {
        assert e.groups[..k][m] == e.groups[m];
        GroupNamesAt(e.state.visited, m);
      }
    }
  }

  /** With no iteration budget the first step stops the run before anything is written. */
  lemma RunWithoutBudget(s: Session)
    requires s.maxIter <= 0 && s.steps != []
    ensures Drive(s, 0, Initial(), []) == DriveEnd(Initial(), [], Some(ConvergenceUnset))
  {
    IterateMeaning(s.steps[0].converges, s.maxIter, 0, None);
  }
}
