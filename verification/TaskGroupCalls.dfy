/**
 What a caller of a task group gets, read off the calls of a run: the limit that was asked for, the
 order in which cleanups were registered, what it means that `Close` or `Wait` has returned, and where
 an error comes from.
 */
module TaskGroupCalls {
  import opened Basics
  import opened TaskErrors
  import opened TaskGroup
  import opened TaskGroupSafety
  import E = TaskGroupEnd
  import I = TaskGroupIds

  // ---------------------------------------------------------------- the limit

  /** The steps that start the group, after which `SetLimit` has no effect. */
  predicate Starts(step: Step) {
    (step.Submit? && step.sub.Begin?) || (step.Wait? && step.wait.BeginWait?)
  }

  predicate Limits(step: Step) {
    step.Outside? && step.o.SetLimit?
  }

  /** The limit asked for: the argument of the last `SetLimit` before the start, or `max`. */
  function LimitAsked(max: int, steps: seq<Step>): int
    decreases |steps|
  {
    if steps == [] || Starts(steps[0]) then max
    else LimitAsked(if Limits(steps[0]) then steps[0].o.n else max, steps[1..])
  }

  /** The channel of a group with limit `n`: none, or one of capacity `n`. */
  predicate HasLimit(s: State, n: int) {
    if n > 0 then s.sem.capacity == Some(n) else s.sem.capacity == None
  }

  lemma SubmitLimit(s: State, t: Tid, a: SubAct)
    requires SubReady(s, t, a)
    ensures var r := SubApply(s, t, a);
            r.sem.capacity == s.sem.capacity && (r.started <==> s.started || a.Begin?)
  {
  }

  lemma WorkLimit(s: State, t: Tid, a: WorkAct)
    requires WorkReady(s, t, a)
    ensures var r := WorkApply(s, t, a); r.sem.capacity == s.sem.capacity && r.started == s.started
  {
  }

  lemma FundLimit(s: State, t: Tid, a: FundAct)
    requires FundReady(s, t, a)
    ensures FundApply(s, t, a).started == s.started
  {
  }

  lemma WaitLimit(s: State, t: Tid, a: WaitAct)
    requires WaitReady(s, t, a)
    ensures WaitApply(s, t, a).started <==> s.started || a.BeginWait?
  {
  }

  lemma CloseLimit(s: State, t: Tid, a: CloseAct)
    requires CloseReady(s, t, a)
    ensures CloseApply(s, t, a).started == s.started
  {
  }

  lemma CleanLimit(s: State, t: Tid, a: CleanAct)
    requires CleanReady(s, t, a)
    ensures CleanApply(s, t, a).started == s.started
  {
  }

  lemma StepStarts(s: State, step: Step)
    requires Enabled(s, step)
    ensures Apply(s, step).started <==> s.started || Starts(step)
  {
    match step
    case Outside(o) =>
    case Submit(t, a) => SubmitLimit(s, t, a);
    case Work(t, a) => WorkLimit(s, t, a);
    case Fund(t, a) => FundLimit(s, t, a);
    case Wait(t, a) => WaitLimit(s, t, a);
    case Close(t, a) => CloseLimit(s, t, a);
    case Clean(t, a) => CleanLimit(s, t, a);
  }

  lemma StepLimit(s: State, step: Step)
    requires Enabled(s, step) && !(Limits(step) && !s.started)
    ensures Apply(s, step).sem.capacity == s.sem.capacity
  {
    match step
    case Outside(o) =>
    case Submit(t, a) => SubmitLimit(s, t, a);
    case Work(t, a) => WorkLimit(s, t, a);
    case _ => EndFrame(s, step);
  }

  lemma {:induction false} StartedRun(s: State, steps: seq<Step>)
    requires Feasible(s, steps) && s.started
    ensures After(s, steps).sem.capacity == s.sem.capacity
    decreases |steps|
  {
    if steps != [] {
      StepStarts(s, steps[0]);
      StepLimit(s, steps[0]);
      StartedRun(Apply(s, steps[0]), steps[1..]);
    }
  }

  lemma {:induction false} LimitRun(s: State, steps: seq<Step>, n: int)
    requires Feasible(s, steps) && !s.started && HasLimit(s, n)
    ensures HasLimit(After(s, steps), LimitAsked(n, steps))
    decreases |steps|
  {
    if steps != [] {
      var step := steps[0];
      StepStarts(s, step);
      if Starts(step) {
        StepLimit(s, step);
        StartedRun(Apply(s, step), steps[1..]);
      } else if Limits(step) {
        LimitRun(Apply(s, step), steps[1..], step.o.n);
      } else {
        StepLimit(s, step);
        LimitRun(Apply(s, step), steps[1..], n);
      }
    }
  }

  /** In every state of every run the limit in force is the one asked for: with a positive limit no more
      tasks are Running and no more goroutines hold a token, and otherwise there is no channel. */
  lemma LimitKept(max: int, keep: bool, steps: seq<Step>)
    requires Feasible(Init(max, keep), steps)
    ensures var s := After(Init(max, keep), steps); var n := LimitAsked(max, steps);
            && (n > 0 ==> |set id | id in s.reg.tasks && s.reg.tasks[id].status == Running| <= n)
            && (n > 0 ==> |Pick(s.threads, HoldsToken)| <= n)
            && (n <= 0 ==> s.sem.capacity == None)
  {
    LimitRun(Init(max, keep), steps, max);
    SemaphoreConserved(max, keep, steps);
    if LimitAsked(max, steps) > 0 {
      AtMostLimitRunning(max, keep, steps);
    }
  }

  /** A call that wants a token gets one exactly when fewer than the limit are held, and a `TryGo` is
      refused exactly when all of them are. */
  lemma RefusedIffFull(max: int, keep: bool, steps: seq<Step>, t: Tid)
    requires Feasible(Init(max, keep), steps)
    requires var s := After(Init(max, keep), steps);
             t in s.threads && s.threads[t].Submitter? && s.threads[t].sub.SubAcquire?
    requires LimitAsked(max, steps) > 0
    ensures var s := After(Init(max, keep), steps); var n := LimitAsked(max, steps);
            && (Enabled(s, Submit(t, Acquire)) <==> |Pick(s.threads, HoldsToken)| < n)
            && (Enabled(s, Submit(t, Refuse)) <==> s.threads[t].tryMode && |Pick(s.threads, HoldsToken)| == n)
  {
    LimitRun(Init(max, keep), steps, max);
    SemaphoreConserved(max, keep, steps);
  }

  // ---------------------------------------------------------------- cleanups in order of registration

  /** The names registered for cleanup, in the order of the calls. */
  function Registered(steps: seq<Step>): seq<string> {
    if steps == [] then []
    else (if steps[0].Outside? && steps[0].o.RegisterCleanup? then [steps[0].o.name] else []) + Registered(steps[1..])
  }

  predicate Snapshots(step: Step) {
    step.Clean? && step.clean.Snapshot?
  }

  lemma OutsideEntries(s: State, o: OutsideAct)
    ensures OutsideApply(s, o).clean.entries == s.clean.entries + if o.RegisterCleanup? then [o.name] else []
  {
  }

  lemma SnapshotCopies(s: State, t: Tid, a: CleanAct)
    requires CleanReady(s, t, a)
    ensures CleanApply(s, t, a).clean.entries == s.clean.entries
    ensures a.Snapshot? ==> CleanApply(s, t, a).clean.snapshot == Some(s.clean.entries)
  {
  }

  lemma EntriesStep(s: State, step: Step)
    requires Enabled(s, step)
    ensures Apply(s, step).clean.entries == s.clean.entries + Registered([step])
  {
    assert Registered([step][1..]) == [];
    match step
    case Outside(o) => OutsideEntries(s, o);
    case Submit(t, a) => E.SubmitStill(s, t, a);
    case Work(t, a) => E.WorkStill(s, t, a);
    case Fund(t, a) => E.FundStill(s, t, a);
    case Wait(t, a) => E.WaitStill(s, t, a);
    case Close(t, a) => E.CloseStill(s, t, a);
    case Clean(t, a) => SnapshotCopies(s, t, a);
  }

  lemma RegisteredFirst(step: Step, steps: seq<Step>)
    ensures Registered([step] + steps) == Registered([step]) + Registered(steps)
  {
    assert ([step] + steps)[1..] == steps && [step][1..] == [];
  }

  lemma {:induction false} EntriesRun(s: State, steps: seq<Step>)
    requires Feasible(s, steps)
    ensures After(s, steps).clean.entries == s.clean.entries + Registered(steps)
    decreases |steps|
  {
    if steps != [] {
      EntriesStep(s, steps[0]);
      EntriesRun(Apply(s, steps[0]), steps[1..]);
      RegisteredFirst(steps[0], steps[1..]);
      assert [steps[0]] + steps[1..] == steps;
    }
  }

  /** The snapshot holds the cleanups registered before the step that took it. */
  ghost predicate TakenAt(steps: seq<Step>, i: nat, entries: seq<string>, snapshot: Option<seq<string>>) {
    i < |steps| && Snapshots(steps[i]) && snapshot == Some(entries + Registered(steps[..i]))
  }

  lemma TakenLater(steps: seq<Step>, i: nat, entries: seq<string>, snapshot: Option<seq<string>>)
    requires steps != [] && TakenAt(steps[1..], i, entries + Registered([steps[0]]), snapshot)
    ensures TakenAt(steps, i + 1, entries, snapshot)
  {
    RegisteredFirst(steps[0], steps[1..][..i]);
    assert steps[..i + 1] == [steps[0]] + steps[1..][..i];
    assert entries + Registered(steps[..i + 1]) == entries + Registered([steps[0]]) + Registered(steps[1..][..i]);
  }

  lemma {:induction false} SnapshotRun(s: State, steps: seq<Step>) returns (i: nat)
    requires E.EndInv(s) && Feasible(s, steps) && s.clean.snapshot.None? && After(s, steps).clean.snapshot.Some?
    ensures TakenAt(steps, i, s.clean.entries, After(s, steps).clean.snapshot)
    decreases |steps|
  {
    var step := steps[0];
    var r := Apply(s, step);
    E.OnlyCloseSnapshots(s, step);
    E.EndStepKeeps(s, step);
    EntriesStep(s, step);
    if Snapshots(step) {
      SnapshotCopies(s, step.t, step.clean);
      E.SnapshotFixed(r, steps[1..]);
      i := 0;
      assert steps[..0] == [];
    } else {
      var j := SnapshotRun(r, steps[1..]);
      TakenLater(steps, j, s.clean.entries, After(s, steps).clean.snapshot);
      i := j + 1;
    }
  }

  /** The cleanups that have run are those registered before the snapshot, the last registered first:
      all of them when the cleanup is over.  The list always holds every registration in order. */
  lemma CleanupReversesCalls(max: int, keep: bool, steps: seq<Step>) returns (i: nat)
    requires Feasible(Init(max, keep), steps)
    ensures var c := After(Init(max, keep), steps).clean;
            && c.entries == Registered(steps)
            && (c.executed != [] || c.once.Spent? ==> i < |steps| && Snapshots(steps[i]))
            && (i < |steps| ==> c.executed <= Reverse(Registered(steps[..i])))
            && (c.once.Spent? ==> c.executed == Reverse(Registered(steps[..i])))
  {
    EntriesRun(Init(max, keep), steps);
    E.EndInit(max, keep);
    E.CleanupRunsOnce(max, keep, steps);
    i := |steps|;
    if After(Init(max, keep), steps).clean.snapshot.Some? {
      i := SnapshotRun(Init(max, keep), steps);
    }
  }

  // ---------------------------------------------------------------- what a return means

  /** What holds once a call has come this far; `c`, `f` and `d` say that the context is cancelled, the
      group finished and the cleanup over. */
  predicate Promised(c: bool, f: bool, d: bool, th: Thread) {
    && (th.Closer? && (th.close.CloseClean? || th.close.CloseDone?) ==> c)
    && (th.Closer? && th.cleans && th.close.CloseDone? ==> f || d)
    && (th.Closer? && (th.close.CloseCheck? || th.close.CloseClean?) ==> th.cleans)
    && (th.Waiter? && (th.wait.WaitClean? || th.wait.WaitPast? || th.wait.WaitReturned?) ==> f)
    && (th.Waiter? && th.wait.WaitPast? ==> d)
  }

  ghost predicate ReturnInv(c: bool, f: bool, d: bool, once: Once, threads: map<Tid, Thread>) {
    && (f ==> c) && (once.Spent? ==> c)
    && forall t :: t in threads ==> Promised(c, f, d, threads[t])
  }

  ghost predicate Returns(s: State) {
    ReturnInv(s.cancelled, s.finished, s.clean.once.Spent?, s.cancelOnce, s.threads)
  }

  /** One goroutine moves, and what was promised to the others still holds. */
  lemma ReturnShift(s: State, r: State, t: Tid)
    requires Returns(s) && t in r.threads && r.threads == s.threads[t := r.threads[t]]
    requires (s.cancelled ==> r.cancelled) && (s.finished ==> r.finished)
    requires (s.clean.once.Spent? ==> r.clean.once.Spent?)
    requires (r.finished ==> r.cancelled) && (r.cancelOnce.Spent? ==> r.cancelled)
    requires Promised(r.cancelled, r.finished, r.clean.once.Spent?, r.threads[t])
    ensures Returns(r)
  {
  }

  lemma OutsideReturns(s: State, o: OutsideAct)
    requires Returns(s) && OutsideReady(s, o)
    ensures Returns(OutsideApply(s, o))
  {
    if o.CallGo? || o.CallWait? || o.CallClose? {
      ReturnShift(s, OutsideApply(s, o), o.t);
    }
  }

  lemma SubmitReturns(s: State, t: Tid, a: SubAct)
    requires Returns(s) && SubReady(s, t, a)
    ensures Returns(SubApply(s, t, a))
  {
    if a.Launch? {
      var mid := Move(s, t, s.threads[t].(sub := SubDone));
      ReturnShift(s, mid, t);
      ReturnShift(mid, SubApply(s, t, a), a.w);
    } else {
      ReturnShift(s, SubApply(s, t, a), t);
    }
  }

  lemma WorkReturns(s: State, t: Tid, a: WorkAct)
    requires Returns(s) && WorkReady(s, t, a)
    ensures Returns(WorkApply(s, t, a))
  {
    ReturnShift(s, WorkApply(s, t, a), t);
  }

  lemma FundReturns(s: State, t: Tid, a: FundAct)
    requires Returns(s) && FundReady(s, t, a)
    ensures Returns(FundApply(s, t, a))
  {
    ReturnShift(s, FundApply(s, t, a), t);
  }

  lemma WaitMoves(s: State, t: Tid, a: WaitAct)
    requires WaitReady(s, t, a)
    ensures var r := WaitApply(s, t, a);
            && t in r.threads && r.threads == s.threads[t := r.threads[t]]
            && r.clean == s.clean && r.cancelOnce == s.cancelOnce
            && (r.finished <==> s.finished || a.FinishWait?) && (r.cancelled <==> s.cancelled || a.FinishWait?)
  {
  }

  lemma WaitPromises(s: State, t: Tid, a: WaitAct)
    requires WaitReady(s, t, a) && Promised(s.cancelled, s.finished, s.clean.once.Spent?, s.threads[t])
    ensures var r := WaitApply(s, t, a);
            t in r.threads && Promised(r.cancelled, r.finished, r.clean.once.Spent?, r.threads[t])
  {
    WaitMoves(s, t, a);
    WaitGoes(s, t, a);
  }

  /** Where `Wait` comes out of its last steps, and that the others lead nowhere past them. */
  lemma WaitGoes(s: State, t: Tid, a: WaitAct)
    requires WaitReady(s, t, a)
    ensures t in WaitApply(s, t, a).threads && WaitApply(s, t, a).threads[t].Waiter?
    ensures var w, w' := s.threads[t].wait, WaitApply(s, t, a).threads[t].wait;
            && (w'.WaitClean? <==> a.FinishWait?) && !w'.WaitPast?
            && (w'.WaitReturned? <==> a.Return? || (a.LockWait? && s.finished)) && (a.Return? ==> w.WaitPast?)
  {
  }

  lemma WaitComes(s: State, t: Tid, a: WaitAct)
    requires Returns(s) && WaitReady(s, t, a)
    ensures Returns(WaitApply(s, t, a))
  {
    WaitMoves(s, t, a);
    WaitPromises(s, t, a);
    ReturnShift(s, WaitApply(s, t, a), t);
  }

  lemma CloseReturns(s: State, t: Tid, a: CloseAct)
    requires Returns(s) && CloseReady(s, t, a)
    ensures Returns(CloseApply(s, t, a))
  {
    ReturnShift(s, CloseApply(s, t, a), t);
  }

  lemma CleanReturns(s: State, t: Tid, a: CleanAct)
    requires Returns(s) && CleanReady(s, t, a) && (a.Snapshot? || a.RunCleanup? || a.CleanEnd? ==> s.clean.once == Busy(t))
    ensures Returns(CleanApply(s, t, a))
  {
    ReturnShift(s, CleanApply(s, t, a), t);
  }

  lemma ReturnStep(s: State, step: Step)
    requires E.EndInv(s) && Returns(s) && Enabled(s, step)
    ensures Returns(Apply(s, step))
  {
    match step
    case Outside(o) => OutsideReturns(s, o);
    case Submit(t, a) => SubmitReturns(s, t, a);
    case Work(t, a) => WorkReturns(s, t, a);
    case Fund(t, a) => FundReturns(s, t, a);
    case Wait(t, a) => WaitComes(s, t, a);
    case Close(t, a) => CloseReturns(s, t, a);
    case Clean(t, a) =>
      assert E.InCleanup(s.threads[t]) || a.CleanOnce?;
      CleanReturns(s, t, a);
  }

  lemma {:induction false} ReturnRun(s: State, steps: seq<Step>)
    requires E.EndInv(s) && Returns(s) && Feasible(s, steps)
    ensures Returns(After(s, steps))
    decreases |steps|
  {
    if steps != [] {
      ReturnStep(s, steps[0]);
      E.EndStepKeeps(s, steps[0]);
      ReturnRun(Apply(s, steps[0]), steps[1..]);
    }
  }

  /** In every run: when `CancelWithReason` or `Close` has returned the context is cancelled, when `Close`
      has returned the cleanup is over or a `Wait` has finished the group, and when `Wait` has returned
      the group is finished and its context cancelled. */
  lemma ReturnMeans(max: int, keep: bool, steps: seq<Step>, t: Tid)
    requires Feasible(Init(max, keep), steps) && t in After(Init(max, keep), steps).threads
    ensures var s := After(Init(max, keep), steps); var th := s.threads[t];
            && (th.Closer? && th.close.CloseDone? ==> s.cancelled)
            && (th.Closer? && th.close.CloseDone? && th.cleans ==> s.finished || s.clean.once.Spent?)
            && (th.Waiter? && th.wait.WaitReturned? ==> s.finished && s.cancelled)
  {
    E.EndInit(max, keep);
    ReturnRun(Init(max, keep), steps);
  }

  /** The context is done exactly when some step of the run has cancelled it: from outside, by `Close`
      or `CancelWithReason`, or by the `Wait` that finished the group. */
  lemma CancelledIffCause(max: int, keep: bool, steps: seq<Step>)
    requires Feasible(Init(max, keep), steps)
    ensures After(Init(max, keep), steps).cancelled <==> exists i :: 0 <= i < |steps| && E.Cancels(steps[i])
  {
    if After(Init(max, keep), steps).cancelled {
      E.CancelHasCause(max, keep, steps);
    }
    E.EndInit(max, keep);
    CancelledRun(Init(max, keep), steps);
  }

  lemma CancelStep(s: State, step: Step)
    requires E.EndInv(s) && Enabled(s, step) && (s.cancelled || E.Cancels(step))
    ensures Apply(s, step).cancelled
  {
    match step
    case Outside(o) =>
    case Submit(t, a) => E.SubmitStill(s, t, a);
    case Work(t, a) => E.WorkStill(s, t, a);
    case Fund(t, a) => E.FundKeeps(s, t, a);
    case Wait(t, a) => WaitMoves(s, t, a);
    case Close(t, a) =>
    case Clean(t, a) => E.CleanStill(s, t, a);
  }

  lemma {:induction false} CancelledRun(s: State, steps: seq<Step>)
    requires E.EndInv(s) && Feasible(s, steps)
    ensures s.cancelled || (exists i :: 0 <= i < |steps| && E.Cancels(steps[i])) ==> After(s, steps).cancelled
    decreases |steps|
  {
    if steps != [] {
      if s.cancelled || E.Cancels(steps[0]) {
        CancelStep(s, steps[0]);
      }
      E.EndStepKeeps(s, steps[0]);
      CancelledRun(Apply(s, steps[0]), steps[1..]);
      forall i | 0 <= i < |steps| && E.Cancels(steps[i]) ensures After(s, steps).cancelled {
        if i > 0 {
          assert steps[1..][i - 1] == steps[i];
        }
      }
    }
  }

  /** `CancelWithReason` runs no cleanup: whoever takes a step of it is a `Close` or a `Wait`. */
  lemma OnlyCloseAndWaitClean(max: int, keep: bool, steps: seq<Step>, t: Tid, a: CleanAct)
    requires Feasible(Init(max, keep), steps) && Enabled(After(Init(max, keep), steps), Clean(t, a))
    ensures var th := After(Init(max, keep), steps).threads[t]; th.Waiter? || (th.Closer? && th.cleans)
  {
    E.EndInit(max, keep);
    ReturnRun(Init(max, keep), steps);
    var s := After(Init(max, keep), steps);
    assert Promised(s.cancelled, s.finished, s.clean.once.Spent?, s.threads[t]);
  }

  /** `Close` of a finished group: before its one look at the flag, or past it. */
  predicate CloseIsOver(s: State, t: Tid) {
    s.finished && t in s.threads && (s.threads[t] == Closer(CloseCheck, true) || s.threads[t] == Closer(CloseDone, true))
  }

  lemma OverStep(s: State, step: Step, t: Tid)
    requires CloseIsOver(s, t) && Enabled(s, step)
    ensures CloseIsOver(Apply(s, step), t)
    ensures !(step.Clean? && step.t == t) && (step.Close? && step.t == t ==> step.close.CheckFinished?)
  {
    match step
    case Outside(o) =>
    case Submit(u, a) => SubmitOver(s, u, a, t);
    case Work(u, a) => WorkOver(s, u, a, t);
    case Fund(u, a) => FundOver(s, u, a, t);
    case Wait(u, a) => WaitMoves(s, u, a);
    case Close(u, a) =>
    case Clean(u, a) => CleanOver(s, u, a, t);
  }

  lemma SubmitOver(s: State, u: Tid, a: SubAct, t: Tid)
    requires CloseIsOver(s, t) && SubReady(s, u, a)
    ensures CloseIsOver(SubApply(s, u, a), t)
  {
  }

  lemma WorkOver(s: State, u: Tid, a: WorkAct, t: Tid)
    requires CloseIsOver(s, t) && WorkReady(s, u, a)
    ensures CloseIsOver(WorkApply(s, u, a), t)
  {
  }

  lemma FundOver(s: State, u: Tid, a: FundAct, t: Tid)
    requires CloseIsOver(s, t) && FundReady(s, u, a)
    ensures CloseIsOver(FundApply(s, u, a), t)
  {
  }

  lemma CleanOver(s: State, u: Tid, a: CleanAct, t: Tid)
    requires CloseIsOver(s, t) && CleanReady(s, u, a)
    ensures CloseIsOver(CleanApply(s, u, a), t) && u != t
  {
  }

  /** `Close` called on a finished group only looks at the flag: it neither cancels nor cleans up. */
  lemma {:induction false} CloseOfFinishedGroup(s: State, steps: seq<Step>, t: Tid)
    requires CloseIsOver(s, t) && Feasible(s, steps)
    ensures forall i :: 0 <= i < |steps| ==>
              && !(steps[i].Clean? && steps[i].t == t)
              && (steps[i].Close? && steps[i].t == t ==> steps[i].close.CheckFinished?)
    decreases |steps|
  {
    if steps != [] {
      OverStep(s, steps[0], t);
      CloseOfFinishedGroup(Apply(s, steps[0]), steps[1..], t);
      forall i | 0 <= i < |steps|
        ensures !(steps[i].Clean? && steps[i].t == t) && (steps[i].Close? && steps[i].t == t ==> steps[i].close.CheckFinished?)
      {
        if i > 0 {
          assert steps[i] == steps[1..][i - 1];
        }
      }
    }
  }

  /** Such a call is what `Close` starts as, whenever the group is finished. */
  lemma CloseBegins(s: State, t: Tid)
    requires s.finished && Enabled(s, Outside(CallClose(t, true)))
    ensures CloseIsOver(Apply(s, Outside(CallClose(t, true))), t)
  {
  }

  // ---------------------------------------------------------------- where an error comes from

  /** Only its own steps move a worker. */
  lemma WorkerSame(s: State, step: Step, u: Tid)
    requires Enabled(s, step) && IsWorker(s.threads, u) && !(step.Work? && step.t == u)
    ensures u in Apply(s, step).threads && Apply(s, step).threads[u] == s.threads[u]
  {
    match step
    case Outside(o) =>
    case Submit(t, a) => SubmitSpares(s, t, a, u);
    case Work(t, a) => OtherWork(s, t, a, u);
    case _ => EndFrame(s, step);
  }

  lemma OtherWork(s: State, t: Tid, a: WorkAct, u: Tid)
    requires WorkReady(s, t, a) && IsWorker(s.threads, u) && t != u
    ensures u in WorkApply(s, t, a).threads && WorkApply(s, t, a).threads[u] == s.threads[u]
  {
  }

  /** A worker keeps its name and its id, and its outcome once its function has ended. */
  lemma OwnWork(s: State, u: Tid, a: WorkAct)
    requires WorkReady(s, u, a)
    ensures var th, th' := s.threads[u], WorkApply(s, u, a).threads[u];
            && th'.Worker? && th'.name == th.name && th'.id == th.id
            && th'.out == (if a.Body? then a.out else th.out)
            && (Recorded(th) ==> Recorded(th') && !a.Body?)
            && (th'.work.WorkBody? || th'.work.WorkMark? ==> th.work.WorkMark?)
  {
  }

  /** Some worker has recorded the error with text `msg`. */
  ghost predicate RecordedBy(threads: map<Tid, Thread>, msg: string) {
    exists t :: t in threads && Recorded(threads[t]) && Message(threads[t].out) == msg
  }

  lemma RecordedStays(s: State, step: Step, msg: string)
    requires Enabled(s, step) && RecordedBy(s.threads, msg)
    ensures RecordedBy(Apply(s, step).threads, msg)
  {
    var t :| t in s.threads && Recorded(s.threads[t]) && Message(s.threads[t].out) == msg;
    if step.Work? && step.t == t {
      OwnWork(s, t, step.work);
    } else {
      WorkerSame(s, step, t);
    }
    assert Recorded(Apply(s, step).threads[t]);
  }

  /** The group's error is the text of a recorded error, or the context's after a cancellation. */
  ghost predicate ErrFrom(s: State) {
    && (s.errs.err.Some? && s.errs.err.value.TaskErr? ==> RecordedBy(s.threads, s.errs.err.value.msg))
    && (s.errs.err == Some(CtxErr) ==> s.cancelled)
  }

  lemma FailWrites(s: State, t: Tid)
    requires WorkReady(s, t, FailWrite)
    ensures ErrFrom(WorkApply(s, t, FailWrite)) && WorkApply(s, t, FailWrite).errs.err.value.TaskErr?
  {
    var r := WorkApply(s, t, FailWrite);
    assert Recorded(r.threads[t]);
  }

  lemma FundWrites(s: State, t: Tid, a: FundAct)
    requires FundReady(s, t, a)
    ensures var r := FundApply(s, t, a);
            (s.cancelled ==> r.cancelled) && r.errs.err == if a.ErrWrite? then Some(CtxErr) else s.errs.err
  {
  }

  /** A step other than a worker's own write leaves the error, or writes the context's. */
  lemma ErrStill(s: State, step: Step)
    requires E.EndInv(s) && Enabled(s, step) && !(step.Work? && step.work.FailWrite?)
    ensures var r := Apply(s, step);
            && (s.cancelled ==> r.cancelled)
            && (r.errs.err == s.errs.err || (r.errs.err == Some(CtxErr) && r.cancelled))
  {
    match step
    case Outside(o) => E.OutsideStill(s, o);
    case Submit(t, a) => E.SubmitStill(s, t, a);
    case Work(t, a) => E.WorkStill(s, t, a);
    case Fund(t, a) => E.FundKeeps(s, t, a); FundWrites(s, t, a);
    case Wait(t, a) => E.WaitStill(s, t, a);
    case Close(t, a) => E.CloseStill(s, t, a);
    case Clean(t, a) => E.CleanStill(s, t, a);
  }

  lemma ErrFromStep(s: State, step: Step)
    requires E.EndInv(s) && ErrFrom(s) && Enabled(s, step)
    ensures ErrFrom(Apply(s, step))
  {
    if step.Work? && step.work.FailWrite? {
      FailWrites(s, step.t);
    } else {
      ErrStill(s, step);
      if s.errs.err.Some? && s.errs.err.value.TaskErr? {
        RecordedStays(s, step, s.errs.err.value.msg);
      }
    }
  }

  lemma {:induction false} ErrFromRun(s: State, steps: seq<Step>)
    requires E.EndInv(s) && ErrFrom(s) && Feasible(s, steps)
    ensures ErrFrom(After(s, steps))
    decreases |steps|
  {
    if steps != [] {
      ErrFromStep(s, steps[0]);
      E.EndStepKeeps(s, steps[0]);
      ErrFromRun(Apply(s, steps[0]), steps[1..]);
    }
  }

  /** In every run the group's error, if it has one, is the text of an error some worker recorded, or
      the context's error and then the context is cancelled. */
  lemma ErrorHasSource(max: int, keep: bool, steps: seq<Step>)
    requires Feasible(Init(max, keep), steps)
    ensures var s := After(Init(max, keep), steps);
            s.errs.err.Some? ==>
              if s.errs.err.value.TaskErr? then RecordedBy(s.threads, s.errs.err.value.msg) else s.cancelled
  {
    E.EndInit(max, keep);
    ErrFromRun(Init(max, keep), steps);
  }

  // ---------------------------------------------------------------- what Wait reports

  /** A worker whose function failed and that is past `setTaskFailureError`. */
  predicate Reported(th: Thread) {
    th.Worker? && !th.out.Ok? && (th.work.WorkRelease? || th.work.WorkDone? || th.work.WorkGone?)
  }

  ghost predicate ReportInv(s: State) {
    forall t :: t in s.threads && Reported(s.threads[t]) ==> s.errs.err.Some?
  }

  lemma OwnReport(s: State, t: Tid, a: WorkAct)
    requires E.EndInv(s) && WorkReady(s, t, a)
    requires s.threads[t].work.WorkRecord? ==> !s.threads[t].out.Ok?
    ensures Reported(WorkApply(s, t, a).threads[t]) ==> Reported(s.threads[t]) || WorkApply(s, t, a).errs.err.Some?
  {
  }

  lemma ReportStep(s: State, step: Step)
    requires E.EndInv(s) && GroupInv(s) && ReportInv(s) && Enabled(s, step)
    ensures ReportInv(Apply(s, step))
  {
    if s.errs.err.Some? {
      E.ErrStays(s, step);
    }
    var r := Apply(s, step);
    forall t | t in r.threads && Reported(r.threads[t]) ensures r.errs.err.Some? {
      if step.Work? && step.t == t {
        OwnReport(s, t, step.work);
      } else {
        WorkerWas(s, step, t);
      }
    }
  }

  /** A worker that is not moving was there before, as it is, or has just been launched. */
  lemma WorkerWas(s: State, step: Step, t: Tid)
    requires Enabled(s, step) && !(step.Work? && step.t == t)
    requires t in Apply(s, step).threads && Apply(s, step).threads[t].Worker?
    ensures (t in s.threads && s.threads[t] == Apply(s, step).threads[t]) || Apply(s, step).threads[t].work.WorkMark?
  {
    match step
    case Outside(o) =>
    case Submit(u, a) => SubmitNews(s, u, a, t);
    case Work(u, a) => WorkNews(s, u, a, t);
    case _ => EndFrame(s, step);
  }

  lemma SubmitNews(s: State, u: Tid, a: SubAct, t: Tid)
    requires SubReady(s, u, a) && t in SubApply(s, u, a).threads && SubApply(s, u, a).threads[t].Worker?
    ensures (t in s.threads && s.threads[t] == SubApply(s, u, a).threads[t]) || SubApply(s, u, a).threads[t].work.WorkMark?
  {
  }

  lemma WorkNews(s: State, u: Tid, a: WorkAct, t: Tid)
    requires WorkReady(s, u, a) && u != t && t in WorkApply(s, u, a).threads
    ensures t in s.threads && s.threads[t] == WorkApply(s, u, a).threads[t]
  {
  }

  lemma {:induction false} ReportRun(s: State, steps: seq<Step>)
    requires E.EndInv(s) && GroupInv(s) && ReportInv(s) && Feasible(s, steps)
    ensures ReportInv(After(s, steps)) && GroupInv(After(s, steps))
    decreases |steps|
  {
    if steps != [] {
      ReportStep(s, steps[0]);
      GroupStep(s, steps[0]);
      E.EndStepKeeps(s, steps[0]);
      ReportRun(Apply(s, steps[0]), steps[1..]);
    }
  }

  /** What `Wait` returns: the collected errors from the call that finishes the group, if there are any,
      and otherwise the group's first error. */
  datatype WaitResult = NoError | Collected(group: Group) | First(err: ErrValue)

  function ResultOfWait(s: State, finishes: bool): WaitResult {
    if finishes && s.errs.group.errors != map[] then Collected(s.errs.group)
    else if s.errs.err.Some? then First(s.errs.err.value)
    else NoError
  }

  lemma SomeRecorded(s: State)
    requires GroupInv(s)
    ensures s.errs.group.errors != map[] <==> exists t :: t in s.threads && Recorded(s.threads[t])
  {
    var g := s.errs.group;
    if g.errors != map[] {
      assert g.errors.Keys != {};
      var name :| name in g.errors.Keys;
      var t :| t in s.threads && Recorded(s.threads[t]) && s.threads[t].name == name;
    }
    if t :| t in s.threads && Recorded(s.threads[t]) {
      assert s.threads[t].name in g.errors;
    }
  }

  /** In every reachable state: the finishing `Wait` returns the collected errors exactly when some worker
      has recorded one, and any `Wait` returns an error once a failing worker is done; without an
      error no worker has failed and gone. */
  lemma WaitReports(max: int, keep: bool, steps: seq<Step>, finishes: bool, t: Tid)
    requires Feasible(Init(max, keep), steps)
    ensures var s := After(Init(max, keep), steps); var res := ResultOfWait(s, finishes);
            && (res.Collected? <==> finishes && exists u :: u in s.threads && Recorded(s.threads[u]))
            && (t in s.threads && Reported(s.threads[t]) ==> res != NoError)
            && (res == NoError ==> s.errs.err.None?)
  {
    E.EndInit(max, keep);
    GroupInit(max, keep);
    ReportRun(Init(max, keep), steps);
    SomeRecorded(After(Init(max, keep), steps));
  }

  // ---------------------------------------------------------------- how a task ends

  /** A worker whose task has been marked with its end. */
  predicate Ended(th: Thread) {
    th.Worker? && !th.work.WorkMark? && !th.work.WorkBody? && !th.work.WorkEnd?
  }

  /** The end that goes with what the function did. */
  predicate EndsAs(out: Outcome, st: Status) {
    && (st == Completed <==> out.Ok?) && (st == Failed <==> out.Fail?) && (st == Panicked <==> out.Panic?)
  }

  /** The task of goroutine `th` has its name, and the status its goroutine has given it. */
  predicate Marked(tasks: map<int, Task>, th: Thread) {
    && (I.Live(th) ==> th.id in tasks && tasks[th.id].name == th.name)
    && (Ended(th) ==> th.id in tasks && tasks[th.id].name == th.name && EndsAs(th.out, tasks[th.id].status))
    && (th.Submitter? && th.sub.SubErr? ==>
          th.id in tasks && tasks[th.id].name == th.name && tasks[th.id].status == Canceled)
  }

  ghost predicate MarkInv(tasks: map<int, Task>, threads: map<Tid, Thread>) {
    forall t :: t in threads ==> Marked(tasks, threads[t])
  }

  /** Goroutine `t` has the say over the task with this id. */
  predicate Owns(threads: map<Tid, Thread>, t: Tid, id: int) {
    t in threads && I.Live(threads[t]) && threads[t].id == id
  }

  /** Tasks not owned by `t` stay as they are. */
  ghost predicate Spares(s: State, r: State, t: Tid) {
    forall id :: id in s.reg.tasks && !Owns(s.threads, t, id) ==> id in r.reg.tasks && r.reg.tasks[id] == s.reg.tasks[id]
  }

  lemma SubmitTasks(s: State, t: Tid, a: SubAct)
    requires I.LifeInv(s) && SubReady(s, t, a) && I.Orderly(s, Submit(t, a))
    ensures Spares(s, SubApply(s, t, a), t)
  {
    if a.Register? && !s.finished {
      I.RegisterIds(s, t);
    }
  }

  lemma WorkTasks(s: State, t: Tid, a: WorkAct)
    requires WorkReady(s, t, a)
    ensures Spares(s, WorkApply(s, t, a), t)
  {
  }

  /** What `u` has been given is not in the hands of `t`. */
  lemma NotOwned(s: State, t: Tid, u: Tid)
    requires I.LifeInv(s) && MarkInv(s.reg.tasks, s.threads) && u in s.threads && t != u
    ensures var th := s.threads[u];
            I.Live(th) || Ended(th) || (th.Submitter? && th.sub.SubErr?) ==> !Owns(s.threads, t, th.id)
  {
    assert Marked(s.reg.tasks, s.threads[u]);
    if t in s.threads && I.Live(s.threads[t]) {
      assert I.TaskAt(s.reg.tasks, s.threads[t].id, I.StatusOf(s.threads[t]));
    }
  }

  lemma OthersMarked(s: State, r: State, t: Tid, u: Tid)
    requires I.LifeInv(s) && MarkInv(s.reg.tasks, s.threads) && Spares(s, r, t)
    requires u in s.threads && t != u
    ensures Marked(r.reg.tasks, s.threads[u])
  {
    NotOwned(s, t, u);
    assert Marked(s.reg.tasks, s.threads[u]);
  }

  lemma LaunchMarked(s: State, t: Tid, w: Tid)
    requires SubReady(s, t, Launch(w)) && Marked(s.reg.tasks, s.threads[t])
    ensures var r := SubApply(s, t, Launch(w));
            && t in r.threads && w in r.threads && Marked(r.reg.tasks, r.threads[t]) && Marked(r.reg.tasks, r.threads[w])
  {
    assert I.Live(s.threads[t]);
  }

  lemma RegisterMarked(s: State, t: Tid)
    requires SubReady(s, t, Register)
    ensures var r := SubApply(s, t, Register); t in r.threads && Marked(r.reg.tasks, r.threads[t])
  {
  }

  /** The submitter's other steps: past its task, or with the task as it was. */
  lemma SubmitMarked(s: State, t: Tid, a: SubAct)
    requires SubReady(s, t, a) && !a.Launch? && !a.Register? && Marked(s.reg.tasks, s.threads[t])
    ensures t in SubApply(s, t, a).threads && Marked(SubApply(s, t, a).reg.tasks, SubApply(s, t, a).threads[t])
  {
    match a
    case Begin =>
    case Acquire => assert I.Live(s.threads[t]);
    case Refuse => assert I.Live(s.threads[t]);
    case DropTask =>
    case DropCount =>
    case SeeCancelled => assert I.Live(s.threads[t]);
    case MarkCanceled => assert I.Live(s.threads[t]);
    case AddWg => assert I.Live(s.threads[t]);
  }

  lemma EndMarked(s: State, t: Tid)
    requires WorkReady(s, t, MarkEnd) && Marked(s.reg.tasks, s.threads[t])
    ensures var r := WorkApply(s, t, MarkEnd);
            && t in r.threads && r.threads[t].Worker? && r.threads[t].id == s.threads[t].id
            && r.threads[t].name == s.threads[t].name && r.threads[t].out == s.threads[t].out
            && Marked(r.reg.tasks, r.threads[t])
  {
    assert I.Live(s.threads[t]);
  }

  lemma WorkMarked(s: State, t: Tid, a: WorkAct)
    requires WorkReady(s, t, a) && Marked(s.reg.tasks, s.threads[t])
    ensures t in WorkApply(s, t, a).threads && Marked(WorkApply(s, t, a).reg.tasks, WorkApply(s, t, a).threads[t])
  {
    if a.MarkEnd? {
      EndMarked(s, t);
    } else {
      RestMarked(s, t, a);
    }
  }

  lemma RestMarked(s: State, t: Tid, a: WorkAct)
    requires WorkReady(s, t, a) && !a.MarkEnd? && Marked(s.reg.tasks, s.threads[t])
    ensures t in WorkApply(s, t, a).threads && Marked(WorkApply(s, t, a).reg.tasks, WorkApply(s, t, a).threads[t])
  {
    OwnWork(s, t, a);
    if a.MarkRunning? || a.Body? {
      assert I.Live(s.threads[t]);
    } else {
      assert Ended(s.threads[t]);
    }
  }

  lemma SubmitMarks(s: State, t: Tid, a: SubAct)
    requires I.LifeInv(s) && MarkInv(s.reg.tasks, s.threads) && SubReady(s, t, a) && I.Orderly(s, Submit(t, a))
    ensures MarkInv(SubApply(s, t, a).reg.tasks, SubApply(s, t, a).threads)
  {
    var r := SubApply(s, t, a);
    SubmitTasks(s, t, a);
    assert Marked(s.reg.tasks, s.threads[t]);
    if a.Launch? {
      LaunchMarked(s, t, a.w);
    } else if a.Register? {
      RegisterMarked(s, t);
    } else {
      SubmitMarked(s, t, a);
    }
    forall u | u in r.threads ensures Marked(r.reg.tasks, r.threads[u]) {
      if u != t && !(a.Launch? && u == a.w) {
        OthersMarked(s, r, t, u);
      }
    }
  }

  lemma WorkMarks(s: State, t: Tid, a: WorkAct)
    requires I.LifeInv(s) && MarkInv(s.reg.tasks, s.threads) && WorkReady(s, t, a)
    ensures MarkInv(WorkApply(s, t, a).reg.tasks, WorkApply(s, t, a).threads)
  {
    var r := WorkApply(s, t, a);
    WorkTasks(s, t, a);
    assert Marked(s.reg.tasks, s.threads[t]);
    WorkMarked(s, t, a);
    forall u | u in r.threads ensures Marked(r.reg.tasks, r.threads[u]) {
      if u != t {
        OthersMarked(s, r, t, u);
      }
    }
  }

  lemma FundMarks(s: State, t: Tid, a: FundAct)
    requires FundReady(s, t, a) && Marked(s.reg.tasks, s.threads[t])
    ensures Marked(FundApply(s, t, a).reg.tasks, FundApply(s, t, a).threads[t])
  {
  }

  /** The other steps move a goroutine without a task in hand, and no task. */
  lemma EndMarks(s: State, step: Step)
    requires MarkInv(s.reg.tasks, s.threads) && Enabled(s, step) && EndStep(step)
    ensures MarkInv(Apply(s, step).reg.tasks, Apply(s, step).threads)
  {
    EndFrame(s, step);
    var r := Apply(s, step);
    assert Marked(s.reg.tasks, s.threads[step.t]);
    if step.Fund? {
      FundMarks(s, step.t, step.fund);
    } else {
      NoSubmitter(s, step);
    }
  }

  lemma NoSubmitter(s: State, step: Step)
    requires Enabled(s, step) && (step.Wait? || step.Close? || step.Clean?)
    ensures step.t in Apply(s, step).threads && !Apply(s, step).threads[step.t].Submitter?
  {
    match step
    case Wait(t, a) => WaitGoes(s, t, a);
    case Close(t, a) =>
    case Clean(t, a) =>
  }

  lemma MarkStep(s: State, step: Step)
    requires I.LifeInv(s) && MarkInv(s.reg.tasks, s.threads) && Enabled(s, step) && I.Orderly(s, step)
    ensures MarkInv(Apply(s, step).reg.tasks, Apply(s, step).threads)
  {
    match step
    case Outside(o) =>
    case Submit(t, a) => SubmitMarks(s, t, a);
    case Work(t, a) => WorkMarks(s, t, a);
    case _ => EndMarks(s, step);
  }

  lemma {:induction false} MarkRun(s: State, steps: seq<Step>)
    requires I.LifeInv(s) && MarkInv(s.reg.tasks, s.threads) && Feasible(s, steps) && I.AllOrderly(s, steps)
    ensures I.LifeInv(After(s, steps)) && MarkInv(After(s, steps).reg.tasks, After(s, steps).threads)
    decreases |steps|
  {
    if steps != [] {
      MarkStep(s, steps[0]);
      I.LifeStep(s, steps[0]);
      MarkRun(Apply(s, steps[0]), steps[1..]);
    }
  }

  /** The function of worker `t` has ended with `out`. */
  predicate Has(threads: map<Tid, Thread>, t: Tid, out: Outcome) {
    t in threads && threads[t].Worker? && threads[t].out == out && (threads[t].work.WorkEnd? || Ended(threads[t]))
  }

  lemma {:induction false} OutcomeStays(s: State, steps: seq<Step>, t: Tid, out: Outcome)
    requires Feasible(s, steps) && Has(s.threads, t, out)
    ensures Has(After(s, steps).threads, t, out)
    decreases |steps|
  {
    if steps != [] {
      if steps[0].Work? && steps[0].t == t {
        OwnWork(s, t, steps[0].work);
      } else {
        WorkerSame(s, steps[0], t);
      }
      OutcomeStays(Apply(s, steps[0]), steps[1..], t, out);
    }
  }

  /** In an orderly run a task whose worker has marked its end is Completed, Failed or Panicked exactly as
      its function returned, returned an error or panicked, and keeps the name it was submitted with. */
  lemma TaskEndsAsItsFunction(max: int, keep: bool, before: seq<Step>, t: Tid, out: Outcome, after: seq<Step>)
    requires Feasible(Init(max, keep), before) && I.AllOrderly(Init(max, keep), before)
    requires var s := After(Init(max, keep), before);
             && Enabled(s, Work(t, Body(out)))
             && Feasible(Apply(s, Work(t, Body(out))), after) && I.AllOrderly(Apply(s, Work(t, Body(out))), after)
    ensures var r := After(Apply(After(Init(max, keep), before), Work(t, Body(out))), after);
            && Has(r.threads, t, out)
            && (Ended(r.threads[t]) ==>
                  && r.threads[t].id in r.reg.tasks && r.reg.tasks[r.threads[t].id].name == r.threads[t].name
                  && EndsAs(out, r.reg.tasks[r.threads[t].id].status))
  {
    I.LifeInit(max, keep);
    MarkRun(Init(max, keep), before);
    var s := After(Init(max, keep), before);
    var q := Apply(s, Work(t, Body(out)));
    MarkStep(s, Work(t, Body(out)));
    I.LifeStep(s, Work(t, Body(out)));
    MarkRun(q, after);
    OwnWork(s, t, Body(out));
    OutcomeStays(q, after, t, out);
    assert Marked(After(q, after).reg.tasks, After(q, after).threads[t]);
  }

  // ---------------------------------------------------------------- names

  /** The names of the tasks submitted. */
  function Submitted(steps: seq<Step>): set<string> {
    if steps == [] then {}
    else (if steps[0].Outside? && steps[0].o.CallGo? then {steps[0].o.name} else {}) + Submitted(steps[1..])
  }

  ghost predicate NamedFrom(threads: map<Tid, Thread>, names: set<string>) {
    forall t :: t in threads && (threads[t].Submitter? || threads[t].Worker?) ==> threads[t].name in names
  }

  lemma SubmitNames(s: State, t: Tid, a: SubAct, names: set<string>)
    requires SubReady(s, t, a) && NamedFrom(s.threads, names)
    ensures NamedFrom(SubApply(s, t, a).threads, names)
  {
  }

  lemma EndNames(s: State, step: Step, names: set<string>)
    requires Enabled(s, step) && EndStep(step) && NamedFrom(s.threads, names)
    ensures NamedFrom(Apply(s, step).threads, names)
  {
    EndFrame(s, step);
    if step.Fund? {
      FundNames(s, step.t, step.fund);
    } else {
      NoSubmitter(s, step);
    }
  }

  lemma FundNames(s: State, t: Tid, a: FundAct)
    requires FundReady(s, t, a)
    ensures var r := FundApply(s, t, a).threads[t];
            r.Submitter? ==> s.threads[t].Submitter? && r.name == s.threads[t].name
  {
  }

  lemma WorkNames(s: State, t: Tid, a: WorkAct, names: set<string>)
    requires WorkReady(s, t, a) && NamedFrom(s.threads, names)
    ensures NamedFrom(WorkApply(s, t, a).threads, names)
  {
    OwnWork(s, t, a);
  }

  lemma {:induction false} NamesRun(s: State, steps: seq<Step>, names: set<string>)
    requires Feasible(s, steps) && NamedFrom(s.threads, names)
    ensures NamedFrom(After(s, steps).threads, names + Submitted(steps))
    decreases |steps|
  {
    if steps != [] {
      var more := names;
      match steps[0] {
        case Outside(o) => if o.CallGo? { more := names + {o.name}; }
        case Submit(t, a) => SubmitNames(s, t, a, names);
        case Work(t, a) => WorkNames(s, t, a, names);
        case _ => EndNames(s, steps[0], names);
      }
      NamesRun(Apply(s, steps[0]), steps[1..], more);
      assert more + Submitted(steps[1..]) == names + Submitted(steps);
    }
  }

  /** The names with a collected error are names of submitted tasks. */
  lemma ErrorsNameTasks(max: int, keep: bool, steps: seq<Step>)
    requires Feasible(Init(max, keep), steps)
    ensures After(Init(max, keep), steps).errs.group.errors.Keys <= Submitted(steps)
  {
    GroupInit(max, keep);
    GroupRun(Init(max, keep), steps);
    NamesRun(Init(max, keep), steps, {});
  }
}
