/**
 When a goroutine of a task group can move: exactly what a submitting call and a worker wait for while
 nobody holds `mu`; and what a `Go` or `Wait` that finds the context done leaves behind.
 */
module TaskGroupProgress {
  import opened Basics
  import opened TaskErrors
  import opened TaskGroup
  import opened TaskGroupSafety
  import C = TaskGroupCalls
  import E = TaskGroupEnd
  import I = TaskGroupIds

  // ---------------------------------------------------------------- positions that go with the state

  /** A call waits for a token only of a group with a limit, and a worker on its way to report a failure
      has one. */
  predicate Placed(limited: bool, th: Thread) {
    && (th.Submitter? && th.sub.SubAcquire? ==> limited)
    && (th.Worker? && (th.work.WorkRecord? || th.work.WorkErr? || th.work.WorkErrWrite?) ==> !th.out.Ok?)
  }

  ghost predicate PlaceInv(s: State) {
    forall t :: t in s.threads ==> Placed(s.sem.capacity.Some?, s.threads[t])
  }

  lemma SubmitPlaces(s: State, t: Tid, a: SubAct)
    requires PlaceInv(s) && SubReady(s, t, a)
    ensures PlaceInv(SubApply(s, t, a))
  {
    C.SubmitLimit(s, t, a);
    assert Placed(s.sem.capacity.Some?, s.threads[t]);
    SubmitPlaced(s, t, a);
  }

  lemma SubmitPlaced(s: State, t: Tid, a: SubAct)
    requires SubReady(s, t, a) && Placed(s.sem.capacity.Some?, s.threads[t])
    ensures var r := SubApply(s, t, a);
            && t in r.threads && Placed(s.sem.capacity.Some?, r.threads[t])
            && (a.Launch? ==> a.w in r.threads && Placed(s.sem.capacity.Some?, r.threads[a.w]))
            && forall u :: u in r.threads && u != t && !(a.Launch? && u == a.w) ==> u in s.threads && r.threads[u] == s.threads[u]
  {
  }

  lemma WorkPlaced(s: State, t: Tid, a: WorkAct)
    requires WorkReady(s, t, a) && Placed(s.sem.capacity.Some?, s.threads[t])
    ensures t in WorkApply(s, t, a).threads && Placed(s.sem.capacity.Some?, WorkApply(s, t, a).threads[t])
  {
  }

  lemma WorkPlaces(s: State, t: Tid, a: WorkAct)
    requires PlaceInv(s) && WorkReady(s, t, a)
    ensures PlaceInv(WorkApply(s, t, a))
  {
    C.WorkLimit(s, t, a);
    WorkPlaced(s, t, a);
    var r := WorkApply(s, t, a);
    forall u | u in r.threads ensures Placed(s.sem.capacity.Some?, r.threads[u]) {
      if u != t {
        C.WorkNews(s, t, a, u);
      }
    }
  }

  lemma EndPlaces(s: State, step: Step)
    requires PlaceInv(s) && Enabled(s, step) && EndStep(step)
    ensures PlaceInv(Apply(s, step))
  {
    EndFrame(s, step);
  }

  /** The limit changes only while nobody is past the start. */
  lemma LimitPlaces(s: State, n: int)
    requires SemInv(s) && PlaceInv(s)
    ensures PlaceInv(OutsideApply(s, SetLimit(n)))
  {
    if !s.started {
      forall t | t in s.threads ensures Placed(false, s.threads[t]) {
        assert !PastStart(s.threads[t]);
      }
    }
  }

  lemma PlaceStep(s: State, step: Step)
    requires SemInv(s) && PlaceInv(s) && Enabled(s, step)
    ensures PlaceInv(Apply(s, step))
  {
    match step
    case Outside(o) => if o.SetLimit? { LimitPlaces(s, o.n); }
    case Submit(t, a) => SubmitPlaces(s, t, a);
    case Work(t, a) => WorkPlaces(s, t, a);
    case _ => EndPlaces(s, step);
  }

  lemma {:induction false} PlaceRun(s: State, steps: seq<Step>)
    requires SemInv(s) && PlaceInv(s) && Feasible(s, steps)
    ensures SemInv(After(s, steps)) && PlaceInv(After(s, steps))
    decreases |steps|
  {
    if steps != [] {
      PlaceStep(s, steps[0]);
      SemStep(s, steps[0]);
      PlaceRun(Apply(s, steps[0]), steps[1..]);
    }
  }

  // ---------------------------------------------------------------- who can move

  /** Some step of goroutine `t` is possible. */
  ghost predicate CanMove(s: State, t: Tid) {
    || (exists a :: Enabled(s, Submit(t, a)))
    || (exists a :: Enabled(s, Work(t, a)))
    || (exists a :: Enabled(s, Fund(t, a)))
  }

  /** What a submitting call may have to wait for: a token, while none is free and the context is not
      done; or another goroutine inside the once-guard of the error. */
  predicate SubmitterWaits(s: State, th: Thread, full: bool)
    requires th.Submitter?
  {
    || (th.sub.SubAcquire? && !th.tryMode && full && !s.cancelled)
    || (th.sub == SubErr(FundEnter) && s.errs.once.Busy?)
  }

  lemma SubmitterStep(s: State, t: Tid, full: bool)
    requires t in s.threads && s.threads[t].Submitter? && !s.threads[t].sub.SubDone? && s.mu.None?
    requires Placed(s.sem.capacity.Some?, s.threads[t])
    requires s.sem.capacity.Some? ==> (full <==> s.sem.tokens >= s.sem.capacity.value)
    ensures !SubmitterWaits(s, s.threads[t], full) ==> CanMove(s, t)
  {
    var th := s.threads[t];
    match th.sub
    case SubStart => assert Enabled(s, Submit(t, Begin));
    case SubRegister => assert Enabled(s, Submit(t, Register));
    case SubAcquire =>
      assert !full ==> Enabled(s, Submit(t, Acquire));
      assert full && th.tryMode ==> Enabled(s, Submit(t, Refuse));
      assert !th.tryMode && s.cancelled ==> Enabled(s, Submit(t, SeeCancelled));
    case SubDelete => assert Enabled(s, Submit(t, DropTask));
    case SubDecrement => assert Enabled(s, Submit(t, DropCount));
    case SubMark => assert Enabled(s, Submit(t, MarkCanceled));
    case SubErr(pc) =>
      assert pc.FundEnter? && !s.errs.once.Busy? ==> Enabled(s, Fund(t, ErrEnter));
      assert pc.FundWrite? ==> Enabled(s, Fund(t, ErrWrite));
      assert pc.FundCancel? ==> Enabled(s, Fund(t, ErrCancel));
    case SubAdd => assert Enabled(s, Submit(t, AddWg));
    case SubGo =>
      var w := Above(s.threads.Keys);
      assert Enabled(s, Submit(t, Launch(w)));
  }

  lemma SubmitterStuck(s: State, t: Tid, full: bool)
    requires t in s.threads && s.threads[t].Submitter?
    requires s.sem.capacity.Some? ==> (full <==> s.sem.tokens >= s.sem.capacity.value)
    requires Placed(s.sem.capacity.Some?, s.threads[t]) && SubmitterWaits(s, s.threads[t], full)
    ensures !CanMove(s, t)
  {
    forall a ensures !Enabled(s, Submit(t, a)) {
    }
    forall a ensures !Enabled(s, Fund(t, a)) {
    }
  }

  /** While nobody holds `mu`, a `Go` or `TryGo` that has not returned can move exactly unless it is a `Go`
      that finds every token of the limit held and the context not done, or it is queued behind
      another goroutine that is writing the group's error.  A `TryGo` never waits for a token, and
      nobody does in a group without a limit. */
  lemma SubmitterMovesIff(max: int, keep: bool, steps: seq<Step>, t: Tid)
    requires Feasible(Init(max, keep), steps)
    requires var s := After(Init(max, keep), steps);
             t in s.threads && s.threads[t].Submitter? && !s.threads[t].sub.SubDone? && s.mu.None?
    ensures var s := After(Init(max, keep), steps); var n := C.LimitAsked(max, steps);
            CanMove(s, t) <==> !SubmitterWaits(s, s.threads[t], n > 0 && |Pick(s.threads, HoldsToken)| == n)
  {
    SemInit(max, keep);
    PlaceRun(Init(max, keep), steps);
    C.LimitRun(Init(max, keep), steps, max);
    var s, n := After(Init(max, keep), steps), C.LimitAsked(max, steps);
    var full := n > 0 && |Pick(s.threads, HoldsToken)| == n;
    assert Placed(s.sem.capacity.Some?, s.threads[t]);
    SubmitterStep(s, t, full);
    if SubmitterWaits(s, s.threads[t], full) {
      SubmitterStuck(s, t, full);
    }
  }

  lemma WorkerStep(s: State, t: Tid)
    requires t in s.threads && s.threads[t].Worker? && !s.threads[t].work.WorkGone? && s.mu.None?
    requires Placed(s.sem.capacity.Some?, s.threads[t]) && (s.sem.capacity.Some? && HoldsToken(s.threads[t]) ==> s.sem.tokens > 0)
    ensures !(s.threads[t].work.WorkErr? && s.errs.once.Busy?) ==> CanMove(s, t)
  {
    match s.threads[t].work
    case WorkMark => assert Enabled(s, Work(t, MarkRunning));
    case WorkBody => assert Enabled(s, Work(t, Body(Ok)));
    case WorkEnd => assert Enabled(s, Work(t, MarkEnd));
    case WorkRecord => assert Enabled(s, Work(t, Record));
    case WorkErr => assert !s.errs.once.Busy? ==> Enabled(s, Work(t, FailEnter));
    case WorkErrWrite => assert Enabled(s, Work(t, FailWrite));
    case WorkRelease => assert Enabled(s, Work(t, Release));
    case WorkDone => assert Enabled(s, Work(t, DoneWg));
  }

  /** While nobody holds `mu`, a worker that has not left can move exactly unless it is queued behind
      another goroutine that is writing the group's error; in particular it always gets to give
      its token back. */
  lemma WorkerMovesIff(max: int, keep: bool, steps: seq<Step>, t: Tid)
    requires Feasible(Init(max, keep), steps)
    requires var s := After(Init(max, keep), steps);
             t in s.threads && s.threads[t].Worker? && !s.threads[t].work.WorkGone? && s.mu.None?
    ensures var s := After(Init(max, keep), steps);
            CanMove(s, t) <==> !(s.threads[t].work.WorkErr? && s.errs.once.Busy?)
  {
    SemInit(max, keep);
    PlaceRun(Init(max, keep), steps);
    var s := After(Init(max, keep), steps);
    assert Placed(s.sem.capacity.Some?, s.threads[t]);
    if HoldsToken(s.threads[t]) {
      assert t in Pick(s.threads, HoldsToken);
    }
    WorkerStep(s, t);
    if s.threads[t].work.WorkErr? && s.errs.once.Busy? {
      forall a ensures !Enabled(s, Work(t, a)) {
      }
    }
  }

  // ---------------------------------------------------------------- after a done context was seen

  /** A `Go` that saw the context done: it is on its way to say so, or has returned and the group has
      an error. */
  predicate GoSaw(s: State, t: Tid) {
    && t in s.threads && s.threads[t].Submitter?
    && var pc := s.threads[t].sub;
       pc.SubMark? || pc.SubErr? || (pc.SubDone? && s.errs.err.Some?)
  }

  /** The same for a `Wait`. */
  predicate WaitSaw(s: State, t: Tid) {
    && t in s.threads && s.threads[t].Waiter?
    && var pc := s.threads[t].wait;
       && !pc.WaitStart? && !pc.WaitSelect?
       && (pc.WaitErr? || s.errs.err.Some?)
  }

  /** Only its own steps move a goroutine that is not a worker. */
  predicate Moves(step: Step, t: Tid) {
    !step.Outside? && step.t == t
  }

  lemma OthersStay(s: State, step: Step, t: Tid)
    requires Enabled(s, step) && t in s.threads && !Moves(step, t)
    ensures t in Apply(s, step).threads && Apply(s, step).threads[t] == s.threads[t]
  {
    match step
    case Outside(o) =>
    case Submit(u, a) => SubmitOthers(s, u, a, t);
    case Work(u, a) => WorkOthers(s, u, a, t);
    case _ => EndFrame(s, step);
  }

  lemma SubmitOthers(s: State, u: Tid, a: SubAct, t: Tid)
    requires SubReady(s, u, a) && t in s.threads && t != u
    ensures t in SubApply(s, u, a).threads && SubApply(s, u, a).threads[t] == s.threads[t]
  {
  }

  lemma WorkOthers(s: State, u: Tid, a: WorkAct, t: Tid)
    requires WorkReady(s, u, a) && t in s.threads && t != u
    ensures t in WorkApply(s, u, a).threads && WorkApply(s, u, a).threads[t] == s.threads[t]
  {
  }

  lemma GoSawSubmits(s: State, t: Tid, a: SubAct)
    requires GoSaw(s, t) && SubReady(s, t, a)
    ensures GoSaw(SubApply(s, t, a), t)
  {
  }

  /** Whoever leaves `setFundamentalError` leaves an error behind. */
  lemma FundLeaves(s: State, t: Tid, a: FundAct)
    requires E.EndInv(s) && FundReady(s, t, a)
    ensures FundApply(s, t, a).errs.err.Some? || FundAt(FundApply(s, t, a).threads[t]).Some?
    ensures var th, th' := s.threads[t], FundApply(s, t, a).threads[t];
            && (th.Submitter? ==> th'.Submitter? && (th'.sub.SubErr? || th'.sub.SubDone?))
            && (th.Waiter? ==> th'.Waiter? && (th'.wait.WaitErr? || th'.wait.WaitInfo?))
  {
    if a.ErrCancel? {
      assert E.AfterErr(s.threads[t]);
    }
  }

  lemma GoSawStep(s: State, step: Step, t: Tid)
    requires E.EndInv(s) && GoSaw(s, t) && Enabled(s, step)
    ensures GoSaw(Apply(s, step), t)
  {
    if s.errs.err.Some? {
      E.ErrStays(s, step);
    }
    if !Moves(step, t) {
      OthersStay(s, step, t);
    } else if step.Submit? {
      GoSawSubmits(s, t, step.sub);
    } else if step.Fund? {
      FundLeaves(s, t, step.fund);
    }
  }

  lemma {:induction false} GoSawRun(s: State, steps: seq<Step>, t: Tid)
    requires E.EndInv(s) && GoSaw(s, t) && Feasible(s, steps)
    ensures GoSaw(After(s, steps), t)
    decreases |steps|
  {
    if steps != [] {
      GoSawStep(s, steps[0], t);
      E.EndStepKeeps(s, steps[0]);
      GoSawRun(Apply(s, steps[0]), steps[1..], t);
    }
  }

  lemma WaitSawWaits(s: State, t: Tid, a: WaitAct)
    requires WaitSaw(s, t) && WaitReady(s, t, a)
    ensures WaitSaw(WaitApply(s, t, a), t)
  {
  }

  lemma WaitSawCleans(s: State, t: Tid, a: CleanAct)
    requires WaitSaw(s, t) && CleanReady(s, t, a)
    ensures WaitSaw(CleanApply(s, t, a), t)
  {
  }

  lemma WaitSawStep(s: State, step: Step, t: Tid)
    requires E.EndInv(s) && WaitSaw(s, t) && Enabled(s, step)
    ensures WaitSaw(Apply(s, step), t)
  {
    if s.errs.err.Some? {
      E.ErrStays(s, step);
    }
    if !Moves(step, t) {
      OthersStay(s, step, t);
    } else if step.Wait? {
      WaitSawWaits(s, t, step.wait);
    } else if step.Clean? {
      WaitSawCleans(s, t, step.clean);
    } else if step.Fund? {
      FundLeaves(s, t, step.fund);
    }
  }

  lemma {:induction false} WaitSawRun(s: State, steps: seq<Step>, t: Tid)
    requires E.EndInv(s) && WaitSaw(s, t) && Feasible(s, steps)
    ensures WaitSaw(After(s, steps), t)
    decreases |steps|
  {
    if steps != [] {
      WaitSawStep(s, steps[0], t);
      E.EndStepKeeps(s, steps[0]);
      WaitSawRun(Apply(s, steps[0]), steps[1..], t);
    }
  }

  /** A `Go` or `Wait` that took the branch of a done context has, by the time it returns, left the group
      with an error: the context's, unless there was one already. */
  lemma DoneContextIsReported(max: int, keep: bool, before: seq<Step>, step: Step, after: seq<Step>)
    requires Feasible(Init(max, keep), before) && Enabled(After(Init(max, keep), before), step)
    requires (step.Submit? && step.sub.SeeCancelled?) || (step.Wait? && step.wait.TakeCancelled?)
    requires Feasible(Apply(After(Init(max, keep), before), step), after)
    ensures var r := After(Apply(After(Init(max, keep), before), step), after);
            && step.t in r.threads
            && (r.threads[step.t].Submitter? && r.threads[step.t].sub.SubDone? ==> r.errs.err.Some?)
            && (r.threads[step.t].Waiter? && r.threads[step.t].wait.WaitReturned? ==> r.errs.err.Some?)
  {
    E.EndInit(max, keep);
    E.EndRun(Init(max, keep), before);
    var s := After(Init(max, keep), before);
    E.EndStepKeeps(s, step);
    if step.Submit? {
      GoSawRun(Apply(s, step), after, step.t);
    } else {
      WaitSawRun(Apply(s, step), after, step.t);
    }
  }

  /** The task of such a `Go` is Canceled once the call is past its mark. */
  predicate CanceledBy(s: State, t: Tid) {
    && t in s.threads && s.threads[t].Submitter?
    && var th := s.threads[t];
       th.sub.SubMark? || ((th.sub.SubErr? || th.sub.SubDone?) && I.TaskAt(s.reg.tasks, th.id, Canceled))
  }

  lemma CanceledSubmits(s: State, t: Tid, a: SubAct)
    requires I.LifeInv(s) && CanceledBy(s, t) && SubReady(s, t, a)
    ensures CanceledBy(SubApply(s, t, a), t)
  {
    if a.MarkCanceled? {
      assert I.Live(s.threads[t]);
    }
  }

  lemma CanceledFunds(s: State, t: Tid, a: FundAct)
    requires CanceledBy(s, t) && FundReady(s, t, a)
    ensures CanceledBy(FundApply(s, t, a), t)
  {
  }

  lemma CanceledStep(s: State, step: Step, t: Tid)
    requires I.LifeInv(s) && CanceledBy(s, t) && Enabled(s, step) && I.Orderly(s, step)
    ensures CanceledBy(Apply(s, step), t)
  {
    I.LifeStep(s, step);
    if !Moves(step, t) {
      OthersStay(s, step, t);
    } else if step.Submit? {
      CanceledSubmits(s, t, step.sub);
    } else if step.Fund? {
      CanceledFunds(s, t, step.fund);
    }
  }

  lemma {:induction false} CanceledRun(s: State, steps: seq<Step>, t: Tid)
    requires I.LifeInv(s) && CanceledBy(s, t) && Feasible(s, steps) && I.AllOrderly(s, steps)
    ensures CanceledBy(After(s, steps), t)
    decreases |steps|
  {
    if steps != [] {
      CanceledStep(s, steps[0], t);
      I.LifeStep(s, steps[0]);
      CanceledRun(Apply(s, steps[0]), steps[1..], t);
    }
  }

  /** In an orderly run the task of a `Go` that saw the context done is Canceled by the time it returns,
      and for good. */
  lemma UnstartedTaskIsCanceled(max: int, keep: bool, before: seq<Step>, t: Tid, after: seq<Step>)
    requires Feasible(Init(max, keep), before) && I.AllOrderly(Init(max, keep), before)
    requires var s := After(Init(max, keep), before);
             && Enabled(s, Submit(t, SeeCancelled))
             && Feasible(Apply(s, Submit(t, SeeCancelled)), after)
             && I.AllOrderly(Apply(s, Submit(t, SeeCancelled)), after)
    ensures var r := After(Apply(After(Init(max, keep), before), Submit(t, SeeCancelled)), after);
            && t in r.threads && r.threads[t].Submitter?
            && (r.threads[t].sub.SubDone? ==> I.TaskAt(r.reg.tasks, r.threads[t].id, Canceled))
  {
    I.LifeInit(max, keep);
    I.LifeRun(Init(max, keep), before);
    var s := After(Init(max, keep), before);
    I.LifeStep(s, Submit(t, SeeCancelled));
    CanceledRun(Apply(s, Submit(t, SeeCancelled)), after, t);
  }
}
