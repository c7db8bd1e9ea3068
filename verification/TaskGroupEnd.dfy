/**
 How a task group ends: who can cancel it, how often its error is written, in what order its
 cleanup functions run, and exactly when `Wait` gets past them.
 */
module TaskGroupEnd {
  import opened Basics
  import opened TaskErrors
  import opened TaskGroup

  // ---------------------------------------------------------------- the context

  /** A goroutine that will report, or is reporting, that the context is done. */
  predicate SawCancel(th: Thread) {
    (th.Submitter? && (th.sub.SubMark? || th.sub.SubErr?)) || (th.Waiter? && th.wait.WaitErr?)
  }

  ghost predicate CancelInv(cancelled: bool, threads: map<Tid, Thread>) {
    forall t :: t in threads && SawCancel(threads[t]) ==> cancelled
  }

  /** The steps a caller recognises as a cancellation: from outside, by `CancelWithReason` or
      `Close`, or by the `Wait` that finishes the group. */
  predicate Cancels(step: Step) {
    || (step.Outside? && step.o.CancelOutside?)
    || (step.Close? && step.close.FireCancel?)
    || (step.Wait? && step.wait.FinishWait?)
  }

  // ---------------------------------------------------------------- tg.err

  /** A goroutine inside the body of `errOnce`, before and after it writes the error. */
  predicate BeforeErr(th: Thread) {
    (th.Worker? && th.work.WorkErrWrite?) || FundAt(th) == Some(FundWrite)
  }

  predicate AfterErr(th: Thread) {
    FundAt(th) == Some(FundCancel)
  }

  predicate ErrBody(err: Option<ErrValue>, th: Thread) {
    (BeforeErr(th) && err.None?) || (AfterErr(th) && err.Some?)
  }

  ghost predicate ErrInv(err: Option<ErrValue>, once: Once, threads: map<Tid, Thread>) {
    && (once.Fresh? ==> err.None?)
    && (once.Spent? ==> err.Some?)
    && (once.Busy? ==> once.t in threads && ErrBody(err, threads[once.t]))
    && (forall t :: t in threads && (BeforeErr(threads[t]) || AfterErr(threads[t])) ==> once == Busy(t))
  }

  // ---------------------------------------------------------------- the lock

  /** `Wait` from taking `mu` to returning. */
  predicate HoldsMu(th: Thread) {
    th.Waiter? && (th.wait.WaitFinish? || th.wait.WaitClean? || th.wait.WaitPast?)
  }

  ghost predicate MuInv(mu: Option<Tid>, threads: map<Tid, Thread>) {
    && (mu.Some? ==> mu.value in threads && HoldsMu(threads[mu.value]))
    && (forall t :: t in threads && HoldsMu(threads[t]) ==> mu == Some(t))
  }

  // ---------------------------------------------------------------- cleanup

  predicate InCleanup(th: Thread) {
    CleanAt(th).Some? && !CleanAt(th).value.CleanEnter?
  }

  /** How far the goroutine that won `cleanupOnce` has got. */
  predicate CleanBody(c: Cleanup, pc: CleanPc) {
    match pc
    case CleanEnter => false
    case CleanSnap => c.snapshot.None? && c.executed == []
    case CleanRun(left) =>
      c.snapshot.Some? && left <= |c.snapshot.value| && c.executed == Reverse(c.snapshot.value[left..])
  }

  /** Progress of the one cleanup: nothing before the snapshot, then the snapshot from its end. */
  ghost predicate CleanInv(c: Cleanup, threads: map<Tid, Thread>) {
    && (c.once.Fresh? ==> c.snapshot.None? && c.executed == [])
    && (c.once.Spent? ==> c.snapshot.Some? && c.executed == Reverse(c.snapshot.value))
    && (c.once.Busy? ==> c.once.t in threads && CleanAt(threads[c.once.t]).Some?
                         && CleanBody(c, CleanAt(threads[c.once.t]).value))
    && (forall t :: t in threads && InCleanup(threads[t]) ==> c.once == Busy(t))
  }

  // ---------------------------------------------------------------- all of it, over every step

  ghost predicate EndInv(s: State) {
    && CancelInv(s.cancelled, s.threads)
    && ErrInv(s.errs.err, s.errs.once, s.threads)
    && MuInv(s.mu, s.threads)
    && CleanInv(s.clean, s.threads)
  }

  lemma CancelShift(c: bool, c': bool, threads: map<Tid, Thread>, t: Tid, th: Thread)
    requires CancelInv(c, threads) && (c ==> c') && (SawCancel(th) ==> c')
    ensures CancelInv(c', threads[t := th])
  {
  }

  lemma ErrShift(err: Option<ErrValue>, once: Once, threads: map<Tid, Thread>, t: Tid, th: Thread)
    requires ErrInv(err, once, threads)
    requires t in threads ==> !BeforeErr(threads[t]) && !AfterErr(threads[t])
    requires !BeforeErr(th) && !AfterErr(th)
    ensures ErrInv(err, once, threads[t := th])
  {
  }

  lemma MuShift(mu: Option<Tid>, threads: map<Tid, Thread>, t: Tid, th: Thread)
    requires MuInv(mu, threads) && (HoldsMu(th) <==> t in threads && HoldsMu(threads[t]))
    ensures MuInv(mu, threads[t := th])
  {
  }

  lemma CleanShift(c: Cleanup, threads: map<Tid, Thread>, t: Tid, th: Thread)
    requires CleanInv(c, threads) && !InCleanup(th) && (t in threads ==> !InCleanup(threads[t]))
    ensures CleanInv(c, threads[t := th])
  {
  }

  /** A goroutine that no part of `EndInv` speaks about. */
  predicate Bystander(th: Thread) {
    !SawCancel(th) && !BeforeErr(th) && !AfterErr(th) && !HoldsMu(th) && !InCleanup(th)
  }

  predicate Shift(s: State, s': State, t: Tid) {
    t in s'.threads && s'.threads == s.threads[t := s'.threads[t]]
  }

  /** A bystander moves and the shared fields of `EndInv` stay, except that the context may be
      cancelled. */
  predicate Aside(s: State, s': State, t: Tid) {
    && Shift(s, s', t) && (t in s.threads ==> Bystander(s.threads[t])) && Bystander(s'.threads[t])
    && s'.errs.err == s.errs.err && s'.errs.once == s.errs.once
    && s'.mu == s.mu && s'.clean == s.clean && (s.cancelled ==> s'.cancelled)
  }

  lemma AsideKeeps(s: State, s': State, t: Tid)
    requires EndInv(s) && Aside(s, s', t)
    ensures EndInv(s')
  {
    var th := s'.threads[t];
    CancelShift(s.cancelled, s'.cancelled, s.threads, t, th);
    ErrShift(s.errs.err, s.errs.once, s.threads, t, th);
    MuShift(s.mu, s.threads, t, th);
    CleanShift(s.clean, s.threads, t, th);
  }

  lemma SubAside(s: State, t: Tid, a: SubAct)
    requires SubReady(s, t, a) && !a.Launch? && !a.SeeCancelled? && !a.MarkCanceled?
    ensures Aside(s, SubApply(s, t, a), t)
  {
  }

  lemma WorkAside(s: State, t: Tid, a: WorkAct)
    requires WorkReady(s, t, a) && !a.FailEnter? && !a.FailWrite?
    ensures Aside(s, WorkApply(s, t, a), t)
  {
  }

  lemma CloseAside(s: State, t: Tid, a: CloseAct)
    requires CloseReady(s, t, a)
    ensures Aside(s, CloseApply(s, t, a), t)
  {
  }

  lemma CallAside(s: State, o: OutsideAct)
    requires OutsideReady(s, o) && (o.CallGo? || o.CallWait? || o.CallClose?)
    ensures Aside(s, OutsideApply(s, o), o.t)
  {
  }

  lemma LaunchKeeps(s: State, t: Tid, w: Tid)
    requires EndInv(s) && SubReady(s, t, Launch(w))
    ensures EndInv(SubApply(s, t, Launch(w)))
  {
    var mid := Move(s, t, s.threads[t].(sub := SubDone));
    AsideKeeps(s, mid, t);
    AsideKeeps(mid, SubApply(s, t, Launch(w)), w);
  }

  /** The two steps by which a `Go` gives up once the context is done. */
  lemma GiveUpKeeps(s: State, t: Tid, a: SubAct)
    requires EndInv(s) && SubReady(s, t, a) && (a.SeeCancelled? || a.MarkCanceled?)
    ensures EndInv(SubApply(s, t, a))
  {
    var th := SubApply(s, t, a).threads[t];
    assert s.cancelled by { assert a.MarkCanceled? ==> SawCancel(s.threads[t]); }
    CancelShift(s.cancelled, s.cancelled, s.threads, t, th);
    ErrShift(s.errs.err, s.errs.once, s.threads, t, th);
    MuShift(s.mu, s.threads, t, th);
    CleanShift(s.clean, s.threads, t, th);
  }

  lemma FailErr(s: State, t: Tid, a: WorkAct)
    requires ErrInv(s.errs.err, s.errs.once, s.threads)
    requires WorkReady(s, t, a) && (a.FailEnter? || a.FailWrite?)
    ensures var s' := WorkApply(s, t, a);
            ErrInv(s'.errs.err, s'.errs.once, s'.threads) && (s.errs.err.Some? ==> s'.errs.err == s.errs.err)
  {
    if a.FailWrite? { assert BeforeErr(s.threads[t]); }
  }

  lemma FailKeeps(s: State, t: Tid, a: WorkAct)
    requires EndInv(s) && WorkReady(s, t, a) && (a.FailEnter? || a.FailWrite?)
    ensures EndInv(WorkApply(s, t, a))
  {
    var th := WorkApply(s, t, a).threads[t];
    FailErr(s, t, a);
    CancelShift(s.cancelled, s.cancelled, s.threads, t, th);
    MuShift(s.mu, s.threads, t, th);
    CleanShift(s.clean, s.threads, t, th);
  }

  lemma FundErr(s: State, t: Tid, a: FundAct)
    requires ErrInv(s.errs.err, s.errs.once, s.threads) && FundReady(s, t, a)
    ensures var s' := FundApply(s, t, a);
            ErrInv(s'.errs.err, s'.errs.once, s'.threads) && (s.errs.err.Some? ==> s'.errs.err == s.errs.err)
  {
    if a.ErrWrite? { assert BeforeErr(s.threads[t]); }
    if a.ErrCancel? { assert AfterErr(s.threads[t]); }
  }

  /** `setFundamentalError` is reached only with the context already done, so its own call of
      `cancel` changes nothing. */
  lemma FundKeeps(s: State, t: Tid, a: FundAct)
    requires EndInv(s) && FundReady(s, t, a)
    ensures EndInv(FundApply(s, t, a))
    ensures s.cancelled && FundApply(s, t, a).cancelled
  {
    var th := FundApply(s, t, a).threads[t];
    assert SawCancel(s.threads[t]);
    FundErr(s, t, a);
    CancelShift(s.cancelled, true, s.threads, t, th);
    MuShift(s.mu, s.threads, t, th);
    CleanShift(s.clean, s.threads, t, th);
  }

  lemma WaitMu(s: State, t: Tid, a: WaitAct)
    requires MuInv(s.mu, s.threads) && WaitReady(s, t, a) && (a.LockWait? ==> s.mu.None?)
    ensures MuInv(WaitApply(s, t, a).mu, WaitApply(s, t, a).threads)
  {
  }

  lemma WaitKeeps(s: State, t: Tid, a: WaitAct)
    requires EndInv(s) && WaitReady(s, t, a) && (a.LockWait? ==> s.mu.None?)
    ensures EndInv(WaitApply(s, t, a))
  {
    var s' := WaitApply(s, t, a);
    var th := s'.threads[t];
    WaitMu(s, t, a);
    CancelShift(s.cancelled, s'.cancelled, s.threads, t, th);
    ErrShift(s.errs.err, s.errs.once, s.threads, t, th);
    CleanShift(s.clean, s.threads, t, th);
  }

  lemma ReverseStep<T>(s: seq<T>, k: nat)
    requires 0 < k <= |s|
    ensures Reverse(s[k - 1..]) == Reverse(s[k..]) + [s[k - 1]]
  {
    assert s[k - 1..] == [s[k - 1]] + s[k..];
  }

  lemma SnapBody(c: Cleanup)
    requires c.executed == []
    ensures CleanBody(c.(snapshot := Some(c.entries)), CleanRun(|c.entries|))
  {
    assert c.entries[|c.entries|..] == [];
  }

  lemma RunBody(c: Cleanup, left: nat)
    requires CleanBody(c, CleanRun(left)) && left > 0
    ensures CleanBody(c.(executed := c.executed + [c.snapshot.value[left - 1]]), CleanRun(left - 1))
  {
    ReverseStep(c.snapshot.value, left);
  }

  /** The goroutine that owns `cleanupOnce` moves on. */
  lemma CleanOwner(c: Cleanup, c': Cleanup, threads: map<Tid, Thread>, t: Tid, th: Thread)
    requires CleanInv(c, threads) && t in threads
    requires InCleanup(threads[t]) || c.once.Fresh?
    requires c'.once == Busy(t) && InCleanup(th) && CleanBody(c', CleanAt(th).value)
    ensures CleanInv(c', threads[t := th])
  {
  }

  lemma CleanLeave(c: Cleanup, threads: map<Tid, Thread>, t: Tid, th: Thread)
    requires CleanInv(c, threads) && t in threads && CleanAt(threads[t]) == Some(CleanRun(0)) && !InCleanup(th)
    ensures CleanInv(c.(once := Spent), threads[t := th])
  {
    assert InCleanup(threads[t]);
    assert c.snapshot.value[0..] == c.snapshot.value;
  }

  lemma CleanEnterInv(s: State, t: Tid)
    requires CleanInv(s.clean, s.threads) && CleanReady(s, t, CleanOnce)
    ensures CleanInv(CleanApply(s, t, CleanOnce).clean, CleanApply(s, t, CleanOnce).threads)
  {
    var s' := CleanApply(s, t, CleanOnce);
    if s.clean.once.Fresh? {
      CleanOwner(s.clean, s'.clean, s.threads, t, s'.threads[t]);
    } else {
      CleanShift(s.clean, s.threads, t, s'.threads[t]);
    }
  }

  lemma SnapshotInv(s: State, t: Tid)
    requires CleanInv(s.clean, s.threads) && CleanReady(s, t, Snapshot)
    ensures CleanInv(CleanApply(s, t, Snapshot).clean, CleanApply(s, t, Snapshot).threads)
    ensures s.clean.snapshot.None?
  {
    var s' := CleanApply(s, t, Snapshot);
    assert InCleanup(s.threads[t]);
    SnapBody(s.clean);
    CleanOwner(s.clean, s'.clean, s.threads, t, s'.threads[t]);
  }

  /** One turn of the loop runs exactly the next entry of the snapshot, from its end. */
  lemma RunCleanupInv(s: State, t: Tid)
    requires CleanInv(s.clean, s.threads) && CleanReady(s, t, RunCleanup)
    ensures CleanInv(CleanApply(s, t, RunCleanup).clean, CleanApply(s, t, RunCleanup).threads)
  {
    var s' := CleanApply(s, t, RunCleanup);
    assert InCleanup(s.threads[t]);
    RunBody(s.clean, CleanAt(s.threads[t]).value.left);
    CleanOwner(s.clean, s'.clean, s.threads, t, s'.threads[t]);
  }

  lemma CleanActInv(s: State, t: Tid, a: CleanAct)
    requires CleanInv(s.clean, s.threads) && CleanReady(s, t, a)
    ensures CleanInv(CleanApply(s, t, a).clean, CleanApply(s, t, a).threads)
    ensures s.clean.snapshot.Some? ==> CleanApply(s, t, a).clean.snapshot == s.clean.snapshot
  {
    match a
    case CleanOnce => CleanEnterInv(s, t);
    case Snapshot => SnapshotInv(s, t);
    case RunCleanup => RunCleanupInv(s, t);
    case CleanEnd => CleanLeave(s.clean, s.threads, t, CleanApply(s, t, a).threads[t]);
  }

  lemma CleanKeeps(s: State, t: Tid, a: CleanAct)
    requires EndInv(s) && CleanReady(s, t, a)
    ensures EndInv(CleanApply(s, t, a))
  {
    var th := CleanApply(s, t, a).threads[t];
    CleanActInv(s, t, a);
    CancelShift(s.cancelled, s.cancelled, s.threads, t, th);
    ErrShift(s.errs.err, s.errs.once, s.threads, t, th);
    MuShift(s.mu, s.threads, t, th);
  }

  lemma OutsideKeeps(s: State, o: OutsideAct)
    requires EndInv(s) && OutsideReady(s, o)
    ensures EndInv(OutsideApply(s, o))
  {
    if o.CallGo? || o.CallWait? || o.CallClose? {
      CallAside(s, o);
      AsideKeeps(s, OutsideApply(s, o), o.t);
    }
  }

  lemma SubKeeps(s: State, t: Tid, a: SubAct)
    requires EndInv(s) && SubReady(s, t, a)
    ensures EndInv(SubApply(s, t, a))
  {
    if a.Launch? {
      LaunchKeeps(s, t, a.w);
    } else if a.SeeCancelled? || a.MarkCanceled? {
      GiveUpKeeps(s, t, a);
    } else {
      SubAside(s, t, a);
      AsideKeeps(s, SubApply(s, t, a), t);
    }
  }

  lemma WorkKeeps(s: State, t: Tid, a: WorkAct)
    requires EndInv(s) && WorkReady(s, t, a)
    ensures EndInv(WorkApply(s, t, a))
  {
    if a.FailEnter? || a.FailWrite? {
      FailKeeps(s, t, a);
    } else {
      WorkAside(s, t, a);
      AsideKeeps(s, WorkApply(s, t, a), t);
    }
  }

  lemma EndStepKeeps(s: State, step: Step)
    requires EndInv(s) && Enabled(s, step)
    ensures EndInv(Apply(s, step))
  {
    match step
    case Outside(o) => OutsideKeeps(s, o);
    case Submit(t, a) => SubKeeps(s, t, a);
    case Work(t, a) => WorkKeeps(s, t, a);
    case Fund(t, a) => FundKeeps(s, t, a);
    case Wait(t, a) => WaitKeeps(s, t, a);
    case Close(t, a) => CloseAside(s, t, a); AsideKeeps(s, Apply(s, step), t);
    case Clean(t, a) => CleanKeeps(s, t, a);
  }

  lemma {:induction false} EndRun(s: State, steps: seq<Step>)
    requires EndInv(s) && Feasible(s, steps)
    ensures EndInv(After(s, steps))
    decreases |steps|
  {
    if steps != [] {
      EndStepKeeps(s, steps[0]);
      EndRun(Apply(s, steps[0]), steps[1..]);
    }
  }

  lemma EndInit(max: int, keep: bool)
    ensures EndInv(Init(max, keep))
  {
  }

  // ---------------------------------------------------------------- siblings are never cancelled

  /** What each kind of step leaves alone. */
  lemma OutsideStill(s: State, o: OutsideAct)
    ensures var r := OutsideApply(s, o);
            r.errs == s.errs && r.clean.snapshot == s.clean.snapshot && (!o.CancelOutside? ==> r.cancelled == s.cancelled)
  {
  }

  lemma SubmitStill(s: State, t: Tid, a: SubAct)
    requires SubReady(s, t, a)
    ensures var r := SubApply(s, t, a); r.errs == s.errs && r.clean == s.clean && r.cancelled == s.cancelled
  {
  }

  lemma WorkStill(s: State, t: Tid, a: WorkAct)
    requires WorkReady(s, t, a)
    ensures var r := WorkApply(s, t, a);
            r.clean == s.clean && r.cancelled == s.cancelled && (!a.FailWrite? ==> r.errs.err == s.errs.err)
  {
  }

  lemma FundStill(s: State, t: Tid, a: FundAct)
    requires FundReady(s, t, a)
    ensures FundApply(s, t, a).clean == s.clean
  {
  }

  lemma WaitStill(s: State, t: Tid, a: WaitAct)
    requires WaitReady(s, t, a)
    ensures var r := WaitApply(s, t, a);
            r.errs == s.errs && r.clean == s.clean && (!a.FinishWait? ==> r.cancelled == s.cancelled)
  {
  }

  lemma CloseStill(s: State, t: Tid, a: CloseAct)
    requires CloseReady(s, t, a)
    ensures var r := CloseApply(s, t, a);
            r.errs == s.errs && r.clean == s.clean && (!a.FireCancel? ==> r.cancelled == s.cancelled)
  {
  }

  lemma CleanStill(s: State, t: Tid, a: CleanAct)
    requires CleanReady(s, t, a)
    ensures var r := CleanApply(s, t, a);
            r.errs == s.errs && r.cancelled == s.cancelled && (!a.Snapshot? ==> r.clean.snapshot == s.clean.snapshot)
  {
  }

  lemma OnlyCancelsCancel(s: State, step: Step)
    requires EndInv(s) && Enabled(s, step) && !Cancels(step)
    ensures Apply(s, step).cancelled == s.cancelled
  {
    match step
    case Outside(o) => OutsideStill(s, o);
    case Submit(t, a) => SubmitStill(s, t, a);
    case Work(t, a) => WorkStill(s, t, a);
    case Fund(t, a) => FundKeeps(s, t, a);
    case Wait(t, a) => WaitStill(s, t, a);
    case Close(t, a) => CloseStill(s, t, a);
    case Clean(t, a) => CleanStill(s, t, a);
  }

  lemma {:induction false} CauseInRun(s: State, steps: seq<Step>)
    requires EndInv(s) && !s.cancelled && Feasible(s, steps) && After(s, steps).cancelled
    ensures exists i :: 0 <= i < |steps| && Cancels(steps[i])
    decreases |steps|
  {
    if Cancels(steps[0]) {
    } else {
      OnlyCancelsCancel(s, steps[0]);
      EndStepKeeps(s, steps[0]);
      CauseInRun(Apply(s, steps[0]), steps[1..]);
      var i :| 0 <= i < |steps[1..]| && Cancels(steps[1..][i]);
      assert Cancels(steps[i + 1]);
    }
  }

  /** If a run ends with the context cancelled, some step of the run cancelled it for one of
      the three recognised reasons; a failing or panicking task is not among them. */
  lemma CancelHasCause(max: int, keep: bool, steps: seq<Step>)
    requires Feasible(Init(max, keep), steps) && After(Init(max, keep), steps).cancelled
    ensures exists i :: 0 <= i < |steps| && Cancels(steps[i])
  {
    EndInit(max, keep);
    CauseInRun(Init(max, keep), steps);
  }

  // ---------------------------------------------------------------- the error is written once

  lemma ErrStays(s: State, step: Step)
    requires EndInv(s) && Enabled(s, step) && s.errs.err.Some?
    ensures Apply(s, step).errs.err == s.errs.err
  {
    match step
    case Outside(o) => OutsideStill(s, o);
    case Submit(t, a) => SubmitStill(s, t, a);
    case Work(t, a) => if a.FailWrite? { FailErr(s, t, a); } else { WorkStill(s, t, a); }
    case Fund(t, a) => FundErr(s, t, a);
    case Wait(t, a) => WaitStill(s, t, a);
    case Close(t, a) => CloseStill(s, t, a);
    case Clean(t, a) => CleanStill(s, t, a);
  }

  /** `tg.err` is written at most once: a value once there is there in every later state. */
  lemma {:induction false} ErrWrittenOnce(s: State, steps: seq<Step>)
    requires EndInv(s) && Feasible(s, steps) && s.errs.err.Some?
    ensures After(s, steps).errs.err == s.errs.err
    decreases |steps|
  {
    if steps != [] {
      ErrStays(s, steps[0]);
      EndStepKeeps(s, steps[0]);
      ErrWrittenOnce(Apply(s, steps[0]), steps[1..]);
    }
  }

  // ---------------------------------------------------------------- cleanup runs once

  /** The snapshot is written by one step only, that step is a `Close` call's (a `Wait` would have
      to read-lock the `mu` it holds), and it finds no earlier snapshot. */
  lemma OnlyCloseSnapshots(s: State, step: Step)
    requires EndInv(s) && Enabled(s, step)
    ensures step.Clean? && step.clean.Snapshot? ==> s.threads[step.t].Closer? && s.clean.snapshot.None?
    ensures !(step.Clean? && step.clean.Snapshot?) ==> Apply(s, step).clean.snapshot == s.clean.snapshot
  {
    match step
    case Outside(o) => OutsideStill(s, o);
    case Submit(t, a) => SubmitStill(s, t, a);
    case Work(t, a) => WorkStill(s, t, a);
    case Fund(t, a) => FundStill(s, t, a);
    case Wait(t, a) => WaitStill(s, t, a);
    case Close(t, a) => CloseStill(s, t, a);
    case Clean(t, a) => if a.Snapshot? { SnapshotByClose(s, t); } else { CleanStill(s, t, a); }
  }

  lemma SnapshotByClose(s: State, t: Tid)
    requires EndInv(s) && CleanReady(s, t, Snapshot) && s.mu.None?
    ensures s.threads[t].Closer? && s.clean.snapshot.None?
  {
    SnapshotInv(s, t);
    assert !HoldsMu(s.threads[t]);
  }

  /** Entries registered after the snapshot are never part of it. */
  lemma {:induction false} SnapshotFixed(s: State, steps: seq<Step>)
    requires EndInv(s) && Feasible(s, steps) && s.clean.snapshot.Some?
    ensures After(s, steps).clean.snapshot == s.clean.snapshot
    decreases |steps|
  {
    if steps != [] {
      OnlyCloseSnapshots(s, steps[0]);
      EndStepKeeps(s, steps[0]);
      SnapshotFixed(Apply(s, steps[0]), steps[1..]);
    }
  }

  /** Over any mix of `Close` and `Wait` calls the cleanup functions that have run are a prefix of
      the snapshot read backwards, each entry once; all of it when the cleanup is over, and
      nothing at all without a snapshot. */
  lemma CleanupRunsOnce(max: int, keep: bool, steps: seq<Step>)
    requires Feasible(Init(max, keep), steps)
    ensures var c := After(Init(max, keep), steps).clean;
            && (c.snapshot.None? ==> c.executed == [])
            && (c.snapshot.Some? ==> c.executed <= Reverse(c.snapshot.value))
            && (c.once.Spent? ==> c.snapshot.Some? && c.executed == Reverse(c.snapshot.value))
  {
    EndInit(max, keep);
    EndRun(Init(max, keep), steps);
    var s := After(Init(max, keep), steps);
    if s.clean.once.Busy? {
      var pc := CleanAt(s.threads[s.clean.once.t]).value;
      if pc.CleanRun? {
        ReversePrefix(s.clean.snapshot.value, pc.left);
      }
    }
  }

  lemma ReversePrefix<T>(s: seq<T>, k: nat)
    requires k <= |s|
    ensures Reverse(s[k..]) <= Reverse(s)
  {
  }

  /** Control flow inside a Go function: going on, or unwinding with a panic value. */
  datatype Flow = Going | Unwinding(value: string)

  /** The function literal around one cleanup call: a panic unwinds it as far as its deferred
      recover, which turns the flow back to normal. */
  method RunEntry(out: Outcome) returns (flow: Flow, reported: bool)
    ensures flow == Going
    ensures reported <==> !out.Ok?
  {
    flow := if out.Panic? then Unwinding(out.value) else Going;
    reported := flow.Going? && out.Fail?;
    if flow.Unwinding? {
      reported := true;
      flow := Going;
    }
  }

  /** `bad` are exactly the entries of `done` that did not end well. */
  ghost predicate Reports(bad: seq<string>, done: seq<string>, outcome: string -> Outcome) {
    forall x :: x in bad <==> x in done && !outcome(x).Ok?
  }

  /** One more entry, from the end of the list. */
  lemma OneMore(entries: seq<string>, i: nat, bad: seq<string>, outcome: string -> Outcome)
    requires i < |entries| && Reports(bad, entries[i + 1..], outcome)
    ensures Reverse(entries[i..]) == Reverse(entries[i + 1..]) + [entries[i]]
    ensures Reports(if outcome(entries[i]).Ok? then bad else bad + [entries[i]], entries[i..], outcome)
  {
    ReverseStep(entries, i + 1);
    assert entries[i..] == [entries[i]] + entries[i + 1..];
  }

  /** The loop of `executeCleanup`.  A panic that got past an entry would end the loop; none does, so
      whether an entry errors or panics, the next one still runs. */
  method RunEntries(entries: seq<string>, outcome: string -> Outcome) returns (trace: seq<string>, bad: seq<string>, flow: Flow)
    ensures flow == Going && trace == Reverse(entries) && Reports(bad, entries, outcome)
  {
    trace, bad, flow := [], [], Going;
    var i := |entries|;
    while i > 0 && flow.Going?
      invariant 0 <= i <= |entries| && flow == Going
      invariant trace == Reverse(entries[i..]) && Reports(bad, entries[i..], outcome)
    {
      i := i - 1;
      OneMore(entries, i, bad, outcome);
      var reported;
      flow, reported := RunEntry(outcome(entries[i]));
      trace := trace + [entries[i]];
      if reported {
        bad := bad + [entries[i]];
      }
    }
    assert entries[0..] == entries;
  }

  // ---------------------------------------------------------------- exactly when Wait gets past cleanup

  /** `Wait` took `mu` and no snapshot of the cleanup list exists. */
  predicate Doomed(s: State, t: Tid) {
    && s.mu == Some(t) && s.clean.snapshot.None?
    && t in s.threads && s.threads[t].Waiter?
    && (s.threads[t].wait.WaitFinish? || s.threads[t].wait == WaitClean(CleanEnter) || s.threads[t].wait == WaitClean(CleanSnap))
  }

  lemma DoomedSub(s: State, u: Tid, a: SubAct, t: Tid)
    requires Doomed(s, t) && SubReady(s, u, a)
    ensures Doomed(SubApply(s, u, a), t)
  {
  }

  lemma DoomedWork(s: State, u: Tid, a: WorkAct, t: Tid)
    requires Doomed(s, t) && WorkReady(s, u, a)
    ensures Doomed(WorkApply(s, u, a), t)
  {
  }

  lemma DoomedFund(s: State, u: Tid, a: FundAct, t: Tid)
    requires Doomed(s, t) && FundReady(s, u, a)
    ensures Doomed(FundApply(s, u, a), t)
  {
  }

  lemma DoomedClose(s: State, u: Tid, a: CloseAct, t: Tid)
    requires Doomed(s, t) && CloseReady(s, u, a)
    ensures Doomed(CloseApply(s, u, a), t)
  {
  }

  lemma DoomedSteps(s: State, step: Step, t: Tid)
    requires EndInv(s) && Doomed(s, t) && Enabled(s, step)
    ensures !NeedsMu(step) && Doomed(Apply(s, step), t)
  {
    match step
    case Outside(o) =>
    case Submit(u, a) => DoomedSub(s, u, a, t);
    case Work(u, a) => DoomedWork(s, u, a, t);
    case Fund(u, a) => DoomedFund(s, u, a, t);
    case Wait(u, a) => DoomedWait(s, u, a, t);
    case Close(u, a) => DoomedClose(s, u, a, t);
    case Clean(u, a) => DoomedClean(s, u, a, t);
  }

  lemma DoomedWait(s: State, u: Tid, a: WaitAct, t: Tid)
    requires EndInv(s) && Doomed(s, t) && WaitReady(s, u, a) && !a.LockWait?
    ensures Doomed(WaitApply(s, u, a), t)
  {
    if a.Return? { assert HoldsMu(s.threads[u]); }
  }

  lemma DoomedClean(s: State, u: Tid, a: CleanAct, t: Tid)
    requires EndInv(s) && Doomed(s, t) && CleanReady(s, u, a) && !a.Snapshot?
    ensures Doomed(CleanApply(s, u, a), t)
  {
    assert InCleanup(s.threads[u]) || CleanAt(s.threads[u]).value.CleanEnter?;
  }

  /** A `Wait` that takes `mu` before any snapshot exists blocks on its own lock for ever, and
      with it every later user of `mu`. */
  lemma {:induction false} WaitBlocksForever(s: State, steps: seq<Step>, t: Tid)
    requires EndInv(s) && Doomed(s, t) && Feasible(s, steps)
    ensures Doomed(After(s, steps), t) && EndInv(After(s, steps))
    ensures forall i :: 0 <= i < |steps| ==> !NeedsMu(steps[i])
    decreases |steps|
  {
    if steps != [] {
      DoomedSteps(s, steps[0], t);
      EndStepKeeps(s, steps[0]);
      WaitBlocksForever(Apply(s, steps[0]), steps[1..], t);
      forall i | 0 <= i < |steps| ensures !NeedsMu(steps[i]) {
        if i > 0 { assert steps[i] == steps[1..][i - 1]; }
      }
    }
  }

  /** The state of a `Wait` that has finished the group and waits for the cleanup to be over. */
  predicate Waiting(s: State, t: Tid) {
    && s.mu == Some(t) && t in s.threads && s.threads[t] == Waiter(WaitClean(CleanEnter))
  }

  /** A cleanup whose snapshot is taken runs to its end without `mu`. */
  lemma {:induction false} CleanupFinishes(s: State, t: Tid, left: nat) returns (steps: seq<Step>)
    requires EndInv(s) && Waiting(s, t) && s.clean.once.Busy? && s.clean.snapshot.Some?
    requires CleanAt(s.threads[s.clean.once.t]) == Some(CleanRun(left))
    ensures Feasible(s, steps)
    ensures var s' := After(s, steps); EndInv(s') && Waiting(s', t) && s'.clean.once.Spent?
    decreases left
  {
    var c := s.clean.once.t;
    var step := Clean(c, if left == 0 then CleanEnd else RunCleanup);
    CleanKeeps(s, c, step.clean);
    var s' := CleanApply(s, c, step.clean);
    assert c != t;
    if left == 0 {
      Single(s, step);
      steps := [step];
    } else {
      var rest := CleanupFinishes(s', t, left - 1);
      Single(s, step);
      Concat(s, [step], rest);
      steps := [step] + rest;
    }
  }

  predicate Returned(s: State, t: Tid) {
    t in s.threads && s.threads[t] == Waiter(WaitReturned) && s.mu.None?
  }

  /** Once the cleanup is over, `Wait` passes it and returns, letting go of `mu`. */
  lemma WaitLeaves(s: State, run: seq<Step>, t: Tid) returns (steps: seq<Step>)
    requires Feasible(s, run) && Waiting(After(s, run), t) && After(s, run).clean.once.Spent?
    ensures Feasible(s, steps) && Returned(After(s, steps), t)
  {
    var q := After(s, run);
    Single(q, Clean(t, CleanOnce));
    Concat(s, run, [Clean(t, CleanOnce)]);
    var past := run + [Clean(t, CleanOnce)];
    assert After(s, past).threads[t] == Waiter(WaitPast);
    Single(After(s, past), Wait(t, Return));
    Concat(s, past, [Wait(t, Return)]);
    steps := past + [Wait(t, Return)];
  }

  lemma WaitReturns(s: State, t: Tid) returns (steps: seq<Step>)
    requires EndInv(s) && s.clean.snapshot.Some?
    requires t in s.threads && s.threads[t] == Waiter(WaitFinish)
    ensures Feasible(s, steps) && Returned(After(s, steps), t)
  {
    assert HoldsMu(s.threads[t]);
    WaitKeeps(s, t, FinishWait);
    var s1 := WaitApply(s, t, FinishWait);
    var run := [];
    assert Feasible(s1, run) && After(s1, run) == s1;
    if s1.clean.once.Busy? {
      var pc := CleanAt(s1.threads[s1.clean.once.t]).value;
      run := CleanupFinishes(s1, t, pc.left);
    }
    var more := WaitLeaves(s1, run, t);
    Single(s, Wait(t, FinishWait));
    Concat(s, [Wait(t, FinishWait)], more);
    steps := [Wait(t, FinishWait)] + more;
  }

  ghost predicate CanReturn(s: State, t: Tid) {
    exists steps :: Feasible(s, steps) && Returned(After(s, steps), t)
  }

  /** The exact condition for the `Wait` that finishes the group to return: at the moment it holds
      `mu`, the cleanup list has already been snapshotted. */
  lemma WaitReturnsIffSnapshot(max: int, keep: bool, run: seq<Step>, t: Tid)
    requires Feasible(Init(max, keep), run)
    requires var s := After(Init(max, keep), run); t in s.threads && s.threads[t] == Waiter(WaitFinish)
    ensures var s := After(Init(max, keep), run);
            CanReturn(s, t) <==> s.clean.snapshot.Some?
  {
    EndInit(max, keep);
    EndRun(Init(max, keep), run);
    var s := After(Init(max, keep), run);
    if s.clean.snapshot.Some? {
      var steps := WaitReturns(s, t);
    } else {
      assert HoldsMu(s.threads[t]);
      forall steps | Feasible(s, steps) ensures !Returned(After(s, steps), t) {
        WaitBlocksForever(s, steps, t);
      }
    }
  }
}
