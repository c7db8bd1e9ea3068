/**
 What every run of a task group keeps: the semaphore and the wait group count exactly the
 goroutines they should, no more tasks run than the limit allows, errors are accounted for,
 and a failing task never cancels its siblings.
 */
module TaskGroupSafety {
  import opened Basics
  import opened TaskErrors
  import opened TaskGroup

  // ---------------------------------------------------------------- semaphore and wait group

  /** A caller past acquisition, or a worker that has not released yet. */
  predicate HoldsToken(th: Thread) {
    || (th.Submitter? && (th.sub.SubAdd? || th.sub.SubGo?))
    || (th.Worker? && !th.work.WorkDone? && !th.work.WorkGone?)
  }

  /** A caller past `wg.Add`, or a worker before `wg.Done`. */
  predicate InWg(th: Thread) {
    || (th.Submitter? && th.sub.SubGo?)
    || (th.Worker? && !th.work.WorkGone?)
  }

  predicate PastStart(th: Thread) {
    th.Worker? || (th.Submitter? && !th.sub.SubStart?)
  }

  ghost predicate SemInv(s: State) {
    && (s.sem.capacity.None? ==> s.sem.tokens == 0)
    && (s.sem.capacity.Some? ==> s.sem.tokens == |Pick(s.threads, HoldsToken)| <= s.sem.capacity.value)
    && s.wg == |Pick(s.threads, InWg)|
    && (forall t :: t in s.threads && PastStart(s.threads[t]) ==> s.started)
  }

  /** A step that moves only goroutine `t` changes the two counts as that goroutine does. */
  lemma CountMove(threads: map<Tid, Thread>, t: Tid, th: Thread)
    ensures var threads' := threads[t := th];
            && |Pick(threads', HoldsToken)| ==
               |Pick(threads, HoldsToken)| + One(HoldsToken(th)) - One(t in threads && HoldsToken(threads[t]))
            && |Pick(threads', InWg)| ==
               |Pick(threads, InWg)| + One(InWg(th)) - One(t in threads && InWg(threads[t]))
  {
    PickUpdate(threads, t, th, HoldsToken);
    PickUpdate(threads, t, th, InWg);
  }

  lemma LaunchSem(s: State, t: Tid, w: Tid)
    requires SemInv(s) && SubReady(s, t, Launch(w))
    ensures SemInv(SubApply(s, t, Launch(w)))
  {
    var done := s.threads[t].(sub := SubDone);
    CountMove(s.threads, t, done);
    CountMove(s.threads[t := done], w, Worker(WorkMark, done.name, done.id, Ok));
  }

  lemma SubSem(s: State, t: Tid, a: SubAct)
    requires SemInv(s) && SubReady(s, t, a)
    ensures SemInv(SubApply(s, t, a))
  {
    if a.Launch? {
      LaunchSem(s, t, a.w);
    } else {
      CountMove(s.threads, t, SubApply(s, t, a).threads[t]);
    }
  }

  lemma WorkSem(s: State, t: Tid, a: WorkAct)
    requires SemInv(s) && WorkReady(s, t, a)
    ensures SemInv(WorkApply(s, t, a))
  {
    var s' := WorkApply(s, t, a);
    CountMove(s.threads, t, s'.threads[t]);
  }

  lemma OutsideSem(s: State, o: OutsideAct)
    requires SemInv(s) && OutsideReady(s, o)
    ensures SemInv(OutsideApply(s, o))
  {
    if o.CallGo? || o.CallWait? || o.CallClose? {
      CountMove(s.threads, o.t, OutsideApply(s, o).threads[o.t]);
    } else if o.SetLimit? && !s.started {
      assert Pick(s.threads, HoldsToken) == {};
    }
  }

  /** The remaining goroutines hold no token and are not in the wait group. */
  lemma QuietSem(s: State, s': State, t: Tid)
    requires SemInv(s) && QuietMove(s, s', t)
    ensures SemInv(s')
  {
    CountMove(s.threads, t, s'.threads[t]);
  }

  lemma SemStep(s: State, step: Step)
    requires SemInv(s) && Enabled(s, step)
    ensures SemInv(Apply(s, step))
  {
    match step
    case Outside(o) => OutsideSem(s, o);
    case Submit(t, a) => SubSem(s, t, a);
    case Work(t, a) => WorkSem(s, t, a);
    case _ => EndFrame(s, step); QuietSem(s, Apply(s, step), step.t);
  }

  lemma {:induction false} SemRun(s: State, steps: seq<Step>)
    requires SemInv(s) && Feasible(s, steps)
    ensures SemInv(After(s, steps))
    decreases |steps|
  {
    if steps != [] {
      SemStep(s, steps[0]);
      SemRun(Apply(s, steps[0]), steps[1..]);
    }
  }

  /** In every state of every run the channel holds one token per caller past acquisition and
      per worker that has not released, and the wait group counts its goroutines exactly. */
  lemma SemaphoreConserved(max: int, keep: bool, steps: seq<Step>)
    requires Feasible(Init(max, keep), steps)
    ensures var s := After(Init(max, keep), steps);
            && (s.sem.capacity.Some? ==>
                  s.sem.tokens == |Pick(s.threads, HoldsToken)| && s.sem.tokens <= s.sem.capacity.value)
            && s.wg == |Pick(s.threads, InWg)|
  {
    SemInit(max, keep);
    SemRun(Init(max, keep), steps);
  }

  lemma SemInit(max: int, keep: bool)
    ensures SemInv(Init(max, keep))
  {
    assert Pick(map[], HoldsToken) == {} && Pick(map[], InWg) == {};
  }

  lemma SubmitChannel(s: State, t: Tid, a: SubAct)
    requires SubReady(s, t, a)
    ensures SubApply(s, t, a).sem.gen == s.sem.gen
  {
  }

  lemma WorkChannel(s: State, t: Tid, a: WorkAct)
    requires WorkReady(s, t, a)
    ensures WorkApply(s, t, a).sem.gen == s.sem.gen
  {
  }

  lemma OnlySetLimitReplaces(s: State, step: Step)
    requires Enabled(s, step)
    ensures Apply(s, step).sem.gen != s.sem.gen <==> step.Outside? && step.o.SetLimit? && !s.started
  {
    match step
    case Outside(o) =>
    case Submit(t, a) => SubmitChannel(s, t, a);
    case Work(t, a) => WorkChannel(s, t, a);
    case _ => EndFrame(s, step);
  }

  /** A step replaces the channel exactly when it is a `SetLimit` before the start, and then nobody
      holds a token of the old one. */
  lemma ChannelNotReplacedWhileHeld(max: int, keep: bool, steps: seq<Step>, step: Step)
    requires Feasible(Init(max, keep), steps) && Enabled(After(Init(max, keep), steps), step)
    ensures var s := After(Init(max, keep), steps);
            && (Apply(s, step).sem.gen != s.sem.gen <==> step.Outside? && step.o.SetLimit? && !s.started)
            && (Apply(s, step).sem.gen != s.sem.gen ==> Pick(s.threads, HoldsToken) == {})
  {
    var s := After(Init(max, keep), steps);
    SemInit(max, keep);
    SemRun(Init(max, keep), steps);
    OnlySetLimitReplaces(s, step);
  }

  // ---------------------------------------------------------------- running tasks

  /** A worker between marking its task Running and marking its end. */
  predicate Executing(th: Thread) {
    th.Worker? && (th.work.WorkBody? || th.work.WorkEnd?)
  }

  ghost predicate RunInv(r: Registry, threads: map<Tid, Thread>) {
    forall id :: id in r.tasks && r.tasks[id].status == Running ==>
      exists t :: t in threads && Executing(threads[t]) && threads[t].id == id
  }

  /** Moving a goroutine that is not executing strands no running task. */
  lemma RunFrame(r: Registry, threads: map<Tid, Thread>, t: Tid, th: Thread, r': Registry)
    requires RunInv(r, threads)
    requires t in threads && Executing(threads[t]) ==> Executing(th) && th.id == threads[t].id
    requires forall id :: id in r'.tasks && r'.tasks[id].status == Running ==>
                            id in r.tasks && r.tasks[id].status == Running
    ensures RunInv(r', threads[t := th])
  {
    var threads' := threads[t := th];
    forall id | id in r'.tasks && r'.tasks[id].status == Running
      ensures exists u :: u in threads' && Executing(threads'[u]) && threads'[u].id == id
    {
      var u :| u in threads && Executing(threads[u]) && threads[u].id == id;
      assert Executing(threads'[u]) && threads'[u].id == id;
    }
  }

  lemma SubRunning(s: State, t: Tid, a: SubAct)
    requires RunInv(s.reg, s.threads) && SubReady(s, t, a)
    ensures RunInv(SubApply(s, t, a).reg, SubApply(s, t, a).threads)
  {
    var s' := SubApply(s, t, a);
    if a.Launch? {
      var done := s.threads[t].(sub := SubDone);
      RunFrame(s.reg, s.threads, t, done, s.reg);
      RunFrame(s.reg, s.threads[t := done], a.w, s'.threads[a.w], s.reg);
    } else {
      RunFrame(s.reg, s.threads, t, s'.threads[t], s'.reg);
    }
  }

  lemma WorkRunning(s: State, t: Tid, a: WorkAct)
    requires RunInv(s.reg, s.threads) && WorkReady(s, t, a)
    ensures RunInv(WorkApply(s, t, a).reg, WorkApply(s, t, a).threads)
  {
    var s' := WorkApply(s, t, a);
    if a.MarkRunning? || a.MarkEnd? {
      forall id | id in s'.reg.tasks && s'.reg.tasks[id].status == Running
        ensures exists u :: u in s'.threads && Executing(s'.threads[u]) && s'.threads[u].id == id
      {
        if a.MarkRunning? && id == s.threads[t].id {
          assert Executing(s'.threads[t]) && s'.threads[t].id == id;
        } else {
          var u :| u in s.threads && Executing(s.threads[u]) && s.threads[u].id == id;
          assert u != t;
          assert Executing(s'.threads[u]) && s'.threads[u].id == id;
        }
      }
    } else {
      RunFrame(s.reg, s.threads, t, s'.threads[t], s'.reg);
    }
  }

  lemma RunningStep(s: State, step: Step)
    requires RunInv(s.reg, s.threads) && Enabled(s, step)
    ensures RunInv(Apply(s, step).reg, Apply(s, step).threads)
  {
    match step
    case Outside(o) =>
      if o.CallGo? || o.CallWait? || o.CallClose? {
        RunFrame(s.reg, s.threads, o.t, OutsideApply(s, o).threads[o.t], s.reg);
      }
    case Submit(t, a) => SubRunning(s, t, a);
    case Work(t, a) => WorkRunning(s, t, a);
    case _ =>
      EndFrame(s, step);
      RunFrame(s.reg, s.threads, step.t, Apply(s, step).threads[step.t], s.reg);
  }

  lemma {:induction false} RunningRun(s: State, steps: seq<Step>)
    requires RunInv(s.reg, s.threads) && Feasible(s, steps)
    ensures RunInv(After(s, steps).reg, After(s, steps).threads)
    decreases |steps|
  {
    if steps != [] {
      RunningStep(s, steps[0]);
      RunningRun(Apply(s, steps[0]), steps[1..]);
    }
  }

  function IdOf(threads: map<Tid, Thread>): Tid -> int {
    t => if t in threads && threads[t].Worker? then threads[t].id else 0
  }

  /** At no point of any run do more tasks have status Running than the limit allows, whether
      or not task ids happen to collide. */
  lemma AtMostLimitRunning(max: int, keep: bool, steps: seq<Step>)
    requires Feasible(Init(max, keep), steps)
    requires After(Init(max, keep), steps).sem.capacity.Some?
    ensures var s := After(Init(max, keep), steps);
            |set id | id in s.reg.tasks && s.reg.tasks[id].status == Running| <= s.sem.capacity.value
  {
    var s := After(Init(max, keep), steps);
    SemInit(max, keep);
    SemRun(Init(max, keep), steps);
    RunningRun(Init(max, keep), steps);
    var running := set id | id in s.reg.tasks && s.reg.tasks[id].status == Running;
    var holders := Pick(s.threads, HoldsToken);
    forall id | id in running ensures exists t :: t in holders && IdOf(s.threads)(t) == id {
      var t :| t in s.threads && Executing(s.threads[t]) && s.threads[t].id == id;
      assert t in holders && IdOf(s.threads)(t) == id;
    }
    CoverBound(running, holders, IdOf(s.threads));
  }

  // ---------------------------------------------------------------- collected errors

  /** A worker whose error has been added to the group error. */
  predicate Recorded(th: Thread) {
    && th.Worker? && !th.out.Ok?
    && (th.work.WorkErr? || th.work.WorkErrWrite? || th.work.WorkRelease? || th.work.WorkDone? || th.work.WorkGone?)
  }

  predicate RecordedPanic(th: Thread) {
    Recorded(th) && Contains(Message(th.out), PanicMark)
  }

  predicate RecordedFail(th: Thread) {
    Recorded(th) && !Contains(Message(th.out), PanicMark)
  }

  ghost predicate NamesInv(g: Group, threads: map<Tid, Thread>) {
    && (forall t :: t in threads && Recorded(threads[t]) ==> threads[t].name in g.errors)
    && (forall name :: name in g.errors ==>
          exists t :: t in threads && Recorded(threads[t]) && threads[t].name == name &&
                      g.errors[name] == Message(threads[t].out))
  }

  ghost predicate GroupInv(s: State) {
    && s.errs.group.panics == |Pick(s.threads, RecordedPanic)|
    && s.errs.group.fails == |Pick(s.threads, RecordedFail)|
    && NamesInv(s.errs.group, s.threads)
    && (forall t :: t in s.threads && s.threads[t].Worker? && s.threads[t].work.WorkRecord? ==> !s.threads[t].out.Ok?)
  }

  lemma RecordMove(threads: map<Tid, Thread>, t: Tid, th: Thread)
    ensures var threads' := threads[t := th];
            && |Pick(threads', RecordedPanic)| ==
               |Pick(threads, RecordedPanic)| + One(RecordedPanic(th)) - One(t in threads && RecordedPanic(threads[t]))
            && |Pick(threads', RecordedFail)| ==
               |Pick(threads, RecordedFail)| + One(RecordedFail(th)) - One(t in threads && RecordedFail(threads[t]))
  {
    PickUpdate(threads, t, th, RecordedPanic);
    PickUpdate(threads, t, th, RecordedFail);
  }

  /** A move that neither records an error nor forgets one. */
  predicate RecordQuiet(s: State, s': State, t: Tid) {
    && t in s'.threads && s'.threads == s.threads[t := s'.threads[t]]
    && s'.errs.group == s.errs.group
    && (Recorded(s'.threads[t]) <==> t in s.threads && Recorded(s.threads[t]))
    && (Recorded(s'.threads[t]) ==>
          s'.threads[t].name == s.threads[t].name && s'.threads[t].out == s.threads[t].out)
    && (s'.threads[t].Worker? && s'.threads[t].work.WorkRecord? ==> !s'.threads[t].out.Ok?)
  }

  lemma GroupFrame(s: State, s': State, t: Tid)
    requires GroupInv(s) && RecordQuiet(s, s', t)
    ensures GroupInv(s')
  {
    RecordMove(s.threads, t, s'.threads[t]);
    var g := s.errs.group;
    forall name | name in g.errors
      ensures exists u :: u in s'.threads && Recorded(s'.threads[u]) && s'.threads[u].name == name &&
                          g.errors[name] == Message(s'.threads[u].out)
    {
      var u :| u in s.threads && Recorded(s.threads[u]) && s.threads[u].name == name &&
               g.errors[name] == Message(s.threads[u].out);
      assert Recorded(s'.threads[u]) && s'.threads[u].name == name;
    }
  }

  lemma WorkQuiet(s: State, t: Tid, a: WorkAct)
    requires WorkReady(s, t, a) && !a.Record?
    requires s.threads[t].work.WorkRecord? ==> !s.threads[t].out.Ok?
    ensures RecordQuiet(s, WorkApply(s, t, a), t)
  {
  }

  lemma SubQuiet(s: State, t: Tid, a: SubAct)
    requires SubReady(s, t, a) && !a.Launch?
    ensures RecordQuiet(s, SubApply(s, t, a), t)
  {
  }

  lemma EndQuiet(s: State, s': State, t: Tid)
    requires QuietMove(s, s', t)
    ensures RecordQuiet(s, s', t)
  {
  }

  lemma CallQuiet(s: State, o: OutsideAct)
    requires OutsideReady(s, o) && (o.CallGo? || o.CallWait? || o.CallClose?)
    ensures RecordQuiet(s, OutsideApply(s, o), o.t)
  {
  }

  lemma RecordStep(s: State, t: Tid)
    requires GroupInv(s) && WorkReady(s, t, Record)
    ensures GroupInv(WorkApply(s, t, Record))
  {
    var s' := WorkApply(s, t, Record);
    var th, th' := s.threads[t], s'.threads[t];
    RecordMove(s.threads, t, th');
    var g, g' := s.errs.group, s'.errs.group;
    forall name | name in g'.errors
      ensures exists u :: u in s'.threads && Recorded(s'.threads[u]) && s'.threads[u].name == name &&
                          g'.errors[name] == Message(s'.threads[u].out)
    {
      if name == th.name {
        assert Recorded(s'.threads[t]) && s'.threads[t].name == name;
      } else {
        var u :| u in s.threads && Recorded(s.threads[u]) && s.threads[u].name == name &&
                 g.errors[name] == Message(s.threads[u].out);
        assert u != t;
        assert Recorded(s'.threads[u]) && s'.threads[u].name == name;
      }
    }
  }

  lemma LaunchGroup(s: State, t: Tid, w: Tid)
    requires GroupInv(s) && SubReady(s, t, Launch(w))
    ensures GroupInv(SubApply(s, t, Launch(w)))
  {
    var mid := Move(s, t, s.threads[t].(sub := SubDone));
    GroupFrame(s, mid, t);
    GroupFrame(mid, SubApply(s, t, Launch(w)), w);
  }

  /** Every step but two moves one goroutine quietly, or none. */
  lemma QuietStep(s: State, step: Step) returns (t: Tid)
    requires Enabled(s, step)
    requires !(step.Submit? && step.sub.Launch?) && !(step.Work? && step.work.Record?)
    requires step.Work? && s.threads[step.t].work.WorkRecord? ==> !s.threads[step.t].out.Ok?
    ensures var s' := Apply(s, step);
            RecordQuiet(s, s', t) || (s'.threads == s.threads && s'.errs.group == s.errs.group)
  {
    t := 0;
    match step
    case Outside(o) =>
      if o.CallGo? || o.CallWait? || o.CallClose? {
        t := o.t;
        CallQuiet(s, o);
      }
    case Submit(u, a) => t := u; SubQuiet(s, u, a);
    case Work(u, a) => t := u; WorkQuiet(s, u, a);
    case _ =>
      t := step.t;
      EndFrame(s, step);
      EndQuiet(s, Apply(s, step), t);
  }

  lemma GroupStep(s: State, step: Step)
    requires GroupInv(s) && Enabled(s, step)
    ensures GroupInv(Apply(s, step))
  {
    if step.Submit? && step.sub.Launch? {
      LaunchGroup(s, step.t, step.sub.w);
    } else if step.Work? && step.work.Record? {
      RecordStep(s, step.t);
    } else {
      var t := QuietStep(s, step);
      if RecordQuiet(s, Apply(s, step), t) {
        GroupFrame(s, Apply(s, step), t);
      }
    }
  }

  lemma {:induction false} GroupRun(s: State, steps: seq<Step>)
    requires GroupInv(s) && Feasible(s, steps)
    ensures GroupInv(After(s, steps))
    decreases |steps|
  {
    if steps != [] {
      GroupStep(s, steps[0]);
      GroupRun(Apply(s, steps[0]), steps[1..]);
    }
  }

  function NameOf(threads: map<Tid, Thread>): Tid -> string {
    t => if t in threads && threads[t].Worker? then threads[t].name else ""
  }

  lemma PanicsAndFails(threads: map<Tid, Thread>)
    ensures |Pick(threads, Recorded)| == |Pick(threads, RecordedPanic)| + |Pick(threads, RecordedFail)|
  {
    var panics, fails := Pick(threads, RecordedPanic), Pick(threads, RecordedFail);
    assert Pick(threads, Recorded) == panics + fails && panics !! fails;
  }

  lemma NamesAreKeys(g: Group, threads: map<Tid, Thread>)
    requires NamesInv(g, threads)
    ensures g.errors.Keys == set t | t in Pick(threads, Recorded) :: NameOf(threads)(t)
    ensures |g.errors| <= |Pick(threads, Recorded)|
  {
    var all := Pick(threads, Recorded);
    forall n | n in g.errors.Keys ensures exists t :: t in all && NameOf(threads)(t) == n {
      var t :| t in threads && Recorded(threads[t]) && threads[t].name == n && g.errors[n] == Message(threads[t].out);
      assert t in all && NameOf(threads)(t) == n;
    }
    CoverBound(g.errors.Keys, all, NameOf(threads));
    assert |g.errors| == |g.errors.Keys|;
  }

  lemma GroupInit(max: int, keep: bool)
    ensures GroupInv(Init(max, keep))
  {
    assert Pick(map[], RecordedPanic) == {} && Pick(map[], RecordedFail) == {};
  }

  /** In every state of every run the two counters together count the workers that recorded an
      error, and the error map has exactly their names: fewer keys when names repeat. */
  lemma ErrorsAccountedFor(max: int, keep: bool, steps: seq<Step>)
    requires Feasible(Init(max, keep), steps)
    ensures var s := After(Init(max, keep), steps); var g := s.errs.group;
            && g.panics + g.fails == |Pick(s.threads, Recorded)|
            && g.panics == |Pick(s.threads, RecordedPanic)|
            && g.errors.Keys == (set t | t in Pick(s.threads, Recorded) :: NameOf(s.threads)(t))
            && |g.errors| <= g.panics + g.fails
  {
    GroupInit(max, keep);
    GroupRun(Init(max, keep), steps);
    var s := After(Init(max, keep), steps);
    PanicsAndFails(s.threads);
    NamesAreKeys(s.errs.group, s.threads);
  }

  /** A worker that recorded a recovered panic, and one that recorded a plain failure whose own text
      carries the mark. */
  predicate CaughtPanic(th: Thread) {
    Recorded(th) && th.out.Panic?
  }

  predicate MarkedFailure(th: Thread) {
    Recorded(th) && th.out.Fail? && Contains(th.out.msg, PanicMark)
  }

  lemma PanicsSplit(threads: map<Tid, Thread>)
    ensures |Pick(threads, RecordedPanic)| == |Pick(threads, CaughtPanic)| + |Pick(threads, MarkedFailure)|
  {
    var all, caught, marked := Pick(threads, RecordedPanic), Pick(threads, CaughtPanic), Pick(threads, MarkedFailure);
    forall t | t in caught ensures t in all {
      var m := Message(threads[t].out);
      assert PanicMark <= m[0..];
    }
    assert all == caught + marked && caught !! marked;
  }

  /** In every state of every run each worker that recorded a recovered panic is counted as a panic;
      beside them only the plain failures whose text carries the mark are, so the count is exact
      exactly when there is none. */
  lemma PanicsCounted(max: int, keep: bool, steps: seq<Step>)
    requires Feasible(Init(max, keep), steps)
    ensures var s := After(Init(max, keep), steps); var panics := s.errs.group.panics;
            && panics == |Pick(s.threads, CaughtPanic)| + |Pick(s.threads, MarkedFailure)|
            && (panics == |Pick(s.threads, CaughtPanic)| <==> Pick(s.threads, MarkedFailure) == {})
  {
    GroupInit(max, keep);
    GroupRun(Init(max, keep), steps);
    PanicsSplit(After(Init(max, keep), steps).threads);
  }

  // ---------------------------------------------------------------- what Wait waits for

  predicate IsWorker(threads: map<Tid, Thread>, w: Tid) {
    w in threads && threads[w].Worker?
  }

  predicate IsGone(threads: map<Tid, Thread>, w: Tid) {
    IsWorker(threads, w) && threads[w].work.WorkGone?
  }

  /** Workers stay workers, and one that has left the wait group does nothing more. */
  lemma WorkerStays(s: State, step: Step, w: Tid)
    requires Enabled(s, step) && IsWorker(s.threads, w)
    ensures IsWorker(Apply(s, step).threads, w)
    ensures IsGone(s.threads, w) ==> IsGone(Apply(s, step).threads, w)
  {
    match step
    case Outside(o) =>
    case Submit(t, a) => SubmitSpares(s, t, a, w);
    case Work(t, a) => WorkSpares(s, t, a, w);
    case _ => EndFrame(s, step);
  }

  lemma SubmitSpares(s: State, t: Tid, a: SubAct, w: Tid)
    requires SubReady(s, t, a) && IsWorker(s.threads, w)
    ensures w in SubApply(s, t, a).threads && SubApply(s, t, a).threads[w] == s.threads[w]
  {
  }

  lemma WorkSpares(s: State, t: Tid, a: WorkAct, w: Tid)
    requires WorkReady(s, t, a) && IsWorker(s.threads, w)
    ensures IsWorker(WorkApply(s, t, a).threads, w)
    ensures IsGone(s.threads, w) ==> IsGone(WorkApply(s, t, a).threads, w)
  {
  }

  predicate SawZero(threads: map<Tid, Thread>, t: Tid) {
    t in threads && threads[t] == Waiter(WaitSelect(true))
  }

  /** `t` is still there and has not newly come to its `done` branch. */
  predicate NoNewer(s: State, r: State, t: Tid) {
    t in r.threads && (SawZero(r.threads, t) ==> SawZero(s.threads, t))
  }

  lemma OutsideSees(s: State, o: OutsideAct, t: Tid)
    requires OutsideReady(s, o) && t in s.threads
    ensures NoNewer(s, OutsideApply(s, o), t)
  {
  }

  lemma SubmitSees(s: State, u: Tid, a: SubAct, t: Tid)
    requires SubReady(s, u, a) && t in s.threads
    ensures NoNewer(s, SubApply(s, u, a), t)
  {
  }

  lemma WorkSees(s: State, u: Tid, a: WorkAct, t: Tid)
    requires WorkReady(s, u, a) && t in s.threads
    ensures NoNewer(s, WorkApply(s, u, a), t)
  {
  }

  lemma FundSees(s: State, u: Tid, a: FundAct, t: Tid)
    requires FundReady(s, u, a) && t in s.threads
    ensures NoNewer(s, FundApply(s, u, a), t)
  {
  }

  lemma WaitSees(s: State, u: Tid, a: WaitAct, t: Tid)
    requires WaitReady(s, u, a) && t in s.threads
    ensures t in WaitApply(s, u, a).threads
    ensures NoNewer(s, WaitApply(s, u, a), t) || (u == t && a == SeeZero && s.wg == 0)
  {
  }

  lemma CloseSees(s: State, u: Tid, a: CloseAct, t: Tid)
    requires CloseReady(s, u, a) && t in s.threads
    ensures NoNewer(s, CloseApply(s, u, a), t)
  {
  }

  lemma CleanSees(s: State, u: Tid, a: CleanAct, t: Tid)
    requires CleanReady(s, u, a) && t in s.threads
    ensures NoNewer(s, CleanApply(s, u, a), t)
  {
  }

  /** Only its own look at an empty wait group brings a `Wait` to its `done` branch. */
  lemma OnlySeeZero(s: State, step: Step, t: Tid)
    requires Enabled(s, step) && t in s.threads
    ensures t in Apply(s, step).threads
    ensures NoNewer(s, Apply(s, step), t) || (step == Wait(t, SeeZero) && s.wg == 0)
  {
    match step
    case Outside(o) => OutsideSees(s, o, t);
    case Submit(u, a) => SubmitSees(s, u, a, t);
    case Work(u, a) => WorkSees(s, u, a, t);
    case Fund(u, a) => FundSees(s, u, a, t);
    case Wait(u, a) => WaitSees(s, u, a, t);
    case Close(u, a) => CloseSees(s, u, a, t);
    case Clean(u, a) => CleanSees(s, u, a, t);
  }

  /** With the wait group empty every worker there is has left it. */
  lemma ZeroMeansGone(s: State, w: Tid)
    requires SemInv(s) && s.wg == 0 && IsWorker(s.threads, w)
    ensures IsGone(s.threads, w)
  {
    assert Pick(s.threads, InWg) == {};
    assert w !in Pick(s.threads, InWg);
  }

  /** Once `t` has seen the wait group empty, worker `w` is gone. */
  predicate GoneWhenSeen(s: State, t: Tid, w: Tid) {
    t in s.threads && IsWorker(s.threads, w) && (SawZero(s.threads, t) ==> IsGone(s.threads, w))
  }

  lemma GoneStep(s: State, step: Step, t: Tid, w: Tid)
    requires SemInv(s) && Enabled(s, step) && GoneWhenSeen(s, t, w)
    ensures GoneWhenSeen(Apply(s, step), t, w)
  {
    WorkerStays(s, step, w);
    OnlySeeZero(s, step, t);
    if !NoNewer(s, Apply(s, step), t) {
      ZeroMeansGone(s, w);
    }
  }

  lemma {:induction false} GoneRun(s: State, steps: seq<Step>, t: Tid, w: Tid)
    requires SemInv(s) && Feasible(s, steps) && GoneWhenSeen(s, t, w)
    ensures GoneWhenSeen(After(s, steps), t, w)
    decreases |steps|
  {
    if steps != [] {
      GoneStep(s, steps[0], t, w);
      SemStep(s, steps[0]);
      GoneRun(Apply(s, steps[0]), steps[1..], t, w);
    }
  }

  /** A `Wait` takes its `done` branch only after every worker launched before it began has left the
      wait group. */
  lemma WaitWaits(max: int, keep: bool, before: seq<Step>, t: Tid, after: seq<Step>, w: Tid)
    requires Feasible(Init(max, keep), before)
    requires var s := After(Init(max, keep), before);
             && IsWorker(s.threads, w) && Enabled(s, Wait(t, BeginWait))
             && Feasible(Apply(s, Wait(t, BeginWait)), after)
             && WaitReady(After(Apply(s, Wait(t, BeginWait)), after), t, TakeDone)
    ensures IsGone(After(Apply(After(Init(max, keep), before), Wait(t, BeginWait)), after).threads, w)
  {
    SemInit(max, keep);
    SemRun(Init(max, keep), before);
    var s := After(Init(max, keep), before);
    var r := Apply(s, Wait(t, BeginWait));
    SemStep(s, Wait(t, BeginWait));
    WorkerStays(s, Wait(t, BeginWait), w);
    GoneRun(r, after, t, w);
  }
}
