/**
 Task ids and task lifecycle.  A refused `TryGo` deletes its task and decrements the counter
 outside `mu`, so ids stay contiguous only in some runs; here is exactly which, and what then holds.
 */
module TaskGroupIds {
  import opened Basics
  import opened TaskErrors
  import opened TaskGroup

  // ---------------------------------------------------------------- contiguous ids

  /** A refused `TryGo` that has deleted its task and not yet decremented the counter. */
  predicate Dropping(th: Thread) {
    th.Submitter? && th.sub.SubDecrement?
  }

  /** A caller between registering its task and deciding what becomes of it. */
  predicate InWindow(th: Thread) {
    th.Submitter? && (th.sub.SubAcquire? || th.sub.SubDelete? || th.sub.SubDecrement?)
  }

  /** The decrements still owed by refused calls. */
  ghost function Owed(threads: map<Tid, Thread>): nat {
    |Pick(threads, Dropping)|
  }

  /** The id of the newest live task when all ids are in order: the counter once the owed decrements
      are made. */
  ghost function Newest(r: Registry, threads: map<Tid, Thread>): int {
    r.counter - Owed(threads)
  }

  /** The live ids are exactly 1 to k. */
  ghost predicate Plain(r: Registry, threads: map<Tid, Thread>) {
    forall id :: id in r.tasks <==> 1 <= id <= Newest(r, threads)
  }

  /** The live ids are exactly 1 to k, and k is the number of tasks and, with no refusal half done,
      the counter. */
  ghost predicate Numbered(r: Registry, threads: map<Tid, Thread>) {
    Plain(r, threads) && |r.tasks| == Newest(r, threads)
  }

  ghost predicate Contiguous(r: Registry, threads: map<Tid, Thread>) {
    && Newest(r, threads) >= 0
    && (forall t :: t in threads && InWindow(threads[t]) ==> threads[t].id >= 1)
    && Plain(r, threads)
  }

  lemma {:induction false} RangeSize(xs: set<int>, k: nat)
    requires forall i :: i in xs <==> 1 <= i <= k
    ensures |xs| == k
  {
    if k == 0 {
      forall i ensures i !in xs {
        assert i in xs <==> 1 <= i <= k;
      }
      assert |xs| == 0;
    } else {
      RangeSize(xs - {k}, k - 1);
    }
  }

  lemma ContiguousNumbered(r: Registry, threads: map<Tid, Thread>)
    requires Contiguous(r, threads)
    ensures Numbered(r, threads)
  {
    RangeSize(r.tasks.Keys, Newest(r, threads));
    assert |r.tasks| == |r.tasks.Keys|;
  }

  /** A step that keeps the ids in order: nobody registers while a decrement is owed, and only the
      newest live task is given up. */
  ghost predicate Orderly(s: State, step: Step) {
    step.Submit? && step.t in s.threads ==>
      && (step.sub.Register? ==> s.finished || Owed(s.threads) == 0)
      && (step.sub.DropTask? && s.threads[step.t].Submitter? ==>
            s.threads[step.t].id == Newest(s.reg, s.threads))
  }

  /** A move that starts and ends no refusal. */
  lemma ContiguousShift(r: Registry, r': Registry, threads: map<Tid, Thread>, t: Tid, th: Thread)
    requires r'.counter == r.counter && r'.tasks.Keys == r.tasks.Keys
    requires t in threads ==> !Dropping(threads[t])
    requires !Dropping(th) && (InWindow(th) ==> t in threads && InWindow(threads[t]) && th.id == threads[t].id)
    ensures Contiguous(r, threads) ==> Contiguous(r', threads[t := th])
  {
    PickUpdate(threads, t, th, Dropping);
    assert forall id :: id in r.tasks <==> id in r.tasks.Keys;
    assert forall id :: id in r'.tasks <==> id in r'.tasks.Keys;
  }

  lemma RegisterIds(s: State, t: Tid)
    requires Contiguous(s.reg, s.threads) && SubReady(s, t, Register) && !s.finished
    ensures var s' := SubApply(s, t, Register);
            if Owed(s.threads) == 0 then Contiguous(s'.reg, s'.threads) else !Plain(s'.reg, s'.threads)
    ensures Owed(s.threads) == 0 ==> s.reg.counter + 1 !in s.reg.tasks
  {
    var s' := SubApply(s, t, Register);
    PickUpdate(s.threads, t, s'.threads[t], Dropping);
    assert s.reg.counter + 1 in s'.reg.tasks;
  }

  lemma DropTaskIds(s: State, t: Tid)
    requires Contiguous(s.reg, s.threads) && SubReady(s, t, DropTask) && s.threads[t].id in s.reg.tasks
    ensures var s' := SubApply(s, t, DropTask);
            if s.threads[t].id == Newest(s.reg, s.threads)
            then Contiguous(s'.reg, s'.threads) else !Plain(s'.reg, s'.threads)
  {
    var s' := SubApply(s, t, DropTask);
    PickUpdate(s.threads, t, s'.threads[t], Dropping);
    assert s.threads[t].id !in s'.reg.tasks;
    assert InWindow(s.threads[t]);
  }

  lemma DropCountIds(s: State, t: Tid)
    requires Contiguous(s.reg, s.threads) && SubReady(s, t, DropCount)
    ensures Contiguous(SubApply(s, t, DropCount).reg, SubApply(s, t, DropCount).threads)
  {
    PickUpdate(s.threads, t, SubApply(s, t, DropCount).threads[t], Dropping);
  }

  lemma LaunchIds(s: State, t: Tid, w: Tid)
    requires Contiguous(s.reg, s.threads) && SubReady(s, t, Launch(w))
    ensures Contiguous(SubApply(s, t, Launch(w)).reg, SubApply(s, t, Launch(w)).threads)
  {
    var done := s.threads[t].(sub := SubDone);
    ContiguousShift(s.reg, s.reg, s.threads, t, done);
    ContiguousShift(s.reg, s.reg, s.threads[t := done], w, Worker(WorkMark, done.name, done.id, Ok));
  }

  lemma SubIds(s: State, t: Tid, a: SubAct)
    requires Contiguous(s.reg, s.threads) && OwnInv(s.reg.tasks, s.threads) && SubReady(s, t, a)
    ensures var s' := SubApply(s, t, a);
            if Orderly(s, Submit(t, a)) then Contiguous(s'.reg, s'.threads) else !Plain(s'.reg, s'.threads)
  {
    if a.Launch? {
      LaunchIds(s, t, a.w);
    } else if a.Register? && !s.finished {
      RegisterIds(s, t);
    } else if a.DropTask? {
      assert Live(s.threads[t]);
      DropTaskIds(s, t);
    } else if a.DropCount? {
      DropCountIds(s, t);
    } else {
      var s' := SubApply(s, t, a);
      ContiguousShift(s.reg, s'.reg, s.threads, t, s'.threads[t]);
    }
  }

  lemma WorkIds(s: State, t: Tid, a: WorkAct)
    requires Contiguous(s.reg, s.threads) && WorkReady(s, t, a)
    ensures Contiguous(WorkApply(s, t, a).reg, WorkApply(s, t, a).threads)
  {
    var s' := WorkApply(s, t, a);
    assert s'.reg.tasks.Keys == s.reg.tasks.Keys;
    ContiguousShift(s.reg, s'.reg, s.threads, t, s'.threads[t]);
  }

  lemma EndIds(s: State, step: Step)
    requires Contiguous(s.reg, s.threads) && Enabled(s, step) && EndStep(step)
    ensures Contiguous(Apply(s, step).reg, Apply(s, step).threads)
  {
    EndFrame(s, step);
    ContiguousShift(s.reg, s.reg, s.threads, step.t, Apply(s, step).threads[step.t]);
  }

  lemma StepIds(s: State, step: Step)
    requires Contiguous(s.reg, s.threads) && OwnInv(s.reg.tasks, s.threads) && Enabled(s, step)
    ensures var r := Apply(s, step);
            if Orderly(s, step) then Contiguous(r.reg, r.threads) else !Plain(r.reg, r.threads)
  {
    match step
    case Outside(o) =>
      if o.CallGo? || o.CallWait? || o.CallClose? {
        ContiguousShift(s.reg, s.reg, s.threads, o.t, OutsideApply(s, o).threads[o.t]);
      }
    case Submit(t, a) => SubIds(s, t, a);
    case Work(t, a) => WorkIds(s, t, a);
    case _ => EndIds(s, step);
  }

  /** One step keeps the live ids equal to 1 to k, with k tasks, if and only if it is orderly. */
  lemma NumberedStep(s: State, step: Step)
    requires LifeInv(s) && Enabled(s, step)
    ensures Numbered(Apply(s, step).reg, Apply(s, step).threads) <==> Orderly(s, step)
  {
    StepIds(s, step);
    if Orderly(s, step) {
      ContiguousNumbered(Apply(s, step).reg, Apply(s, step).threads);
    }
  }

  ghost predicate AlwaysNumbered(s: State, steps: seq<Step>)
    requires Feasible(s, steps)
    decreases |steps|
  {
    Numbered(s.reg, s.threads) && (steps != [] ==> AlwaysNumbered(Apply(s, steps[0]), steps[1..]))
  }

  ghost predicate AllOrderly(s: State, steps: seq<Step>)
    requires Feasible(s, steps)
    decreases |steps|
  {
    steps != [] ==> Orderly(s, steps[0]) && AllOrderly(Apply(s, steps[0]), steps[1..])
  }

  lemma {:induction false} NumberedRun(s: State, steps: seq<Step>)
    requires LifeInv(s) && Feasible(s, steps)
    ensures AlwaysNumbered(s, steps) <==> AllOrderly(s, steps)
    decreases |steps|
  {
    ContiguousNumbered(s.reg, s.threads);
    if steps != [] {
      NumberedStep(s, steps[0]);
      if Orderly(s, steps[0]) {
        LifeStep(s, steps[0]);
        NumberedRun(Apply(s, steps[0]), steps[1..]);
      }
    }
  }

  lemma LifeInit(max: int, keep: bool)
    ensures LifeInv(Init(max, keep))
  {
    assert Pick(map[], Dropping) == {};
  }

  /** The exact condition for the ids to be in order over a whole run. */
  lemma NumberedIffOrderly(max: int, keep: bool, steps: seq<Step>)
    requires Feasible(Init(max, keep), steps)
    ensures AlwaysNumbered(Init(max, keep), steps) <==> AllOrderly(Init(max, keep), steps)
  {
    LifeInit(max, keep);
    NumberedRun(Init(max, keep), steps);
  }

  // ---------------------------------------------------------------- submissions that do not overlap

  /** A `TryGo` between registering its task and acquiring or giving up. */
  predicate Trying(th: Thread) {
    InWindow(th) && th.tryMode
  }

  ghost predicate SomeTrying(threads: map<Tid, Thread>) {
    exists t :: t in threads && Trying(threads[t])
  }

  /** Nobody registers a task while a `TryGo` is undecided. */
  ghost predicate NoOverlap(s: State, steps: seq<Step>)
    requires Feasible(s, steps)
    decreases |steps|
  {
    steps != [] ==>
      && (steps[0].Submit? && steps[0].sub.Register? ==> !SomeTrying(s.threads))
      && NoOverlap(Apply(s, steps[0]), steps[1..])
  }

  /** The one undecided `TryGo` has the newest id, and only a `TryGo` is ever refused. */
  ghost predicate SerialInv(counter: int, threads: map<Tid, Thread>) {
    && (forall t :: t in threads && Trying(threads[t]) ==> threads[t].id == counter)
    && (forall t, u :: t in threads && u in threads && Trying(threads[t]) && Trying(threads[u]) ==> t == u)
    && (forall t :: t in threads && threads[t].Submitter? && (threads[t].sub.SubDelete? || threads[t].sub.SubDecrement?)
          ==> threads[t].tryMode)
  }

  lemma SerialShift(counter: int, threads: map<Tid, Thread>, t: Tid, th: Thread)
    requires SerialInv(counter, threads)
    requires Trying(th) ==> t in threads && Trying(threads[t]) && th.id == threads[t].id
    requires th.Submitter? && (th.sub.SubDelete? || th.sub.SubDecrement?) ==> th.tryMode
    ensures SerialInv(counter, threads[t := th])
  {
  }

  /** Two refused calls cannot both be dropping, and a dropping one is undecided. */
  lemma SerialOrderly(s: State, step: Step)
    requires SerialInv(s.reg.counter, s.threads) && Enabled(s, step)
    requires step.Submit? && step.sub.Register? ==> !SomeTrying(s.threads)
    ensures Orderly(s, step)
  {
    if step.Submit? && (step.sub.Register? || step.sub.DropTask?) {
      assert step.sub.DropTask? ==> Trying(s.threads[step.t]);
      forall u | u in s.threads ensures !Dropping(s.threads[u]) {
        assert Dropping(s.threads[u]) ==> Trying(s.threads[u]);
      }
      assert Pick(s.threads, Dropping) == {};
    }
  }

  lemma SubSerial(s: State, t: Tid, a: SubAct)
    requires SerialInv(s.reg.counter, s.threads) && SubReady(s, t, a)
    requires a.Register? ==> !SomeTrying(s.threads)
    ensures SerialInv(SubApply(s, t, a).reg.counter, SubApply(s, t, a).threads)
  {
    var s' := SubApply(s, t, a);
    if a.Launch? {
      var done := s.threads[t].(sub := SubDone);
      SerialShift(s.reg.counter, s.threads, t, done);
      SerialShift(s.reg.counter, s.threads[t := done], a.w, s'.threads[a.w]);
    } else if a.Register? {
      forall u | u in s.threads ensures !Trying(s.threads[u]) {
      }
    } else if a.DropCount? {
      assert Trying(s.threads[t]);
    } else {
      SerialShift(s.reg.counter, s.threads, t, s'.threads[t]);
    }
  }

  lemma WorkSerial(s: State, t: Tid, a: WorkAct)
    requires SerialInv(s.reg.counter, s.threads) && WorkReady(s, t, a)
    ensures SerialInv(WorkApply(s, t, a).reg.counter, WorkApply(s, t, a).threads)
  {
    SerialShift(s.reg.counter, s.threads, t, WorkApply(s, t, a).threads[t]);
  }

  lemma QuietSerial(s: State, s': State, t: Tid)
    requires SerialInv(s.reg.counter, s.threads) && QuietMove(s, s', t)
    ensures SerialInv(s'.reg.counter, s'.threads)
  {
    SerialShift(s.reg.counter, s.threads, t, s'.threads[t]);
  }

  lemma SerialStep(s: State, step: Step)
    requires SerialInv(s.reg.counter, s.threads) && Enabled(s, step)
    requires step.Submit? && step.sub.Register? ==> !SomeTrying(s.threads)
    ensures SerialInv(Apply(s, step).reg.counter, Apply(s, step).threads)
  {
    match step
    case Outside(o) =>
      if o.CallGo? || o.CallWait? || o.CallClose? {
        SerialShift(s.reg.counter, s.threads, o.t, OutsideApply(s, o).threads[o.t]);
      }
    case Submit(t, a) => SubSerial(s, t, a);
    case Work(t, a) => WorkSerial(s, t, a);
    case _ =>
      EndFrame(s, step);
      QuietSerial(s, Apply(s, step), step.t);
  }

  lemma {:induction false} NoOverlapOrderly(s: State, steps: seq<Step>)
    requires SerialInv(s.reg.counter, s.threads) && Feasible(s, steps) && NoOverlap(s, steps)
    ensures AllOrderly(s, steps)
    decreases |steps|
  {
    if steps != [] {
      SerialOrderly(s, steps[0]);
      SerialStep(s, steps[0]);
      NoOverlapOrderly(Apply(s, steps[0]), steps[1..]);
    }
  }

  /** What a caller can arrange: if nobody submits while a `TryGo` is undecided, the ids are in order
      in every state, refusals included. */
  lemma NoOverlapNumbered(max: int, keep: bool, steps: seq<Step>)
    requires Feasible(Init(max, keep), steps) && NoOverlap(Init(max, keep), steps)
    ensures AlwaysNumbered(Init(max, keep), steps)
  {
    NoOverlapOrderly(Init(max, keep), steps);
    NumberedIffOrderly(max, keep, steps);
  }

  // ---------------------------------------------------------------- lifecycle

  /** A goroutine that still owns a task that has not ended. */
  predicate Live(th: Thread) {
    || (th.Submitter? && (th.sub.SubAcquire? || th.sub.SubDelete? || th.sub.SubMark? || th.sub.SubAdd? || th.sub.SubGo?))
    || (th.Worker? && (th.work.WorkMark? || th.work.WorkBody? || th.work.WorkEnd?))
  }

  function StatusOf(th: Thread): Status {
    if th.Worker? && !th.work.WorkMark? then Running else Pending
  }

  predicate TaskAt(tasks: map<int, Task>, id: int, st: Status) {
    id in tasks && tasks[id].status == st
  }

  /** Each live goroutine owns its id alone, and its task has the status of its position. */
  ghost predicate OwnInv(tasks: map<int, Task>, threads: map<Tid, Thread>) {
    && (forall t :: t in threads && Live(threads[t]) ==> TaskAt(tasks, threads[t].id, StatusOf(threads[t])))
    && (forall t, u :: t in threads && u in threads && t != u && Live(threads[t]) && Live(threads[u])
          ==> threads[t].id != threads[u].id)
  }

  /** With history kept, the history holds exactly the records of the tasks that have ended. */
  ghost predicate HistoryInv(r: Registry) {
    if r.keep
    then
      && (forall id :: id in r.history <==> id in r.tasks && IsCompleted(r.tasks[id].status))
      && (forall id :: id in r.history ==> r.history[id] == r.tasks[id])
    else r.history == map[]
  }

  ghost predicate LifeInv(s: State) {
    Contiguous(s.reg, s.threads) && OwnInv(s.reg.tasks, s.threads) && HistoryInv(s.reg)
  }

  predicate Legal(a: Status, b: Status) {
    || a == b
    || (a == Pending && (b == Running || b == Canceled))
    || (a == Running && IsCompleted(b))
  }

  /** How the tasks may change in one step. */
  ghost predicate LegalChange(tasks: map<int, Task>, tasks': map<int, Task>) {
    && (forall id :: id in tasks && id in tasks' ==> Legal(tasks[id].status, tasks'[id].status))
    && (forall id :: id in tasks && id !in tasks' ==> tasks[id].status == Pending)
    && (forall id :: id in tasks' && id !in tasks ==> tasks'[id].status == Pending)
  }

  lemma OwnShift(tasks: map<int, Task>, threads: map<Tid, Thread>, t: Tid, th: Thread)
    requires OwnInv(tasks, threads)
    requires Live(th) ==> t in threads && Live(threads[t]) && th.id == threads[t].id && StatusOf(th) == StatusOf(threads[t])
    ensures OwnInv(tasks, threads[t := th])
  {
  }

  /** The owner of an id sets its status and moves to the position that goes with it. */
  lemma OwnUpdate(r: Registry, threads: map<Tid, Thread>, t: Tid, th: Thread, st: Status)
    requires OwnInv(r.tasks, threads) && t in threads && Live(threads[t])
    requires Live(th) ==> th.id == threads[t].id && StatusOf(th) == st
    ensures OwnInv(SetStatus(r, threads[t].id, st).tasks, threads[t := th])
  {
  }

  /** A fresh id, with no owner yet, gets its first owner. */
  lemma OwnFresh(tasks: map<int, Task>, threads: map<Tid, Thread>, t: Tid, th: Thread, task: Task)
    requires OwnInv(tasks, threads) && t in threads && !Live(threads[t]) && th.Submitter?
    requires th.id !in tasks && task.status == Pending
    ensures OwnInv(tasks[th.id := task], threads[t := th])
  {
    forall u | u in threads && Live(threads[u]) ensures threads[u].id != th.id {
      assert TaskAt(tasks, threads[u].id, StatusOf(threads[u]));
    }
  }

  lemma RegisterLife(s: State, t: Tid)
    requires LifeInv(s) && SubReady(s, t, Register) && !s.finished && Owed(s.threads) == 0
    ensures var s' := SubApply(s, t, Register);
            OwnInv(s'.reg.tasks, s'.threads) && HistoryInv(s'.reg) && LegalChange(s.reg.tasks, s'.reg.tasks)
  {
    RegisterIds(s, t);
    OwnFresh(s.reg.tasks, s.threads, t, SubApply(s, t, Register).threads[t], Task(s.threads[t].name, Pending));
  }

  lemma DropTaskLife(s: State, t: Tid)
    requires LifeInv(s) && SubReady(s, t, DropTask)
    ensures var s' := SubApply(s, t, DropTask);
            OwnInv(s'.reg.tasks, s'.threads) && HistoryInv(s'.reg) && LegalChange(s.reg.tasks, s'.reg.tasks)
  {
    assert Live(s.threads[t]);
    assert TaskAt(s.reg.tasks, s.threads[t].id, Pending);
  }

  lemma LaunchLife(s: State, t: Tid, w: Tid)
    requires OwnInv(s.reg.tasks, s.threads) && SubReady(s, t, Launch(w))
    ensures OwnInv(s.reg.tasks, SubApply(s, t, Launch(w)).threads)
  {
    var th := s.threads[t];
    assert Live(th);
  }

  lemma SubLife(s: State, t: Tid, a: SubAct)
    requires LifeInv(s) && SubReady(s, t, a) && Orderly(s, Submit(t, a))
    ensures var s' := SubApply(s, t, a);
            OwnInv(s'.reg.tasks, s'.threads) && HistoryInv(s'.reg) && LegalChange(s.reg.tasks, s'.reg.tasks)
  {
    var s' := SubApply(s, t, a);
    if a.Launch? {
      LaunchLife(s, t, a.w);
    } else if a.Register? && !s.finished {
      RegisterLife(s, t);
    } else if a.DropTask? {
      DropTaskLife(s, t);
    } else if a.MarkCanceled? {
      assert Live(s.threads[t]);
      OwnUpdate(s.reg, s.threads, t, s'.threads[t], Canceled);
    } else {
      OwnShift(s.reg.tasks, s.threads, t, s'.threads[t]);
    }
  }

  lemma MarkLife(s: State, t: Tid, a: WorkAct)
    requires LifeInv(s) && WorkReady(s, t, a) && (a.MarkRunning? || a.MarkEnd?)
    ensures var s' := WorkApply(s, t, a);
            OwnInv(s'.reg.tasks, s'.threads) && HistoryInv(s'.reg) && LegalChange(s.reg.tasks, s'.reg.tasks)
  {
    var s' := WorkApply(s, t, a);
    assert Live(s.threads[t]);
    OwnUpdate(s.reg, s.threads, t, s'.threads[t], if a.MarkRunning? then Running else EndStatus(s.threads[t].out));
  }

  lemma WorkLife(s: State, t: Tid, a: WorkAct)
    requires LifeInv(s) && WorkReady(s, t, a)
    ensures var s' := WorkApply(s, t, a);
            OwnInv(s'.reg.tasks, s'.threads) && HistoryInv(s'.reg) && LegalChange(s.reg.tasks, s'.reg.tasks)
  {
    if a.MarkRunning? || a.MarkEnd? {
      MarkLife(s, t, a);
    } else {
      OwnShift(s.reg.tasks, s.threads, t, WorkApply(s, t, a).threads[t]);
    }
  }

  /** Every orderly step keeps the ownership and the history, and moves each task along the
      lifecycle: Pending to Running to an end, or Pending to Canceled; ends never change. */
  lemma LifeStep(s: State, step: Step)
    requires LifeInv(s) && Enabled(s, step) && Orderly(s, step)
    ensures LifeInv(Apply(s, step)) && LegalChange(s.reg.tasks, Apply(s, step).reg.tasks)
  {
    StepIds(s, step);
    if step.Submit? {
      SubLife(s, step.t, step.sub);
    } else if step.Work? {
      WorkLife(s, step.t, step.work);
    } else {
      OtherLife(s, step);
    }
  }

  lemma QuietOwn(s: State, s': State, t: Tid)
    requires OwnInv(s.reg.tasks, s.threads) && QuietMove(s, s', t)
    ensures OwnInv(s'.reg.tasks, s'.threads)
  {
    OwnShift(s.reg.tasks, s.threads, t, s'.threads[t]);
  }

  lemma OtherLife(s: State, step: Step)
    requires OwnInv(s.reg.tasks, s.threads) && Enabled(s, step) && !step.Submit? && !step.Work?
    ensures OwnInv(Apply(s, step).reg.tasks, Apply(s, step).threads) && Apply(s, step).reg == s.reg
  {
    if step.Outside? {
      var o := step.o;
      if o.CallGo? || o.CallWait? || o.CallClose? {
        OwnShift(s.reg.tasks, s.threads, o.t, OutsideApply(s, o).threads[o.t]);
      }
    } else {
      EndFrame(s, step);
      QuietOwn(s, Apply(s, step), step.t);
    }
  }

  lemma {:induction false} LifeRun(s: State, steps: seq<Step>)
    requires LifeInv(s) && Feasible(s, steps) && AllOrderly(s, steps)
    ensures LifeInv(After(s, steps))
    ensures forall id :: id in s.reg.tasks && s.reg.tasks[id].status != Pending && s.reg.tasks[id].status != Running ==>
              id in After(s, steps).reg.tasks && After(s, steps).reg.tasks[id].status == s.reg.tasks[id].status
    decreases |steps|
  {
    if steps != [] {
      LifeStep(s, steps[0]);
      LifeRun(Apply(s, steps[0]), steps[1..]);
    }
  }

  /** In every orderly run: ids are 1 to k, an ended or cancelled task never changes again, and with
      history kept the history is exactly the set of tasks for which `IsCompleted` holds. */
  lemma LifecycleHolds(max: int, keep: bool, first: seq<Step>, more: seq<Step>)
    requires Feasible(Init(max, keep), first) && AllOrderly(Init(max, keep), first)
    requires Feasible(After(Init(max, keep), first), more) && AllOrderly(After(Init(max, keep), first), more)
    ensures var s := After(Init(max, keep), first); var s' := After(s, more);
            && Numbered(s'.reg, s'.threads) && HistoryInv(s'.reg)
            && forall id :: id in s.reg.tasks && (IsCompleted(s.reg.tasks[id].status) || s.reg.tasks[id].status == Canceled) ==>
                 id in s'.reg.tasks && s'.reg.tasks[id].status == s.reg.tasks[id].status
  {
    LifeInit(max, keep);
    LifeRun(Init(max, keep), first);
    LifeRun(After(Init(max, keep), first), more);
    var s' := After(After(Init(max, keep), first), more);
    ContiguousNumbered(s'.reg, s'.threads);
  }

  // ---------------------------------------------------------------- submissions that do overlap

  /** With no refusal half done, the newest id is that of a live task. */
  lemma NewestTaken(s: State, t: Tid)
    requires LifeInv(s) && Owed(s.threads) == 0 && SubReady(s, t, DropTask)
    ensures s.reg.counter in s.reg.tasks
  {
    assert Live(s.threads[t]);
  }

  lemma Registered(s: State, u: Tid)
    requires SubReady(s, u, Register) && !s.finished
    ensures var r := SubApply(s, u, Register);
            && u in r.threads && r.threads[u].Submitter? && r.threads[u].id == s.reg.counter + 1
            && r.threads[u].id in r.reg.tasks && r.reg.tasks[r.threads[u].id] == Task(s.threads[u].name, Pending)
  {
  }

  /** A refusal of any id but the newest makes the next registration hand out an id that is taken,
      and overwrite the live entry that has it. */
  lemma RefusalReusesId(s: State, t: Tid, u: Tid)
    requires LifeInv(s) && Owed(s.threads) == 0 && s.mu.None? && !s.finished
    requires SubReady(s, t, DropTask) && SubReady(s, u, Register) && s.threads[t].id != s.reg.counter
    ensures var steps := [Submit(t, DropTask), Submit(t, DropCount), Submit(u, Register)];
            Feasible(s, steps) && Reused(s, After(s, steps), t, u)
  {
    NewestTaken(s, t);
    RefusedThenReused(s, t, u);
  }

  /** Submitter `u` has the id of a task other than the one `t` gave up, and replaced that task. */
  predicate Reused(s: State, r: State, t: Tid, u: Tid) {
    && t in s.threads && s.threads[t].Submitter? && u in s.threads && s.threads[u].Submitter?
    && u in r.threads && r.threads[u].Submitter?
    && var id := r.threads[u].id;
       && id in s.reg.tasks && id != s.threads[t].id
       && id in r.reg.tasks && r.reg.tasks[id] == Task(s.threads[u].name, Pending)
  }

  lemma RefusedThenReused(s: State, t: Tid, u: Tid)
    requires s.mu.None? && !s.finished && s.reg.counter in s.reg.tasks
    requires SubReady(s, t, DropTask) && SubReady(s, u, Register) && s.threads[t].id != s.reg.counter
    ensures var steps := [Submit(t, DropTask), Submit(t, DropCount), Submit(u, Register)];
            Feasible(s, steps) && Reused(s, After(s, steps), t, u)
  {
    Refused(s, t, u);
    var r := SubApply(SubApply(s, t, DropTask), t, DropCount);
    Registered(r, u);
    ThreeSteps(s, Submit(t, DropTask), Submit(t, DropCount), Submit(u, Register));
  }

  lemma Refused(s: State, t: Tid, u: Tid)
    requires s.mu.None? && SubReady(s, t, DropTask) && SubReady(s, u, Register)
    ensures Enabled(s, Submit(t, DropTask)) && Enabled(SubApply(s, t, DropTask), Submit(t, DropCount))
    ensures var r := SubApply(SubApply(s, t, DropTask), t, DropCount);
            && Enabled(r, Submit(u, Register)) && r.threads[u] == s.threads[u] && r.finished == s.finished
            && r.reg.counter == s.reg.counter - 1 && r.reg.tasks == s.reg.tasks - {s.threads[t].id}
  {
  }

  lemma ThreeSteps(s: State, a: Step, b: Step, c: Step)
    requires Enabled(s, a) && Enabled(Apply(s, a), b) && Enabled(Apply(Apply(s, a), b), c)
    ensures Feasible(s, [a, b, c]) && After(s, [a, b, c]) == Apply(Apply(Apply(s, a), b), c)
  {
    Single(s, a);
    Single(Apply(s, a), b);
    Single(Apply(Apply(s, a), b), c);
    Concat(s, [a], [b]);
    Concat(s, [a] + [b], [c]);
    assert [a] + [b] + [c] == [a, b, c];
  }

  /** A group of limit one whose token is taken by task 1. */
  const OneHolding: State :=
    Init(1, true).(sem := Sem(Some(1), 1, 0), started := true,
                   reg := Registry(1, map[1 := Task("a", Pending)], map[], true),
                   threads := map[0 := Submitter(SubAdd, "a", false, 1)])

  /** Beside it a `TryGo` is undecided with id 2. */
  const OneTrying: State :=
    OneHolding.(reg := Registry(2, map[1 := Task("a", Pending), 2 := Task("b", Pending)], map[], true),
                threads := map[0 := Submitter(SubAdd, "a", false, 1), 1 := Submitter(SubAcquire, "b", true, 2)])

  ghost predicate Reaches(s: State, r: State) {
    exists steps :: Feasible(s, steps) && After(s, steps) == r
  }

  lemma Then(s: State, q: State, r: State)
    requires Reaches(s, q) && Reaches(q, r)
    ensures Reaches(s, r)
  {
    var a :| Feasible(s, a) && After(s, a) == q;
    var b :| Feasible(q, b) && After(q, b) == r;
    Concat(s, a, b);
  }

  lemma OneHoldingReached()
    ensures Reaches(Init(1, true), OneHolding)
  {
    var steps := [Outside(CallGo(0, "a", false)), Submit(0, Begin), Submit(0, Register), Submit(0, Acquire)];
    assert Feasible(Init(1, true), steps) && After(Init(1, true), steps) == OneHolding;
  }

  lemma OneTryingReached()
    ensures Reaches(OneHolding, OneTrying)
  {
    var steps := [Outside(CallGo(1, "b", true)), Submit(1, Begin), Submit(1, Register)];
    assert Feasible(OneHolding, steps) && After(OneHolding, steps) == OneTrying;
  }

  /** From there a `Go` registers as id 3 while the `TryGo` is undecided. */
  const Overlapping: State :=
    OneTrying.(reg := Registry(3, OneTrying.reg.tasks[3 := Task("c", Pending)], map[], true),
               threads := OneTrying.threads[2 := Submitter(SubAcquire, "c", false, 3)])

  lemma OverlappingReached()
    ensures Reaches(OneTrying, Overlapping)
  {
    var steps := [Outside(CallGo(2, "c", false)), Submit(2, Begin), Submit(2, Register)];
    assert Feasible(OneTrying, steps) && After(OneTrying, steps) == Overlapping;
  }

  /** The `TryGo` is refused: ids 1 and 3 remain with the counter at 2, so the next task is given
      id 3 again. */
  const Collided: State :=
    Overlapping.(reg := Registry(2, map[1 := Task("a", Pending), 3 := Task("c", Pending)], map[], true),
                 threads := Overlapping.threads[1 := Submitter(SubDone, "b", true, 2)])

  lemma CollidedReached()
    ensures Reaches(Overlapping, Collided)
  {
    var steps := [Submit(1, Refuse), Submit(1, DropTask), Submit(1, DropCount)];
    assert Feasible(Overlapping, steps);
    var r := After(Overlapping, steps);
    assert r.reg.tasks == Collided.reg.tasks;
    assert r.threads == Collided.threads;
    assert r == Collided;
  }

  /** Overlapping submissions can break the numbering: an id above the counter is in use. */
  lemma OverlapCollides()
    ensures Reaches(Init(1, true), Collided) && Collided.reg.counter + 1 in Collided.reg.tasks
    ensures !Numbered(Collided.reg, Collided.threads)
  {
    OneHoldingReached();
    OneTryingReached();
    OverlappingReached();
    CollidedReached();
    Then(Init(1, true), OneHolding, OneTrying);
    Then(Init(1, true), OneTrying, Overlapping);
    Then(Init(1, true), Overlapping, Collided);
  }
}
