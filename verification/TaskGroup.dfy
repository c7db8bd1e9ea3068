/**
 A task group (pkg/taskgroup) as a step machine.

 Every goroutine that is inside `executeTask`, inside a worker, inside `Wait`, `Close` or
 `CancelWithReason` has an explicit position.  The lock `mu` is not reentrant.  A critical
 section that only touches fields guarded by `mu` is one step, enabled when `mu` is free;
 `Wait` alone keeps `mu` across several steps, because it calls `executeCleanup` under it.
 Atomic counters, the maps of tasks, the semaphore channel and the once-guards have steps of their own.
 */
module TaskGroup {
  import opened Basics
  import opened TaskErrors

  type Tid = nat

  datatype Status = Pending | Running | Completed | Failed | Panicked | Canceled

  /** A `sync.Once`: later callers wait while the first one runs. */
  datatype Once = Fresh | Busy(t: Tid) | Spent

  datatype Task = Task(name: string, status: Status)

  /** The value of `tg.err`. */
  datatype ErrValue = CtxErr | TaskErr(msg: string)

  // ---------------------------------------------------------------- positions of goroutines

  /** Inside `setFundamentalError`. */
  datatype FundPc = FundEnter | FundWrite | FundCancel

  /** Inside `executeCleanup`; `left` counts the entries still to run. */
  datatype CleanPc = CleanEnter | CleanSnap | CleanRun(left: nat)

  datatype SubPc =
    | SubStart | SubRegister | SubAcquire
    | SubDelete | SubDecrement            // a refused TryGo
    | SubMark | SubErr(fund: FundPc)      // a Go that saw the context done
    | SubAdd | SubGo | SubDone

  datatype WorkPc =
    | WorkMark | WorkBody | WorkEnd | WorkRecord | WorkErr | WorkErrWrite
    | WorkRelease | WorkDone | WorkGone

  datatype WaitPc =
    | WaitStart | WaitSelect(zero: bool) | WaitErr(fund: FundPc) | WaitInfo | WaitLock
    | WaitFinish | WaitClean(clean: CleanPc) | WaitPast | WaitReturned

  datatype ClosePc =
    | CloseCheck | CloseOnce | CloseReason | CloseCancel | CloseClean(clean: CleanPc) | CloseDone

  datatype Thread =
    | Submitter(sub: SubPc, name: string, tryMode: bool, id: int)
    | Worker(work: WorkPc, name: string, id: int, out: Outcome)
    | Waiter(wait: WaitPc)
    | Closer(close: ClosePc, cleans: bool)  // Close cleans up, CancelWithReason does not

  // ---------------------------------------------------------------- shared state

  /** The semaphore channel; a capacity of None is the nil channel, and `gen` tells one channel from
      the next, even of the same capacity. */
  datatype Sem = Sem(capacity: Option<nat>, tokens: nat, gen: nat)

  /** The counter of tasks, their map and the history; `keep` is the option keepTaskHistory. */
  datatype Registry = Registry(counter: int, tasks: map<int, Task>, history: map<int, Task>, keep: bool)

  datatype Errors = Errors(err: Option<ErrValue>, once: Once, group: Group)

  /** `entries` is the registered list, `snapshot` the copy taken, `executed` the trace of runs. */
  datatype Cleanup = Cleanup(entries: seq<string>, once: Once, snapshot: Option<seq<string>>, executed: seq<string>)

  datatype State = State(
    sem: Sem, wg: int, mu: Option<Tid>, started: bool, finished: bool, cancelled: bool,
    cancelOnce: Once, reg: Registry, errs: Errors, clean: Cleanup, threads: map<Tid, Thread>)

  // ---------------------------------------------------------------- steps

  datatype OutsideAct =
    | CallGo(t: Tid, name: string, tryMode: bool)
    | CallWait(t: Tid)
    | CallClose(t: Tid, cleans: bool)
    | SetLimit(n: int)
    | RegisterCleanup(name: string)
    | CancelOutside

  /** executeTask up to `go func`. */
  datatype SubAct =
    | Begin | Register | Acquire | Refuse | DropTask | DropCount
    | SeeCancelled | MarkCanceled | AddWg | Launch(w: Tid)

  /** The worker goroutine of executeTask. */
  datatype WorkAct =
    | MarkRunning | Body(out: Outcome) | MarkEnd | Record | FailEnter | FailWrite | Release | DoneWg

  datatype FundAct = ErrEnter | ErrWrite | ErrCancel

  datatype WaitAct =
    | BeginWait | SeeZero | TakeDone | TakeCancelled | ReadInfo | LockWait | FinishWait | Return

  datatype CloseAct = CheckFinished | OnceEnter | WriteReason | FireCancel

  datatype CleanAct = CleanOnce | Snapshot | RunCleanup | CleanEnd

  datatype Step =
    | Outside(o: OutsideAct)
    | Submit(t: Tid, sub: SubAct)
    | Work(t: Tid, work: WorkAct)
    | Fund(t: Tid, fund: FundAct)
    | Wait(t: Tid, wait: WaitAct)
    | Close(t: Tid, close: CloseAct)
    | Clean(t: Tid, clean: CleanAct)

  /** The steps that lock or read-lock `mu`. */
  predicate NeedsMu(step: Step) {
    match step
    case Outside(o) => o.SetLimit? || o.RegisterCleanup?
    case Submit(_, a) => a.Begin? || a.Register? || a.MarkCanceled?
    case Work(_, a) => a.MarkRunning? || a.MarkEnd? || a.Record? || a.FailWrite?
    case Fund(_, a) => a.ErrWrite?
    case Wait(_, a) => a.BeginWait? || a.ReadInfo? || a.LockWait?
    case Close(_, a) => a.CheckFinished? || a.WriteReason?
    case Clean(_, a) => a.Snapshot?
  }

  // ---------------------------------------------------------------- moving a goroutine

  function Move(s: State, t: Tid, th: Thread): State {
    s.(threads := s.threads[t := th])
  }

  /** Where a goroutine stands inside `setFundamentalError`, if it does. */
  function FundAt(th: Thread): Option<FundPc> {
    if th.Submitter? && th.sub.SubErr? then Some(th.sub.fund)
    else if th.Waiter? && th.wait.WaitErr? then Some(th.wait.fund)
    else None
  }

  function WithFund(th: Thread, pc: FundPc): Thread
    requires FundAt(th).Some?
  {
    if th.Submitter? then th.(sub := SubErr(pc)) else Waiter(WaitErr(pc))
  }

  function AfterFund(th: Thread): Thread
    requires FundAt(th).Some?
  {
    if th.Submitter? then th.(sub := SubDone) else Waiter(WaitInfo)
  }

  /** Where a goroutine stands inside `executeCleanup`, if it does. */
  function CleanAt(th: Thread): Option<CleanPc> {
    if th.Waiter? && th.wait.WaitClean? then Some(th.wait.clean)
    else if th.Closer? && th.close.CloseClean? then Some(th.close.clean)
    else None
  }

  function WithClean(th: Thread, pc: CleanPc): Thread
    requires CleanAt(th).Some?
  {
    if th.Waiter? then Waiter(WaitClean(pc)) else th.(close := CloseClean(pc))
  }

  function AfterClean(th: Thread): Thread
    requires CleanAt(th).Some?
  {
    if th.Waiter? then Waiter(WaitPast) else th.(close := CloseDone)
  }

  // ---------------------------------------------------------------- executeTask, in the caller

  predicate SubReady(s: State, t: Tid, a: SubAct) {
    && t in s.threads && s.threads[t].Submitter?
    && var th := s.threads[t];
    match a
    case Begin => th.sub.SubStart?
    case Register => th.sub.SubRegister?
    case Acquire => th.sub.SubAcquire? && s.sem.capacity.Some? && s.sem.tokens < s.sem.capacity.value
    case Refuse =>
      th.sub.SubAcquire? && th.tryMode && s.sem.capacity.Some? && s.sem.tokens >= s.sem.capacity.value
    case DropTask => th.sub.SubDelete?
    case DropCount => th.sub.SubDecrement?
    case SeeCancelled => th.sub.SubAcquire? && !th.tryMode && s.cancelled
    case MarkCanceled => th.sub.SubMark?
    case AddWg => th.sub.SubAdd?
    case Launch(w) => th.sub.SubGo? && w !in s.threads
  }

  function SetStatus(r: Registry, id: int, st: Status): Registry {
    if id in r.tasks then r.(tasks := r.tasks[id := r.tasks[id].(status := st)]) else r
  }

  function AddTask(r: Registry, name: string): Registry {
    r.(counter := r.counter + 1, tasks := r.tasks[r.counter + 1 := Task(name, Pending)])
  }

  function SubApply(s: State, t: Tid, a: SubAct): State
    requires SubReady(s, t, a)
  {
    var th := s.threads[t];
    match a
    case Begin => Move(s.(started := true), t, th.(sub := SubRegister))
    case Register =>
      if s.finished then Move(s, t, th.(sub := SubDone))
      else Move(s.(reg := AddTask(s.reg, th.name)), t,
                th.(sub := if s.sem.capacity.Some? then SubAcquire else SubAdd, id := s.reg.counter + 1))
    case Acquire => Move(s.(sem := s.sem.(tokens := s.sem.tokens + 1)), t, th.(sub := SubAdd))
    case Refuse => Move(s, t, th.(sub := SubDelete))
    case DropTask => Move(s.(reg := s.reg.(tasks := s.reg.tasks - {th.id})), t, th.(sub := SubDecrement))
    case DropCount => Move(s.(reg := s.reg.(counter := s.reg.counter - 1)), t, th.(sub := SubDone))
    case SeeCancelled => Move(s, t, th.(sub := SubMark))
    case MarkCanceled => Move(s.(reg := SetStatus(s.reg, th.id, Canceled)), t, th.(sub := SubErr(FundEnter)))
    case AddWg => Move(s.(wg := s.wg + 1), t, th.(sub := SubGo))
    case Launch(w) => Move(Move(s, t, th.(sub := SubDone)), w, Worker(WorkMark, th.name, th.id, Ok))
  }

  // ---------------------------------------------------------------- executeTask, in the worker

  predicate WorkReady(s: State, t: Tid, a: WorkAct) {
    && t in s.threads && s.threads[t].Worker?
    && var pc := s.threads[t].work;
    match a
    case MarkRunning => pc.WorkMark?
    case Body(_) => pc.WorkBody?
    case MarkEnd => pc.WorkEnd?
    case Record => pc.WorkRecord? && !s.threads[t].out.Ok?
    case FailEnter => pc.WorkErr? && !s.errs.once.Busy?
    case FailWrite => pc.WorkErrWrite? && !s.threads[t].out.Ok?
    case Release => pc.WorkRelease? && (s.sem.capacity.Some? ==> s.sem.tokens > 0)
    case DoneWg => pc.WorkDone?
  }

  function EndStatus(out: Outcome): Status {
    match out
    case Ok => Completed
    case Fail(_) => Failed
    case Panic(_) => Panicked
  }

  predicate IsCompleted(st: Status) {
    st == Completed || st == Failed || st == Panicked
  }

  function EndTask(r: Registry, id: int, out: Outcome): Registry {
    var r' := SetStatus(r, id, EndStatus(out));
    if id in r'.tasks && r.keep then r'.(history := r'.history[id := r'.tasks[id]]) else r'
  }

  function WorkApply(s: State, t: Tid, a: WorkAct): State
    requires WorkReady(s, t, a)
  {
    var th := s.threads[t];
    match a
    case MarkRunning => Move(s.(reg := SetStatus(s.reg, th.id, Running)), t, th.(work := WorkBody))
    case Body(out) => Move(s, t, th.(work := WorkEnd, out := out))
    case MarkEnd =>
      Move(s.(reg := EndTask(s.reg, th.id, th.out)), t, th.(work := if th.out.Ok? then WorkRelease else WorkRecord))
    case Record =>
      Move(s.(errs := s.errs.(group := AddError(s.errs.group, th.name, Message(th.out)))), t, th.(work := WorkErr))
    case FailEnter =>
      if s.errs.once.Fresh?
      then Move(s.(errs := s.errs.(once := Busy(t))), t, th.(work := WorkErrWrite))
      else Move(s, t, th.(work := WorkRelease))
    case FailWrite =>
      Move(s.(errs := s.errs.(err := Some(TaskErr(Message(th.out))), once := Spent)), t, th.(work := WorkRelease))
    case Release =>
      Move(if s.sem.capacity.Some? then s.(sem := s.sem.(tokens := s.sem.tokens - 1)) else s,
           t, th.(work := WorkDone))
    case DoneWg => Move(s.(wg := s.wg - 1), t, th.(work := WorkGone))
  }

  // ---------------------------------------------------------------- setFundamentalError

  predicate FundReady(s: State, t: Tid, a: FundAct) {
    && t in s.threads && FundAt(s.threads[t]).Some?
    && var pc := FundAt(s.threads[t]).value;
    match a
    case ErrEnter => pc.FundEnter? && !s.errs.once.Busy?
    case ErrWrite => pc.FundWrite?
    case ErrCancel => pc.FundCancel?
  }

  function FundApply(s: State, t: Tid, a: FundAct): State
    requires FundReady(s, t, a)
  {
    var th := s.threads[t];
    match a
    case ErrEnter =>
      if s.errs.once.Fresh?
      then Move(s.(errs := s.errs.(once := Busy(t))), t, WithFund(th, FundWrite))
      else Move(s, t, AfterFund(th))
    case ErrWrite => Move(s.(errs := s.errs.(err := Some(CtxErr))), t, WithFund(th, FundCancel))
    case ErrCancel => Move(s.(cancelled := true, errs := s.errs.(once := Spent)), t, AfterFund(th))
  }

  // ---------------------------------------------------------------- Wait

  predicate WaitReady(s: State, t: Tid, a: WaitAct) {
    && t in s.threads && s.threads[t].Waiter?
    && var pc := s.threads[t].wait;
    match a
    case BeginWait => pc.WaitStart?
    case SeeZero => pc.WaitSelect? && s.wg == 0
    case TakeDone => pc.WaitSelect? && pc.zero
    case TakeCancelled => pc.WaitSelect? && s.cancelled
    case ReadInfo => pc.WaitInfo?
    case LockWait => pc.WaitLock?
    case FinishWait => pc.WaitFinish?
    case Return => pc.WaitPast?
  }

  function WaitApply(s: State, t: Tid, a: WaitAct): State
    requires WaitReady(s, t, a)
  {
    match a
    case BeginWait => Move(s.(started := true), t, Waiter(WaitSelect(false)))
    case SeeZero => Move(s, t, Waiter(WaitSelect(true)))
    case TakeDone => Move(s, t, Waiter(WaitLock))
    case TakeCancelled => Move(s, t, Waiter(WaitErr(FundEnter)))
    case ReadInfo => Move(s, t, Waiter(WaitLock))
    case LockWait =>
      if s.finished then Move(s, t, Waiter(WaitReturned)) else Move(s.(mu := Some(t)), t, Waiter(WaitFinish))
    case FinishWait => Move(s.(finished := true, cancelled := true), t, Waiter(WaitClean(CleanEnter)))
    case Return => Move(s.(mu := None), t, Waiter(WaitReturned))
  }

  // ---------------------------------------------------------------- Close and CancelWithReason

  predicate CloseReady(s: State, t: Tid, a: CloseAct) {
    && t in s.threads && s.threads[t].Closer?
    && var pc := s.threads[t].close;
    match a
    case CheckFinished => pc.CloseCheck?
    case OnceEnter => pc.CloseOnce? && !s.cancelOnce.Busy?
    case WriteReason => pc.CloseReason?
    case FireCancel => pc.CloseCancel?
  }

  function AfterCancel(th: Thread): Thread
    requires th.Closer?
  {
    th.(close := if th.cleans then CloseClean(CleanEnter) else CloseDone)
  }

  function CloseApply(s: State, t: Tid, a: CloseAct): State
    requires CloseReady(s, t, a)
  {
    var th := s.threads[t];
    match a
    case CheckFinished => Move(s, t, th.(close := if s.finished then CloseDone else CloseOnce))
    case OnceEnter =>
      if s.cancelOnce.Fresh?
      then Move(s.(cancelOnce := Busy(t)), t, th.(close := CloseReason))
      else Move(s, t, AfterCancel(th))
    case WriteReason => Move(s, t, th.(close := CloseCancel))
    case FireCancel => Move(s.(cancelled := true, cancelOnce := Spent), t, AfterCancel(th))
  }

  // ---------------------------------------------------------------- executeCleanup

  predicate CleanReady(s: State, t: Tid, a: CleanAct) {
    && t in s.threads && CleanAt(s.threads[t]).Some?
    && var pc := CleanAt(s.threads[t]).value;
    match a
    case CleanOnce => pc.CleanEnter? && !s.clean.once.Busy?
    case Snapshot => pc.CleanSnap?
    case RunCleanup =>
      pc.CleanRun? && s.clean.snapshot.Some? && 0 < pc.left <= |s.clean.snapshot.value|
    case CleanEnd => pc.CleanRun? && pc.left == 0
  }

  function CleanApply(s: State, t: Tid, a: CleanAct): State
    requires CleanReady(s, t, a)
  {
    var th := s.threads[t];
    var c := s.clean;
    match a
    case CleanOnce =>
      if c.once.Fresh?
      then Move(s.(clean := c.(once := Busy(t))), t, WithClean(th, CleanSnap))
      else Move(s, t, AfterClean(th))
    case Snapshot =>
      Move(s.(clean := c.(snapshot := Some(c.entries))), t, WithClean(th, CleanRun(|c.entries|)))
    case RunCleanup =>
      var k := CleanAt(th).value.left;
      Move(s.(clean := c.(executed := c.executed + [c.snapshot.value[k - 1]])), t, WithClean(th, CleanRun(k - 1)))
    case CleanEnd => Move(s.(clean := c.(once := Spent)), t, AfterClean(th))
  }

  // ---------------------------------------------------------------- the machine

  predicate OutsideReady(s: State, o: OutsideAct) {
    o.CallGo? || o.CallWait? || o.CallClose? ==> o.t !in s.threads
  }

  function OutsideApply(s: State, o: OutsideAct): State {
    match o
    case CallGo(t, name, tryMode) => Move(s, t, Submitter(SubStart, name, tryMode, 0))
    case CallWait(t) => Move(s, t, Waiter(WaitStart))
    case CallClose(t, cleans) => Move(s, t, Closer(if cleans then CloseCheck else CloseOnce, cleans))
    case SetLimit(n) => if s.started then s else s.(sem := Sem(if n > 0 then Some(n) else None, 0, s.sem.gen + 1))
    case RegisterCleanup(name) => s.(clean := s.clean.(entries := s.clean.entries + [name]))
    case CancelOutside => s.(cancelled := true)
  }

  /** What a step needs besides the lock. */
  predicate Ready(s: State, step: Step) {
    match step
    case Outside(o) => OutsideReady(s, o)
    case Submit(t, a) => SubReady(s, t, a)
    case Work(t, a) => WorkReady(s, t, a)
    case Fund(t, a) => FundReady(s, t, a)
    case Wait(t, a) => WaitReady(s, t, a)
    case Close(t, a) => CloseReady(s, t, a)
    case Clean(t, a) => CleanReady(s, t, a)
  }

  predicate Enabled(s: State, step: Step) {
    Ready(s, step) && (NeedsMu(step) ==> s.mu.None?)
  }

  function Apply(s: State, step: Step): State
    requires Enabled(s, step)
  {
    match step
    case Outside(o) => OutsideApply(s, o)
    case Submit(t, a) => SubApply(s, t, a)
    case Work(t, a) => WorkApply(s, t, a)
    case Fund(t, a) => FundApply(s, t, a)
    case Wait(t, a) => WaitApply(s, t, a)
    case Close(t, a) => CloseApply(s, t, a)
    case Clean(t, a) => CleanApply(s, t, a)
  }

  predicate Feasible(s: State, steps: seq<Step>)
    decreases |steps|
  {
    steps != [] ==> Enabled(s, steps[0]) && Feasible(Apply(s, steps[0]), steps[1..])
  }

  function After(s: State, steps: seq<Step>): State
    requires Feasible(s, steps)
    decreases |steps|
  {
    if steps == [] then s else After(Apply(s, steps[0]), steps[1..])
  }

  /** Two runs in a row are a run. */
  lemma {:induction false} Concat(s: State, a: seq<Step>, b: seq<Step>)
    requires Feasible(s, a) && Feasible(After(s, a), b)
    ensures Feasible(s, a + b) && After(s, a + b) == After(After(s, a), b)
    decreases |a|
  {
    if a == [] {
      assert a + b == b;
    } else {
      Concat(Apply(s, a[0]), a[1..], b);
      assert (a + b)[1..] == a[1..] + b;
    }
  }

  /** One step is a run. */
  lemma Single(s: State, step: Step)
    requires Enabled(s, step)
    ensures Feasible(s, [step]) && After(s, [step]) == Apply(s, step)
  {
    assert [step][1..] == [];
    assert Feasible(Apply(s, step), []);
  }

  /** A fresh group with limit `max`; zero or less means no limit. */
  function Init(max: int, keep: bool): State {
    State(Sem(if max > 0 then Some(max) else None, 0, 0), 0, None, false, false, false, Fresh,
          Registry(0, map[], map[], keep), Errors(None, Fresh, NoErrors), Cleanup([], Fresh, None, []), map[])
  }

  // ---------------------------------------------------------------- counting goroutines

  function Pick(threads: map<Tid, Thread>, p: Thread -> bool): set<Tid> {
    set t | t in threads && p(threads[t])
  }

  function One(b: bool): nat {
    if b then 1 else 0
  }

  /** Moving one goroutine changes a head count by what it was and what it becomes. */
  lemma PickUpdate(threads: map<Tid, Thread>, t: Tid, th: Thread, p: Thread -> bool)
    ensures |Pick(threads[t := th], p)| ==
            |Pick(threads, p)| + One(p(th)) - One(t in threads && p(threads[t]))
  {
    var before, after := Pick(threads, p), Pick(threads[t := th], p);
    var rest := before - {t};
    assert after == if p(th) then rest + {t} else rest;
    assert before == if t in threads && p(threads[t]) then rest + {t} else rest;
  }

  /** Goroutines with no task in hand: in `Wait`, in `Close`, or giving up in `executeTask`. */
  predicate Passive(th: Thread) {
    th.Waiter? || th.Closer? || (th.Submitter? && (th.sub.SubErr? || th.sub.SubDone?))
  }

  predicate EndStep(step: Step) {
    step.Fund? || step.Wait? || step.Close? || step.Clean?
  }

  /** Only the passive goroutine `t` moves; semaphore, wait group, tasks and task errors stay. */
  predicate QuietMove(s: State, s': State, t: Tid) {
    && t in s.threads && t in s'.threads
    && s'.threads == s.threads[t := s'.threads[t]]
    && Passive(s.threads[t]) && Passive(s'.threads[t])
    && (s'.threads[t].Submitter? ==> s.threads[t].Submitter?)
    && s'.sem == s.sem && s'.wg == s.wg && s'.reg == s.reg && s'.errs.group == s.errs.group
    && (s.started ==> s'.started)
  }

  lemma FundFrame(s: State, t: Tid, a: FundAct)
    requires FundReady(s, t, a)
    ensures QuietMove(s, FundApply(s, t, a), t)
  {
  }

  lemma WaitFrame(s: State, t: Tid, a: WaitAct)
    requires WaitReady(s, t, a)
    ensures QuietMove(s, WaitApply(s, t, a), t)
  {
  }

  lemma CloseFrame(s: State, t: Tid, a: CloseAct)
    requires CloseReady(s, t, a)
    ensures QuietMove(s, CloseApply(s, t, a), t)
  {
  }

  lemma CleanFrame(s: State, t: Tid, a: CleanAct)
    requires CleanReady(s, t, a)
    ensures QuietMove(s, CleanApply(s, t, a), t)
  {
  }

  /** What the steps of `Wait`, `Close`, `setFundamentalError` and `executeCleanup` leave alone. */
  lemma EndFrame(s: State, step: Step)
    requires Enabled(s, step) && EndStep(step)
    ensures QuietMove(s, Apply(s, step), step.t)
  {
    match step
    case Fund(t, a) => FundFrame(s, t, a);
    case Wait(t, a) => WaitFrame(s, t, a);
    case Close(t, a) => CloseFrame(s, t, a);
    case Clean(t, a) => CleanFrame(s, t, a);
  }
}
