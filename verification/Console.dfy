/**
 The edge-triggered console of pkg/kqueue as a step machine.

 One console is registered with a kqueue.  Any number of goroutines are inside
 `Read` and `Write`; one loop goroutine turns one-shot kernel edges into calls of
 `signalRead` and `signalWrite`; `Add` publishes the console and `Shutdown`
 tears it down.  Every lock operation, every console call and every condition
 variable operation is a step of its own, so a run is an arbitrary interleaving.
 */
module Console {

  type Tid = nat

  /** The two halves of a console: `readc` with its lock, and `writec` with its lock. */
  datatype Dir = Rd | Wr

  /** What a console call reports; `Hangup` stands for EIO and EWOULDBLOCK. */
  datatype Err = NoErr | Hangup | OtherErr

  /** Where a goroutine is inside `Read` or `Write`. */
  datatype Pc =
    | Locking   // entered the call, wants the lock
    | Polling   // holds the lock, about to call the console
    | Parking   // holds the lock, saw a hangup, about to call Wait
    | Sleeping  // on the notify list, lock released
    | Woken     // taken off the notify list, wants the lock again
    | Closing   // holds the lock, about to make the closing Signal
    | Leaving   // holds the lock, about to return

  /** One call: its position, the length of its buffer and the bytes done so far. */
  datatype Call = Call(pc: Pc, len: nat, n: nat)

  datatype Owner = Free | Caller(t: Tid) | Looper | Shutter

  /** One half of the console.  `avail` counts the bytes (or the room) the kernel
      has for it, and `edge` says that its kernel event is queued. */
  datatype Side = Side(owner: Owner, calls: map<Tid, Call>, waitq: seq<Tid>, avail: nat, edge: bool)

  datatype Event = Event(dir: Dir, eof: bool)

  /** Position of the event loop; `todo` holds the signals still owed for the current event. */
  datatype LoopPc = Ready | Looking | Locked(d: Dir) | Notified(d: Dir)
  datatype Loop = Loop(pc: LoopPc, batch: seq<Event>, todo: seq<Dir>)

  datatype MuOwner = MuFree | MuLoop | MuAdd | MuShut

  datatype AddPc = Unregistered | Registered | Publishing | Published

  datatype ShutPc =
    | ShutIdle | WantRd | WantWr | CastRd | CastWr | MarkClosed
    | WantMu | Unmap | FreeWr | FreeRd

  datatype State = State(rd: Side, wr: Side, loop: Loop, mu: MuOwner,
                         mapped: bool, closed: bool, add: AddPc, shut: ShutPc)

  datatype Step =
    // a goroutine inside Read or Write
    | Enter(d: Dir, t: Tid, len: nat)
    | Acquire(d: Dir, t: Tid)
    | Poll(d: Dir, t: Tid, k: nat, err: Err)
    | Park(d: Dir, t: Tid)
    | Signal(d: Dir, t: Tid)
    | Leave(d: Dir, t: Tid)
    // the kernel
    | Arrive(d: Dir, k: nat)
    | Spurious(d: Dir)
    // Add
    | Register(rdEdge: bool, wrEdge: bool)
    | AddLock
    | Publish
    // the event loop
    | Fetch(evs: seq<Event>)
    | LookLock
    | Look
    | LoopLock
    | LoopSignal
    | LoopFree
    // Shutdown
    | ShutStart
    | ShutNext

  // ---------------------------------------------------------------- decisions

  /** `Read` goes back to sleep after a hangup unless it has nothing and the console is closed. */
  predicate ReadWaits(len: nat, n: nat, closed: bool, err: Err) {
    err == Hangup && !(n == 0 && len > 0 && closed)
  }

  predicate WriteWaits(err: Err) {
    err == Hangup
  }

  predicate Waits(d: Dir, len: nat, n: nat, closed: bool, err: Err) {
    if d == Rd then ReadWaits(len, n, closed, err) else WriteWaits(err)
  }

  /** The signals the loop owes for one event, in the order the loop makes them. */
  function Signals(ev: Event): seq<Dir> {
    [ev.dir] + if ev.eof then [Rd, Wr] else []
  }

  // ---------------------------------------------------------------- one half

  function At(s: State, d: Dir): Side {
    if d == Rd then s.rd else s.wr
  }

  function Put(s: State, d: Dir, x: Side): State {
    if d == Rd then s.(rd := x) else s.(wr := x)
  }

  predicate In(cs: map<Tid, Call>, t: Tid, pc: Pc) {
    t in cs && cs[t].pc == pc
  }

  function Move(x: Side, t: Tid, pc: Pc): Side
    requires t in x.calls
  {
    x.(calls := x.calls[t := x.calls[t].(pc := pc)])
  }

  /** `Signal`: the longest sleeper leaves the notify list. */
  function Wake(x: Side): Side {
    if x.waitq != [] && x.waitq[0] in x.calls then
      Move(x, x.waitq[0], Woken).(waitq := x.waitq[1..])
    else x
  }

  /** `Broadcast`: every sleeper leaves the notify list. */
  function WakeAll(x: Side): Side {
    x.(calls := map t | t in x.calls ::
         if x.calls[t].pc == Sleeping then x.calls[t].(pc := Woken) else x.calls[t],
       waitq := [])
  }

  predicate Mentions(evs: seq<Event>, d: Dir) {
    exists i :: 0 <= i < |evs| && evs[i].dir == d
  }

  // ---------------------------------------------------------------- steps

  /** The steps a call makes; they touch nothing but the call's own half. */
  predicate CallStep(step: Step) {
    step.Enter? || step.Acquire? || step.Poll? || step.Park? || step.Signal? || step.Leave?
  }

  predicate CallEnabled(x: Side, step: Step)
    requires CallStep(step)
  {
    match step
    case Enter(_, t, _) => t !in x.calls
    case Acquire(_, t) => x.owner == Free && (In(x.calls, t, Locking) || In(x.calls, t, Woken))
    case Poll(_, t, k, err) =>
      && In(x.calls, t, Polling)
      && k <= x.avail && x.calls[t].n + k <= x.calls[t].len
      && (err == Hangup ==> x.avail == k)
    case Park(_, t) => In(x.calls, t, Parking)
    case Signal(_, t) => In(x.calls, t, Closing)
    case Leave(_, t) => In(x.calls, t, Leaving)
  }

  function CallApply(x: Side, closed: bool, step: Step): Side
    requires CallStep(step) && CallEnabled(x, step)
  {
    match step
    case Enter(_, t, len) => x.(calls := x.calls[t := Call(Locking, len, 0)])
    case Acquire(_, t) => Move(x, t, Polling).(owner := Caller(t))
    case Poll(d, t, k, err) =>
      var c := x.calls[t];
      var pc := if Waits(d, c.len, c.n + k, closed, err) then Parking else Closing;
      x.(calls := x.calls[t := Call(pc, c.len, c.n + k)], avail := x.avail - k)
    case Park(_, t) => Move(x, t, Sleeping).(waitq := x.waitq + [t], owner := Free)
    case Signal(_, t) => Wake(Move(x, t, Leaving))
    case Leave(_, t) => x.(calls := x.calls - {t}, owner := Free)
  }

  ghost predicate Enabled(s: State, step: Step) {
    match step
    case Arrive(d, k) => true
    case Spurious(d) => s.add != Unregistered
    case Register(_, _) => s.add == Unregistered
    case AddLock => s.add == Registered && s.mu == MuFree
    case Publish => s.add == Publishing
    case Fetch(evs) =>
      && s.loop.pc == Ready && s.loop.todo == [] && s.loop.batch == [] && evs != []
      && (forall i :: 0 <= i < |evs| ==> At(s, evs[i].dir).edge)
      && (forall i, j :: 0 <= i < j < |evs| ==> evs[i].dir != evs[j].dir)
    case LookLock => s.loop.pc == Ready && s.loop.todo == [] && s.loop.batch != [] && s.mu == MuFree
    case Look => s.loop.pc == Looking && s.loop.batch != []
    case LoopLock => s.loop.pc == Ready && s.loop.todo != [] && At(s, s.loop.todo[0]).owner == Free
    case LoopSignal => s.loop.pc.Locked? && s.loop.todo != []
    case LoopFree => s.loop.pc.Notified?
    case ShutStart => s.shut == ShutIdle && s.add == Published
    case ShutNext =>
      (match s.shut
       case ShutIdle => false
       case WantRd => s.rd.owner == Free
       case WantWr => s.wr.owner == Free
       case WantMu => s.mu == MuFree
       case _ => true)
    case _ => s.add == Published && CallEnabled(At(s, step.d), step)
  }

  function ApplyShut(s: State): State {
    match s.shut
    case ShutIdle => s
    case WantRd => s.(rd := s.rd.(owner := Shutter), shut := WantWr)
    case WantWr => s.(wr := s.wr.(owner := Shutter), shut := CastRd)
    case CastRd => s.(rd := WakeAll(s.rd), shut := CastWr)
    case CastWr => s.(wr := WakeAll(s.wr), shut := MarkClosed)
    case MarkClosed => s.(closed := true, shut := WantMu)
    case WantMu => s.(mu := MuShut, shut := Unmap)
    case Unmap => s.(mapped := false, mu := MuFree, shut := FreeWr)
    case FreeWr => s.(wr := s.wr.(owner := Free), shut := FreeRd)
    case FreeRd => s.(rd := s.rd.(owner := Free), shut := ShutIdle)
  }

  ghost function Apply(s: State, step: Step): State
    requires Enabled(s, step)
  {
    match step
    case Arrive(d, k) =>
      var x := At(s, d);
      Put(s, d, x.(avail := x.avail + k, edge := x.edge || s.add != Unregistered))
    case Spurious(d) => Put(s, d, At(s, d).(edge := true))
    case Register(re, we) =>
      s.(add := Registered, rd := s.rd.(edge := re), wr := s.wr.(edge := we))
    case AddLock => s.(add := Publishing, mu := MuAdd)
    case Publish => s.(add := Published, mapped := true, mu := MuFree)
    case Fetch(evs) =>
      s.(rd := s.rd.(edge := s.rd.edge && !Mentions(evs, Rd)),
         wr := s.wr.(edge := s.wr.edge && !Mentions(evs, Wr)),
         loop := Loop(Ready, evs, []))
    case LookLock => s.(loop := s.loop.(pc := Looking), mu := MuLoop)
    case Look =>
      s.(loop := Loop(Ready, s.loop.batch[1..], if s.mapped then Signals(s.loop.batch[0]) else []),
         mu := MuFree)
    case LoopLock =>
      var d := s.loop.todo[0];
      Put(s, d, At(s, d).(owner := Looper)).(loop := s.loop.(pc := Locked(d)))
    case LoopSignal =>
      var d := s.loop.pc.d;
      Put(s, d, Wake(At(s, d))).(loop := Loop(Notified(d), s.loop.batch, s.loop.todo[1..]))
    case LoopFree =>
      var d := s.loop.pc.d;
      Put(s, d, At(s, d).(owner := Free)).(loop := s.loop.(pc := Ready))
    case ShutStart => s.(shut := WantRd)
    case ShutNext => ApplyShut(s)
    case _ => Put(s, step.d, CallApply(At(s, step.d), s.closed, step))
  }

  ghost predicate Feasible(s: State, steps: seq<Step>)
    decreases |steps|
  {
    steps != [] ==> Enabled(s, steps[0]) && Feasible(Apply(s, steps[0]), steps[1..])
  }

  ghost function After(s: State, steps: seq<Step>): State
    requires Feasible(s, steps)
    decreases |steps|
  {
    if steps == [] then s else After(Apply(s, steps[0]), steps[1..])
  }

  const EmptySide := Side(Free, map[], [], 0, false)
  const Init := State(EmptySide, EmptySide, Loop(Ready, [], []), MuFree, false, false, Unregistered, ShutIdle)

  // ---------------------------------------------------------------- invariants

  predicate Holds(pc: Pc) {
    pc == Polling || pc == Parking || pc == Closing || pc == Leaving
  }

  /** The lock of one half is held by exactly the call that believes it holds it. */
  ghost predicate LockInv(owner: Owner, cs: map<Tid, Call>) {
    && (owner.Caller? ==> owner.t in cs && Holds(cs[owner.t].pc))
    && (forall t :: t in cs && Holds(cs[t].pc) ==> owner == Caller(t))
  }

  /** The notify list holds exactly the sleepers, each once. */
  ghost predicate QueueInv(cs: map<Tid, Call>, q: seq<Tid>) {
    && (forall i :: 0 <= i < |q| ==> In(cs, q[i], Sleeping))
    && (forall i, j :: 0 <= i < j < |q| ==> q[i] != q[j])
    && (forall t :: In(cs, t, Sleeping) ==> t in q)
  }

  ghost predicate CountInv(cs: map<Tid, Call>) {
    forall t :: t in cs ==> cs[t].n <= cs[t].len
  }

  /** Some call will still look at the console, or still signal, before it can sleep. */
  ghost predicate Lively(cs: map<Tid, Call>) {
    exists t :: In(cs, t, Polling) || In(cs, t, Woken) || In(cs, t, Closing)
  }

  ghost predicate Dozing(cs: map<Tid, Call>) {
    exists t :: In(cs, t, Sleeping) || In(cs, t, Parking)
  }

  /** No wakeup is lost on one half: a sleeper beside available bytes is always owed one. */
  ghost predicate NoLost(x: Side, owed: bool) {
    Dozing(x.calls) && x.avail > 0 ==> x.edge || owed || Lively(x.calls)
  }

  /** The loop has fetched an edge of half `d` and has yet to signal for it. */
  predicate Owed(l: Loop, d: Dir) {
    d in l.todo || Mentions(l.batch, d)
  }

  predicate ShutHoldsRd(p: ShutPc) {
    !p.ShutIdle? && !p.WantRd?
  }

  predicate ShutHoldsWr(p: ShutPc) {
    ShutHoldsRd(p) && !p.WantWr? && !p.FreeRd?
  }

  predicate LoopHolds(l: Loop, d: Dir) {
    l.pc == Locked(d) || l.pc == Notified(d)
  }

  /** Lock ownership by the loop, by Shutdown and by Add. */
  ghost predicate OwnerInv(s: State) {
    && (s.rd.owner == Looper <==> LoopHolds(s.loop, Rd))
    && (s.wr.owner == Looper <==> LoopHolds(s.loop, Wr))
    && (s.loop.pc.Locked? ==> s.loop.todo != [] && s.loop.todo[0] == s.loop.pc.d)
    && (s.loop.pc.Looking? ==> s.loop.todo == [] && s.loop.batch != [])
    && (s.rd.owner == Shutter <==> ShutHoldsRd(s.shut))
    && (s.wr.owner == Shutter <==> ShutHoldsWr(s.shut))
    && (s.mu == MuLoop <==> s.loop.pc == Looking)
    && (s.mu == MuAdd <==> s.add == Publishing)
    && (s.mu == MuShut <==> s.shut == Unmap)
  }

  ghost predicate AddInv(s: State) {
    && (s.add != Published ==> s.rd.calls == map[] && s.wr.calls == map[] && s.shut == ShutIdle && !s.mapped)
    && (s.add == Unregistered ==> !s.rd.edge && !s.wr.edge)
  }

  /** After Shutdown a reader dozes only in the two cases the source leaves waiting. */
  ghost predicate ClosedCalls(cs: map<Tid, Call>) {
    forall t :: In(cs, t, Sleeping) || In(cs, t, Parking) ==> cs[t].n > 0 || cs[t].len == 0
  }

  ghost predicate ClosedInv(s: State) {
    && (s.closed ==> ClosedCalls(s.rd.calls))
    && (s.shut.CastWr? || s.shut.MarkClosed? ==> s.rd.waitq == [])
    && (s.shut.WantMu? || s.shut.Unmap? || s.shut.FreeWr? || s.shut.FreeRd? ==> s.closed)
  }

  ghost predicate SideInv(x: Side) {
    LockInv(x.owner, x.calls) && QueueInv(x.calls, x.waitq) && CountInv(x.calls)
  }

  ghost predicate WakeInv(s: State) {
    s.mapped ==> NoLost(s.rd, Owed(s.loop, Rd)) && NoLost(s.wr, Owed(s.loop, Wr))
  }

  ghost predicate Inv(s: State) {
    && SideInv(s.rd) && SideInv(s.wr)
    && OwnerInv(s) && AddInv(s) && ClosedInv(s) && WakeInv(s)
  }

  // ---------------------------------------------------------------- preservation, one half at a time

  /** Nobody but `t` changes, so whoever else was awake still is. */
  ghost predicate OnlyMoves(cs: map<Tid, Call>, cs': map<Tid, Call>, t: Tid) {
    && (forall u :: u != t && u in cs ==> u in cs' && cs'[u] == cs[u])
    && (forall u :: u != t && u in cs' ==> u in cs)
  }

  lemma LivelyMono(cs: map<Tid, Call>, cs': map<Tid, Call>, t: Tid)
    requires OnlyMoves(cs, cs', t)
    requires !In(cs, t, Polling) && !In(cs, t, Woken) && !In(cs, t, Closing)
    ensures Lively(cs) ==> Lively(cs')
  {
    if Lively(cs) {
      var u :| In(cs, u, Polling) || In(cs, u, Woken) || In(cs, u, Closing);
      assert In(cs', u, cs[u].pc);
    }
  }

  lemma DozingMono(cs: map<Tid, Call>, cs': map<Tid, Call>, t: Tid)
    requires OnlyMoves(cs, cs', t)
    requires In(cs', t, Sleeping) || In(cs', t, Parking) ==> In(cs, t, Sleeping) || In(cs, t, Parking)
    ensures Dozing(cs') ==> Dozing(cs)
  {
    if Dozing(cs') && !In(cs, t, Sleeping) && !In(cs, t, Parking) {
      var u :| In(cs', u, Sleeping) || In(cs', u, Parking);
      assert In(cs, u, cs'[u].pc);
    }
  }

  /** The notify list is untouched when a call moves that neither was nor becomes a sleeper. */
  lemma QueueFrame(cs: map<Tid, Call>, cs': map<Tid, Call>, q: seq<Tid>, t: Tid)
    requires QueueInv(cs, q) && OnlyMoves(cs, cs', t)
    requires !In(cs, t, Sleeping) && !In(cs', t, Sleeping)
    ensures QueueInv(cs', q)
  {
    forall i | 0 <= i < |q| ensures In(cs', q[i], Sleeping) {
      assert In(cs, q[i], Sleeping);
    }
    forall u | In(cs', u, Sleeping) ensures u in q {
      assert In(cs, u, Sleeping);
    }
  }

  lemma WakeQueue(x: Side)
    requires QueueInv(x.calls, x.waitq) && x.waitq != []
    ensures QueueInv(Wake(x).calls, Wake(x).waitq)
    ensures In(Wake(x).calls, x.waitq[0], Woken) && OnlyMoves(x.calls, Wake(x).calls, x.waitq[0])
  {
    var q, cs := Wake(x).waitq, Wake(x).calls;
    assert In(x.calls, x.waitq[0], Sleeping);
    forall i | 0 <= i < |q| ensures In(cs, q[i], Sleeping) {
      assert q[i] == x.waitq[i + 1] && In(x.calls, x.waitq[i + 1], Sleeping);
    }
    forall u | In(cs, u, Sleeping) ensures u in q {
      assert In(x.calls, u, Sleeping);
      var i :| 0 <= i < |x.waitq| && x.waitq[i] == u;
      assert q[i - 1] == u;
    }
  }

  /** A signal made under the lock leaves nobody asleep without a successor awake. */
  lemma WakeKeeps(x: Side, owed: bool)
    requires SideInv(x) && !x.owner.Free?
    requires x.owner.Caller? ==> x.calls[x.owner.t].pc == Leaving
    ensures SideInv(Wake(x)) && NoLost(Wake(x), owed)
    ensures ClosedCalls(x.calls) ==> ClosedCalls(Wake(x).calls)
    ensures Wake(x).owner == x.owner
    ensures x.waitq == [] ==> Wake(x) == x
  {
    if x.waitq != [] {
      assert In(x.calls, x.waitq[0], Sleeping);
      WakeQueue(x);
      if ClosedCalls(x.calls) {
        forall t | In(Wake(x).calls, t, Sleeping) || In(Wake(x).calls, t, Parking)
          ensures Wake(x).calls[t].n > 0 || Wake(x).calls[t].len == 0
        {
          assert In(x.calls, t, Wake(x).calls[t].pc);
        }
      }
    }
  }

  lemma WakeAllKeeps(x: Side, owed: bool)
    requires SideInv(x) && x.owner == Shutter
    ensures SideInv(WakeAll(x)) && NoLost(WakeAll(x), owed)
    ensures ClosedCalls(WakeAll(x).calls)
  {
    var cs := WakeAll(x).calls;
    assert forall t :: t in cs ==> cs[t].pc != Sleeping && cs[t].pc != Parking;
  }

  lemma EnterKeeps(x: Side, t: Tid, x': Side)
    requires SideInv(x) && t !in x.calls
    requires x'.calls.Keys == x.calls.Keys + {t} && OnlyMoves(x.calls, x'.calls, t)
    requires x'.calls[t].pc == Locking && x'.calls[t].n == 0 && x' == x.(calls := x'.calls)
    ensures SideInv(x')
    ensures ClosedCalls(x.calls) ==> ClosedCalls(x'.calls)
    ensures forall owed :: NoLost(x, owed) ==> NoLost(x', owed)
  {
    QueueFrame(x.calls, x'.calls, x.waitq, t);
    LivelyMono(x.calls, x'.calls, t);
    DozingMono(x.calls, x'.calls, t);
    assert ClosedCalls(x.calls) ==> ClosedCalls(x'.calls) by {
      assert forall u :: u != t && u in x'.calls ==> x'.calls[u] == x.calls[u];
      assert forall u :: In(x'.calls, u, Sleeping) || In(x'.calls, u, Parking) ==> In(x.calls, u, x'.calls[u].pc);
    }
  }

  lemma ParkKeeps(x: Side, step: Step)
    requires step.Park? && SideInv(x) && CallEnabled(x, step)
    ensures SideInv(CallApply(x, true, step))
  {
    var x' := CallApply(x, true, step);
    forall i | 0 <= i < |x'.waitq| ensures In(x'.calls, x'.waitq[i], Sleeping) {
      if i < |x.waitq| { assert In(x.calls, x.waitq[i], Sleeping); }
    }
    forall u | In(x'.calls, u, Sleeping) ensures u in x'.waitq {
      if u != step.t { assert In(x.calls, u, Sleeping); }
    }
  }

  lemma CallStepSide(x: Side, closed: bool, step: Step)
    requires SideInv(x) && CallStep(step) && CallEnabled(x, step)
    ensures SideInv(CallApply(x, closed, step))
  {
    var x' := CallApply(x, closed, step);
    match step
    case Enter(_, t, _) => EnterKeeps(x, t, x');
    case Acquire(_, t) =>
      if In(x.calls, t, Woken) || In(x.calls, t, Locking) {
        QueueFrame(x.calls, x'.calls, x.waitq, t);
      }
    case Poll(_, t, _, _) => QueueFrame(x.calls, x'.calls, x.waitq, t);
    case Park(_, _) => ParkKeeps(x, step);
    case Signal(_, t) =>
      QueueFrame(x.calls, Move(x, t, Leaving).calls, x.waitq, t);
      WakeKeeps(Move(x, t, Leaving), false);
    case Leave(_, t) => QueueFrame(x.calls, x'.calls, x.waitq, t);
  }

  lemma CallStepNoLost(x: Side, closed: bool, step: Step, owed: bool)
    requires SideInv(x) && CallStep(step) && CallEnabled(x, step) && NoLost(x, owed)
    ensures NoLost(CallApply(x, closed, step), owed)
  {
    var x' := CallApply(x, closed, step);
    match step
    case Enter(_, t, _) => EnterKeeps(x, t, x');
    case Acquire(_, t) => assert In(x'.calls, t, Polling);
    case Poll(_, t, k, err) =>
      if err != Hangup { assert In(x'.calls, t, Closing); }
    case Park(_, t) => LivelyMono(x.calls, x'.calls, t);
    case Signal(_, t) =>
      QueueFrame(x.calls, Move(x, t, Leaving).calls, x.waitq, t);
      WakeKeeps(Move(x, t, Leaving), owed);
    case Leave(_, t) =>
      LivelyMono(x.calls, x'.calls, t);
      DozingMono(x.calls, x'.calls, t);
  }

  lemma ClosedMono(cs: map<Tid, Call>, cs': map<Tid, Call>, t: Tid)
    requires ClosedCalls(cs) && OnlyMoves(cs, cs', t)
    requires In(cs', t, Sleeping) || In(cs', t, Parking) ==> cs'[t].n > 0 || cs'[t].len == 0
    ensures ClosedCalls(cs')
  {
    forall u | In(cs', u, Sleeping) || In(cs', u, Parking) ensures cs'[u].n > 0 || cs'[u].len == 0 {
      if u != t { assert In(cs, u, cs'[u].pc); }
    }
  }

  lemma CallStepClosed(x: Side, step: Step)
    requires SideInv(x) && CallStep(step) && step.d == Rd && CallEnabled(x, step) && ClosedCalls(x.calls)
    ensures ClosedCalls(CallApply(x, true, step).calls)
  {
    var x' := CallApply(x, true, step);
    if step.Signal? {
      var y := Move(x, step.t, Leaving);
      ClosedMono(x.calls, y.calls, step.t);
      QueueFrame(x.calls, y.calls, x.waitq, step.t);
      WakeKeeps(y, false);
    } else {
      ClosedMono(x.calls, x'.calls, step.t);
    }
  }

  /** A call step never takes the lock from the loop or from Shutdown. */
  lemma CallStepOwner(x: Side, closed: bool, step: Step)
    requires SideInv(x) && CallStep(step) && CallEnabled(x, step)
    ensures CallApply(x, closed, step).owner == Looper <==> x.owner == Looper
    ensures CallApply(x, closed, step).owner == Shutter <==> x.owner == Shutter
    ensures x.owner == Shutter ==> |CallApply(x, closed, step).waitq| <= |x.waitq|
    ensures CallApply(x, closed, step).edge == x.edge
  {
  }

  /** Replacing one half keeps the invariant when the half keeps its part of it. */
  lemma PutKeeps(s: State, d: Dir, y: Side)
    requires Inv(s) && SideInv(y)
    requires var x := At(s, d);
             && (y.owner == Looper <==> x.owner == Looper) && (y.owner == Shutter <==> x.owner == Shutter)
             && (s.add == Published || y.calls == x.calls) && (s.add == Unregistered ==> !y.edge)
             && (x.owner == Shutter && x.waitq == [] ==> y.waitq == [])
    requires s.mapped ==> NoLost(y, Owed(s.loop, d))
    requires s.closed && d == Rd ==> ClosedCalls(y.calls)
    ensures Inv(Put(s, d, y))
  {
  }

  lemma CallStepKeeps(s: State, step: Step)
    requires Inv(s) && CallStep(step) && Enabled(s, step)
    ensures Inv(Apply(s, step))
  {
    var x := At(s, step.d);
    var y := CallApply(x, s.closed, step);
    CallStepSide(x, s.closed, step);
    CallStepOwner(x, s.closed, step);
    if s.mapped { CallStepNoLost(x, s.closed, step, Owed(s.loop, step.d)); }
    if s.closed && step.d == Rd { CallStepClosed(x, step); }
    PutKeeps(s, step.d, y);
  }

  predicate LoopStep(step: Step) {
    step.Fetch? || step.LookLock? || step.Look? || step.LoopLock? || step.LoopSignal? || step.LoopFree?
  }

  /** Looking an event up turns the batch entry into an owed signal while the console is mapped. */
  lemma LookOwed(l: Loop, d: Dir)
    requires l.batch != [] && Owed(l, d) && l.todo == []
    ensures Owed(Loop(Ready, l.batch[1..], Signals(l.batch[0])), d)
  {
    var i :| 0 <= i < |l.batch| && l.batch[i].dir == d;
    if i == 0 {
      assert Signals(l.batch[0])[0] == d;
    } else {
      assert l.batch[1..][i - 1] == l.batch[i];
    }
  }

  lemma LoopNoLost(s: State, step: Step, d: Dir)
    requires SideInv(At(s, d)) && OwnerInv(s) && LoopStep(step) && Enabled(s, step) && s.mapped
    requires NoLost(At(s, d), Owed(s.loop, d))
    ensures NoLost(At(Apply(s, step), d), Owed(Apply(s, step).loop, d))
  {
    match step
    case Fetch(evs) =>
    case LookLock =>
    case Look => if Owed(s.loop, d) { LookOwed(s.loop, d); }
    case LoopLock =>
    case LoopSignal =>
      if d == s.loop.pc.d {
        WakeKeeps(At(s, d), Owed(Apply(s, step).loop, d));
      } else {
        assert s.loop.todo == [s.loop.todo[0]] + s.loop.todo[1..];
      }
    case LoopFree =>
  }

  /** Lock hand-over between the loop and nobody. */
  lemma HandOver(x: Side, o: Owner)
    requires SideInv(x) && !x.owner.Caller? && !o.Caller?
    ensures SideInv(x.(owner := o))
  {
  }

  lemma LoopStepSide(s: State, step: Step, d: Dir)
    requires SideInv(At(s, d)) && OwnerInv(s) && LoopStep(step) && Enabled(s, step)
    ensures SideInv(At(Apply(s, step), d))
    ensures ClosedCalls(At(s, d).calls) ==> ClosedCalls(At(Apply(s, step), d).calls)
    ensures At(s, d).calls == map[] ==> At(Apply(s, step), d).calls == map[]
    ensures At(s, d).waitq == [] ==> At(Apply(s, step), d).waitq == []
  {
    match step
    case LoopLock => if s.loop.todo[0] == d { HandOver(At(s, d), Looper); }
    case LoopSignal => if s.loop.pc.d == d { WakeKeeps(At(s, d), true); }
    case LoopFree => if s.loop.pc.d == d { HandOver(At(s, d), Free); }
    case _ =>
  }

  lemma LoopStepOwner(s: State, step: Step)
    requires OwnerInv(s) && LoopStep(step) && Enabled(s, step)
    ensures OwnerInv(Apply(s, step))
  {
  }

  lemma LoopStepWake(s: State, step: Step)
    requires Inv(s) && LoopStep(step) && Enabled(s, step)
    ensures WakeInv(Apply(s, step))
  {
    if s.mapped {
      LoopNoLost(s, step, Rd);
      LoopNoLost(s, step, Wr);
    }
  }

  lemma LoopStepClosed(s: State, step: Step)
    requires Inv(s) && LoopStep(step) && Enabled(s, step)
    ensures ClosedInv(Apply(s, step))
  {
    LoopStepSide(s, step, Rd);
  }

  lemma LoopStepAdd(s: State, step: Step)
    requires Inv(s) && LoopStep(step) && Enabled(s, step)
    ensures AddInv(Apply(s, step))
  {
  }

  lemma LoopStepKeeps(s: State, step: Step)
    requires Inv(s) && LoopStep(step) && Enabled(s, step)
    ensures Inv(Apply(s, step))
  {
    LoopStepSide(s, step, Rd);
    LoopStepSide(s, step, Wr);
    LoopStepOwner(s, step);
    LoopStepWake(s, step);
    LoopStepClosed(s, step);
    LoopStepAdd(s, step);
  }

  lemma CastKeeps(s: State)
    requires Inv(s) && (s.shut.CastRd? || s.shut.CastWr?)
    ensures Inv(ApplyShut(s))
  {
    var d := if s.shut.CastRd? then Rd else Wr;
    WakeAllKeeps(At(s, d), Owed(s.loop, d));
  }

  lemma ShutStepKeeps(s: State)
    requires Inv(s) && Enabled(s, ShutNext)
    ensures Inv(Apply(s, ShutNext))
  {
    if s.shut.CastRd? || s.shut.CastWr? {
      CastKeeps(s);
    } else if s.shut.MarkClosed? {
      NoneAsleep(s);
    }
  }

  /** When the broadcasts are over and the locks still held, no reader is asleep. */
  lemma NoneAsleep(s: State)
    requires Inv(s) && s.shut.MarkClosed?
    ensures ClosedCalls(s.rd.calls)
  {
    forall t ensures !In(s.rd.calls, t, Sleeping) && !In(s.rd.calls, t, Parking) {
      assert In(s.rd.calls, t, Sleeping) ==> t in s.rd.waitq;
    }
  }

  lemma EdgeSide(x: Side, avail: nat, edge: bool, owed: bool)
    requires SideInv(x)
    ensures var y := x.(avail := avail, edge := edge); SideInv(y) && (edge ==> NoLost(y, owed))
  {
  }

  /** Fresh bytes come with an edge, so they cannot strand a sleeper. */
  lemma ArriveKeeps(s: State, d: Dir, avail: nat, edge: bool)
    requires Inv(s) && (s.add == Unregistered <==> !edge)
    ensures Inv(Put(s, d, At(s, d).(avail := avail, edge := edge)))
  {
    EdgeSide(At(s, d), avail, edge, Owed(s.loop, d));
    assert s.mapped ==> edge;
    PutKeeps(s, d, At(s, d).(avail := avail, edge := edge));
  }

  lemma KernelStepKeeps(s: State, d: Dir, k: nat)
    requires Inv(s)
    ensures Inv(Apply(s, Arrive(d, k)))
    ensures s.add != Unregistered ==> Inv(Apply(s, Spurious(d)))
  {
    var x := At(s, d);
    assert s.add == Unregistered ==> !x.edge;
    ArriveKeeps(s, d, x.avail + k, s.add != Unregistered);
    if s.add != Unregistered {
      ArriveKeeps(s, d, x.avail, true);
    }
  }

  lemma AddStepKeeps(s: State, step: Step)
    requires Inv(s) && Enabled(s, step)
    requires step.Register? || step.AddLock? || step.Publish? || step.ShutStart?
    ensures Inv(Apply(s, step))
  {
    var s' := Apply(s, step);
    assert s'.rd.calls == s.rd.calls && s'.rd.waitq == s.rd.waitq && s'.rd.owner == s.rd.owner;
    assert s'.wr.calls == s.wr.calls && s'.wr.waitq == s.wr.waitq && s'.wr.owner == s.wr.owner;
  }

  lemma InvStep(s: State, step: Step)
    requires Inv(s) && Enabled(s, step)
    ensures Inv(Apply(s, step))
  {
    if CallStep(step) {
      CallStepKeeps(s, step);
    } else if LoopStep(step) {
      LoopStepKeeps(s, step);
    } else if step.ShutNext? {
      ShutStepKeeps(s);
    } else if step.Arrive? {
      KernelStepKeeps(s, step.d, step.k);
    } else if step.Spurious? {
      KernelStepKeeps(s, step.d, 0);
    } else {
      AddStepKeeps(s, step);
    }
  }

  // ---------------------------------------------------------------- theorems

  lemma {:induction false} InvRun(s: State, steps: seq<Step>)
    requires Inv(s) && Feasible(s, steps)
    ensures Inv(After(s, steps))
    decreases |steps|
  {
    if steps != [] {
      InvStep(s, steps[0]);
      InvRun(Apply(s, steps[0]), steps[1..]);
    }
  }

  /** In every state of every run, a dozing call beside available bytes is owed a wakeup:
      its edge is queued, or the loop has yet to signal for it, or another call is awake. */
  lemma NoLostWakeup(steps: seq<Step>, d: Dir, t: Tid)
    requires Feasible(Init, steps)
    requires var s := After(Init, steps);
             s.mapped && In(At(s, d).calls, t, Sleeping) && At(s, d).avail > 0
    ensures var s := After(Init, steps); var x := At(s, d);
            || x.edge
            || Owed(s.loop, d)
            || exists u :: In(x.calls, u, Polling) || In(x.calls, u, Woken) || In(x.calls, u, Closing)
  {
    InvRun(Init, steps);
  }

  /** Once `closed` is set, a reader with an empty-handed, non-empty buffer never dozes:
      Shutdown wakes it and every later hangup makes it return. */
  lemma ShutdownReleasesReaders(steps: seq<Step>, t: Tid)
    requires Feasible(Init, steps)
    requires var s := After(Init, steps); s.closed && t in s.rd.calls
    requires var c := After(Init, steps).rd.calls[t]; c.n == 0 && c.len > 0
    ensures !In(After(Init, steps).rd.calls, t, Sleeping) && !In(After(Init, steps).rd.calls, t, Parking)
    ensures t !in After(Init, steps).rd.waitq
  {
    InvRun(Init, steps);
  }

  /** The console answers a reader's hangup without bytes, and no reader comes with an empty buffer. */
  predicate DryStep(step: Step) {
    && (step.Poll? && step.d == Rd && step.err == Hangup ==> step.k == 0)
    && (step.Enter? && step.d == Rd ==> step.len > 0)
  }

  predicate DryRun(steps: seq<Step>) {
    forall i :: 0 <= i < |steps| ==> DryStep(steps[i])
  }

  /** A call that may still go to sleep has nothing yet and room for something. */
  ghost predicate EmptyHanded(cs: map<Tid, Call>) {
    forall t :: t in cs && cs[t].pc != Closing && cs[t].pc != Leaving ==> cs[t].n == 0 && cs[t].len > 0
  }

  lemma WakeEmptyHanded(x: Side)
    requires EmptyHanded(x.calls) && QueueInv(x.calls, x.waitq)
    ensures EmptyHanded(Wake(x).calls)
  {
    assert x.waitq != [] ==> In(x.calls, x.waitq[0], Sleeping);
  }

  lemma CallEmptyHanded(x: Side, closed: bool, step: Step)
    requires SideInv(x) && EmptyHanded(x.calls) && CallStep(step) && CallEnabled(x, step) && step.d == Rd && DryStep(step)
    ensures EmptyHanded(CallApply(x, closed, step).calls)
  {
    if step.Signal? {
      var y := Move(x, step.t, Leaving);
      QueueFrame(x.calls, y.calls, x.waitq, step.t);
      WakeEmptyHanded(y);
    }
  }

  /** A console once added is mapped until it is closed. */
  ghost predicate MappedInv(s: State) {
    s.add == Published ==> s.mapped || s.closed
  }

  lemma DryKeeps(s: State, step: Step)
    requires Inv(s) && EmptyHanded(s.rd.calls) && Enabled(s, step) && DryStep(step)
    ensures EmptyHanded(Apply(s, step).rd.calls)
  {
    if CallStep(step) {
      if step.d == Rd {
        CallEmptyHanded(s.rd, s.closed, step);
      }
    } else if step.LoopSignal? && s.loop.pc.d == Rd {
      WakeEmptyHanded(s.rd);
    }
  }

  lemma MappedStep(s: State, step: Step)
    requires Inv(s) && MappedInv(s) && Enabled(s, step)
    ensures MappedInv(Apply(s, step))
  {
  }

  lemma {:induction false} DryRunKeeps(s: State, steps: seq<Step>)
    requires Inv(s) && EmptyHanded(s.rd.calls) && MappedInv(s) && Feasible(s, steps) && DryRun(steps)
    ensures Inv(After(s, steps)) && EmptyHanded(After(s, steps).rd.calls) && MappedInv(After(s, steps))
    decreases |steps|
  {
    if steps != [] {
      DryKeeps(s, steps[0]);
      MappedStep(s, steps[0]);
      InvStep(s, steps[0]);
      DryRunKeeps(Apply(s, steps[0]), steps[1..]);
    }
  }

  /** When hangups bring no bytes and buffers are not empty, Shutdown releases every reader: once
      `closed` is set none is asleep or about to sleep, in any state of any run. */
  lemma ShutdownReleasesAllReaders(steps: seq<Step>, t: Tid)
    requires Feasible(Init, steps) && DryRun(steps) && After(Init, steps).closed
    ensures var s := After(Init, steps);
            !In(s.rd.calls, t, Sleeping) && !In(s.rd.calls, t, Parking) && s.rd.waitq == []
  {
    DryRunKeeps(Init, steps);
    NobodyAsleep(After(Init, steps).rd);
  }

  lemma NobodyAsleep(x: Side)
    requires EmptyHanded(x.calls) && ClosedCalls(x.calls) && QueueInv(x.calls, x.waitq)
    ensures forall t :: !In(x.calls, t, Sleeping) && !In(x.calls, t, Parking)
    ensures x.waitq == []
  {
    assert x.waitq == [] || In(x.calls, x.waitq[0], Sleeping);
  }

  /** For such readers no wakeup is lost, whether the console is mapped or not. */
  lemma NoReaderWakeupLost(steps: seq<Step>, t: Tid)
    requires Feasible(Init, steps) && DryRun(steps)
    requires var s := After(Init, steps); In(s.rd.calls, t, Sleeping) && s.rd.avail > 0
    ensures var s := After(Init, steps);
            && s.mapped && !s.closed
            && (s.rd.edge || Owed(s.loop, Rd) ||
                exists u :: In(s.rd.calls, u, Polling) || In(s.rd.calls, u, Woken) || In(s.rd.calls, u, Closing))
  {
    DryRunKeeps(Init, steps);
  }

  // ---------------------------------------------------------------- what single steps come to

  /** After a console call a reader or writer is about to sleep exactly on a hangup, unless it is a
      reader of a closed console with nothing in a non-empty buffer; otherwise it is about to return. */
  lemma PollDecides(s: State, d: Dir, t: Tid, k: nat, err: Err)
    requires Enabled(s, Poll(d, t, k, err))
    ensures var c := At(s, d).calls[t]; var r := At(Apply(s, Poll(d, t, k, err)), d).calls;
            && t in r && r[t].n == c.n + k && r[t].len == c.len
            && (r[t].pc == Parking <==>
                  err == Hangup && (d == Wr || !s.closed || c.n + k > 0 || c.len == 0))
            && (r[t].pc == Closing <==> r[t].pc != Parking)
  {
  }

  /** An event looked up on a mapped console leaves its own half owed a signal, and both halves when it
      reports the end of file; an unmapped console is owed none. */
  lemma LookOwes(s: State)
    requires Enabled(s, Look)
    ensures var ev := s.loop.batch[0]; var todo := Apply(s, Look).loop.todo;
            && (s.mapped ==> forall d :: d in todo <==> d == ev.dir || ev.eof)
            && (!s.mapped ==> todo == [])
  {
    var ev := s.loop.batch[0];
    var todo := Apply(s, Look).loop.todo;
    if s.mapped {
      assert todo[0] == ev.dir;
      assert ev.eof ==> todo[1] == Rd && todo[2] == Wr;
    }
  }

  /** The half's edge is queued by the kernel only when bytes arrive, or for no reason. */
  predicate Raises(step: Step, d: Dir) {
    (step.Arrive? || step.Spurious?) && step.d == d
  }

  predicate Fetches(step: Step, d: Dir) {
    step.Fetch? && Mentions(step.evs, d)
  }

  lemma AddStays(s: State, step: Step)
    requires Enabled(s, step) && s.add != Unregistered
    ensures Apply(s, step).add != Unregistered
  {
  }

  lemma EdgeStays(s: State, step: Step, d: Dir)
    requires Inv(s) && Enabled(s, step) && !Raises(step, d) && s.add != Unregistered
    ensures At(Apply(s, step), d).edge ==> At(s, d).edge && !Fetches(step, d)
  {
    if CallStep(step) {
      if step.d == d {
        CallStepOwner(At(s, d), s.closed, step);
      }
    } else {
      OtherEdges(s, step, d);
    }
  }

  lemma OtherEdges(s: State, step: Step, d: Dir)
    requires Enabled(s, step) && !CallStep(step) && !Raises(step, d) && s.add != Unregistered
    ensures At(Apply(s, step), d).edge ==> At(s, d).edge && !Fetches(step, d)
  {
  }

  lemma {:induction false} NoEdgeRun(s: State, steps: seq<Step>, d: Dir)
    requires Inv(s) && Feasible(s, steps) && s.add != Unregistered && !At(s, d).edge
    requires forall i :: 0 <= i < |steps| ==> !Raises(steps[i], d)
    ensures forall i :: 0 <= i < |steps| ==> !Fetches(steps[i], d)
    decreases |steps|
  {
    if steps != [] {
      EdgeStays(s, steps[0], d);
      AddStays(s, steps[0]);
      InvStep(s, steps[0]);
      NoEdgeRun(Apply(s, steps[0]), steps[1..], d);
      forall i | 0 <= i < |steps| ensures !Fetches(steps[i], d) {
        if i > 0 {
          assert steps[i] == steps[1..][i - 1];
        }
      }
    }
  }

  /** An edge is reported once: a half whose event was fetched is not reported again before bytes arrive
      for it, or a spurious edge. */
  lemma EdgeReportedOnce(s: State, evs: seq<Event>, d: Dir, steps: seq<Step>)
    requires Inv(s) && Enabled(s, Fetch(evs)) && Mentions(evs, d) && Feasible(Apply(s, Fetch(evs)), steps)
    requires forall i :: 0 <= i < |steps| ==> !Raises(steps[i], d)
    ensures forall i :: 0 <= i < |steps| ==> !Fetches(steps[i], d)
  {
    assert s.add != Unregistered;
    EdgeStays(s, Fetch(evs), d);
    AddStays(s, Fetch(evs));
    InvStep(s, Fetch(evs));
    NoEdgeRun(Apply(s, Fetch(evs)), steps, d);
  }

  // ---------------------------------------------------------------- sleepers are woken in order

  predicate Before(q: seq<Tid>, t: Tid, u: Tid) {
    exists i, j :: 0 <= i < j < |q| && q[i] == t && q[j] == u
  }

  /** `r` is `q` without its head, or with one more sleeper behind all others, or empty, or `q`. */
  predicate QueueMoves(q: seq<Tid>, r: seq<Tid>) {
    r == q || r == [] || (q != [] && r == q[1..]) || (r != [] && r[..|r| - 1] == q)
  }

  lemma QueueStep(s: State, step: Step, d: Dir)
    requires Enabled(s, step)
    ensures QueueMoves(At(s, d).waitq, At(Apply(s, step), d).waitq)
  {
    if CallStep(step) && step.d == d {
      CallQueue(At(s, d), s.closed, step);
    }
  }

  lemma CallQueue(x: Side, closed: bool, step: Step)
    requires CallStep(step) && CallEnabled(x, step)
    ensures QueueMoves(x.waitq, CallApply(x, closed, step).waitq)
  {
  }

  /** Whoever stays asleep stays ahead of those behind it and of those that come to sleep later. */
  lemma OrderKept(q: seq<Tid>, r: seq<Tid>, t: Tid, u: Tid)
    requires QueueMoves(q, r) && t in q && t in r && t != u && u in r && (u in q ==> Before(q, t, u))
    requires forall i, j :: 0 <= i < j < |q| ==> q[i] != q[j]
    ensures Before(r, t, u)
  {
    if r != [] && r[..|r| - 1] == q {
      var k :| 0 <= k < |q| && q[k] == t;
      var j :| 0 <= j < |r| && r[j] == u;
      assert r[k] == t;
      if j < |q| {
        assert q[j] == u;
        var a, b :| 0 <= a < b < |q| && q[a] == t && q[b] == u;
        assert r[a] == t && r[b] == u;
      }
    } else if q != [] && r == q[1..] {
      var j :| 0 <= j < |r| && r[j] == u;
      assert q[j + 1] == u;
      var a, b :| 0 <= a < b < |q| && q[a] == t && q[b] == u;
      var k :| 0 <= k < |r| && r[k] == t;
      assert q[k + 1] == t;
      assert a == k + 1 && b == j + 1;
    }
  }

  /** `t` sleeps on half `d` in every state of the run. */
  ghost predicate SleepsOn(s: State, steps: seq<Step>, d: Dir, t: Tid)
    requires Feasible(s, steps)
    decreases |steps|
  {
    t in At(s, d).waitq && (steps != [] ==> SleepsOn(Apply(s, steps[0]), steps[1..], d, t))
  }

  /** A sleeper is not overtaken: while `t` sleeps on, nobody behind it, and nobody later to sleep, gets
      ahead of it; and it is the first that a signal wakes. */
  lemma {:induction false} NotOvertaken(s: State, steps: seq<Step>, d: Dir, t: Tid, u: Tid)
    requires Inv(s) && Feasible(s, steps) && SleepsOn(s, steps, d, t) && t != u
    requires u in At(s, d).waitq ==> Before(At(s, d).waitq, t, u)
    ensures u in At(After(s, steps), d).waitq ==> Before(At(After(s, steps), d).waitq, t, u)
    decreases |steps|
  {
    if steps != [] {
      var q, r := At(s, d).waitq, At(Apply(s, steps[0]), d).waitq;
      QueueStep(s, steps[0], d);
      InvStep(s, steps[0]);
      if u in r {
        OrderKept(q, r, t, u);
      }
      NotOvertaken(Apply(s, steps[0]), steps[1..], d, t, u);
    }
  }

  // ---------------------------------------------------------------- no deadlock

  /** Steps of goroutines already under way: not the kernel, not a fresh call of
      Read, Write, Add or Shutdown. */
  predicate Internal(step: Step) {
    !step.Enter? && !step.Arrive? && !step.Spurious? && !step.Register? && !step.ShutStart?
  }

  /** Nothing is under way but sleepers, and the loop has no event to fetch. */
  ghost predicate AtRest(s: State) {
    && (forall t :: t in s.rd.calls ==> s.rd.calls[t].pc == Sleeping)
    && (forall t :: t in s.wr.calls ==> s.wr.calls[t].pc == Sleeping)
    && s.loop == Loop(Ready, [], []) && !s.rd.edge && !s.wr.edge
    && s.shut == ShutIdle && (s.add == Unregistered || s.add == Published)
  }

  /** Whoever holds the lock of a half through a call can always move. */
  lemma HolderMoves(s: State, d: Dir) returns (step: Step)
    requires SideInv(At(s, d)) && AddInv(s) && At(s, d).owner.Caller?
    ensures Internal(step) && Enabled(s, step)
  {
    var t := At(s, d).owner.t;
    assert s.add == Published;
    match At(s, d).calls[t].pc
    case Polling => step := Poll(d, t, 0, NoErr);
    case Parking => step := Park(d, t);
    case Closing => step := Signal(d, t);
    case Leaving => step := Leave(d, t);
  }

  lemma WakefulMoves(s: State, d: Dir, t: Tid) returns (step: Step)
    requires SideInv(At(s, d)) && AddInv(s) && At(s, d).owner == Free
    requires t in At(s, d).calls && At(s, d).calls[t].pc != Sleeping
    ensures Internal(step) && Enabled(s, step)
  {
    assert s.add == Published;
    step := Acquire(d, t);
  }

  lemma LoopMoves(s: State) returns (step: Step)
    requires s.rd.owner == Free && s.wr.owner == Free && s.mu == MuFree && s.loop.pc == Ready
    requires s.loop.todo != [] || s.loop.batch != [] || s.rd.edge || s.wr.edge
    ensures Internal(step) && Enabled(s, step)
  {
    if s.loop.todo != [] {
      step := LoopLock;
    } else if s.loop.batch != [] {
      step := LookLock;
    } else {
      step := Fetch([Event(if s.rd.edge then Rd else Wr, false)]);
    }
  }

  /** The locks are taken in the order readc, writec, e.mu, so somebody can always move. */
  lemma SomebodyMoves(s: State) returns (step: Step)
    requires Inv(s) && !AtRest(s)
    ensures Internal(step) && Enabled(s, step)
  {
    if s.loop.pc.Looking? {
      step := Look;
    } else if s.add == Publishing {
      step := Publish;
    } else if s.shut == Unmap {
      step := ShutNext;
    } else if s.add == Registered {
      step := AddLock;
    } else if s.loop.pc.Locked? {
      step := LoopSignal;
    } else if s.loop.pc.Notified? {
      step := LoopFree;
    } else if s.wr.owner.Caller? {
      step := HolderMoves(s, Wr);
    } else if s.rd.owner.Caller? {
      step := HolderMoves(s, Rd);
    } else if s.shut != ShutIdle {
      step := ShutNext;
    } else if t :| t in s.rd.calls && s.rd.calls[t].pc != Sleeping {
      step := WakefulMoves(s, Rd, t);
    } else if t :| t in s.wr.calls && s.wr.calls[t].pc != Sleeping {
      step := WakefulMoves(s, Wr, t);
    } else {
      step := LoopMoves(s);
    }
  }

  /** No deadlock and no stranded sleeper: when nothing under way can move, every call in
      flight is asleep and, while the console is mapped, none sleeps beside available bytes. */
  lemma QuiescenceIsHarmless(steps: seq<Step>)
    requires Feasible(Init, steps)
    requires forall step :: Internal(step) ==> !Enabled(After(Init, steps), step)
    ensures var s := After(Init, steps);
            && AtRest(s)
            && (s.mapped && s.rd.calls != map[] ==> s.rd.avail == 0)
            && (s.mapped && s.wr.calls != map[] ==> s.wr.avail == 0)
  {
    var s := After(Init, steps);
    InvRun(Init, steps);
    if !AtRest(s) {
      var step := SomebodyMoves(s);
    }
    if s.mapped {
      RestDrains(s, Rd);
      RestDrains(s, Wr);
    }
  }

  lemma RestDrains(s: State, d: Dir)
    requires Inv(s) && AtRest(s) && s.mapped
    ensures At(s, d).calls != map[] ==> At(s, d).avail == 0
  {
    if At(s, d).calls != map[] {
      var t :| t in At(s, d).calls;
      assert In(At(s, d).calls, t, Sleeping);
    }
  }

  // ---------------------------------------------------------------- who is left behind by Shutdown

  /** Call `t` is alone on its half, asleep, after the console has been unmapped. */
  ghost predicate Abandoned(s: State, d: Dir, t: Tid) {
    && s.add == Published && !s.mapped && s.shut == ShutIdle
    && s.loop.todo == [] && !s.loop.pc.Locked? && !s.loop.pc.Notified?
    && At(s, d).waitq == [t] && At(s, d).calls.Keys == {t} && In(At(s, d).calls, t, Sleeping)
  }

  /** No other call enters half `d`, and Shutdown is not called again. */
  ghost predicate LeftAlone(steps: seq<Step>, d: Dir) {
    forall i :: 0 <= i < |steps| ==> !(steps[i].Enter? && steps[i].d == d) && !steps[i].ShutStart?
  }

  lemma AbandonedStep(s: State, step: Step, d: Dir, t: Tid)
    requires Abandoned(s, d, t) && Enabled(s, step)
    requires !(step.Enter? && step.d == d) && !step.ShutStart?
    ensures Abandoned(Apply(s, step), d, t)
  {
  }

  /** An abandoned call sleeps through every later arrival: its edges find no console. */
  lemma {:induction false} AbandonedForever(s: State, steps: seq<Step>, d: Dir, t: Tid)
    requires Abandoned(s, d, t) && Feasible(s, steps) && LeftAlone(steps, d)
    ensures Abandoned(After(s, steps), d, t)
    decreases |steps|
  {
    if steps != [] {
      AbandonedStep(s, steps[0], d, t);
      assert forall i :: 0 <= i < |steps[1..]| ==> steps[1..][i] == steps[i + 1];
      AbandonedForever(Apply(s, steps[0]), steps[1..], d, t);
    }
  }

  lemma {:induction false} Extend(s: State, steps: seq<Step>, step: Step)
    requires Feasible(s, steps) && Enabled(After(s, steps), step)
    ensures Feasible(s, steps + [step])
    ensures After(s, steps + [step]) == Apply(After(s, steps), step)
    decreases |steps|
  {
    if steps == [] {
      assert [step][1..] == [];
      assert Feasible(Apply(s, step), []);
    } else {
      Extend(Apply(s, steps[0]), steps[1..], step);
      assert (steps + [step])[1..] == steps[1..] + [step];
    }
  }

  /** Appends one enabled step to a run. */
  lemma Go(steps: seq<Step>, step: Step) returns (steps': seq<Step>)
    requires Feasible(Init, steps) && Enabled(After(Init, steps), step)
    ensures Feasible(Init, steps') && After(Init, steps') == Apply(After(Init, steps), step)
  {
    Extend(Init, steps, step);
    steps' := steps + [step];
  }

  /** A state in which only half `d` is in use. */
  function Using(d: Dir, x: Side, other: Owner, up: bool, shut: ShutPc): State {
    var o := EmptySide.(owner := other);
    State(if d == Rd then x else o, if d == Rd then o else x, Loop(Ready, [], []), MuFree, up, !up, Published, shut)
  }

  /** A half with one call. */
  function One(owner: Owner, c: Call, q: seq<Tid>, avail: nat): Side {
    Side(owner, map[0 := c], q, avail, true)
  }

  /** The console is added. */
  lemma Opens(d: Dir) returns (steps: seq<Step>)
    ensures Feasible(Init, steps)
    ensures After(Init, steps) == Using(d, EmptySide.(edge := true), Free, true, ShutIdle)
  {
    steps := Go([], Register(d == Rd, d == Wr));
    steps := Go(steps, AddLock);
    steps := Go(steps, Publish);
  }

  /** Bytes arrive and a call enters. */
  lemma EntersCall(d: Dir, len: nat, k: nat) returns (steps: seq<Step>)
    ensures Feasible(Init, steps)
    ensures After(Init, steps) == Using(d, One(Free, Call(Locking, len, 0), [], k), Free, true, ShutIdle)
  {
    steps := Opens(d);
    steps := Go(steps, Arrive(d, k));
    assert After(Init, steps) == Using(d, EmptySide.(avail := k, edge := true), Free, true, ShutIdle);
    steps := Go(steps, Enter(d, 0, len));
  }

  /** One step of the only call there is. */
  lemma GoCall(d: Dir, steps0: seq<Step>, x: Side, up: bool, step: Step, x': Side) returns (steps: seq<Step>)
    requires Feasible(Init, steps0) && After(Init, steps0) == Using(d, x, Free, up, ShutIdle)
    requires CallStep(step) && step.d == d && CallEnabled(x, step) && x' == CallApply(x, !up, step)
    ensures Feasible(Init, steps)
    ensures After(Init, steps) == Using(d, x', Free, up, ShutIdle)
  {
    steps := Go(steps0, step);
  }

  lemma AcquireOne(d: Dir, steps0: seq<Step>, c: Call, k: nat, up: bool) returns (steps: seq<Step>)
    requires Feasible(Init, steps0) && (c.pc == Locking || c.pc == Woken)
    requires After(Init, steps0) == Using(d, One(Free, c, [], k), Free, up, ShutIdle)
    ensures Feasible(Init, steps)
    ensures After(Init, steps) == Using(d, One(Caller(0), c.(pc := Polling), [], k), Free, up, ShutIdle)
  {
    var x, x' := One(Free, c, [], k), One(Caller(0), c.(pc := Polling), [], k);
    assert x'.calls == x.calls[0 := c.(pc := Polling)];
    steps := GoCall(d, steps0, x, up, Acquire(d, 0), x');
  }

  lemma PollSide(d: Dir, len: nat, n: nat, k: nat, closed: bool)
    requires n + k <= len && Waits(d, len, n + k, closed, Hangup)
    ensures var x := One(Caller(0), Call(Polling, len, n), [], k);
            CallEnabled(x, Poll(d, 0, k, Hangup)) &&
            CallApply(x, closed, Poll(d, 0, k, Hangup)) == One(Caller(0), Call(Parking, len, n + k), [], 0)
  {
    var x := One(Caller(0), Call(Polling, len, n), [], k);
    assert x.calls[0 := Call(Parking, len, n + k)] == One(Caller(0), Call(Parking, len, n + k), [], 0).calls;
  }

  /** A call that has to wait on a hangup is about to sleep, with the bytes that came with it. */
  lemma PollOne(d: Dir, steps0: seq<Step>, len: nat, n: nat, k: nat, up: bool) returns (steps: seq<Step>)
    requires Feasible(Init, steps0) && n + k <= len && Waits(d, len, n + k, !up, Hangup)
    requires After(Init, steps0) == Using(d, One(Caller(0), Call(Polling, len, n), [], k), Free, up, ShutIdle)
    ensures Feasible(Init, steps)
    ensures After(Init, steps) == Using(d, One(Caller(0), Call(Parking, len, n + k), [], 0), Free, up, ShutIdle)
  {
    var x := One(Caller(0), Call(Polling, len, n), [], k);
    PollSide(d, len, n, k, !up);
    steps := GoCall(d, steps0, x, up, Poll(d, 0, k, Hangup), One(Caller(0), Call(Parking, len, n + k), [], 0));
  }

  lemma ParkOne(d: Dir, steps0: seq<Step>, c: Call, up: bool) returns (steps: seq<Step>)
    requires Feasible(Init, steps0) && c.pc == Parking
    requires After(Init, steps0) == Using(d, One(Caller(0), c, [], 0), Free, up, ShutIdle)
    ensures Feasible(Init, steps)
    ensures After(Init, steps) == Using(d, One(Free, c.(pc := Sleeping), [0], 0), Free, up, ShutIdle)
  {
    var x, x' := One(Caller(0), c, [], 0), One(Free, c.(pc := Sleeping), [0], 0);
    assert x'.calls == x.calls[0 := c.(pc := Sleeping)];
    steps := GoCall(d, steps0, x, up, Park(d, 0), x');
  }

  lemma FallsAsleep(d: Dir, steps0: seq<Step>, pc: Pc, len: nat, n: nat, k: nat, up: bool) returns (steps: seq<Step>)
    requires Feasible(Init, steps0) && (pc == Locking || pc == Woken)
    requires n + k <= len && Waits(d, len, n + k, !up, Hangup)
    requires After(Init, steps0) == Using(d, One(Free, Call(pc, len, n), [], k), Free, up, ShutIdle)
    ensures Feasible(Init, steps)
    ensures After(Init, steps) == Using(d, One(Free, Call(Sleeping, len, n + k), [0], 0), Free, up, ShutIdle)
  {
    steps := AcquireOne(d, steps0, Call(pc, len, n), k, up);
    steps := PollOne(d, steps, len, n, k, up);
    steps := ParkOne(d, steps, Call(Parking, len, n + k), up);
  }

  /** Shutdown takes both locks. */
  lemma ShutdownLocks(d: Dir, steps0: seq<Step>, c: Call) returns (steps: seq<Step>)
    requires Feasible(Init, steps0) && c.pc == Sleeping
    requires After(Init, steps0) == Using(d, One(Free, c, [0], 0), Free, true, ShutIdle)
    ensures Feasible(Init, steps)
    ensures After(Init, steps) == Using(d, One(Shutter, c, [0], 0), Shutter, true, CastRd)
  {
    steps := Go(steps0, ShutStart);
    steps := Go(steps, ShutNext);
    steps := Go(steps, ShutNext);
  }

  /** Shutdown wakes the sleeper. */
  lemma ShutdownWakes(d: Dir, steps0: seq<Step>, c: Call) returns (steps: seq<Step>)
    requires Feasible(Init, steps0) && c.pc == Sleeping
    requires After(Init, steps0) == Using(d, One(Free, c, [0], 0), Free, true, ShutIdle)
    ensures Feasible(Init, steps)
    ensures After(Init, steps) == Using(d, One(Shutter, c.(pc := Woken), [], 0), Shutter, true, MarkClosed)
  {
    steps := ShutdownLocks(d, steps0, c);
    steps := Go(steps, ShutNext);
    var x := One(Shutter, if d == Rd then c.(pc := Woken) else c, if d == Rd then [] else [0], 0);
    assert After(Init, steps) == Using(d, x, Shutter, true, CastWr);
    steps := ShutdownCasts(d, steps, c, x);
  }

  lemma ShutdownCasts(d: Dir, steps0: seq<Step>, c: Call, x: Side) returns (steps: seq<Step>)
    requires Feasible(Init, steps0) && c.pc == Sleeping
    requires x == One(Shutter, if d == Rd then c.(pc := Woken) else c, if d == Rd then [] else [0], 0)
    requires After(Init, steps0) == Using(d, x, Shutter, true, CastWr)
    ensures Feasible(Init, steps)
    ensures After(Init, steps) == Using(d, One(Shutter, c.(pc := Woken), [], 0), Shutter, true, MarkClosed)
  {
    steps := Go(steps0, ShutNext);
  }

  /** Shutdown marks the console closed, unmaps it and lets go of both locks. */
  lemma ShutdownEnds(d: Dir, steps0: seq<Step>, c: Call) returns (steps: seq<Step>)
    requires Feasible(Init, steps0)
    requires After(Init, steps0) == Using(d, One(Shutter, c, [], 0), Shutter, true, MarkClosed)
    ensures Feasible(Init, steps)
    ensures After(Init, steps) == Using(d, One(Free, c, [], 0), Free, false, ShutIdle)
  {
    steps := Go(steps0, ShutNext);
    steps := Go(steps, ShutNext);
    steps := Go(steps, ShutNext);
    steps := Go(steps, ShutNext);
    steps := Go(steps, ShutNext);
  }

  /** After Shutdown, a call with a buffer of `len` and `n` bytes done is asleep. */
  ghost predicate Stranded(s: State, d: Dir, len: nat, n: nat) {
    s.closed && exists t :: t in At(s, d).calls && At(s, d).calls[t] == Call(Sleeping, len, n)
  }

  /** A call that has to wait even though the console is closed goes back to sleep after Shutdown,
      and then `AbandonedForever` applies. */
  lemma ShutdownStrands(d: Dir, len: nat, n: nat) returns (steps: seq<Step>)
    requires n <= len && Waits(d, len, n, true, Hangup)
    ensures Feasible(Init, steps)
    ensures var s := After(Init, steps); Stranded(s, d, len, n) && Abandoned(s, d, 0)
  {
    steps := EntersCall(d, len, n);
    steps := FallsAsleep(d, steps, Locking, len, 0, n, true);
    steps := ShutdownWakes(d, steps, Call(Sleeping, len, n));
    steps := ShutdownEnds(d, steps, Call(Woken, len, n));
    steps := FallsAsleep(d, steps, Woken, len, n, 0, false);
    var s := After(Init, steps);
    assert At(s, d).calls[0] == Call(Sleeping, len, n);
  }

  /** Exactly which calls Shutdown can leave asleep: every writer, and of the readers those that
      already have a byte and those with an empty buffer. */
  lemma StrandedIff(d: Dir, len: nat, n: nat)
    requires n <= len
    ensures (exists steps :: Feasible(Init, steps) && Stranded(After(Init, steps), d, len, n)) <==>
              d == Wr || n > 0 || len == 0
  {
    if d == Wr || n > 0 || len == 0 {
      var steps := ShutdownStrands(d, len, n);
    } else {
      forall steps | Feasible(Init, steps) ensures !Stranded(After(Init, steps), d, len, n) {
        InvRun(Init, steps);
      }
    }
  }
}
