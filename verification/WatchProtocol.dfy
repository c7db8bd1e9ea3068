/**
 The process watcher (pkg/psnotify) and its consumer (cmd/runm-linux-init), running side by side.

 The watcher goroutine takes kernel events and sends notes over unbuffered channels; the consumer
 keeps the pid map and calls `Watch` and `RemoveWatch` on the watcher's own table, without a lock.
 Each operation on that table is one step, so every race between the two goroutines is a run.
 */
module WatchProtocol {
  import opened Watches

  const ALL: bv32 := PROC_EVENT_FORK | PROC_EVENT_EXEC | PROC_EVENT_EXIT

  /** The watcher goroutine inside `handleEvent`. */
  datatype WatcherPc =
    | WIdle
    | WRead(pp: Pid, c: Pid)                // about to read the parent's entry
    | WLook(pp: Pid, c: Pid, flags: bv32)   // inside Watch: about to look the child up
    | WPut(pp: Pid, c: Pid, flags: bv32)    // inside Watch: not found, about to insert
    | WOr(pp: Pid, c: Pid, flags: bv32)     // inside Watch: found, about to add flags
    | WAsk(pp: Pid, c: Pid)                 // about to ask whether forks of the parent are wanted
    | WDrop(p: Pid, status: int)            // about to remove a leader that exited
    | WSend(note: Note)                     // blocked until the consumer receives
    | WCrashed                              // dereferenced a missing entry

  /** The consumer goroutine inside its select loop. */
  datatype ConsumerPc =
    | CIdle
    | CFork(pp: Pid, c: Pid)  // about to store the child in the pid map
    | CLook(c: Pid)           // inside Watch: about to look the child up
    | CPut(c: Pid)
    | COr(c: Pid)
    | CExit(p: Pid)           // about to look the exited pid up in the pid map
    | CRemove(p: Pid)         // inside RemoveWatch: about to look the pid up
    | CDelete(p: Pid)
    | CForget(p: Pid)         // about to delete the pid from the pid map

  /** `history` holds the kernel events taken so far, `received` the indices of those whose
      note the consumer has received. */
  datatype State = State(root: Pid, watches: Table, wpc: WatcherPc, pids: set<Pid>, cpc: ConsumerPc,
                         history: seq<Event>, received: seq<nat>)

  datatype Step = Take(e: Event) | WatcherMoves | Deliver | ConsumerMoves

  predicate Enabled(s: State, step: Step) {
    match step
    case Take(_) => s.wpc.WIdle?
    case WatcherMoves => !s.wpc.WIdle? && !s.wpc.WSend? && !s.wpc.WCrashed?
    case Deliver => s.wpc.WSend? && s.cpc.CIdle?
    case ConsumerMoves => !s.cpc.CIdle?
  }

  function AfterTake(w: Table, e: Event): WatcherPc {
    match e
    case Fork(pp, c) => if IsWatching(w, pp, PROC_EVENT_EXEC) then WRead(pp, c) else WAsk(pp, c)
    case Exec(p) => if IsWatching(w, p, PROC_EVENT_EXEC) then WSend(ExecNote(p)) else WIdle
    case Exit(p, tid, status) =>
      if IsWatching(w, p, PROC_EVENT_EXIT) && p == tid then WDrop(p, status) else WIdle
    case Unknown => WIdle
  }

  function MoveWatcher(s: State): State
    requires Enabled(s, WatcherMoves)
  {
    var w := s.watches;
    match s.wpc
    case WRead(pp, c) => s.(wpc := if pp in w then WLook(pp, c, w[pp]) else WCrashed)
    case WLook(pp, c, f) => s.(wpc := if c in w then WOr(pp, c, f) else WPut(pp, c, f))
    case WPut(pp, c, f) => s.(watches := w[c := f], wpc := WAsk(pp, c))
    case WOr(pp, c, f) => s.(watches := if c in w then w[c := w[c] | f] else w, wpc := WAsk(pp, c))
    case WAsk(pp, c) => s.(wpc := if IsWatching(w, pp, PROC_EVENT_FORK) then WSend(ForkNote(pp, c)) else WIdle)
    case WDrop(p, status) => s.(watches := w - {p}, wpc := WSend(ExitNote(p, status)))
  }

  function AfterDeliver(note: Note): ConsumerPc {
    match note
    case ForkNote(pp, c) => CFork(pp, c)
    case ExecNote(_) => CIdle
    case ExitNote(p, _) => CExit(p)
  }

  function MoveConsumer(s: State): State
    requires Enabled(s, ConsumerMoves)
  {
    var w := s.watches;
    match s.cpc
    case CFork(_, c) => s.(pids := s.pids + {c}, cpc := CLook(c))
    case CLook(c) => s.(cpc := if c in w then COr(c) else CPut(c))
    case CPut(c) => s.(watches := w[c := ALL], cpc := CIdle)
    case COr(c) => s.(watches := if c in w then w[c := w[c] | ALL] else w, cpc := CIdle)
    case CExit(p) => s.(cpc := if p in s.pids then CRemove(p) else CIdle)
    case CRemove(p) => s.(cpc := if p in w then CDelete(p) else CForget(p))
    case CDelete(p) => s.(watches := w - {p}, cpc := CForget(p))
    case CForget(p) => s.(pids := s.pids - {p}, cpc := CIdle)
  }

  function Apply(s: State, step: Step): State
    requires Enabled(s, step)
  {
    match step
    case Take(e) => s.(history := s.history + [e], wpc := AfterTake(s.watches, e))
    case WatcherMoves => MoveWatcher(s)
    case Deliver =>
      s.(wpc := WIdle, cpc := AfterDeliver(s.wpc.note), received := s.received + [Last(s.history)])
    case ConsumerMoves => MoveConsumer(s)
  }

  function Last(h: seq<Event>): nat {
    if h == [] then 0 else |h| - 1
  }

  predicate Feasible(s: State, steps: seq<Step>)
    decreases |steps|
  {
    steps != [] ==> Enabled(s, steps[0]) && Feasible(Apply(s, steps[0]), steps[1..])
  }

  function After(s: State, steps: seq<Step>): State
    requires Feasible(s, steps)
    decreases |steps|
  {
    if steps == [] then s else After(Apply(s, steps[0]), steps[1..])
  }

  function Init(root: Pid): State {
    State(root, map[root := ALL], WIdle, {}, CIdle, [], [])
  }

  // ---------------------------------------------------------------- flags

  /** Every entry, and every flag word on its way into the table, watches for everything. */
  ghost predicate FlagsInv(s: State) {
    && Uniform(s.watches, ALL)
    && (s.wpc.WLook? || s.wpc.WPut? || s.wpc.WOr? ==> s.wpc.flags == ALL)
  }

  lemma AllFlags()
    ensures Following(ALL) && ALL & PROC_EVENT_FORK == PROC_EVENT_FORK && ALL | ALL == ALL
    ensures ALL & PROC_EVENT_EXEC == PROC_EVENT_EXEC && ALL & PROC_EVENT_EXIT == PROC_EVENT_EXIT
  {
  }

  lemma Watching(w: Table, p: Pid)
    requires Uniform(w, ALL)
    ensures IsWatching(w, p, PROC_EVENT_FORK) <==> p in w
    ensures IsWatching(w, p, PROC_EVENT_EXEC) <==> p in w
    ensures IsWatching(w, p, PROC_EVENT_EXIT) <==> p in w
  {
    AllFlags();
  }

  lemma FlagsStep(s: State, step: Step)
    requires FlagsInv(s) && Enabled(s, step)
    ensures FlagsInv(Apply(s, step))
  {
    AllFlags();
  }

  // ---------------------------------------------------------------- order of delivery

  /** The note an event can give rise to. */
  predicate NoteFor(e: Event, note: Note) {
    match e
    case Fork(pp, c) => note == ForkNote(pp, c)
    case Exec(p) => note == ExecNote(p)
    case Exit(p, _, status) => note == ExitNote(p, status)
    case Unknown => false
  }

  predicate Busy(wpc: WatcherPc) {
    !wpc.WIdle? && !wpc.WCrashed?
  }

  /** What the watcher is busy with is the newest event, and nothing newer has been received. */
  ghost predicate OrderInv(s: State) {
    && (forall k :: 0 <= k < |s.received| ==> s.received[k] < |s.history|)
    && (forall j, k :: 0 <= j < k < |s.received| ==> s.received[j] < s.received[k])
    && (Busy(s.wpc) ==> s.history != [] && forall k :: 0 <= k < |s.received| ==> s.received[k] < |s.history| - 1)
    && (s.wpc.WSend? ==> NoteFor(s.history[|s.history| - 1], s.wpc.note))
    && (s.wpc.WDrop? ==> NoteFor(s.history[|s.history| - 1], ExitNote(s.wpc.p, s.wpc.status)))
    && (s.wpc.WRead? || s.wpc.WLook? || s.wpc.WPut? || s.wpc.WOr? || s.wpc.WAsk? ==>
          s.history[|s.history| - 1] == Fork(s.wpc.pp, s.wpc.c))
  }

  lemma OrderStep(s: State, step: Step)
    requires OrderInv(s) && Enabled(s, step)
    ensures OrderInv(Apply(s, step))
  {
    match step
    case Take(e) =>
    case WatcherMoves =>
    case Deliver =>
    case ConsumerMoves =>
  }

  lemma {:induction false} OrderRun(s: State, steps: seq<Step>)
    requires OrderInv(s) && Feasible(s, steps)
    ensures OrderInv(After(s, steps))
    decreases |steps|
  {
    if steps != [] {
      OrderStep(s, steps[0]);
      OrderRun(Apply(s, steps[0]), steps[1..]);
    }
  }

  /** The consumer receives notes in kernel order, each event at most once, and whatever is in
      flight belongs to an event newer than all it has received. */
  lemma DeliveredInOrder(root: Pid, steps: seq<Step>)
    requires Feasible(Init(root), steps)
    ensures var s := After(Init(root), steps);
            && (forall j, k :: 0 <= j < k < |s.received| ==> s.received[j] < s.received[k] < |s.history|)
            && (s.wpc.WSend? ==> s.history != [] && NoteFor(s.history[|s.history| - 1], s.wpc.note))
            && (s.wpc.WSend? ==> forall k :: 0 <= k < |s.received| ==> s.received[k] < |s.history| - 1)
  {
    OrderRun(Init(root), steps);
  }

  // ---------------------------------------------------------------- an exited pid is forgotten

  /** The consumer is handling the exit of `p`. */
  predicate Leaving(cpc: ConsumerPc, p: Pid) {
    cpc == CExit(p) || cpc == CRemove(p) || cpc == CDelete(p) || cpc == CForget(p)
  }

  /** The consumer is handling the fork of `p` and has not called `Watch` to its end. */
  predicate Joining(cpc: ConsumerPc, p: Pid) {
    (cpc.CFork? && cpc.c == p) || cpc == CLook(p) || cpc == CPut(p) || cpc == COr(p)
  }

  /** The watcher is handling a fork of `p`. */
  predicate Forking(wpc: WatcherPc, p: Pid) {
    || ((wpc.WRead? || wpc.WLook? || wpc.WPut? || wpc.WOr? || wpc.WAsk?) && wpc.c == p)
    || (wpc.WSend? && wpc.note.ForkNote? && wpc.note.child == p)
  }

  predicate SendsExit(wpc: WatcherPc, p: Pid) {
    wpc.WSend? && wpc.note.ExitNote? && wpc.note.pid == p
  }

  /** While the exit note of `p` waits, `p` can be back in the table only through a late `Watch` of
      the consumer, and then it is in the pid map. */
  ghost predicate LateInv(s: State) {
    && (s.cpc.CLook? || s.cpc.CPut? || s.cpc.COr? ==> s.cpc.c in s.pids)
    && (s.cpc.CRemove? || s.cpc.CDelete? ==> s.cpc.p in s.pids)
    && (forall p :: SendsExit(s.wpc, p) && p in s.watches ==> p in s.pids && s.cpc != CForget(p))
  }

  lemma LateStep(s: State, step: Step)
    requires LateInv(s) && Enabled(s, step)
    ensures LateInv(Apply(s, step))
  {
    match step
    case Take(e) =>
    case WatcherMoves =>
    case Deliver =>
    case ConsumerMoves =>
  }

  lemma {:induction false} LateRun(s: State, steps: seq<Step>)
    requires LateInv(s) && Feasible(s, steps)
    ensures LateInv(After(s, steps))
    decreases |steps|
  {
    if steps != [] {
      LateStep(s, steps[0]);
      LateRun(Apply(s, steps[0]), steps[1..]);
    }
  }

  /** From the receipt of the exit note of `p` on, until `p` is forked again: nobody is about to add
      `p`, and `p` leaves the table and the pid map with the consumer's progress. */
  ghost predicate Departing(s: State, p: Pid) {
    && !Forking(s.wpc, p) && !Joining(s.cpc, p)
    && (s.cpc == CExit(p) ==> p in s.watches ==> p in s.pids)
    && (s.cpc == CForget(p) ==> p !in s.watches)
    && (!Leaving(s.cpc, p) ==> p !in s.watches && p !in s.pids)
  }

  predicate Reforks(step: Step, p: Pid) {
    step.Take? && step.e.Fork? && step.e.child == p
  }

  lemma DepartingStep(s: State, step: Step, p: Pid)
    requires Departing(s, p) && Enabled(s, step) && !Reforks(step, p)
    ensures Departing(Apply(s, step), p)
  {
    match step
    case Take(e) =>
    case WatcherMoves =>
    case Deliver =>
    case ConsumerMoves =>
  }

  lemma {:induction false} DepartingRun(s: State, steps: seq<Step>, p: Pid)
    requires Departing(s, p) && Feasible(s, steps)
    requires forall i :: 0 <= i < |steps| ==> !Reforks(steps[i], p)
    ensures Departing(After(s, steps), p)
    decreases |steps|
  {
    if steps != [] {
      DepartingStep(s, steps[0], p);
      assert forall i :: 0 <= i < |steps[1..]| ==> steps[1..][i] == steps[i + 1];
      DepartingRun(Apply(s, steps[0]), steps[1..], p);
    }
  }

  /** Once the consumer has received and finished handling the exit of `p`, and until `p` is forked
      again, `p` is neither watched nor in the pid map, whatever late `Watch` call crossed the
      watcher's own removal. */
  lemma ExitedPidIsForgotten(root: Pid, before: seq<Step>, p: Pid, after: seq<Step>)
    requires Feasible(Init(root), before)
    requires var s := After(Init(root), before);
             SendsExit(s.wpc, p) && s.cpc.CIdle? && Feasible(Apply(s, Deliver), after)
    requires forall i :: 0 <= i < |after| ==> !Reforks(after[i], p)
    ensures var s := After(Apply(After(Init(root), before), Deliver), after);
            !Leaving(s.cpc, p) ==> p !in s.watches && p !in s.pids
  {
    LateRun(Init(root), before);
    var s := After(Init(root), before);
    DepartingRun(Apply(s, Deliver), after, p);
  }

  // ---------------------------------------------------------------- the shared table follows forks

  /** The consumer is on its way to deleting `p` from the table, if it finds it there. */
  predicate WillRemove(s: State, p: Pid) {
    s.cpc == CRemove(p) || s.cpc == CDelete(p) || (s.cpc == CExit(p) && p in s.pids)
  }

  /** The exit of `p` is on its way: sent, or being handled by a consumer that will touch the table. */
  predicate InWindow(s: State, p: Pid) {
    SendsExit(s.wpc, p) || WillRemove(s, p)
  }

  /** A fork by a watched process that races with the removal of its parent or of its child's pid. */
  predicate Races(s: State, e: Event) {
    e.Fork? && e.ppid in s.watches && (WillRemove(s, e.ppid) || WillRemove(s, e.child))
  }

  ghost predicate Steady(s: State, steps: seq<Step>)
    requires Feasible(s, steps)
    decreases |steps|
  {
    steps != [] ==>
      (steps[0].Take? ==> !Races(s, steps[0].e)) && Steady(Apply(s, steps[0]), steps[1..])
  }

  /** The newest event is taken but the table does not show it yet. */
  predicate Unapplied(wpc: WatcherPc) {
    wpc.WRead? || wpc.WLook? || wpc.WPut? || wpc.WOr? || wpc.WDrop?
  }

  /** The part of the history the table shows. */
  function Shown(s: State): seq<Event> {
    if Unapplied(s.wpc) && s.history != [] then s.history[..|s.history| - 1] else s.history
  }

  ghost predicate FollowedAll(h: seq<Event>, root: Pid, p: Pid) {
    Followed(h, |h|, root, p)
  }

  lemma {:induction false} DescendsPrefix(h: seq<Event>, e: Event, n: nat, root: Pid, p: Pid, links: seq<nat>)
    requires n <= |h|
    ensures Descends(h + [e], n, root, p, links) <==> Descends(h, n, root, p, links)
    decreases |links|
  {
    var g := h + [e];
    assert forall j :: 0 <= j < |h| ==> g[j] == h[j];
    assert forall a: nat, b: nat :: b <= |h| ==> (NoExit(g, a, b, p) <==> NoExit(h, a, b, p));
    if links != [] {
      var i := links[|links| - 1];
      if i < n && h[i].Fork? {
        DescendsPrefix(h, e, i, root, h[i].ppid, links[..|links| - 1]);
      }
    }
  }

  lemma FollowedPrefix(h: seq<Event>, e: Event, n: nat, root: Pid, p: Pid)
    requires n <= |h|
    ensures Followed(h + [e], n, root, p) <==> Followed(h, n, root, p)
  {
    var g := h + [e];
    if links :| Descends(g, n, root, p, links) {
      DescendsPrefix(h, e, n, root, p, links);
    }
    if links :| Descends(h, n, root, p, links) {
      DescendsPrefix(h, e, n, root, p, links);
    }
  }

  lemma FollowedAppend(h: seq<Event>, e: Event, root: Pid, p: Pid)
    ensures FollowedAll(h + [e], root, p) <==>
              || (FollowedAll(h, root, p) && !LeaderExit(e, p))
              || (e.Fork? && e.child == p && FollowedAll(h, root, e.ppid))
  {
    var g := h + [e];
    FollowedStep(g, |h|, root, p);
    FollowedPrefix(h, e, |h|, root, p);
    if e.Fork? {
      FollowedPrefix(h, e, |h|, root, e.ppid);
    }
  }

  /** One pid: outside its exit window it is in the table exactly when it is followed. */
  ghost predicate TracksPid(s: State, h: seq<Event>, p: Pid) {
    && (InWindow(s, p) ==> !FollowedAll(h, s.root, p))
    && (!InWindow(s, p) ==> (p in s.watches <==> FollowedAll(h, s.root, p)))
    && (Joining(s.cpc, p) ==> FollowedAll(h, s.root, p) || SendsExit(s.wpc, p))
  }

  ghost predicate Tracks(s: State) {
    forall p :: TracksPid(s, Shown(s), p)
  }

  /** The watcher adds children of followed parents, and nobody is about to remove either. */
  ghost predicate ActsInv(s: State) {
    && !s.wpc.WCrashed?
    && (Unapplied(s.wpc) ==> s.history != [])
    && (s.wpc.WRead? || s.wpc.WLook? || s.wpc.WPut? || s.wpc.WOr? ==>
          && FollowedAll(Shown(s), s.root, s.wpc.pp) && !WillRemove(s, s.wpc.pp) && !WillRemove(s, s.wpc.c)
          && s.history[|s.history| - 1] == Fork(s.wpc.pp, s.wpc.c))
    && (s.wpc.WOr? ==> s.wpc.c in s.watches)
    && (s.wpc.WAsk? && s.wpc.pp in s.watches ==>
          FollowedAll(s.history, s.root, s.wpc.c) && !WillRemove(s, s.wpc.pp) && !WillRemove(s, s.wpc.c))
    && (s.wpc.WDrop? ==> LeaderExit(s.history[|s.history| - 1], s.wpc.p))
    && (s.wpc.WSend? && s.wpc.note.ForkNote? ==>
          FollowedAll(s.history, s.root, s.wpc.note.child) && !WillRemove(s, s.wpc.note.child))
  }

  ghost predicate TrackInv(s: State) {
    FlagsInv(s) && LateInv(s) && ActsInv(s) && Tracks(s)
  }

  lemma AppendAll(h: seq<Event>, e: Event, root: Pid)
    ensures forall p :: FollowedAll(h + [e], root, p) <==>
              || (FollowedAll(h, root, p) && !LeaderExit(e, p))
              || (e.Fork? && e.child == p && FollowedAll(h, root, e.ppid))
  {
    forall p ensures FollowedAll(h + [e], root, p) <==>
              || (FollowedAll(h, root, p) && !LeaderExit(e, p))
              || (e.Fork? && e.child == p && FollowedAll(h, root, e.ppid))
    {
      FollowedAppend(h, e, root, p);
    }
  }

  lemma TakeTracks(s: State, e: Event)
    requires TrackInv(s) && Enabled(s, Take(e)) && !Races(s, e)
    ensures Tracks(Apply(s, Take(e))) && ActsInv(Apply(s, Take(e)))
  {
    var s' := Apply(s, Take(e));
    var h := s.history;
    assert Shown(s) == h;
    AppendAll(h, e, s.root);
    assert s'.history[..|s'.history| - 1] == h;
    if e.Fork? {
      Watching(s.watches, e.ppid);
      assert TracksPid(s, h, e.ppid);
    } else if e.Exit? {
      Watching(s.watches, e.pid);
    }
    forall p ensures TracksPid(s', Shown(s'), p) {
      assert TracksPid(s, h, p);
    }
  }

  lemma WatcherTracks(s: State)
    requires TrackInv(s) && Enabled(s, WatcherMoves)
    ensures Tracks(MoveWatcher(s)) && ActsInv(MoveWatcher(s))
  {
    var s' := MoveWatcher(s);
    if Unapplied(s.wpc) {
      var h := Shown(s);
      AppendAll(h, s.history[|s.history| - 1], s.root);
      assert s.history == h + [s.history[|s.history| - 1]];
    }
    if s.wpc.WRead? || s.wpc.WLook? || s.wpc.WPut? || s.wpc.WOr? || s.wpc.WAsk? {
      assert TracksPid(s, Shown(s), s.wpc.pp);
      Watching(s.watches, s.wpc.pp);
    }
    forall p ensures TracksPid(s', Shown(s'), p) {
      assert TracksPid(s, Shown(s), p);
    }
  }

  lemma DeliverTracks(s: State)
    requires TrackInv(s) && Enabled(s, Deliver)
    ensures Tracks(Apply(s, Deliver)) && ActsInv(Apply(s, Deliver))
  {
    var s' := Apply(s, Deliver);
    forall p ensures TracksPid(s', Shown(s'), p) {
      assert TracksPid(s, Shown(s), p);
    }
  }

  lemma ConsumerTracks(s: State)
    requires TrackInv(s) && Enabled(s, ConsumerMoves)
    ensures Tracks(MoveConsumer(s)) && ActsInv(MoveConsumer(s))
  {
    var s' := MoveConsumer(s);
    assert Shown(s') == Shown(s);
    if s.wpc.WOr? {
      assert TracksPid(s, Shown(s), s.wpc.c);
    } else if s.wpc.WAsk? {
      assert TracksPid(s, Shown(s), s.wpc.pp);
    }
    forall p ensures TracksPid(s', Shown(s'), p) {
      assert TracksPid(s, Shown(s), p);
    }
  }

  lemma TrackStep(s: State, step: Step)
    requires TrackInv(s) && Enabled(s, step) && (step.Take? ==> !Races(s, step.e))
    ensures TrackInv(Apply(s, step))
  {
    FlagsStep(s, step);
    LateStep(s, step);
    match step
    case Take(e) => TakeTracks(s, e);
    case WatcherMoves => WatcherTracks(s);
    case Deliver => DeliverTracks(s);
    case ConsumerMoves => ConsumerTracks(s);
  }

  lemma {:induction false} TrackRun(s: State, steps: seq<Step>)
    requires TrackInv(s) && Feasible(s, steps) && Steady(s, steps)
    ensures TrackInv(After(s, steps))
    decreases |steps|
  {
    if steps != [] {
      TrackStep(s, steps[0]);
      TrackRun(Apply(s, steps[0]), steps[1..]);
    }
  }

  lemma TrackInit(root: Pid)
    ensures TrackInv(Init(root))
  {
    var s := Init(root);
    assert Descends([], 0, root, root, []);
    forall p ensures TracksPid(s, Shown(s), p) {
      if links :| Descends([], 0, root, p, links) {
        assert links == [];
      }
    }
  }

  /** In a run without racing forks the table two goroutines share without a lock follows forks: the
      watcher never crashes, a pid outside its exit window is watched exactly when a chain of forks
      reaches it, and with both goroutines at rest that is every pid. */
  lemma SteadyRunFollowsForks(root: Pid, steps: seq<Step>)
    requires Feasible(Init(root), steps) && Steady(Init(root), steps)
    ensures var s := After(Init(root), steps);
            && !s.wpc.WCrashed?
            && (forall p :: !InWindow(s, p) ==> (p in s.watches <==> Followed(Shown(s), |Shown(s)|, root, p)))
            && (s.wpc.WIdle? && s.cpc.CIdle? ==>
                  forall p :: p in s.watches <==> Followed(s.history, |s.history|, root, p))
  {
    TrackInit(root);
    TrackRun(Init(root), steps);
    RootRun(Init(root), steps);
    var s := After(Init(root), steps);
    forall p ensures !InWindow(s, p) ==> (p in s.watches <==> Followed(Shown(s), |Shown(s)|, root, p)) {
      assert TracksPid(s, Shown(s), p);
    }
  }

  // ---------------------------------------------------------------- every note that is due

  predicate Adding(wpc: WatcherPc) {
    wpc.WRead? || wpc.WLook? || wpc.WPut? || wpc.WOr?
  }

  /** The watcher took `e` with table `w` and has not taken another event: where it stands agrees with
      what `Sends` says of `e`. */
  ghost predicate Due(w: Table, e: Event, r: State) {
    && r.history != [] && r.history[|r.history| - 1] == e
    && (Adding(r.wpc) ==> e == Fork(r.wpc.pp, r.wpc.c) && Sends(w, false, e) != [])
    && (r.wpc.WAsk? ==> e == Fork(r.wpc.pp, r.wpc.c) && (r.wpc.pp in r.watches <==> Sends(w, false, e) != []))
    && (r.wpc.WDrop? ==> Sends(w, false, e) == [ExitNote(r.wpc.p, r.wpc.status)])
    && (r.wpc.WSend? ==> Sends(w, false, e) == [r.wpc.note])
    && (r.wpc.WIdle? ==> (|r.history| - 1 in r.received <==> Sends(w, false, e) != []))
    && (!r.wpc.WIdle? ==> |r.history| - 1 !in r.received)
  }

  lemma SendsUniform(w: Table, e: Event)
    requires Uniform(w, ALL)
    ensures match e
            case Fork(pp, c) => Sends(w, false, e) == if pp in w then [ForkNote(pp, c)] else []
            case Exec(p) => Sends(w, false, e) == if p in w then [ExecNote(p)] else []
            case Exit(p, tid, status) => Sends(w, false, e) == if p in w && p == tid then [ExitNote(p, status)] else []
            case Unknown => Sends(w, false, e) == []
  {
    AllFlags();
    match e
    case Fork(pp, c) => Watching(w, pp);
    case Exec(p) => Watching(w, p);
    case Exit(p, _, _) => Watching(w, p);
    case Unknown =>
  }

  lemma TakeDue(s: State, e: Event)
    requires TrackInv(s) && OrderInv(s) && Enabled(s, Take(e)) && !Races(s, e)
    ensures Due(s.watches, e, Apply(s, Take(e)))
  {
    SendsUniform(s.watches, e);
    match e
    case Fork(pp, _) => Watching(s.watches, pp);
    case Exec(p) => Watching(s.watches, p);
    case Exit(p, _, _) => Watching(s.watches, p);
    case Unknown =>
  }

  lemma WatcherDue(w: Table, e: Event, s: State)
    requires Uniform(w, ALL) && TrackInv(s) && Due(w, e, s) && Enabled(s, WatcherMoves)
    ensures Due(w, e, MoveWatcher(s))
  {
    SendsUniform(w, e);
    if s.wpc.WRead? || s.wpc.WLook? || s.wpc.WPut? || s.wpc.WOr? || s.wpc.WAsk? {
      assert TracksPid(s, Shown(s), s.wpc.pp);
      Watching(s.watches, s.wpc.pp);
    }
  }

  lemma ConsumerDue(w: Table, e: Event, s: State)
    requires TrackInv(s) && Due(w, e, s) && Enabled(s, ConsumerMoves)
    ensures Due(w, e, MoveConsumer(s))
  {
    if s.wpc.WAsk? {
      assert TracksPid(s, Shown(s), s.wpc.pp);
    }
  }

  lemma {:induction false} DueRun(w: Table, e: Event, s: State, steps: seq<Step>)
    requires Uniform(w, ALL) && TrackInv(s) && Due(w, e, s) && NoTake(steps) && Feasible(s, steps)
    ensures Due(w, e, After(s, steps))
    decreases |steps|
  {
    if steps != [] {
      TrackStep(s, steps[0]);
      match steps[0] {
        case WatcherMoves => WatcherDue(w, e, s);
        case Deliver =>
        case ConsumerMoves => ConsumerDue(w, e, s);
      }
      DueRun(w, e, Apply(s, steps[0]), steps[1..]);
    }
  }

  /** In a run without racing forks the watcher sends for each event exactly what `Sends` gives for the
      table as the event finds it: the note on offer is that note, and the event has been received
      by the time the watcher is idle again exactly when there is one. */
  lemma SteadyNotes(root: Pid, run: seq<Step>, e: Event, more: seq<Step>)
    requires Feasible(Init(root), run) && Steady(Init(root), run)
    requires var s := After(Init(root), run);
             s.wpc.WIdle? && !Races(s, e) && NoTake(more) && Feasible(Apply(s, Take(e)), more)
    ensures var s := After(Init(root), run); var r := After(Apply(s, Take(e)), more);
            && (r.wpc.WSend? ==> Sends(s.watches, false, e) == [r.wpc.note])
            && (r.wpc.WIdle? ==> (|s.history| in r.received <==> Sends(s.watches, false, e) != []))
  {
    TrackInit(root);
    TrackRun(Init(root), run);
    OrderRun(Init(root), run);
    var s := After(Init(root), run);
    TrackStep(s, Take(e));
    TakeDue(s, e);
    DueRun(s.watches, e, Apply(s, Take(e)), more);
    HistoryStays(Apply(s, Take(e)), more);
  }

  lemma {:induction false} HistoryStays(s: State, steps: seq<Step>)
    requires NoTake(steps) && Feasible(s, steps)
    ensures After(s, steps).history == s.history
    decreases |steps|
  {
    if steps != [] {
      HistoryStays(Apply(s, steps[0]), steps[1..]);
    }
  }

  /** The event is about a pid that is back in the table though its exit is being handled. */
  predicate Stale(s: State, e: Event) {
    match e
    case Fork(pp, _) => pp in s.watches && WillRemove(s, pp)
    case Exec(p) => p in s.watches && WillRemove(s, p)
    case Exit(p, tid, _) => p == tid && p in s.watches && WillRemove(s, p)
    case Unknown => false
  }

  lemma StaleIff(s: State, e: Event, w: Table)
    requires TrackInv(s) && s.wpc.WIdle? && Uniform(w, ALL)
    requires forall p :: p in w <==> FollowedAll(s.history, s.root, p)
    ensures Sends(s.watches, false, e) == Sends(w, false, e) <==> !Stale(s, e)
  {
    SendsUniform(s.watches, e);
    SendsUniform(w, e);
    assert Shown(s) == s.history;
    match e
    case Fork(pp, _) => assert TracksPid(s, Shown(s), pp);
    case Exec(p) => assert TracksPid(s, Shown(s), p);
    case Exit(p, _, _) => assert TracksPid(s, Shown(s), p);
    case Unknown =>
  }

  /** What is sent for an event is what a watcher left alone with the same history would send, exactly
      unless the event is about a pid that a late `Watch` has put back during its exit. */
  lemma NotesMatchHistoryIff(root: Pid, run: seq<Step>, e: Event)
    requires Feasible(Init(root), run) && Steady(Init(root), run) && After(Init(root), run).wpc.WIdle?
    ensures var s := After(Init(root), run);
            Sends(s.watches, false, e) == Sends(TableAfter(s.history, |s.history|, root, ALL), false, e) <==> !Stale(s, e)
  {
    AllFlags();
    TrackInit(root);
    TrackRun(Init(root), run);
    RootRun(Init(root), run);
    var s := After(Init(root), run);
    ForkClosure(s.history, |s.history|, root, ALL);
    StaleIff(s, e, TableAfter(s.history, |s.history|, root, ALL));
  }

  // ---------------------------------------------------------------- the consumer's pid map

  /** The exit of `p` is on its way to the end of its handling. */
  predicate ExitDue(s: State, p: Pid) {
    SendsExit(s.wpc, p) || Leaving(s.cpc, p)
  }

  /** The fork of `p` has been applied to the table, and its note is still to reach the pid map. */
  predicate ForkDue(s: State, p: Pid) {
    || (s.wpc.WAsk? && s.wpc.c == p && s.wpc.pp in s.watches)
    || (s.wpc.WSend? && s.wpc.note.ForkNote? && s.wpc.note.child == p)
    || (s.cpc.CFork? && s.cpc.c == p)
  }

  /** The consumer is done with the exit of `p` but for its pid map. */
  predicate Forgetting(s: State, p: Pid) {
    s.cpc == CForget(p) || (s.cpc == CExit(p) && p !in s.pids)
  }

  /** With nothing about `p` due, it is in the pid map exactly when it is followed. */
  ghost predicate MapsPid(s: State, h: seq<Event>, p: Pid) {
    && (!ExitDue(s, p) && !ForkDue(s, p) ==> (p in s.pids <==> FollowedAll(h, s.root, p)))
    && (Forgetting(s, p) ==> !FollowedAll(h, s.root, p) || ForkDue(s, p))
  }

  /** The root is watched from the start without a fork. */
  ghost predicate PidInv(s: State) {
    forall p :: p != s.root ==> MapsPid(s, Shown(s), p)
  }

  lemma TakeMaps(s: State, e: Event)
    requires TrackInv(s) && PidInv(s) && Enabled(s, Take(e)) && !Races(s, e)
    ensures PidInv(Apply(s, Take(e)))
  {
    var s' := Apply(s, Take(e));
    var h := s.history;
    assert Shown(s) == h;
    AppendAll(h, e, s.root);
    assert s'.history[..|s'.history| - 1] == h;
    if e.Fork? {
      Watching(s.watches, e.ppid);
      assert TracksPid(s, h, e.ppid);
    } else if e.Exit? {
      Watching(s.watches, e.pid);
      assert TracksPid(s, h, e.pid);
    }
    forall p | p != s.root ensures MapsPid(s', Shown(s'), p) {
      assert MapsPid(s, h, p);
    }
  }

  lemma WatcherMaps(s: State)
    requires TrackInv(s) && PidInv(s) && Enabled(s, WatcherMoves)
    ensures PidInv(MoveWatcher(s))
  {
    var s' := MoveWatcher(s);
    if Unapplied(s.wpc) {
      var h := Shown(s);
      AppendAll(h, s.history[|s.history| - 1], s.root);
      assert s.history == h + [s.history[|s.history| - 1]];
    }
    if s.wpc.WRead? || s.wpc.WLook? || s.wpc.WPut? || s.wpc.WOr? || s.wpc.WAsk? {
      assert TracksPid(s, Shown(s), s.wpc.pp);
      Watching(s.watches, s.wpc.pp);
    }
    forall p | p != s.root ensures MapsPid(s', Shown(s'), p) {
      assert MapsPid(s, Shown(s), p) && TracksPid(s, Shown(s), p);
    }
  }

  lemma DeliverMaps(s: State)
    requires TrackInv(s) && PidInv(s) && Enabled(s, Deliver)
    ensures PidInv(Apply(s, Deliver))
  {
    var s' := Apply(s, Deliver);
    forall p | p != s.root ensures MapsPid(s', Shown(s'), p) {
      assert MapsPid(s, Shown(s), p) && TracksPid(s, Shown(s), p);
    }
  }

  lemma ConsumerMaps(s: State)
    requires TrackInv(s) && PidInv(s) && Enabled(s, ConsumerMoves)
    ensures PidInv(MoveConsumer(s))
  {
    var s' := MoveConsumer(s);
    assert Shown(s') == Shown(s);
    if s.wpc.WAsk? {
      assert TracksPid(s, Shown(s), s.wpc.pp);
    }
    forall p | p != s.root ensures MapsPid(s', Shown(s'), p) {
      assert MapsPid(s, Shown(s), p) && TracksPid(s, Shown(s), p);
    }
  }

  lemma MapsStep(s: State, step: Step)
    requires TrackInv(s) && PidInv(s) && Enabled(s, step) && (step.Take? ==> !Races(s, step.e))
    ensures PidInv(Apply(s, step))
  {
    match step
    case Take(e) => TakeMaps(s, e);
    case WatcherMoves => WatcherMaps(s);
    case Deliver => DeliverMaps(s);
    case ConsumerMoves => ConsumerMaps(s);
  }

  lemma {:induction false} MapsRun(s: State, steps: seq<Step>)
    requires TrackInv(s) && PidInv(s) && Feasible(s, steps) && Steady(s, steps)
    ensures PidInv(After(s, steps))
    decreases |steps|
  {
    if steps != [] {
      MapsStep(s, steps[0]);
      TrackStep(s, steps[0]);
      MapsRun(Apply(s, steps[0]), steps[1..]);
    }
  }

  /** In a run without racing forks the consumer's pid map follows forks too: a process other than the
      root, with no note about it due, is mapped exactly when a chain of forks reaches it; with both
      goroutines at rest that is every process. */
  lemma SteadyRunMapsForks(root: Pid, steps: seq<Step>, p: Pid)
    requires Feasible(Init(root), steps) && Steady(Init(root), steps) && p != root
    ensures var s := After(Init(root), steps);
            && (!ExitDue(s, p) && !ForkDue(s, p) ==> (p in s.pids <==> FollowedAll(Shown(s), root, p)))
            && (s.wpc.WIdle? && s.cpc.CIdle? ==> (p in s.pids <==> Followed(s.history, |s.history|, root, p)))
  {
    TrackInit(root);
    PidInit(root);
    MapsRun(Init(root), steps);
    RootRun(Init(root), steps);
    assert MapsPid(After(Init(root), steps), Shown(After(Init(root), steps)), p);
  }

  lemma PidInit(root: Pid)
    ensures PidInv(Init(root))
  {
    TrackInit(root);
    var s := Init(root);
    forall p | p != root ensures MapsPid(s, Shown(s), p) {
      assert TracksPid(s, Shown(s), p);
    }
  }

  lemma {:induction false} RootRun(s: State, steps: seq<Step>)
    requires Feasible(s, steps)
    ensures After(s, steps).root == s.root
    decreases |steps|
  {
    if steps != [] {
      RootRun(Apply(s, steps[0]), steps[1..]);
    }
  }

  // ---------------------------------------------------------------- runs in which a fork races with a removal

  ghost predicate Reaches(s: State, s': State) {
    exists steps :: Feasible(s, steps) && After(s, steps) == s'
  }

  lemma {:induction false} Concat(s: State, a: seq<Step>, b: seq<Step>)
    requires Feasible(s, a) && Feasible(After(s, a), b)
    ensures Feasible(s, a + b) && After(s, a + b) == After(After(s, a), b)
    decreases |a|
  {
    if a == [] {
      assert a + b == b;
    } else {
      Concat(Apply(s, a[0]), a[1..], b);
      assert (a + b)[1..] == a[1..] + b;
    }
  }

  lemma Then(s: State, s1: State, s2: State)
    requires Reaches(s, s1) && Reaches(s1, s2)
    ensures Reaches(s, s2)
  {
    var a :| Feasible(s, a) && After(s, a) == s1;
    var b :| Feasible(s1, b) && After(s1, b) == s2;
    Concat(s, a, b);
  }

  /** The watcher takes a fork of a watched parent, adds the child and offers the note. */
  lemma OffersFork(s: State, pp: Pid, c: Pid)
    requires FlagsInv(s) && s.wpc == WIdle && pp in s.watches
    ensures Reaches(s, s.(watches := s.watches[c := ALL], wpc := WSend(ForkNote(pp, c)),
                          history := s.history + [Fork(pp, c)]))
  {
    AllFlags();
    Watching(s.watches, pp);
    var steps := [Take(Fork(pp, c)), WatcherMoves, WatcherMoves, WatcherMoves, WatcherMoves];
    var s1 := Apply(s, steps[0]);
    var s2 := MoveWatcher(s1);
    var s3 := MoveWatcher(s2);
    var s4 := MoveWatcher(s3);
    FlagsStep(s, steps[0]);
    FlagsStep(s1, WatcherMoves);
    FlagsStep(s2, WatcherMoves);
    FlagsStep(s3, WatcherMoves);
    Watching(s4.watches, pp);
    assert s4.watches == s.watches[c := ALL];
    var s5 := MoveWatcher(s4);
    assert Feasible(s5, []);
    assert Feasible(s4, steps[4..]) && After(s4, steps[4..]) == s5;
    assert Feasible(s3, steps[3..]) && After(s3, steps[3..]) == s5;
    assert Feasible(s2, steps[2..]) && After(s2, steps[2..]) == s5;
    assert Feasible(s1, steps[1..]) && After(s1, steps[1..]) == s5;
    assert Feasible(s, steps) && After(s, steps) == s5;
  }

  const First := [Fork(1, 5)]
  const Second := [Fork(1, 5), Exit(5, 5, 0)]
  const Third := [Fork(1, 5), Exit(5, 5, 0), Fork(1, 5)]
  const Fourth := [Fork(1, 5), Exit(5, 5, 0), Fork(1, 5), Exit(5, 5, 0)]
  const Both: Table := map[1 := ALL, 5 := ALL]

  /** Root 1 has forked process 5, and the note is on offer. */
  const Offered := State(1, Both, WSend(ForkNote(1, 5)), {}, CIdle, First, [])

  /** The consumer has handled the fork, and both goroutines are at rest. */
  const Forked := State(1, Both, WIdle, {5}, CIdle, First, [0])

  /** Process 5 has exited and the consumer is about to remove its watch. */
  const Removing := State(1, map[1 := ALL], WIdle, {5}, CRemove(5), Second, [0, 1])

  /** Its pid is reused before the consumer gets there. */
  const Reused := State(1, Both, WSend(ForkNote(1, 5)), {5}, CRemove(5), Third, [0, 1])

  /** The second process 5 has exited too, and both goroutines are at rest. */
  const Leaked := State(1, Both, WIdle, {5}, CIdle, Fourth, [0, 1, 2])

  lemma OfferedReached()
    ensures Reaches(Init(1), Offered)
  {
    AllFlags();
    OffersFork(Init(1), 1, 5);
    assert Init(1).watches[5 := ALL] == Both;
  }

  lemma ForkedReached()
    ensures Reaches(Offered, Forked)
  {
    AllFlags();
    var steps := [Deliver, ConsumerMoves, ConsumerMoves, ConsumerMoves];
    assert Both[5 := ALL | ALL] == Both;
    assert Feasible(Offered, steps) && After(Offered, steps) == Forked;
  }

  lemma RemovingReached()
    ensures Reaches(Forked, Removing)
  {
    AllFlags();
    var steps := [Take(Exit(5, 5, 0)), WatcherMoves, Deliver, ConsumerMoves];
    assert Both - {5} == map[1 := ALL];
    assert Feasible(Forked, steps) && After(Forked, steps) == Removing;
  }

  lemma ReusedReached()
    ensures Reaches(Removing, Reused)
  {
    AllFlags();
    OffersFork(Removing, 1, 5);
    assert Removing.watches[5 := ALL] == Both;
  }

  lemma LeakedReached()
    ensures Reaches(Reused, Leaked)
  {
    AllFlags();
    var steps := [ConsumerMoves, ConsumerMoves, ConsumerMoves, Deliver, Take(Exit(5, 5, 0)),
                  ConsumerMoves, ConsumerMoves, ConsumerMoves];
    assert Feasible(Reused, steps) && After(Reused, steps) == Leaked;
  }

  /** A pid reused inside the exit window leaks: a run reaches rest with a process that is gone still
      watched and still in the pid map, because its exit was never sent. */
  lemma ReuseLeaks()
    ensures Reaches(Init(1), Leaked)
    ensures Leaked.wpc == WIdle && Leaked.cpc == CIdle && 5 in Leaked.watches && 5 in Leaked.pids
    ensures !Followed(Leaked.history, |Leaked.history|, 1, 5)
  {
    OfferedReached();
    ForkedReached();
    RemovingReached();
    ReusedReached();
    LeakedReached();
    Then(Init(1), Offered, Forked);
    Then(Init(1), Forked, Removing);
    Then(Init(1), Removing, Reused);
    Then(Init(1), Reused, Leaked);
    FollowedStep(Fourth, 3, 1, 5);
  }

  /** A late `Watch` has put process 5 back while its exit note waits. */
  const Late := State(1, Both, WSend(ExitNote(5, 0)), {5}, CIdle, Second, [0])

  lemma LateReached()
    ensures Reaches(Offered, Late)
  {
    AllFlags();
    var steps := [Deliver, Take(Exit(5, 5, 0)), WatcherMoves, ConsumerMoves, ConsumerMoves, ConsumerMoves];
    assert Feasible(Offered, steps) && After(Offered, steps) == Late;
  }

  lemma CrashReached() returns (s: State)
    ensures Reaches(Late, s) && s.wpc == WCrashed
  {
    AllFlags();
    var steps := [Deliver, ConsumerMoves, ConsumerMoves, Take(Fork(5, 6)), ConsumerMoves, WatcherMoves];
    assert Feasible(Late, steps) && After(Late, steps).wpc == WCrashed;
    s := After(Late, steps);
  }

  /** If a thread of an exited process forks inside the window, the consumer can remove the parent's
      entry between the watcher's two reads of it, and the watcher dereferences a missing entry. */
  lemma LateForkCrashes() returns (s: State)
    ensures Reaches(Init(1), s) && s.wpc == WCrashed
  {
    OfferedReached();
    LateReached();
    Then(Init(1), Offered, Late);
    s := CrashReached();
    Then(Init(1), Late, s);
  }

  // ---------------------------------------------------------------- exactly when a fork can crash the watcher

  predicate NoTake(steps: seq<Step>) {
    forall k :: 0 <= k < |steps| ==> !steps[k].Take?
  }

  /** The entry the watcher is about to read is there and stays there. */
  predicate EntryStays(s: State) {
    !s.wpc.WCrashed? && (s.wpc.WRead? ==> s.wpc.pp in s.watches && !WillRemove(s, s.wpc.pp))
  }

  lemma EntryStep(s: State, step: Step)
    requires EntryStays(s) && Enabled(s, step) && !step.Take?
    ensures EntryStays(Apply(s, step))
  {
    match step
    case WatcherMoves =>
    case Deliver =>
    case ConsumerMoves =>
  }

  lemma {:induction false} EntryRun(s: State, steps: seq<Step>)
    requires EntryStays(s) && NoTake(steps) && Feasible(s, steps)
    ensures EntryStays(After(s, steps))
    decreases |steps|
  {
    if steps != [] {
      EntryStep(s, steps[0]);
      EntryRun(Apply(s, steps[0]), steps[1..]);
    }
  }

  /** The consumer deletes the entry first, and then the watcher reads it. */
  lemma {:induction false} RemovesFirst(s: State, p: Pid) returns (steps: seq<Step>)
    requires s.wpc.WRead? && s.wpc.pp == p && p in s.watches && WillRemove(s, p)
    ensures NoTake(steps) && Feasible(s, steps) && After(s, steps).wpc.WCrashed?
    decreases if s.cpc.CExit? then 2 else if s.cpc.CRemove? then 1 else 0
  {
    var r := MoveConsumer(s);
    if s.cpc == CDelete(p) {
      var t := MoveWatcher(r);
      assert Feasible(t, []) && After(t, []) == t;
      assert [WatcherMoves][1..] == [];
      assert Feasible(r, [WatcherMoves]) && After(r, [WatcherMoves]) == t;
      steps := [ConsumerMoves] + [WatcherMoves];
      assert steps[1..] == [WatcherMoves];
    } else {
      var rest := RemovesFirst(r, p);
      steps := [ConsumerMoves] + rest;
      assert steps[1..] == rest;
    }
  }

  lemma CrashGuard(s: State, p: Pid, c: Pid)
    requires FlagsInv(s) && s.wpc.WIdle?
    ensures var r := Apply(s, Take(Fork(p, c)));
            (exists steps :: NoTake(steps) && Feasible(r, steps) && After(r, steps).wpc.WCrashed?) <==>
              p in s.watches && WillRemove(s, p)
  {
    var r := Apply(s, Take(Fork(p, c)));
    Watching(s.watches, p);
    if p in s.watches && WillRemove(s, p) {
      var steps := RemovesFirst(r, p);
    } else {
      forall steps | NoTake(steps) && Feasible(r, steps) ensures !After(r, steps).wpc.WCrashed? {
        EntryRun(r, steps);
      }
    }
  }

  lemma {:induction false} FlagsRun(s: State, steps: seq<Step>)
    requires FlagsInv(s) && Feasible(s, steps)
    ensures FlagsInv(After(s, steps))
    decreases |steps|
  {
    if steps != [] {
      FlagsStep(s, steps[0]);
      FlagsRun(Apply(s, steps[0]), steps[1..]);
    }
  }

  /** After any run, taking a fork of `p` can crash the watcher, before it takes another event, exactly
      when `p` is in the table and the consumer is on its way to deleting it. */
  lemma ForkCrashesIff(root: Pid, run: seq<Step>, p: Pid, c: Pid)
    requires Feasible(Init(root), run) && After(Init(root), run).wpc.WIdle?
    ensures var s := After(Init(root), run); var r := Apply(s, Take(Fork(p, c)));
            (exists steps :: NoTake(steps) && Feasible(r, steps) && After(r, steps).wpc.WCrashed?) <==>
              p in s.watches && WillRemove(s, p)
  {
    FlagsRun(Init(root), run);
    CrashGuard(After(Init(root), run), p, c);
  }

  // ---------------------------------------------------------------- exactly when an event can break the table

  /** The watcher has crashed, or some pid outside its exit window is watched though not followed, or
      followed though not watched. */
  ghost predicate Broken(s: State) {
    s.wpc.WCrashed? || exists p :: !InWindow(s, p) && !(p in s.watches <==> FollowedAll(Shown(s), s.root, p))
  }

  lemma TracksNotBroken(s: State)
    requires TrackInv(s)
    ensures !Broken(s)
  {
    forall p ensures !InWindow(s, p) ==> (p in s.watches <==> FollowedAll(Shown(s), s.root, p)) {
      assert TracksPid(s, Shown(s), p);
    }
  }

  lemma {:induction false} QuietRun(s: State, steps: seq<Step>)
    requires TrackInv(s) && NoTake(steps) && Feasible(s, steps)
    ensures TrackInv(After(s, steps))
    decreases |steps|
  {
    if steps != [] {
      TrackStep(s, steps[0]);
      QuietRun(Apply(s, steps[0]), steps[1..]);
    }
  }

  /** The consumer finishes deleting a followed pid that the watcher has just added. */
  lemma {:induction false} RemovesFollowed(s: State, p: Pid) returns (steps: seq<Step>)
    requires s.wpc.WAsk? && WillRemove(s, p) && p in s.watches && FollowedAll(s.history, s.root, p)
    ensures NoTake(steps) && Feasible(s, steps) && Broken(After(s, steps))
    decreases if s.cpc.CExit? then 2 else if s.cpc.CRemove? then 1 else 0
  {
    var r := MoveConsumer(s);
    if s.cpc == CDelete(p) {
      assert !InWindow(r, p) && p !in r.watches && Shown(r) == s.history;
      assert Feasible(r, []) && After(r, []) == r;
      steps := [ConsumerMoves] + [];
      assert steps[1..] == [];
    } else {
      var rest := RemovesFollowed(r, p);
      steps := [ConsumerMoves] + rest;
      assert steps[1..] == rest;
    }
  }

  /** The watcher adds the child of a fork whose parent stays. */
  lemma AddsChild(s: State, pp: Pid, c: Pid) returns (r: State)
    requires FlagsInv(s) && s.wpc == WRead(pp, c) && pp in s.watches
    ensures r == s.(watches := r.watches, wpc := WAsk(pp, c)) && c in r.watches
    ensures Feasible(s, [WatcherMoves, WatcherMoves, WatcherMoves])
    ensures After(s, [WatcherMoves, WatcherMoves, WatcherMoves]) == r
  {
    var s1 := MoveWatcher(s);
    var s2 := MoveWatcher(s1);
    r := MoveWatcher(s2);
    assert [WatcherMoves][1..] == [] && [WatcherMoves, WatcherMoves][1..] == [WatcherMoves];
    assert [WatcherMoves, WatcherMoves, WatcherMoves][1..] == [WatcherMoves, WatcherMoves];
    assert Feasible(r, []) && After(r, []) == r;
    assert Feasible(s2, [WatcherMoves]) && After(s2, [WatcherMoves]) == r;
    assert Feasible(s1, [WatcherMoves, WatcherMoves]) && After(s1, [WatcherMoves, WatcherMoves]) == r;
  }

  /** A racing fork of a followed parent: the child's pid is added and then removed again. */
  lemma LosesChild(s: State, pp: Pid, c: Pid) returns (steps: seq<Step>)
    requires TrackInv(s) && s.wpc.WIdle? && pp in s.watches && !WillRemove(s, pp) && WillRemove(s, c)
    ensures var r := Apply(s, Take(Fork(pp, c)));
            NoTake(steps) && Feasible(r, steps) && Broken(After(r, steps))
  {
    var r := Apply(s, Take(Fork(pp, c)));
    Watching(s.watches, pp);
    assert TracksPid(s, Shown(s), pp);
    AppendAll(s.history, Fork(pp, c), s.root);
    var q := AddsChild(r, pp, c);
    var rest := RemovesFollowed(q, c);
    var adds := [WatcherMoves, WatcherMoves, WatcherMoves];
    Concat(r, adds, rest);
    steps := adds + rest;
  }

  /** Taking an event can break the table, before the next event is taken, exactly when it is a fork
      by a watched process that races with the removal of its parent or of its child's pid. */
  lemma EventBreaksIff(s: State, e: Event)
    requires TrackInv(s) && s.wpc.WIdle?
    ensures var r := Apply(s, Take(e));
            (exists steps :: NoTake(steps) && Feasible(r, steps) && Broken(After(r, steps))) <==> Races(s, e)
  {
    var r := Apply(s, Take(e));
    if !Races(s, e) {
      TrackStep(s, Take(e));
      forall steps | NoTake(steps) && Feasible(r, steps) ensures !Broken(After(r, steps)) {
        QuietRun(r, steps);
        TracksNotBroken(After(r, steps));
      }
    } else if WillRemove(s, e.ppid) {
      Watching(s.watches, e.ppid);
      var steps := RemovesFirst(r, e.ppid);
    } else {
      var steps := LosesChild(s, e.ppid, e.child);
    }
  }

  /** After any run without racing forks, the next event can break the table exactly when it races. */
  lemma RaceBreaksIff(root: Pid, run: seq<Step>, e: Event)
    requires Feasible(Init(root), run) && Steady(Init(root), run) && After(Init(root), run).wpc.WIdle?
    ensures var s := After(Init(root), run); var r := Apply(s, Take(e));
            (exists steps :: NoTake(steps) && Feasible(r, steps) && Broken(After(r, steps))) <==> Races(s, e)
  {
    TrackInit(root);
    TrackRun(Init(root), run);
    EventBreaksIff(After(Init(root), run), e);
  }
}
