/**
 The watch table of pkg/psnotify: which processes are followed, and which events are passed on.

 Kernel events are taken as decoded.  `Watcher` is the object of the source; `Handle` is the
 function its event dispatch computes, and the theorems are about `Handle` over any history.
 */
module Watches {
  import opened Basics

  type Pid = int
  type Table = map<Pid, bv32>

  const PROC_EVENT_FORK: bv32 := 0x0000_0001
  const PROC_EVENT_EXEC: bv32 := 0x0000_0002
  const PROC_EVENT_EXIT: bv32 := 0x8000_0000

  /** A decoded process event.  An exit carries the thread group, the thread and the raw status. */
  datatype Event =
    | Fork(ppid: Pid, child: Pid)
    | Exec(pid: Pid)
    | Exit(pid: Pid, tid: Pid, status: int)
    | Unknown

  /** What is sent on the Fork, Exec and Exit channels. */
  datatype Note =
    | ForkNote(parent: Pid, child: Pid)
    | ExecNote(pid: Pid)
    | ExitNote(pid: Pid, status: int)

  predicate IsWatching(w: Table, pid: Pid, event: bv32) {
    pid in w && w[pid] & event == event
  }

  /** `Watch` on an open watcher: insert, or add flags to the entry. */
  function AddWatch(w: Table, pid: Pid, flags: bv32): Table {
    if pid in w then w[pid := w[pid] | flags] else w[pid := flags]
  }

  predicate LeaderExit(e: Event, p: Pid) {
    e.Exit? && e.pid == p && e.tid == p
  }

  /** The table after one event; a closed watcher refuses to add the child of a fork. */
  function Handle(w: Table, closed: bool, e: Event): Table {
    match e
    case Fork(ppid, child) =>
      if IsWatching(w, ppid, PROC_EVENT_EXEC) && !closed then AddWatch(w, child, w[ppid]) else w
    case Exit(pid, tid, _) =>
      if IsWatching(w, pid, PROC_EVENT_EXIT) && pid == tid then w - {pid} else w
    case _ => w
  }

  /** What one event sends.  A fork is judged by the table after the child has been added. */
  function Sends(w: Table, closed: bool, e: Event): seq<Note> {
    match e
    case Fork(ppid, child) =>
      if IsWatching(Handle(w, closed, e), ppid, PROC_EVENT_FORK) then [ForkNote(ppid, child)] else []
    case Exec(pid) => if IsWatching(w, pid, PROC_EVENT_EXEC) then [ExecNote(pid)] else []
    case Exit(pid, tid, status) =>
      if IsWatching(w, pid, PROC_EVENT_EXIT) && pid == tid then [ExitNote(pid, status)] else []
    case Unknown => []
  }

  // ---------------------------------------------------------------- flags

  /** The three kinds of event are watched independently of each other, and together only each of them. */
  lemma FlagsIndependent(p: Pid, f: bv32)
    ensures IsWatching(map[p := f], p, PROC_EVENT_FORK) <==> f & 1 != 0
    ensures IsWatching(map[p := f], p, PROC_EVENT_EXEC) <==> f & 2 != 0
    ensures IsWatching(map[p := f], p, PROC_EVENT_EXIT) <==> f & 0x8000_0000 != 0
    ensures IsWatching(map[p := f], p, 0x8000_0003) <==> f & 1 != 0 && f & 2 != 0 && f & 0x8000_0000 != 0
  {
  }

  predicate OneKind(event: bv32) {
    event == PROC_EVENT_FORK || event == PROC_EVENT_EXEC || event == PROC_EVENT_EXIT
  }

  /** Watching a pid again adds to what was watched of it, and touches no other pid. */
  lemma WatchAccumulates(w: Table, pid: Pid, flags: bv32, p: Pid, event: bv32)
    requires OneKind(event)
    ensures IsWatching(AddWatch(w, pid, flags), p, event) <==>
              IsWatching(w, p, event) || (p == pid && flags & event == event)
  {
  }

  /** Whatever the flags in the table: a fork of a process watched for exec, on an open watcher, has its
      child watched for all its parent is watched for, beside what it was; a leader's exit removes a
      process watched for exit; nothing else changes the table. */
  lemma HandleAnyFlags(w: Table, closed: bool, e: Event, p: Pid, event: bv32)
    requires OneKind(event)
    ensures IsWatching(Handle(w, closed, e), p, event) <==>
              if LeaderExit(e, p) && IsWatching(w, p, PROC_EVENT_EXIT) then false
              else if e.Fork? && e.child == p && !closed && IsWatching(w, e.ppid, PROC_EVENT_EXEC)
              then IsWatching(w, p, event) || IsWatching(w, e.ppid, event)
              else IsWatching(w, p, event)
  {
    if e.Fork? && e.ppid in w {
      WatchAccumulates(w, e.child, w[e.ppid], p, event);
    }
  }

  // ---------------------------------------------------------------- the object

  /** What the watcher does to the outside, in order. */
  datatype Action = Dropped(pid: Pid) | Sent(note: Note)

  /** The actions that send `notes` for event `e`. */
  function Actions(e: Event, notes: seq<Note>): seq<Action> {
    if notes == [] then []
    else if e.Exit? then [Dropped(e.pid), Sent(notes[0])]
    else [Sent(notes[0])]
  }

  class Watcher {
    var watches: Table
    var isClosed: bool
    var log: seq<Action>

    constructor ()
      ensures watches == map[] && !isClosed && log == []
    {
      watches, isClosed, log := map[], false, [];
    }

    method Watch(pid: Pid, flags: bv32) returns (ok: bool)
      modifies this
      ensures ok == !old(isClosed)
      ensures watches == if ok then AddWatch(old(watches), pid, flags) else old(watches)
      ensures isClosed == old(isClosed) && log == old(log)
    {
      if isClosed {
        return false;
      }
      if pid in watches {
        watches := watches[pid := watches[pid] | flags];
      } else {
        watches := watches[pid := flags];
      }
      return true;
    }

    method RemoveWatch(pid: Pid) returns (ok: bool)
      modifies this
      ensures ok <==> pid in old(watches)
      ensures watches == old(watches) - {pid}
      ensures log == if ok then old(log) + [Dropped(pid)] else old(log)
      ensures isClosed == old(isClosed)
    {
      if pid !in watches {
        assert watches == watches - {pid};
        return false;
      }
      watches := watches - {pid};
      log := log + [Dropped(pid)];
      return true;
    }

    /** `handleEvent` computes `Handle` and `Sends`; an exit note goes out only after its entry is gone. */
    method HandleEvent(e: Event)
      modifies this
      ensures isClosed == old(isClosed) && watches == Handle(old(watches), isClosed, e)
      ensures log == old(log) + Actions(e, Sends(old(watches), isClosed, e))
    {
      match e
      case Fork(ppid, child) =>
        if IsWatching(watches, ppid, PROC_EVENT_EXEC) {
          var ok := Watch(child, watches[ppid]);
        }
        if IsWatching(watches, ppid, PROC_EVENT_FORK) {
          log := log + [Sent(ForkNote(ppid, child))];
        }
      case Exec(pid) =>
        if IsWatching(watches, pid, PROC_EVENT_EXEC) {
          log := log + [Sent(ExecNote(pid))];
        }
      case Exit(pid, tid, status) =>
        if IsWatching(watches, pid, PROC_EVENT_EXIT) {
          if pid == tid {
            var ok := RemoveWatch(pid);
            log := log + [Sent(ExitNote(pid, status))];
          }
        }
      case Unknown =>
    }

    /** `Close` drops every watched pid, each once; from then on `Watch` is refused. */
    method Close()
      modifies this
      ensures isClosed && old(log) <= log
      ensures watches == if old(isClosed) then old(watches) else map[]
      ensures var drops := log[|old(log)|..];
              if old(isClosed) then drops == []
              else |drops| == |old(watches)| && forall p :: p in old(watches) <==> Dropped(p) in drops
    {
      if isClosed {
        return;
      }
      isClosed := true;
      ghost var drops: seq<Action> := [];
      while watches.Keys != {}
        invariant isClosed && log == old(log) + drops
        invariant |drops| + |watches| == |old(watches)|
        invariant forall p :: p in old(watches) <==> p in watches || Dropped(p) in drops
        decreases |watches|
      {
        var pid := AnyOf(watches.Keys);
        var ok := RemoveWatch(pid);
        drops := drops + [Dropped(pid)];
      }
    }
  }

  // ---------------------------------------------------------------- following forks

  /** The table after the first `n` events of history `h`, starting with only `root` watched. */
  function TableAfter(h: seq<Event>, n: nat, root: Pid, flags: bv32): Table
    requires n <= |h|
  {
    if n == 0 then map[root := flags] else Handle(TableAfter(h, n - 1, root, flags), false, h[n - 1])
  }

  /** No leader exit of `p` among events `a` to `b`. */
  predicate NoExit(h: seq<Event>, a: nat, b: nat, p: Pid)
    requires b <= |h|
  {
    forall j :: a <= j < b ==> !LeaderExit(h[j], p)
  }

  /** After `n` events `p` is reached from `root` through the fork events at the indices `links`:
      each parent was itself reached when it forked, and nobody on the way has exited since. */
  predicate Descends(h: seq<Event>, n: nat, root: Pid, p: Pid, links: seq<nat>)
    requires n <= |h|
    decreases |links|
  {
    if links == [] then p == root && NoExit(h, 0, n, p)
    else
      var i := links[|links| - 1];
      && i < n && h[i].Fork? && h[i].child == p && NoExit(h, i + 1, n, p)
      && Descends(h, i, root, h[i].ppid, links[..|links| - 1])
  }

  ghost predicate Followed(h: seq<Event>, n: nat, root: Pid, p: Pid)
    requires n <= |h|
  {
    exists links :: Descends(h, n, root, p, links)
  }

  /** Flags that make a watcher follow forks and see exits. */
  predicate Following(flags: bv32) {
    flags & PROC_EVENT_EXEC == PROC_EVENT_EXEC && flags & PROC_EVENT_EXIT == PROC_EVENT_EXIT
  }

  lemma OrSelf(f: bv32)
    ensures f | f == f
  {
  }

  /** One event: who is followed after it, in terms of who was followed before. */
  lemma FollowedStep(h: seq<Event>, n: nat, root: Pid, p: Pid)
    requires n < |h|
    ensures Followed(h, n + 1, root, p) <==>
              || (Followed(h, n, root, p) && !LeaderExit(h[n], p))
              || (h[n].Fork? && h[n].child == p && Followed(h, n, root, h[n].ppid))
  {
    var m := n + 1;
    if links :| Descends(h, m, root, p, links) {
      if links != [] && links[|links| - 1] == n {
        assert Descends(h, n, root, h[n].ppid, links[..|links| - 1]);
      } else {
        assert Descends(h, n, root, p, links);
      }
    }
    if links :| Descends(h, n, root, p, links) {
      if !LeaderExit(h[n], p) {
        assert Descends(h, n + 1, root, p, links);
      }
    }
    if h[n].Fork? && h[n].child == p {
      if links :| Descends(h, n, root, h[n].ppid, links) {
        var more := links + [n];
        assert more[..|more| - 1] == links;
        assert Descends(h, n + 1, root, p, more);
      }
    }
  }

  predicate Uniform(w: Table, flags: bv32) {
    forall p :: p in w ==> w[p] == flags
  }

  /** On a table whose entries all follow, one event adds a child, removes a leader, or does nothing. */
  lemma HandleUniform(w: Table, e: Event, flags: bv32)
    requires Uniform(w, flags) && Following(flags)
    ensures Uniform(Handle(w, false, e), flags)
    ensures forall p :: p in Handle(w, false, e) <==>
              (p in w && !LeaderExit(e, p)) || (e.Fork? && e.child == p && e.ppid in w)
  {
    OrSelf(flags);
    match e
    case Fork(ppid, child) =>
      if ppid in w {
        assert IsWatching(w, ppid, PROC_EVENT_EXEC);
      }
    case Exit(pid, tid, _) =>
      if pid in w {
        assert IsWatching(w, pid, PROC_EVENT_EXIT);
      }
    case _ =>
  }

  /** Fork-following closure: after any history, a pid is in the table exactly when a chain of forks
      from the root reaches it with no leader exit since, and every entry has the root's flags. */
  lemma {:induction false} ForkClosure(h: seq<Event>, n: nat, root: Pid, flags: bv32)
    requires n <= |h| && Following(flags)
    ensures var w := TableAfter(h, n, root, flags);
            Uniform(w, flags) && forall p :: p in w <==> Followed(h, n, root, p)
    decreases n
  {
    if n == 0 {
      assert Descends(h, 0, root, root, []);
      forall p | Followed(h, 0, root, p) ensures p == root {
        var links :| Descends(h, 0, root, p, links);
      }
    } else {
      ForkClosure(h, n - 1, root, flags);
      HandleUniform(TableAfter(h, n - 1, root, flags), h[n - 1], flags);
      forall p ensures p in TableAfter(h, n, root, flags) <==> Followed(h, n, root, p) {
        FollowedStep(h, n - 1, root, p);
      }
    }
  }

  /** What goes out for event `n` is decided by the same closure: each leader exit of a followed
      pid sends exactly one exit note, an exit of another thread sends nothing. */
  lemma SendsClosure(h: seq<Event>, n: nat, root: Pid, flags: bv32)
    requires n < |h| && Following(flags)
    ensures var w := TableAfter(h, n, root, flags);
            match h[n]
            case Fork(ppid, child) =>
              Sends(w, false, h[n]) == if Followed(h, n, root, ppid) && flags & PROC_EVENT_FORK == PROC_EVENT_FORK
                                then [ForkNote(ppid, child)] else []
            case Exec(pid) => Sends(w, false, h[n]) == if Followed(h, n, root, pid) then [ExecNote(pid)] else []
            case Exit(pid, tid, status) =>
              && Sends(w, false, h[n]) == (if Followed(h, n, root, pid) && pid == tid then [ExitNote(pid, status)] else [])
              && (pid != tid ==> TableAfter(h, n + 1, root, flags) == w)
            case Unknown => Sends(w, false, h[n]) == []
  {
    ForkClosure(h, n, root, flags);
    OrSelf(flags);
  }
}
