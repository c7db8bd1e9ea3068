/**
 The forest of process records kept by the consumer (cmd/runm-linux-init/psnotify.go).

 Records are heap nodes linked by `parent` and `children`.  A pid may be reused: the map then
 points to a newer record while older ones stay linked.  The shape of the forest is followed as a
 value: a list of records in order of creation, linked by position.
 */
module Forest {
  import opened Basics
  import opened Watches

  /** A record as a value: links are positions in the order of creation. */
  datatype Rec = Rec(pid: Pid, parent: Option<nat>, children: seq<nat>)

  /** Parents are older than their children. */
  predicate Older(f: seq<Rec>) {
    forall i :: 0 <= i < |f| && f[i].parent.Some? ==> f[i].parent.value < i
  }

  /** Every listed child points back. */
  predicate DownLinks(f: seq<Rec>) {
    forall i, k :: 0 <= i < |f| && 0 <= k < |f[i].children| ==>
      f[i].children[k] < |f| && f[f[i].children[k]].parent == Some(i)
  }

  /** Every record with a parent is listed by it. */
  predicate UpLinks(f: seq<Rec>) {
    forall i :: 0 <= i < |f| && f[i].parent.Some? ==>
      f[i].parent.value < |f| && i in f[f[i].parent.value].children
  }

  /** No child is listed twice. */
  predicate ListedOnce(f: seq<Rec>) {
    forall i :: 0 <= i < |f| ==> NoDuplicates(f[i].children)
  }

  predicate WellFormed(f: seq<Rec>) {
    Older(f) && DownLinks(f) && UpLinks(f) && ListedOnce(f)
  }

  function Adopt(f: seq<Rec>, parent: Option<nat>): seq<Rec>
    requires parent.Some? ==> parent.value < |f|
  {
    if parent.Some? then
      f[parent.value := f[parent.value].(children := f[parent.value].children + [|f|])]
    else f
  }

  /** The shape after a fork: a new youngest record, adopted by its parent's record if there is one. */
  function AddRec(f: seq<Rec>, pid: Pid, parent: Option<nat>): seq<Rec>
    requires parent.Some? ==> parent.value < |f|
  {
    Adopt(f, parent) + [Rec(pid, parent, [])]
  }

  function Newborn(f: seq<Rec>, parent: Option<nat>, i: nat): seq<nat> {
    if parent == Some(i) then [|f|] else []
  }

  lemma AddRecAt(f: seq<Rec>, pid: Pid, parent: Option<nat>)
    requires parent.Some? ==> parent.value < |f|
    ensures var g := AddRec(f, pid, parent);
            && |g| == |f| + 1 && g[|f|] == Rec(pid, parent, [])
            && forall i :: 0 <= i < |f| ==>
                 g[i] == Rec(f[i].pid, f[i].parent, f[i].children + Newborn(f, parent, i))
  {
  }

  lemma AddRecDown(f: seq<Rec>, pid: Pid, parent: Option<nat>)
    requires DownLinks(f) && (parent.Some? ==> parent.value < |f|)
    ensures DownLinks(AddRec(f, pid, parent))
  {
    AddRecAt(f, pid, parent);
    var g := AddRec(f, pid, parent);
    forall i, k | 0 <= i < |g| && 0 <= k < |g[i].children|
      ensures g[i].children[k] < |g| && g[g[i].children[k]].parent == Some(i)
    {
      assert i < |f|;
      if k < |f[i].children| {
        assert g[i].children[k] == f[i].children[k];
      }
    }
  }

  lemma AddRecUp(f: seq<Rec>, pid: Pid, parent: Option<nat>)
    requires UpLinks(f) && (parent.Some? ==> parent.value < |f|)
    ensures UpLinks(AddRec(f, pid, parent))
  {
    AddRecAt(f, pid, parent);
    var g := AddRec(f, pid, parent);
    forall i | 0 <= i < |g| && g[i].parent.Some?
      ensures g[i].parent.value < |g| && i in g[g[i].parent.value].children
    {
      if i == |f| {
        assert Newborn(f, parent, parent.value)[0] == i;
      }
    }
  }

  lemma AddRecOnce(f: seq<Rec>, pid: Pid, parent: Option<nat>)
    requires DownLinks(f) && ListedOnce(f) && (parent.Some? ==> parent.value < |f|)
    ensures ListedOnce(AddRec(f, pid, parent))
  {
    AddRecAt(f, pid, parent);
    var g := AddRec(f, pid, parent);
    forall i | 0 <= i < |g| ensures NoDuplicates(g[i].children) {
      if i < |f| {
        assert NoDuplicates(f[i].children);
        assert forall k :: 0 <= k < |f[i].children| ==> f[i].children[k] < |f|;
      }
    }
  }

  /** A fork keeps the forest well formed, whatever pid it reuses. */
  lemma AddRecKeeps(f: seq<Rec>, pid: Pid, parent: Option<nat>)
    requires WellFormed(f) && (parent.Some? ==> parent.value < |f|)
    ensures WellFormed(AddRec(f, pid, parent))
  {
    AddRecAt(f, pid, parent);
    AddRecDown(f, pid, parent);
    AddRecUp(f, pid, parent);
    AddRecOnce(f, pid, parent);
  }

  /** The ancestors of a record, nearest first. */
  function Ancestors(f: seq<Rec>, i: nat): (r: seq<nat>)
    requires Older(f) && i < |f|
    ensures |r| <= i
    ensures forall k :: 0 <= k < |r| ==> r[k] < i
  {
    if f[i].parent.None? then [] else [f[i].parent.value] + Ancestors(f, f[i].parent.value)
  }

  /** Along the chain ages strictly grow, and it ends at a record without a parent. */
  lemma {:induction false} AncestorsClimb(f: seq<Rec>, i: nat)
    requires Older(f) && i < |f|
    ensures var r := Ancestors(f, i);
            && (forall j, k :: 0 <= j < k < |r| ==> r[k] < r[j])
            && f[if r == [] then i else r[|r| - 1]].parent.None?
  {
    if f[i].parent.Some? {
      AncestorsClimb(f, f[i].parent.value);
    }
  }

  /** A fork elsewhere never changes the ancestors of a record, even when its pid is reused. */
  lemma {:induction false} AncestorsStable(f: seq<Rec>, pid: Pid, parent: Option<nat>, i: nat)
    requires WellFormed(f) && (parent.Some? ==> parent.value < |f|) && i < |f|
    ensures Older(AddRec(f, pid, parent)) && Ancestors(AddRec(f, pid, parent), i) == Ancestors(f, i)
  {
    AddRecKeeps(f, pid, parent);
    if f[i].parent.Some? {
      AncestorsStable(f, pid, parent, f[i].parent.value);
    }
  }

  // ---------------------------------------------------------------- the heap

  class PidInfo {
    const pid: Pid
    ghost const stamp: nat  // position in the order of creation
    var parent: PidInfo?
    var children: seq<PidInfo>
    var forkTime: Option<int>
    var execTime: Option<int>
    var exitTime: Option<int>

    constructor (pid: Pid, ghost stamp: nat, parent: PidInfo?, forkTime: int)
      ensures this.pid == pid && this.stamp == stamp
      ensures this.parent == parent && children == [] && this.forkTime == Some(forkTime)
      ensures execTime == exitTime == None
    {
      this.pid, this.stamp := pid, stamp;
      this.parent, children := parent, [];
      this.forkTime, execTime, exitTime := Some(forkTime), None, None;
    }

    /** When the process was forked, last executed a program, and exited. */
    ghost function Times(): (Option<int>, Option<int>, Option<int>)
      reads this
    {
      (forkTime, execTime, exitTime)
    }

    ghost function View(): View
      reads this
    {
      Links(pid, stamp, parent, children, forkTime.Some?)
    }
  }

  /** The fields of a node that matter to the shape. */
  datatype View = Links(pid: Pid, stamp: nat, parent: PidInfo?, children: seq<PidInfo>, forked: bool)

  /** A node seen as `v` is record `r`, the `i`-th of the forest. */
  ghost predicate Shows(v: View, r: Rec, nodes: seq<PidInfo>, i: nat) {
    && v.stamp == i && v.pid == r.pid && v.forked
    && (r.parent.None? ==> v.parent == null)
    && (r.parent.Some? ==> r.parent.value < |nodes| && v.parent == nodes[r.parent.value])
    && |v.children| == |r.children|
    && forall k :: 0 <= k < |r.children| ==> r.children[k] < |nodes| && v.children[k] == nodes[r.children[k]]
  }

  /** Growing the forest by one node keeps what the older nodes show. */
  lemma ShowsGrow(v: View, r: Rec, nodes: seq<PidInfo>, i: nat, info: PidInfo, born: bool)
    requires Shows(v, r, nodes, i)
    ensures Shows(v.(children := v.children + if born then [info] else []),
                  r.(children := r.children + if born then [|nodes|] else []), nodes + [info], i)
  {
  }

  /** Every mapped record is a node of the forest and has its own pid. */
  ghost predicate Mapped(m: map<Pid, PidInfo>, nodes: seq<PidInfo>) {
    forall p :: p in m ==> m[p].stamp < |nodes| && nodes[m[p].stamp] == m[p] && m[p].pid == p
  }

  /** The heap nodes, in order of creation, have the given shape. */
  ghost predicate Represents(nodes: seq<PidInfo>, shape: seq<Rec>)
    reads nodes
  {
    && |nodes| == |shape| && WellFormed(shape)
    && forall i {:trigger shape[i]} :: 0 <= i < |nodes| ==> Shows(nodes[i].View(), shape[i], nodes, i)
  }

  /** A new node whose parent has just adopted it extends the forest. */
  lemma NodeAdded(nodes: seq<PidInfo>, shape: seq<Rec>, at: Option<nat>, info: PidInfo)
    requires |nodes| == |shape| && WellFormed(shape) && (at.Some? ==> at.value < |nodes|)
    requires forall i :: 0 <= i < |nodes| ==>
               Shows(nodes[i].View(), shape[i].(children := shape[i].children + Newborn(shape, at, i)), nodes + [info], i)
    requires Shows(info.View(), Rec(info.pid, at, []), nodes + [info], |nodes|)
    ensures Represents(nodes + [info], AddRec(shape, info.pid, at))
  {
    AddRecKeeps(shape, info.pid, at);
    AddRecAt(shape, info.pid, at);
  }

  class Consumer {
    var m: map<Pid, PidInfo>
    ghost var nodes: seq<PidInfo>
    ghost var shape: seq<Rec>

    ghost predicate Valid()
      reads this, nodes
    {
      Mapped(m, nodes) && Represents(nodes, shape)
    }

    constructor ()
      ensures Valid() && m == map[] && shape == []
    {
      m, nodes, shape := map[], [], [];
    }

    /** The position of the record a pid currently maps to. */
    ghost function Where(p: Pid): Option<nat>
      reads this
    {
      if p in m then Some(m[p].stamp) else None
    }

    /** A fork: a new record under the parent's current record, replacing any older record of the
        child's pid in the map. */
    method OnFork(parent: Pid, child: Pid, time: int) returns (info: PidInfo)
      requires Valid()
      modifies this, nodes
      ensures Valid() && fresh(info) && nodes == old(nodes) + [info]
      ensures shape == AddRec(old(shape), child, old(Where(parent)))
      ensures m == old(m)[child := info] && info.Times() == (Some(time), None, None)
      ensures forall n :: n in old(nodes) ==> n.Times() == old(n.Times())
    {
      var parentInfo: PidInfo? := if parent in m then m[parent] else null;
      ghost var at := Where(parent);
      info := new PidInfo(child, |nodes|, parentInfo, time);
      m := m[child := info];
      if parentInfo != null {
        parentInfo.children := parentInfo.children + [info];
      }
      forall i | 0 <= i < |nodes|
        ensures Shows(nodes[i].View(), shape[i].(children := shape[i].children + Newborn(shape, at, i)), nodes + [info], i)
      {
        ShowsGrow(old(nodes[i].View()), shape[i], nodes, i, info, at == Some(i));
      }
      NodeAdded(nodes, shape, at, info);
      nodes := nodes + [info];
      shape := AddRec(shape, child, at);
    }

    /** An exit: the record is marked and leaves the map; an unknown pid changes nothing. */
    method OnExit(pid: Pid, time: int)
      requires Valid()
      modifies this, nodes
      ensures Valid() && nodes == old(nodes) && shape == old(shape) && m == old(m) - {pid}
      ensures forall n :: n in nodes ==>
                n.Times() == old((n.forkTime, n.execTime, if pid in m && m[pid] == n then Some(time) else n.exitTime))
    {
      if pid in m {
        var grp := m[pid];
        grp.exitTime := Some(time);
        assert forall i :: 0 <= i < |nodes| ==> nodes[i].View() == old(nodes[i].View());
        m := m - {pid};
      } else {
        assert m == m - {pid};
      }
    }

    /** An exec: the record, if there is one, is marked. */
    method OnExec(pid: Pid, time: int)
      requires Valid()
      modifies nodes
      ensures Valid() && nodes == old(nodes) && shape == old(shape) && m == old(m)
      ensures forall n :: n in nodes ==>
                n.Times() == old((n.forkTime, if pid in m && m[pid] == n then Some(time) else n.execTime, n.exitTime))
    {
      if pid in m {
        var grp := m[pid];
        grp.execTime := Some(time);
        assert forall i :: 0 <= i < |nodes| ==> nodes[i].View() == old(nodes[i].View());
      }
    }

    /** `LogValue`: the walk along `parent` ends and lists exactly the ancestors, and the two
        durations it computes always have a fork event to subtract. */
    method LogValue(x: PidInfo) returns (chain: seq<Pid>, execDur: Option<int>, exitDur: Option<int>)
      requires Valid() && x.stamp < |nodes| && nodes[x.stamp] == x
      ensures chain == [1] + PidsOf(shape, Ancestors(shape, x.stamp)) + [x.pid]
      ensures x.forkTime.Some?
      ensures exitDur == if x.exitTime.Some? then Some(x.exitTime.value - x.forkTime.value) else None
      ensures execDur == if x.execTime.Some? then Some(x.execTime.value - x.forkTime.value) else None
    {
      assert Shows(x.View(), shape[x.stamp], nodes, x.stamp);
      exitDur := if x.exitTime.Some? then Some(x.exitTime.value - x.forkTime.value) else None;
      execDur := if x.execTime.Some? then Some(x.execTime.value - x.forkTime.value) else None;
      var up: seq<Pid> := [];
      var pz := x.parent;
      ghost var at: nat := x.stamp;
      while pz != null
        invariant at < |nodes| && pz == nodes[at].parent
        invariant PidsOf(shape, Ancestors(shape, x.stamp)) == up + PidsOf(shape, Ancestors(shape, at))
        decreases at
      {
        assert Shows(nodes[at].View(), shape[at], nodes, at);
        ghost var next := shape[at].parent.value;
        assert Shows(nodes[next].View(), shape[next], nodes, next);
        up := up + [pz.pid];
        at := next;
        pz := pz.parent;
      }
      assert Shows(nodes[at].View(), shape[at], nodes, at);
      chain := [1] + up + [x.pid];
    }
  }

  /** On the heap: a parent is an earlier node and lists the child, children point back, and none is
      listed twice. */
  lemma LinksMatch(c: Consumer, i: nat)
    requires c.Valid() && i < |c.nodes|
    ensures var x := c.nodes[i];
            && (x.parent != null ==> x.parent.stamp < x.stamp && x in x.parent.children)
            && NoDuplicates(x.children)
            && forall k :: 0 <= k < |x.children| ==> x.children[k].parent == x
  {
    var x, f := c.nodes[i], c.shape;
    assert Shows(x.View(), f[i], c.nodes, i);
    if f[i].parent.Some? {
      ParentLists(c, i);
    }
    forall k | 0 <= k < |x.children| ensures x.children[k].parent == x {
      assert Shows(c.nodes[f[i].children[k]].View(), f[f[i].children[k]], c.nodes, f[i].children[k]);
    }
    forall j, k | 0 <= j < k < |x.children| ensures x.children[j] != x.children[k] {
      assert Shows(c.nodes[f[i].children[j]].View(), f[f[i].children[j]], c.nodes, f[i].children[j]);
      assert Shows(c.nodes[f[i].children[k]].View(), f[f[i].children[k]], c.nodes, f[i].children[k]);
    }
  }

  lemma ParentLists(c: Consumer, i: nat)
    requires c.Valid() && i < |c.nodes| && c.shape[i].parent.Some?
    ensures var x := c.nodes[i];
            x.parent != null && x.parent.stamp < x.stamp && x in x.parent.children
  {
    assert Shows(c.nodes[i].View(), c.shape[i], c.nodes, i);
    var at := c.shape[i].parent.value;
    assert Shows(c.nodes[at].View(), c.shape[at], c.nodes, at);
    var k :| 0 <= k < |c.shape[at].children| && c.shape[at].children[k] == i;
    assert c.nodes[at].children[k] == c.nodes[i];
  }

  /** The pids of a list of records. */
  function PidsOf(f: seq<Rec>, r: seq<nat>): (ps: seq<Pid>)
    requires forall k :: 0 <= k < |r| ==> r[k] < |f|
    ensures |ps| == |r|
  {
    if r == [] then [] else [f[r[0]].pid] + PidsOf(f, r[1..])
  }
}
