/** The target registry of the debug-adapter multiplexer (pkg/dapmux/server.go). */
module Registry {
  import opened Basics

  type Id = string
  type Conn = nat

  datatype Status = Unspecified | Active | Disconnected | Failed | Connecting | Reconnecting

  datatype Target = Target(name: string, status: Status)

  /** The registry as a value.  `dialled` and `closed` are the connections ever opened and closed. */
  datatype Reg = Reg(targets: map<Id, Target>, conns: map<Id, Conn>, active: Id,
                     dialled: set<Conn>, closed: set<Conn>)

  const Empty := Reg(map[], map[], "", {}, {})

  datatype Op = Register(id: Id, name: string, conn: Conn) | Unregister(id: Id) | SetActive(id: Id)

  /** The choice of a new active target walks a map in an unspecified order. */
  predicate Elected(targets: map<Id, Target>, a: Id) {
    if a in targets then targets[a].status == Active
    else a == "" && forall i :: i in targets ==> targets[i].status != Active
  }

  /** One operation under the lock; identifiers and connections of a registration are new. */
  ghost predicate Next(r: Reg, op: Op, q: Reg) {
    match op
    case Register(id, name, conn) =>
      && id != "" && id !in r.targets && conn !in r.dialled
      && q == Reg(r.targets[id := Target(name, Active)], r.conns[id := conn],
                  if r.active == "" then id else r.active, r.dialled + {conn}, r.closed)
    case Unregister(id) =>
      if id !in r.targets then q == r
      else
        && q.targets == r.targets - {id} && q.conns == r.conns - {id} && q.dialled == r.dialled
        && q.closed == r.closed + (if id in r.conns then {r.conns[id]} else {})
        && (if r.active == id then Elected(q.targets, q.active) else q.active == r.active)
    case SetActive(id) => q == if id in r.targets then r.(active := id) else r
  }

  /** Both tables have the same keys; the active target is unset exactly when there is none and is
      otherwise registered. */
  ghost predicate KeysInv(r: Reg) {
    && r.targets.Keys == r.conns.Keys && "" !in r.targets
    && (forall i :: i in r.targets ==> r.targets[i].status == Active)
    && (r.active == "" <==> r.targets == map[])
    && (r.active != "" ==> r.active in r.targets)
  }

  /** Each connection belongs to one target, and exactly the unregistered ones are closed. */
  ghost predicate ConnInv(r: Reg) {
    && (forall i :: i in r.conns ==> r.conns[i] in r.dialled && r.conns[i] !in r.closed)
    && (forall i, j :: i in r.conns && j in r.conns && i != j ==> r.conns[i] != r.conns[j])
    && (forall c :: c in r.dialled && c !in r.closed ==> exists i :: i in r.conns && r.conns[i] == c)
    && r.closed <= r.dialled
  }

  ghost predicate Inv(r: Reg) {
    KeysInv(r) && ConnInv(r)
  }

  lemma KeysStep(r: Reg, op: Op, q: Reg)
    requires KeysInv(r) && Next(r, op, q)
    ensures KeysInv(q)
  {
    if op.Register? {
      assert op.id in q.targets;
    } else if op.Unregister? && op.id in r.targets {
      assert q.active != "" ==> q.active in q.targets;
      if q.active == "" {
        assert q.targets.Keys == {} by {
          assert forall i :: i in q.targets ==> q.targets[i].status == Active;
        }
      }
    }
  }

  lemma RegisterConn(r: Reg, id: Id, conn: Conn, q: Reg)
    requires ConnInv(r) && id !in r.conns && conn !in r.dialled
    requires q.conns == r.conns[id := conn] && q.dialled == r.dialled + {conn} && q.closed == r.closed
    ensures ConnInv(q)
  {
    forall c | c in q.dialled && c !in q.closed ensures exists i :: i in q.conns && q.conns[i] == c {
      if c == conn {
        assert q.conns[id] == c;
      } else {
        var i :| i in r.conns && r.conns[i] == c;
        assert q.conns[i] == c;
      }
    }
  }

  lemma UnregisterConn(r: Reg, id: Id, q: Reg)
    requires ConnInv(r) && id in r.conns
    requires q.conns == r.conns - {id} && q.dialled == r.dialled && q.closed == r.closed + {r.conns[id]}
    ensures ConnInv(q)
  {
    forall c | c in q.dialled && c !in q.closed ensures exists i :: i in q.conns && q.conns[i] == c {
      var i :| i in r.conns && r.conns[i] == c;
      assert q.conns[i] == c;
    }
  }

  lemma ConnStep(r: Reg, op: Op, q: Reg)
    requires ConnInv(r) && KeysInv(r) && Next(r, op, q)
    ensures ConnInv(q)
  {
    if op.Register? {
      RegisterConn(r, op.id, op.conn, q);
    } else if op.Unregister? && op.id in r.targets {
      UnregisterConn(r, op.id, q);
    }
  }

  /** The states of a run of operations. */
  ghost predicate Run(states: seq<Reg>, ops: seq<Op>) {
    |states| == |ops| + 1 && states[0] == Empty &&
    forall k :: 0 <= k < |ops| ==> Next(states[k], ops[k], states[k + 1])
  }

  /** Over every run of registrations, removals and choices of the active target. */
  lemma {:induction false} RegistryHolds(states: seq<Reg>, ops: seq<Op>, k: nat)
    requires Run(states, ops) && k < |states|
    ensures Inv(states[k])
  {
    if k > 0 {
      RegistryHolds(states, ops, k - 1);
      KeysStep(states[k - 1], ops[k - 1], states[k]);
      ConnStep(states[k - 1], ops[k - 1], states[k]);
    }
  }

  /** The active target changes only when it is unregistered or another one is chosen. */
  lemma {:induction false} ActiveStays(states: seq<Reg>, ops: seq<Op>, j: nat, k: nat)
    requires Run(states, ops) && j <= k < |states| && states[j].active != ""
    requires forall i :: j <= i < k ==>
               ops[i] != Unregister(states[j].active) && (ops[i].SetActive? ==> ops[i].id == states[j].active)
    ensures states[k].active == states[j].active
    decreases k
  {
    if j < k {
      ActiveStays(states, ops, j, k - 1);
      RegistryHolds(states, ops, k - 1);
      assert Next(states[k - 1], ops[k - 1], states[k]);
    }
  }

  /** What the last operation of a run has done, and that it has left all other targets alone. */
  lemma LastOperation(states: seq<Reg>, ops: seq<Op>)
    requires Run(states, ops) && ops != []
    ensures var r, q, op := states[|ops| - 1], states[|ops|], ops[|ops| - 1];
            && (forall i :: i != op.id ==> (i in q.targets <==> i in r.targets))
            && (forall i :: i != op.id && i in r.targets ==> q.targets[i] == r.targets[i])
            && (forall i :: i != op.id && i in r.conns ==> i in q.conns && q.conns[i] == r.conns[i])
            && (op.Register? ==> op.id in q.targets && q.targets[op.id].name == op.name)
            && (op.Register? ==> op.id in q.conns && q.conns[op.id] == op.conn)
            && (op.Register? ==> q.active == if r.targets == map[] then op.id else r.active)
            && (op.Unregister? ==> op.id !in q.targets && (op.id != r.active ==> q.active == r.active))
            && (op.SetActive? ==> q.targets == r.targets)
            && (op.SetActive? ==> q.active == if op.id in r.targets then op.id else r.active)
  {
    var k := |ops| - 1;
    RegistryHolds(states, ops, k);
    RegistryHolds(states, ops, k + 1);
    assert Next(states[k], ops[k], states[k + 1]);
  }

  class Server {
    var targets: map<Id, Target>
    var connections: map<Id, Conn>
    var activeTargetID: Id
    ghost var dialled: set<Conn>
    ghost var closed: set<Conn>

    ghost function Value(): Reg
      reads this
    {
      Reg(targets, connections, activeTargetID, dialled, closed)
    }

    ghost predicate Valid()
      reads this
    {
      Inv(Value())
    }

    constructor ()
      ensures Valid() && Value() == Empty
    {
      targets, connections, activeTargetID := map[], map[], "";
      dialled, closed := {}, {};
    }

    /** `dial` is the connection obtained, if any; `id` the identifier drawn for the target. */
    method RegisterTarget(dial: Option<Conn>, id: Id, name: string) returns (target: Option<Target>)
      requires Valid() && id != "" && id !in targets && (dial.Some? ==> dial.value !in dialled)
      modifies this
      ensures Valid()
      ensures dial.None? ==> target.None? && Value() == old(Value())
      ensures dial.Some? ==> target.Some? && Next(old(Value()), Register(id, name, dial.value), Value())
      ensures target.Some? ==> id in targets && targets[id] == target.value
    {
      if dial.None? {
        return None;
      }
      var t := Target(name, Active);
      dialled := dialled + {dial.value};
      targets := targets[id := t];
      connections := connections[id := dial.value];
      if activeTargetID == "" {
        activeTargetID := id;
      }
      KeysStep(old(Value()), Register(id, name, dial.value), Value());
      ConnStep(old(Value()), Register(id, name, dial.value), Value());
      target := Some(t);
    }

    method UnregisterTarget(id: Id) returns (found: bool)
      requires Valid()
      modifies this
      ensures Valid() && Next(old(Value()), Unregister(id), Value())
      ensures found == (id in old(targets)) && id !in targets
    {
      found := id in targets;
      if !found {
        return;
      }
      if id in connections {
        closed := closed + {connections[id]};
        connections := connections - {id};
      }
      targets := targets - {id};
      if activeTargetID == id {
        activeTargetID := Elect(targets);
      }
      KeysStep(old(Value()), Unregister(id), Value());
      ConnStep(old(Value()), Unregister(id), Value());
    }

    method SetActiveTarget(id: Id) returns (target: Option<Target>)
      requires Valid()
      modifies this
      ensures Valid() && Next(old(Value()), SetActive(id), Value())
      ensures target == if id in targets then Some(targets[id]) else None
    {
      if id !in targets {
        return None;
      }
      activeTargetID := id;
      target := Some(targets[id]);
      KeysStep(old(Value()), SetActive(id), Value());
    }
  }

  /** The walk that picks a new active target. */
  method Elect(targets: map<Id, Target>) returns (a: Id)
    requires "" !in targets
    ensures Elected(targets, a)
    ensures a != "" ==> a in targets && targets[a].status == Active
    ensures a == "" ==> forall i :: i in targets ==> targets[i].status != Active
  {
    a := "";
    var left := targets.Keys;
    while left != {}
      invariant left <= targets.Keys
      invariant forall i :: i in targets && i !in left ==> targets[i].status != Active
      decreases |left|
    {
      var i := AnyOf(left);
      if targets[i].status == Active {
        return i;
      }
      left := left - {i};
    }
  }
}
