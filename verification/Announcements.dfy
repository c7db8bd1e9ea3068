/**
 What the subscribers are told about the registry (pkg/dapmux/server.go).

 `RegisterTarget` enters a target under the registry's lock and announces it after letting go of the
 lock; `UnregisterTarget` deletes the entry and tells the subscribers while it still holds it.  Both
 notes are broadcasts of module `Broadcast`: walks over the subscribers that may overlap.  The event
 numbered `k` carries `notes[k]`.
 */
module Announcements {
  import opened Basics
  import opened Broadcast
  import R = Registry

  type Id = R.Id

  datatype Note = AddedNote(id: Id) | RemovedNote(id: Id)

  /** The registry's lock: free, or held by an `UnregisterTarget` that has deleted its entry, before or
      during its walk `t`. */
  datatype Lock = Unlocked | Deleted(id: Id) | Telling(id: Id, t: nat)

  /** `used` are the identifiers drawn so far, `unannounced` those whose walk has not begun. */
  datatype World = World(reg: R.Reg, used: set<Id>, unannounced: set<Id>, lock: Lock, notes: seq<Note>, net: State)

  datatype Move =
    | Enter(id: Id, name: string, conn: R.Conn, reg: R.Reg)  // RegisterTarget, under the lock
    | Announce(id: Id, t: nat)                               // its walk begins
    | Delete(id: Id, reg: R.Reg)                             // UnregisterTarget takes the lock
    | Tell(t: nat)                                           // its walk begins
    | Choose(id: Id, reg: R.Reg)                             // SetActiveTarget
    | Net(step: Step)                                        // walks, and subscribers coming and going

  const Start := World(R.Empty, {}, {}, Unlocked, [], Init)

  ghost predicate CanMove(w: World, m: Move) {
    match m
    case Enter(id, name, conn, reg) => w.lock.Unlocked? && id !in w.used && R.Next(w.reg, R.Register(id, name, conn), reg)
    case Announce(id, t) => id in w.unannounced && Enabled(w.net, Begin(t))
    case Delete(id, reg) => w.lock.Unlocked? && id in w.reg.targets && R.Next(w.reg, R.Unregister(id), reg)
    case Tell(t) => w.lock.Deleted? && Enabled(w.net, Begin(t))
    case Choose(id, reg) => w.lock.Unlocked? && R.Next(w.reg, R.SetActive(id), reg)
    case Net(step) => !step.Begin? && Enabled(w.net, step)
  }

  ghost function Moved(w: World, m: Move): World
    requires CanMove(w, m)
  {
    match m
    case Enter(id, _, _, reg) => w.(reg := reg, used := w.used + {id}, unannounced := w.unannounced + {id})
    case Announce(id, t) =>
      w.(unannounced := w.unannounced - {id}, notes := w.notes + [AddedNote(id)], net := Apply(w.net, Begin(t)))
    case Delete(id, reg) => w.(reg := reg, lock := Deleted(id))
    case Tell(t) =>
      w.(lock := Telling(w.lock.id, t), notes := w.notes + [RemovedNote(w.lock.id)], net := Apply(w.net, Begin(t)))
    case Choose(_, reg) => w.(reg := reg)
    case Net(step) =>
      w.(net := Apply(w.net, step),
         lock := if w.lock.Telling? && step == End(w.lock.t) then Unlocked else w.lock)
  }

  ghost predicate CanRun(w: World, moves: seq<Move>)
    decreases |moves|
  {
    moves == [] || (CanMove(w, moves[0]) && CanRun(Moved(w, moves[0]), moves[1..]))
  }

  ghost function RunTo(w: World, moves: seq<Move>): World
    requires CanRun(w, moves)
    decreases |moves|
  {
    if moves == [] then w else RunTo(Moved(w, moves[0]), moves[1..])
  }

  /** A run whose first move is `m`. */
  lemma FirstMove(w: World, m: Move, moves: seq<Move>)
    requires CanMove(w, m) && CanRun(Moved(w, m), moves)
    ensures CanRun(w, [m] + moves) && RunTo(w, [m] + moves) == RunTo(Moved(w, m), moves)
  {
    assert ([m] + moves)[1..] == moves;
  }

  lemma {:induction false} Concat(w: World, a: seq<Move>, b: seq<Move>)
    requires CanRun(w, a) && CanRun(RunTo(w, a), b)
    ensures CanRun(w, a + b) && RunTo(w, a + b) == RunTo(RunTo(w, a), b)
    decreases |a|
  {
    if a == [] {
      assert a + b == b;
    } else {
      Concat(Moved(w, a[0]), a[1..], b);
      FirstMove(w, a[0], a[1..] + b);
      assert a + b == [a[0]] + (a[1..] + b);
    }
  }

  lemma Single(w: World, m: Move)
    requires CanMove(w, m)
    ensures CanRun(w, [m]) && RunTo(w, [m]) == Moved(w, m)
  {
    assert [m][1..] == [];
    assert CanRun(Moved(w, m), []);
  }

  // ---------------------------------------------------------------- notes and registry

  /** Every identifier is announced once and told removed once, and the notes begun say which targets
      are registered, up to the announcements and the removal still to begin. */
  ghost predicate NotesInv(reg: R.Reg, used: set<Id>, unannounced: set<Id>, lock: Lock, notes: seq<Note>) {
    && NoDuplicates(notes)
    && (forall n :: n in notes ==> n.id in used)
    && (forall id :: id in unannounced ==> id in used)
    && (forall id :: id in reg.targets ==> id in used)
    && (forall id :: id in used ==> (AddedNote(id) in notes <==> id !in unannounced))
    && (forall id :: id in used ==> (RemovedNote(id) in notes <==> id !in reg.targets && lock != Deleted(id)))
    && (lock.Deleted? ==> lock.id in used && lock.id !in reg.targets)
  }

  ghost predicate WorldInv(w: World) {
    && Inv(w.net) && |w.notes| == w.net.begun && (w.lock.Telling? ==> w.lock.t in w.net.casts)
    && NotesInv(w.reg, w.used, w.unannounced, w.lock, w.notes)
  }

  lemma AppendNote(notes: seq<Note>, n: Note)
    requires NoDuplicates(notes) && n !in notes
    ensures NoDuplicates(notes + [n])
    ensures forall x :: x in notes + [n] <==> x in notes || x == n
  {
  }

  lemma NotesStep(w: World, m: Move)
    requires WorldInv(w) && CanMove(w, m)
    ensures var r := Moved(w, m); NotesInv(r.reg, r.used, r.unannounced, r.lock, r.notes)
  {
    if m.Announce? {
      AppendNote(w.notes, AddedNote(m.id));
    } else if m.Tell? {
      AppendNote(w.notes, RemovedNote(w.lock.id));
    } else if m.Enter? {
      assert AddedNote(m.id) !in w.notes && RemovedNote(m.id) !in w.notes;
    }
  }

  /** The walk of a removal under way stays under way until it ends and the lock is let go. */
  lemma LockStep(w: World, m: Move)
    requires WorldInv(w) && CanMove(w, m)
    ensures Moved(w, m).lock.Telling? ==> Moved(w, m).lock.t in Moved(w, m).net.casts
  {
    if m.Net? && m.step.Next? {
      NextFinds(w.net, m.step.t);
    }
  }

  lemma WorldStep(w: World, m: Move)
    requires WorldInv(w) && CanMove(w, m)
    ensures WorldInv(Moved(w, m))
  {
    NotesStep(w, m);
    LockStep(w, m);
    if m.Announce? || m.Tell? {
      InvStep(w.net, Begin(m.t));
    } else if m.Net? {
      InvStep(w.net, m.step);
      NetBegun(w.net, m.step);
    }
  }

  lemma NetBegun(s: State, step: Step)
    requires Inv(s) && Enabled(s, step) && !step.Begin?
    ensures Apply(s, step).begun == s.begun
  {
    if step.Next? {
      NextFinds(s, step.t);
    }
  }

  lemma {:induction false} WorldRun(w: World, moves: seq<Move>)
    requires WorldInv(w) && CanRun(w, moves)
    ensures WorldInv(RunTo(w, moves))
    decreases |moves|
  {
    if moves != [] {
      WorldStep(w, moves[0]);
      WorldRun(Moved(w, moves[0]), moves[1..]);
    }
  }

  lemma WorldStart()
    ensures WorldInv(Start)
  {
  }

  // ---------------------------------------------------------------- the registry underneath

  /** The operations of module `Registry` that a move makes. */
  function OpsOf(m: Move): seq<R.Op> {
    match m
    case Enter(id, name, conn, _) => [R.Register(id, name, conn)]
    case Delete(id, _) => [R.Unregister(id)]
    case Choose(id, _) => [R.SetActive(id)]
    case _ => []
  }

  function Ops(moves: seq<Move>): seq<R.Op> {
    if moves == [] then [] else OpsOf(moves[0]) + Ops(moves[1..])
  }

  /** `states` are the registries that `ops` pass through, from `r` to `q`. */
  ghost predicate Path(states: seq<R.Reg>, ops: seq<R.Op>, r: R.Reg, q: R.Reg) {
    && |states| == |ops| + 1 && states[0] == r && states[|ops|] == q
    && forall k :: 0 <= k < |ops| ==> R.Next(states[k], ops[k], states[k + 1])
  }

  lemma RegistryMove(w: World, m: Move)
    requires CanMove(w, m)
    ensures OpsOf(m) == [] ==> Moved(w, m).reg == w.reg
    ensures OpsOf(m) != [] ==> |OpsOf(m)| == 1 && R.Next(w.reg, OpsOf(m)[0], Moved(w, m).reg)
  {
  }

  lemma {:induction false} RegistryPath(w: World, moves: seq<Move>) returns (states: seq<R.Reg>)
    requires CanRun(w, moves)
    ensures Path(states, Ops(moves), w.reg, RunTo(w, moves).reg)
    decreases |moves|
  {
    if moves == [] {
      states := [w.reg];
    } else {
      RegistryMove(w, moves[0]);
      states := RegistryPath(Moved(w, moves[0]), moves[1..]);
      if OpsOf(moves[0]) != [] {
        PathFirst(states, Ops(moves[1..]), w.reg, OpsOf(moves[0])[0], Moved(w, moves[0]).reg, RunTo(w, moves).reg);
        assert OpsOf(moves[0]) == [OpsOf(moves[0])[0]];
        states := [w.reg] + states;
      }
    }
  }

  lemma PathFirst(states: seq<R.Reg>, ops: seq<R.Op>, r: R.Reg, op: R.Op, p: R.Reg, q: R.Reg)
    requires Path(states, ops, p, q) && R.Next(r, op, p)
    ensures Path([r] + states, [op] + ops, r, q)
  {
    var ss, os := [r] + states, [op] + ops;
    forall k | 0 <= k < |os| ensures R.Next(ss[k], os[k], ss[k + 1]) {
      if k > 0 {
        assert R.Next(states[k - 1], ops[k - 1], states[k]);
      }
    }
  }

  /** Beside all announcements the registry goes through exactly the operations of the run's calls, in
      order, so everything proved of such runs holds of it. */
  lemma RegistryUnderneath(moves: seq<Move>) returns (states: seq<R.Reg>)
    requires CanRun(Start, moves)
    ensures R.Run(states, Ops(moves)) && states[|Ops(moves)|] == RunTo(Start, moves).reg
    ensures R.Inv(RunTo(Start, moves).reg)
  {
    states := RegistryPath(Start, moves);
    R.RegistryHolds(states, Ops(moves), |Ops(moves)|);
  }

  // ---------------------------------------------------------------- what a subscriber believes

  predicate About(notes: seq<Note>, e: nat, id: Id) {
    e < |notes| && notes[e].id == id
  }

  predicate Tells(notes: seq<Note>, o: Offer, n: Note) {
    o.event < |notes| && notes[o.event] == n
  }

  /** Whether a subscriber that has taken the events `evs` lists the target: its latest note decides. */
  predicate Believes(notes: seq<Note>, evs: seq<nat>, id: Id) {
    evs != [] &&
    var e := evs[|evs| - 1];
    if About(notes, e, id) then notes[e].AddedNote? else Believes(notes, evs[..|evs| - 1], id)
  }

  /** The target was announced to the subscriber, and not told removed after that. */
  predicate AddedLast(notes: seq<Note>, offers: seq<Offer>, id: Id) {
    exists j :: 0 <= j < |offers| && Tells(notes, offers[j], AddedNote(id)) &&
                forall k :: j < k < |offers| ==> !Tells(notes, offers[k], RemovedNote(id))
  }

  /** The removal was offered before the announcement. */
  predicate RemovedFirst(notes: seq<Note>, offers: seq<Offer>, id: Id) {
    exists i, j :: 0 <= i < j < |offers| &&
                   Tells(notes, offers[i], RemovedNote(id)) && Tells(notes, offers[j], AddedNote(id))
  }

  /** No note about the target was lost to a full queue. */
  predicate NoneLost(notes: seq<Note>, offers: seq<Offer>, id: Id) {
    forall j :: 0 <= j < |offers| && About(notes, offers[j].event, id) ==> offers[j].depth < SLOTS
  }

  lemma AddedLastStep(notes: seq<Note>, front: seq<Offer>, last: Offer, id: Id)
    ensures AddedLast(notes, front + [last], id) <==>
              if About(notes, last.event, id) then notes[last.event].AddedNote? else AddedLast(notes, front, id)
  {
    var offers := front + [last];
    assert offers[|front|] == last;
    if AddedLast(notes, front, id) && !Tells(notes, last, RemovedNote(id)) {
      var j :| 0 <= j < |front| && Tells(notes, front[j], AddedNote(id)) &&
               forall k :: j < k < |front| ==> !Tells(notes, front[k], RemovedNote(id));
      assert Tells(notes, offers[j], AddedNote(id));
    }
    if AddedLast(notes, offers, id) && !About(notes, last.event, id) {
      var j :| 0 <= j < |offers| && Tells(notes, offers[j], AddedNote(id)) &&
               forall k :: j < k < |offers| ==> !Tells(notes, offers[k], RemovedNote(id));
      assert j < |front| && front[j] == offers[j];
      assert forall k :: j < k < |front| ==> front[k] == offers[k];
    }
  }

  /** The offers that found a free slot decide what the subscriber believes. */
  lemma {:induction false} BelievesLatest(notes: seq<Note>, offers: seq<Offer>, id: Id)
    requires NoneLost(notes, offers, id)
    ensures Believes(notes, Taken(offers), id) <==> AddedLast(notes, offers, id)
  {
    if offers != [] {
      var front, last := offers[..|offers| - 1], offers[|offers| - 1];
      assert offers == front + [last];
      BelievesLatest(notes, front, id);
      AddedLastStep(notes, front, last, id);
      if last.depth < SLOTS {
        var evs := Taken(front) + [last.event];
        assert evs[..|evs| - 1] == Taken(front);
      } else {
        assert Taken(offers) == Taken(front);
      }
    }
  }

  /** Everything begun about the target was offered to the subscriber, and nothing more is to come. */
  ghost predicate Settled(w: World, u: Sub, id: Id) {
    && AddedNote(id) in w.notes && w.lock != Deleted(id)
    && (forall e :: About(w.notes, e, id) ==> Offered(u, e))
  }

  lemma OfferedAt(w: World, u: Sub, n: Note) returns (j: nat)
    requires n in w.notes && forall e :: About(w.notes, e, n.id) ==> Offered(u, e)
    ensures j < |u.offers| && Tells(w.notes, u.offers[j], n)
  {
    var e :| 0 <= e < |w.notes| && w.notes[e] == n;
    assert About(w.notes, e, n.id);
    j :| 0 <= j < |u.offers| && u.offers[j].event == e;
  }

  /** Each note is offered at one place only. */
  lemma ToldOnce(w: World, c: Chan, n: Note, j: nat, k: nat)
    requires WorldInv(w) && c in w.net.subs
    requires var u := w.net.subs[c];
             j < |u.offers| && k < |u.offers| && Tells(w.notes, u.offers[j], n) && Tells(w.notes, u.offers[k], n)
    ensures j == k
  {
    assert Fair(w.net.subs[c], w.net.begun);
  }

  lemma AddedLastIff(w: World, c: Chan, id: Id)
    requires WorldInv(w) && c in w.net.subs && Settled(w, w.net.subs[c], id)
    ensures var u := w.net.subs[c];
            AddedLast(w.notes, u.offers, id) <==> id in w.reg.targets || RemovedFirst(w.notes, u.offers, id)
  {
    var u := w.net.subs[c];
    var j := OfferedAt(w, u, AddedNote(id));
    assert id in w.used;
    if id in w.reg.targets {
      assert forall k :: 0 <= k < |u.offers| ==> !Tells(w.notes, u.offers[k], RemovedNote(id));
    } else {
      var i := OfferedAt(w, u, RemovedNote(id));
      forall k | 0 <= k < |u.offers| && Tells(w.notes, u.offers[k], RemovedNote(id)) ensures k == i {
        ToldOnce(w, c, RemovedNote(id), k, i);
      }
      forall k | 0 <= k < |u.offers| && Tells(w.notes, u.offers[k], AddedNote(id)) ensures k == j {
        ToldOnce(w, c, AddedNote(id), k, j);
      }
    }
  }

  /** Once everything about a target has been offered to a subscriber and none of it was dropped, the
      subscriber is wrong about the target exactly when it was told the removal first. */
  lemma WrongIffRemovedFirst(moves: seq<Move>, c: Chan, id: Id)
    requires CanRun(Start, moves) && c in RunTo(Start, moves).net.subs
    requires var w := RunTo(Start, moves); var u := w.net.subs[c];
             Settled(w, u, id) && NoneLost(w.notes, u.offers, id)
    ensures var w := RunTo(Start, moves); var u := w.net.subs[c];
            (Believes(w.notes, u.received + u.queue, id) <==> id in w.reg.targets) <==>
              !RemovedFirst(w.notes, u.offers, id)
  {
    WorldStart();
    WorldRun(Start, moves);
    var w := RunTo(Start, moves);
    ReplayMeans(w, c, id);
  }

  lemma ReplayMeans(w: World, c: Chan, id: Id)
    requires WorldInv(w) && c in w.net.subs
    requires var u := w.net.subs[c]; Settled(w, u, id) && NoneLost(w.notes, u.offers, id)
    ensures var u := w.net.subs[c];
            (Believes(w.notes, u.received + u.queue, id) <==> id in w.reg.targets) <==>
              !RemovedFirst(w.notes, u.offers, id)
  {
    var u := w.net.subs[c];
    assert Fair(u, w.net.begun);
    BelievesLatest(w.notes, u.offers, id);
    AddedLastIff(w, c, id);
    if id in w.reg.targets {
      assert id in w.used && RemovedNote(id) !in w.notes;
    }
  }

  // ---------------------------------------------------------------- exactly when a removal can mislead

  /** The announcement of the target is still on its way to the `i`-th subscriber. */
  ghost predicate Awaited(w: World, i: nat, id: Id) {
    id in w.unannounced || exists t :: Announcing(w, t, id) && w.net.casts[t].next <= i
  }

  predicate Announcing(w: World, t: nat, id: Id) {
    t in w.net.casts && w.net.casts[t].event < |w.notes| && w.notes[w.net.casts[t].event] == AddedNote(id)
  }

  /** Offers are only ever added, and a channel never joins twice. */
  lemma OffersStep(s: State, step: Step, c: Chan)
    requires Inv(s) && Enabled(s, step) && c in s.subs
    ensures var r := Apply(s, step);
            c in r.subs && s.subs[c].offers <= r.subs[c].offers && r.subs[c].joined == s.subs[c].joined
  {
    if step.Next? {
      NextFinds(s, step.t);
    }
  }

  lemma {:induction false} OffersRun(w: World, moves: seq<Move>, c: Chan)
    requires WorldInv(w) && CanRun(w, moves) && c in w.net.subs
    ensures var r := RunTo(w, moves);
            && c in r.net.subs && w.net.subs[c].offers <= r.net.subs[c].offers
            && r.net.subs[c].joined == w.net.subs[c].joined && w.notes <= r.notes
    decreases |moves|
  {
    if moves != [] {
      var m := moves[0];
      if m.Announce? || m.Tell? {
        OffersStep(w.net, Begin(m.t), c);
      } else if m.Net? {
        OffersStep(w.net, m.step, c);
      }
      WorldStep(w, m);
      OffersRun(Moved(w, m), moves[1..], c);
    }
  }

  /** The announcement is behind the subscriber: it was offered before any removal, or before the
      subscriber's time. */
  ghost predicate Behind(w: World, u: Sub, e: nat, id: Id) {
    && e < |w.notes| && w.notes[e] == AddedNote(id)
    && (e < u.joined || exists j: nat :: OfferedBefore(w.notes, u.offers, e, j, id))
  }

  /** Event `e` was offered `j`-th, and no removal of the target before it. */
  predicate OfferedBefore(notes: seq<Note>, offers: seq<Offer>, e: nat, j: nat, id: Id) {
    && j < |offers| && offers[j].event == e
    && forall k :: 0 <= k < j ==> !Tells(notes, offers[k], RemovedNote(id))
  }

  lemma BehindStays(w: World, r: World, c: Chan, e: nat, id: Id)
    requires WorldInv(w) && Grows(w, r, c) && Behind(w, w.net.subs[c], e, id)
    ensures Behind(r, r.net.subs[c], e, id)
  {
    var u, v := w.net.subs[c], r.net.subs[c];
    assert Fair(u, w.net.begun);
    if e >= u.joined {
      var j: nat :| OfferedBefore(w.notes, u.offers, e, j, id);
      assert v.offers[j].event == e;
      forall k | 0 <= k < j ensures !Tells(r.notes, v.offers[k], RemovedNote(id)) {
        assert v.offers[k] == u.offers[k] && u.offers[k].event < |w.notes|;
      }
      assert OfferedBefore(r.notes, v.offers, e, j, id);
    }
  }

  lemma BehindNotFirst(w: World, c: Chan, e: nat, id: Id)
    requires WorldInv(w) && c in w.net.subs && Behind(w, w.net.subs[c], e, id)
    ensures !RemovedFirst(w.notes, w.net.subs[c].offers, id)
  {
    var u := w.net.subs[c];
    assert Fair(u, w.net.begun);
    forall i, j | 0 <= i < j < |u.offers| && Tells(w.notes, u.offers[j], AddedNote(id))
      ensures !Tells(w.notes, u.offers[i], RemovedNote(id))
    {
      assert u.offers[j].event == e;
    }
  }

  /** What is neither to be announced nor on its way is behind. */
  lemma NotAwaitedBehind(w: World, i: nat, id: Id) returns (e: nat)
    requires WorldInv(w) && i < |w.net.streams| && id in w.reg.targets && !Awaited(w, i, id)
    ensures w.net.streams[i] in w.net.subs && Behind(w, w.net.subs[w.net.streams[i]], e, id)
  {
    var c := w.net.streams[i];
    assert c in w.net.streams && id in w.used;
    var u := w.net.subs[c];
    assert AddedNote(id) in w.notes && RemovedNote(id) !in w.notes;
    e :| 0 <= e < |w.notes| && w.notes[e] == AddedNote(id);
    assert Reached(u, w.net.casts, w.net.begun, i);
    PendingAwaited(w, i, e, id);
    if e >= u.joined {
      var j: nat :| j < |u.offers| && u.offers[j].event == e;
      assert OfferedBefore(w.notes, u.offers, e, j, id);
    }
  }

  lemma PendingAwaited(w: World, i: nat, e: nat, id: Id)
    requires e < |w.notes| && w.notes[e] == AddedNote(id)
    ensures Pending(w.net.casts, e, i) ==> Awaited(w, i, id)
  {
    if Pending(w.net.casts, e, i) {
      var t :| t in w.net.casts && w.net.casts[t].event == e && w.net.casts[t].next <= i;
      assert Announcing(w, t, id);
    }
  }

  /** `r` differs from `w` only by what walk `t` has offered and subscribers have received. */
  ghost predicate Further(w: World, r: World, t: nat) {
    && r == w.(net := r.net) && r.net.streams == w.net.streams && r.net.begun == w.net.begun
    && t in w.net.casts && t in r.net.casts && r.net.casts[t].event == w.net.casts[t].event
    && r.net.casts.Keys == w.net.casts.Keys
    && (forall v :: v in w.net.casts && v != t ==> r.net.casts[v] == w.net.casts[v])
    && SamePlaces(w.net, r.net)
  }

  lemma AdvanceStep(w: World, t: nat)
    requires WorldInv(w) && t in w.net.casts && w.net.casts[t].next < |w.net.streams|
    ensures CanMove(w, Net(Next(t))) && Further(w, Moved(w, Net(Next(t))), t)
    ensures Moved(w, Net(Next(t))).net.casts[t].next == w.net.casts[t].next + 1
    ensures var c := w.net.streams[w.net.casts[t].next];
            && c in w.net.subs
            && Moved(w, Net(Next(t))).net.subs == w.net.subs[c := Send(w.net.subs[c], w.net.casts[t].event)]
  {
    NextReady(w.net, t);
    NextNet(w.net, t);
  }

  // ---------------------------------------------------------------- what a world leads to

  ghost predicate Leads(w: World, r: World) {
    exists moves :: CanRun(w, moves) && RunTo(w, moves) == r
  }

  lemma LeadsSelf(w: World)
    ensures Leads(w, w)
  {
    assert CanRun(w, []) && RunTo(w, []) == w;
  }

  lemma LeadsBy(w: World, m: Move)
    requires CanMove(w, m)
    ensures Leads(w, Moved(w, m))
  {
    Single(w, m);
  }

  lemma LeadsOn(w: World, q: World, r: World)
    requires Leads(w, q) && Leads(q, r)
    ensures Leads(w, r)
  {
    var a :| CanRun(w, a) && RunTo(w, a) == q;
    var b :| CanRun(q, b) && RunTo(q, b) == r;
    Concat(w, a, b);
  }

  lemma LeadsInv(w: World, r: World)
    requires WorldInv(w) && Leads(w, r)
    ensures WorldInv(r)
  {
    var moves :| CanRun(w, moves) && RunTo(w, moves) == r;
    WorldRun(w, moves);
  }

  /** Subscriber `c` keeps its place in time, and its offers and the notes only grow. */
  ghost predicate Grows(w: World, r: World, c: Chan) {
    && c in w.net.subs && c in r.net.subs && r.net.subs[c].joined == w.net.subs[c].joined
    && w.net.subs[c].offers <= r.net.subs[c].offers && w.notes <= r.notes
  }

  lemma LeadsGrows(w: World, r: World, c: Chan)
    requires WorldInv(w) && Leads(w, r) && c in w.net.subs
    ensures Grows(w, r, c)
  {
    var moves :| CanRun(w, moves) && RunTo(w, moves) == r;
    OffersRun(w, moves, c);
  }

  /** `r` differs from `w` only by what subscriber `c` has received. */
  ghost predicate OnlyReceives(w: World, r: World, c: Chan) {
    && c in w.net.subs && c in r.net.subs && r.net.subs[c].place == w.net.subs[c].place
    && r == w.(net := w.net.(subs := w.net.subs[c := r.net.subs[c]]))
  }

  /** A listening subscriber empties its queue. */
  lemma {:induction false} Drain(w: World, c: Chan) returns (r: World)
    requires c in w.net.subs && w.net.subs[c].place == Listening
    ensures Leads(w, r) && OnlyReceives(w, r, c) && r.net.subs[c].queue == []
    decreases |w.net.subs[c].queue|
  {
    if w.net.subs[c].queue == [] {
      LeadsSelf(w);
      r := w;
    } else {
      var m := Net(Receive(c));
      LeadsBy(w, m);
      r := Drain(Moved(w, m), c);
      LeadsOn(w, Moved(w, m), r);
    }
  }

  /** If `c` is listening, event `e` was offered to it and found an empty queue. */
  ghost predicate Clear(w: World, c: Chan, e: nat) {
    c in w.net.subs && (w.net.subs[c].place == Listening ==> Offer(e, 0) in w.net.subs[c].offers)
  }

  /** The subscriber that walk `t` comes to next empties its queue first, if it is listening. */
  lemma MakeRoom(w: World, t: nat) returns (r: World)
    requires WorldInv(w) && t in w.net.casts && w.net.casts[t].next < |w.net.streams|
    ensures Leads(w, r) && Further(w, r, t) && r.net.casts == w.net.casts
    ensures var c := w.net.streams[w.net.casts[t].next];
            c in r.net.subs && (r.net.subs[c].place == Listening ==> r.net.subs[c].queue == [])
  {
    var c := w.net.streams[w.net.casts[t].next];
    assert c in w.net.streams;
    if w.net.subs[c].place == Listening {
      r := Drain(w, c);
    } else {
      LeadsSelf(w);
      r := w;
    }
  }

  lemma OfferNow(w: World, t: nat) returns (r: World)
    requires WorldInv(w) && t in w.net.casts && w.net.casts[t].next < |w.net.streams|
    requires var c := w.net.streams[w.net.casts[t].next];
             c in w.net.subs && (w.net.subs[c].place == Listening ==> w.net.subs[c].queue == [])
    ensures Leads(w, r) && Further(w, r, t) && r.net.casts[t].next == w.net.casts[t].next + 1
    ensures Clear(r, w.net.streams[w.net.casts[t].next], w.net.casts[t].event)
  {
    AdvanceStep(w, t);
    r := Moved(w, Net(Next(t)));
    LeadsBy(w, Net(Next(t)));
    SendClear(w, r, w.net.streams[w.net.casts[t].next], w.net.casts[t].event);
  }

  /** The next offer of walk `t`; if that subscriber is listening, it finds an empty queue. */
  lemma OfferNext(w: World, t: nat) returns (r: World)
    requires WorldInv(w) && t in w.net.casts && w.net.casts[t].next < |w.net.streams|
    ensures Leads(w, r) && Further(w, r, t) && r.net.casts[t].next == w.net.casts[t].next + 1
    ensures Clear(r, w.net.streams[w.net.casts[t].next], w.net.casts[t].event)
  {
    var q := MakeRoom(w, t);
    LeadsInv(w, q);
    r := OfferNow(q, t);
    LeadsOn(w, q, r);
    FurtherOn(w, q, r, t);
  }

  lemma SendClear(q: World, r: World, c: Chan, e: nat)
    requires c in q.net.subs && (q.net.subs[c].place == Listening ==> q.net.subs[c].queue == [])
    requires r.net.subs == q.net.subs[c := Send(q.net.subs[c], e)]
    ensures Clear(r, c, e)
  {
    var o := r.net.subs[c].offers;
    assert o[|o| - 1] == Offer(e, |q.net.subs[c].queue|);
  }

  lemma FurtherOn(w: World, q: World, r: World, t: nat)
    requires Further(w, q, t) && Further(q, r, t)
    ensures Further(w, r, t)
  {
  }

  /** Walk `t` goes on until it has passed the `i`-th subscriber. */
  lemma {:induction false} Advance(w: World, t: nat, i: nat) returns (r: World)
    requires WorldInv(w) && t in w.net.casts && w.net.casts[t].next <= i < |w.net.streams|
    ensures Leads(w, r) && Further(w, r, t) && r.net.casts[t].next > i
    ensures Clear(r, w.net.streams[i], w.net.casts[t].event)
    decreases i - w.net.casts[t].next
  {
    var q := OfferNext(w, t);
    if w.net.casts[t].next < i {
      LeadsInv(w, q);
      r := Advance(q, t, i);
      LeadsOn(w, q, r);
      FurtherOn(w, q, r, t);
    } else {
      r := q;
    }
  }

  /** A walk that has passed a subscriber has offered it the event, and one that has not, has not. */
  lemma PassedOffered(w: World, t: nat, i: nat)
    requires WorldInv(w) && t in w.net.casts && i < |w.net.streams|
    ensures w.net.streams[i] in w.net.subs
    ensures Offered(w.net.subs[w.net.streams[i]], w.net.casts[t].event) <==> w.net.casts[t].next > i
  {
    var c := w.net.streams[i];
    assert c in w.net.streams;
    var e := w.net.casts[t].event;
    assert Reached(w.net.subs[c], w.net.casts, w.net.begun, i);
    assert w.net.subs[c].joined <= e < w.net.begun;
  }

  /** A removal offered before the announcement stays before it. */
  lemma MisledLater(w: World, r: World, c: Chan, id: Id, removal: nat, added: nat)
    requires Grows(w, r, c)
    requires removal < |w.notes| && w.notes[removal] == RemovedNote(id) && Offered(w.net.subs[c], removal)
    requires !Offered(w.net.subs[c], added) && Offered(r.net.subs[c], added)
    requires added < |r.notes| && r.notes[added] == AddedNote(id)
    ensures RemovedFirst(r.notes, r.net.subs[c].offers, id)
  {
    var u, v := w.net.subs[c], r.net.subs[c];
    var i :| 0 <= i < |u.offers| && u.offers[i].event == removal;
    var j :| 0 <= j < |v.offers| && v.offers[j].event == added;
    assert forall k :: 0 <= k < |u.offers| ==> v.offers[k] == u.offers[k];
    assert Tells(r.notes, v.offers[i], RemovedNote(id)) && Tells(r.notes, v.offers[j], AddedNote(id));
  }

  /** The subscriber was told the removal before the announcement. */
  ghost predicate Misled(w: World, c: Chan, id: Id) {
    c in w.net.subs && RemovedFirst(w.notes, w.net.subs[c].offers, id)
  }

  /** If it is listening, it has taken every note about the target. */
  ghost predicate Taking(w: World, c: Chan, id: Id) {
    c in w.net.subs && (w.net.subs[c].place == Listening ==> NoneLost(w.notes, w.net.subs[c].offers, id))
  }

  lemma ClearGrows(w: World, r: World, c: Chan, e: nat)
    requires Clear(w, c, e) && Grows(w, r, c) && r.net.subs[c].place == w.net.subs[c].place
    ensures Clear(r, c, e)
  {
    var u, v := w.net.subs[c], r.net.subs[c];
    if u.place == Listening {
      var k :| 0 <= k < |u.offers| && u.offers[k] == Offer(e, 0);
      assert v.offers[k] == u.offers[k];
    }
  }

  /** Both notes about the target found an empty queue. */
  lemma BothTaken(w: World, c: Chan, id: Id, removal: nat, added: nat)
    requires WorldInv(w) && Clear(w, c, removal) && Clear(w, c, added)
    requires removal < |w.notes| && w.notes[removal] == RemovedNote(id)
    requires added < |w.notes| && w.notes[added] == AddedNote(id)
    ensures Taking(w, c, id)
  {
    var u := w.net.subs[c];
    assert Fair(u, w.net.begun);
    if u.place == Listening {
      forall j | 0 <= j < |u.offers| && About(w.notes, u.offers[j].event, id) ensures u.offers[j].depth < SLOTS {
        var e := u.offers[j].event;
        assert w.notes[e] == RemovedNote(id) || w.notes[e] == AddedNote(id);
        assert e == removal || e == added;
        assert Offer(e, 0) in u.offers;
      }
    }
  }

  /** A world after the removal's walk has passed the `i`-th subscriber. */
  ghost predicate Told(w: World, i: nat, id: Id, removal: nat) {
    && i < |w.net.streams| && removal < |w.notes| && w.notes[removal] == RemovedNote(id)
    && Clear(w, w.net.streams[i], removal) && Offered(w.net.subs[w.net.streams[i]], removal)
  }

  /** The walk of a removal passes the `i`-th subscriber. */
  lemma WalkTold(w: World, t: nat, i: nat, id: Id) returns (r: World)
    requires WorldInv(w) && t in w.net.casts && w.net.casts[t].next <= i < |w.net.streams|
    requires w.net.casts[t].event < |w.notes| && w.notes[w.net.casts[t].event] == RemovedNote(id)
    ensures Leads(w, r) && Further(w, r, t) && Told(r, i, id, w.net.casts[t].event)
  {
    r := Advance(w, t, i);
    LeadsInv(w, r);
    PassedOffered(r, t, i);
  }

  /** `r` is `w` with one more walk `t` and its note. */
  ghost predicate Begun(w: World, r: World, t: nat, n: Note) {
    && t !in w.net.casts && r.notes == w.notes + [n] && r.net.subs == w.net.subs
    && r.net.streams == w.net.streams && r.net.casts == w.net.casts[t := Cast(|w.notes|, 0)]
  }

  /** The removal's walk begins. */
  lemma TellBegins(w: World, id: Id) returns (r: World, t: nat)
    requires WorldInv(w) && w.lock == Deleted(id)
    ensures Leads(w, r) && Begun(w, r, t, RemovedNote(id)) && r.unannounced == w.unannounced
    ensures r.lock == Telling(id, t) && r.reg == w.reg
  {
    t := Above(w.net.casts.Keys);
    assert t !in w.net.casts;
    r := Moved(w, Tell(t));
    LeadsBy(w, Tell(t));
  }

  /** The removal's walk begins and passes the `i`-th subscriber. */
  lemma TellsFirst(w: World, id: Id, i: nat) returns (r: World, removal: nat)
    requires WorldInv(w) && w.lock == Deleted(id) && i < |w.net.streams|
    ensures Leads(w, r) && Told(r, i, id, removal)
    ensures r.net.streams == w.net.streams && r.unannounced == w.unannounced && w.notes <= r.notes
    ensures SamePlaces(w.net, r.net)
    ensures forall v :: v in w.net.casts ==> v in r.net.casts && r.net.casts[v] == w.net.casts[v]
  {
    var q, t := TellBegins(w, id);
    LeadsInv(w, q);
    removal := |w.notes|;
    r := WalkTold(q, t, i, id);
    LeadsOn(w, q, r);
  }

  /** An announcement under way goes on past the subscriber, after the removal. */
  lemma LateWalk(w: World, id: Id, i: nat, t: nat, removal: nat) returns (r: World)
    requires WorldInv(w) && Told(w, i, id, removal) && Announcing(w, t, id) && w.net.casts[t].next <= i
    ensures Leads(w, r) && Misled(r, w.net.streams[i], id) && Taking(r, w.net.streams[i], id)
    ensures SamePlaces(w.net, r.net)
  {
    var c, added := w.net.streams[i], w.net.casts[t].event;
    PassedOffered(w, t, i);
    r := Advance(w, t, i);
    LeadsInv(w, r);
    PassedOffered(r, t, i);
    LeadsGrows(w, r, c);
    MisledLater(w, r, c, id, removal, added);
    ClearGrows(w, r, c, removal);
    BothTaken(r, c, id, removal, added);
  }

  /** The announcement begins only now. */
  lemma LateAnnouncement(w: World, id: Id, i: nat, removal: nat) returns (r: World)
    requires WorldInv(w) && Told(w, i, id, removal) && id in w.unannounced
    ensures Leads(w, r) && Misled(r, w.net.streams[i], id) && Taking(r, w.net.streams[i], id)
    ensures SamePlaces(w.net, r.net)
  {
    var t := Above(w.net.casts.Keys);
    assert t !in w.net.casts;
    var q := Moved(w, Announce(id, t));
    LeadsBy(w, Announce(id, t));
    LeadsInv(w, q);
    r := LateWalk(q, id, i, t, removal);
    LeadsOn(w, q, r);
  }

  /** Whichever way the announcement is awaited, it comes after the removal. */
  lemma ThenAnnounced(w: World, q: World, id: Id, i: nat, removal: nat) returns (r: World)
    requires WorldInv(q) && Told(q, i, id, removal) && Awaited(w, i, id)
    requires q.unannounced == w.unannounced && w.notes <= q.notes
    requires forall v :: v in w.net.casts ==> v in q.net.casts && q.net.casts[v] == w.net.casts[v]
    ensures Leads(q, r) && Misled(r, q.net.streams[i], id) && Taking(r, q.net.streams[i], id)
    ensures SamePlaces(q.net, r.net)
  {
    if id in w.unannounced {
      r := LateAnnouncement(q, id, i, removal);
    } else {
      var t :| Announcing(w, t, id) && w.net.casts[t].next <= i;
      assert Announcing(q, t, id);
      r := LateWalk(q, id, i, t, removal);
    }
  }

  lemma AwaitedMisleads(w: World, id: Id, i: nat) returns (r: World)
    requires WorldInv(w) && w.lock == Deleted(id) && i < |w.net.streams| && Awaited(w, i, id)
    ensures Leads(w, r) && Misled(r, w.net.streams[i], id) && Taking(r, w.net.streams[i], id)
    ensures SamePlaces(w.net, r.net)
  {
    var q, removal := TellsFirst(w, id, i);
    LeadsInv(w, q);
    r := ThenAnnounced(w, q, id, i, removal);
    LeadsOn(w, q, r);
  }

  // ---------------------------------------------------------------- the lock is let go

  /** Walk `t` goes on past the last subscriber. */
  lemma FinishWalk(w: World, t: nat) returns (r: World)
    requires WorldInv(w) && t in w.net.casts
    ensures Leads(w, r) && Further(w, r, t) && r.net.casts[t].next >= |r.net.streams|
  {
    if w.net.casts[t].next < |w.net.streams| {
      r := Advance(w, t, |w.net.streams| - 1);
    } else {
      LeadsSelf(w);
      r := w;
    }
  }

  lemma TellingEnds(w: World) returns (r: World)
    requires WorldInv(w) && w.lock.Telling?
    ensures Leads(w, r) && r.lock.Unlocked? && r.reg == w.reg
  {
    var q := FinishWalk(w, w.lock.t);
    var m := Net(End(w.lock.t));
    LeadsBy(q, m);
    r := Moved(q, m);
    LeadsOn(w, q, r);
  }

  /** A removal never keeps the registry's lock for good: from every world there is a way to one in
      which the lock is free and the registry as it was. */
  lemma LockFreed(moves: seq<Move>) returns (r: World)
    requires CanRun(Start, moves)
    ensures var w := RunTo(Start, moves); Leads(w, r) && r.lock.Unlocked? && r.reg == w.reg
  {
    WorldStart();
    WorldRun(Start, moves);
    var w := RunTo(Start, moves);
    match w.lock {
      case Unlocked =>
        LeadsSelf(w);
        r := w;
      case Deleted(id) =>
        var q, t := TellBegins(w, id);
        LeadsInv(w, q);
        r := TellingEnds(q);
        LeadsOn(w, q, r);
      case Telling(_, _) => r := TellingEnds(w);
    }
  }

  ghost predicate CanMislead(w: World, c: Chan, id: Id) {
    exists r :: Leads(w, r) && Misled(r, c, id)
  }

  lemma DeleteKeeps(w: World, id: Id, reg: R.Reg, i: nat)
    requires WorldInv(w) && CanMove(w, Delete(id, reg))
    ensures var r := Moved(w, Delete(id, reg));
            WorldInv(r) && r.lock == Deleted(id) && r.net == w.net && (Awaited(w, i, id) ==> Awaited(r, i, id))
  {
    var r := Moved(w, Delete(id, reg));
    WorldStep(w, Delete(id, reg));
    if Awaited(w, i, id) && id !in w.unannounced {
      var t :| Announcing(w, t, id) && w.net.casts[t].next <= i;
      assert Announcing(r, t, id);
    }
  }

  /** What is behind the subscriber when the target is deleted never misleads it. */
  lemma SafeAfterDelete(w: World, id: Id, reg: R.Reg, i: nat, q: World)
    requires WorldInv(w) && CanMove(w, Delete(id, reg)) && i < |w.net.streams| && !Awaited(w, i, id)
    requires Leads(Moved(w, Delete(id, reg)), q)
    ensures !Misled(q, w.net.streams[i], id)
  {
    var r := Moved(w, Delete(id, reg));
    DeleteKeeps(w, id, reg, i);
    var c := w.net.streams[i];
    var e := NotAwaitedBehind(w, i, id);
    assert Behind(r, r.net.subs[c], e, id);
    LeadsGrows(r, q, c);
    BehindStays(r, q, c, e, id);
    LeadsInv(r, q);
    BehindNotFirst(q, c, e, id);
  }

  /** Deleting a target can leave a listed subscriber with the removal told before the announcement
      exactly when the announcement has not passed that subscriber; so never once `RegisterTarget`
      has returned. */
  lemma RemovalMisleadsIff(w: World, id: Id, reg: R.Reg, i: nat)
    requires WorldInv(w) && CanMove(w, Delete(id, reg)) && i < |w.net.streams|
    ensures CanMislead(Moved(w, Delete(id, reg)), w.net.streams[i], id) <==> Awaited(w, i, id)
  {
    if Awaited(w, i, id) {
      DeleteKeeps(w, id, reg, i);
      var q := AwaitedMisleads(Moved(w, Delete(id, reg)), id, i);
    } else {
      forall q | Leads(Moved(w, Delete(id, reg)), q) ensures !Misled(q, w.net.streams[i], id) {
        SafeAfterDelete(w, id, reg, i, q);
      }
    }
  }

  // ---------------------------------------------------------------- a wrong list

  /** Everything about the target was offered to the subscriber and taken, and still it lists a target
      that is not registered. */
  ghost predicate Deceived(w: World, c: Chan, id: Id) {
    && c in w.net.subs && Settled(w, w.net.subs[c], id) && NoneLost(w.notes, w.net.subs[c].offers, id)
    && Believes(w.notes, w.net.subs[c].received + w.net.subs[c].queue, id) && id !in w.reg.targets
  }

  /** A subscriber that was told the removal first has been told everything, and the target is gone. */
  lemma MisledSettled(w: World, c: Chan, id: Id)
    requires WorldInv(w) && Misled(w, c, id)
    ensures Settled(w, w.net.subs[c], id) && id !in w.reg.targets
  {
    var u := w.net.subs[c];
    var i, j :| 0 <= i < j < |u.offers| &&
                Tells(w.notes, u.offers[i], RemovedNote(id)) && Tells(w.notes, u.offers[j], AddedNote(id));
    var removal, added := u.offers[i].event, u.offers[j].event;
    assert RemovedNote(id) in w.notes && AddedNote(id) in w.notes;
    assert RemovedNote(id).id in w.used;
    forall e: nat | About(w.notes, e, id) ensures Offered(u, e) {
      assert w.notes[e] == RemovedNote(id) || w.notes[e] == AddedNote(id);
      assert e == removal || e == added;
    }
  }

  /** Told the removal first, with nothing lost, the subscriber's list is wrong; and the other way round. */
  lemma DeceivedIffMisled(w: World, c: Chan, id: Id)
    requires WorldInv(w) && c in w.net.subs && NoneLost(w.notes, w.net.subs[c].offers, id)
    ensures Deceived(w, c, id) <==> Misled(w, c, id)
  {
    if Misled(w, c, id) {
      MisledSettled(w, c, id);
      ReplayMeans(w, c, id);
    } else if Settled(w, w.net.subs[c], id) {
      ReplayMeans(w, c, id);
    }
  }

  ghost predicate CanDeceive(w: World, c: Chan, id: Id) {
    exists r :: Leads(w, r) && Deceived(r, c, id)
  }

  /** The notes a run gives to a listening subscriber, all of them taken, can leave its list wrong about
      a deleted target exactly when the announcement had not passed the subscriber at the deletion. */
  lemma RemovalDeceivesIff(w: World, id: Id, reg: R.Reg, i: nat)
    requires WorldInv(w) && CanMove(w, Delete(id, reg)) && i < |w.net.streams|
    requires At(w.net, w.net.streams[i], Listening)
    ensures CanDeceive(Moved(w, Delete(id, reg)), w.net.streams[i], id) <==> Awaited(w, i, id)
  {
    var c, r := w.net.streams[i], Moved(w, Delete(id, reg));
    DeleteKeeps(w, id, reg, i);
    if Awaited(w, i, id) {
      var q := AwaitedMisleads(r, id, i);
      LeadsInv(r, q);
      DeceivedIffMisled(q, c, id);
    } else {
      forall q | Leads(r, q) ensures !Deceived(q, c, id) {
        LeadsInv(r, q);
        SafeAfterDelete(w, id, reg, i, q);
        NotDeceived(q, c, id);
      }
    }
  }

  lemma NotDeceived(w: World, c: Chan, id: Id)
    requires WorldInv(w) && !Misled(w, c, id)
    ensures !Deceived(w, c, id)
  {
    if c in w.net.subs && NoneLost(w.notes, w.net.subs[c].offers, id) {
      DeceivedIffMisled(w, c, id);
    }
  }

  const OneTarget := R.Reg(map["a" := R.Target("a", R.Active)], map["a" := 0], "a", {0}, {})
  const NoTarget := R.Reg(map[], map[], "", {0}, {0})

  /** A subscriber has joined. */
  const Listened := World(R.Empty, {}, {}, Unlocked, [], Apply(Init, Join(7)))

  /** Then a target is registered but not announced. */
  const Entered := World(OneTarget, {"a"}, {"a"}, Unlocked, [], Apply(Init, Join(7)))

  lemma Listens()
    ensures Leads(Start, Listened) && WorldInv(Listened)
  {
    WorldStart();
    LeadsBy(Start, Net(Join(7)));
    LeadsInv(Start, Listened);
  }

  lemma Enters()
    requires WorldInv(Listened)
    ensures Leads(Listened, Entered) && WorldInv(Entered)
  {
    var m := Enter("a", "a", 0, OneTarget);
    assert R.Next(R.Empty, R.Register("a", "a", 0), OneTarget);
    LeadsBy(Listened, m);
    LeadsInv(Listened, Entered);
  }

  lemma EnteredDeletes()
    ensures CanMove(Entered, Delete("a", NoTarget))
  {
    assert NoTarget.targets == OneTarget.targets - {"a"} && NoTarget.conns == OneTarget.conns - {"a"};
    assert R.Elected(NoTarget.targets, "");
  }

  lemma EnteredDeceives()
    requires WorldInv(Entered)
    ensures CanDeceive(Entered, 7, "a")
  {
    EnteredDeletes();
    assert Entered.net.streams == [7];
    RemovalDeceivesIff(Entered, "a", NoTarget, 0);
    var r := Moved(Entered, Delete("a", NoTarget));
    LeadsBy(Entered, Delete("a", NoTarget));
    var q :| Leads(r, q) && Deceived(q, 7, "a");
    LeadsOn(Entered, r, q);
  }

  /** Some run leaves a subscriber, with nothing lost, listing a target that is not registered. */
  lemma EarlyRemovalDeceives()
    ensures CanDeceive(Start, 7, "a")
  {
    Listens();
    Enters();
    EnteredDeceives();
    LeadsOn(Start, Listened, Entered);
    var q :| Leads(Entered, q) && Deceived(q, 7, "a");
    LeadsOn(Start, Entered, q);
  }
}
