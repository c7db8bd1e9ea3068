/**
 Event broadcast to bounded subscriber queues (pkg/dapmux/server.go).

 A subscriber joins and leaves the list of streams under the write lock, and closes its channel only
 after unlocking.  A broadcast holds the read lock while it walks the list, so several may walk at
 once.  Broadcast events are numbered in the order in which the broadcasts took the lock.
 */
module Broadcast {
  import opened Basics

  const SLOTS: nat := 100

  type Chan = nat

  /** An event offered to a channel, and the number of events queued there at that moment. */
  datatype Offer = Offer(event: nat, depth: nat)

  datatype Place = Listening | Leaving | Removed | Closed

  /** A subscriber: `joined` and `left` are the numbers of broadcasts begun when it entered and left
      the list. */
  datatype Sub = Sub(place: Place, joined: nat, left: Option<nat>, offers: seq<Offer>,
                     queue: seq<nat>, received: seq<nat>)

  /** A broadcast under way: its event and the index of the next stream to offer it to. */
  datatype Cast = Cast(event: nat, next: nat)

  datatype State = State(streams: seq<Chan>, subs: map<Chan, Sub>, casts: map<nat, Cast>, begun: nat,
                         crashed: bool)

  datatype Step =
    | Join(c: Chan)
    | Receive(c: Chan)
    | Leave(c: Chan)
    | Remove(c: Chan)
    | Close(c: Chan)
    | Begin(t: nat)
    | Next(t: nat)
    | End(t: nat)

  const Init := State([], map[], map[], 0, false)

  /** The list without the first occurrence of `c`. */
  function Without(s: seq<Chan>, c: Chan): (r: seq<Chan>)
    ensures c !in s ==> r == s
  {
    if s == [] then [] else if s[0] == c then s[1..] else [s[0]] + Without(s[1..], c)
  }

  predicate At(s: State, c: Chan, place: Place) {
    c in s.subs && s.subs[c].place == place
  }

  predicate Enabled(s: State, a: Step) {
    match a
    case Join(c) => c !in s.subs && s.casts == map[]
    case Receive(c) => At(s, c, Listening) && s.subs[c].queue != []
    case Leave(c) => At(s, c, Listening)
    case Remove(c) => At(s, c, Leaving) && s.casts == map[]
    case Close(c) => At(s, c, Removed)
    case Begin(t) => t !in s.casts
    case Next(t) => t in s.casts && s.casts[t].next < |s.streams| && s.streams[s.casts[t].next] in s.subs
    case End(t) => t in s.casts && s.casts[t].next >= |s.streams|
  }

  /** The non-blocking send: the event is queued, or dropped when no slot is free. */
  function Send(u: Sub, e: nat): Sub {
    u.(offers := u.offers + [Offer(e, |u.queue|)],
       queue := if |u.queue| < SLOTS then u.queue + [e] else u.queue)
  }

  function Apply(s: State, a: Step): State
    requires Enabled(s, a)
  {
    match a
    case Join(c) => s.(streams := s.streams + [c], subs := s.subs[c := Sub(Listening, s.begun, None, [], [], [])])
    case Receive(c) =>
      var u := s.subs[c];
      s.(subs := s.subs[c := u.(queue := u.queue[1..], received := u.received + [u.queue[0]])])
    case Leave(c) => s.(subs := s.subs[c := s.subs[c].(place := Leaving)])
    case Remove(c) =>
      s.(streams := Without(s.streams, c),
         subs := s.subs[c := s.subs[c].(place := Removed, left := Some(s.begun))])
    case Close(c) => s.(subs := s.subs[c := s.subs[c].(place := Closed)])
    case Begin(t) => s.(casts := s.casts[t := Cast(s.begun, 0)], begun := s.begun + 1)
    case Next(t) => ApplyNext(s, t)
    case End(t) => s.(casts := s.casts - {t})
  }

  /** Sending on a closed channel panics. */
  function ApplyNext(s: State, t: nat): State
    requires Enabled(s, Next(t))
  {
    var c := s.streams[s.casts[t].next];
    if s.subs[c].place == Closed then s.(crashed := true)
    else s.(casts := s.casts[t := s.casts[t].(next := s.casts[t].next + 1)],
            subs := s.subs[c := Send(s.subs[c], s.casts[t].event)])
  }

  predicate Feasible(s: State, steps: seq<Step>)
    decreases |steps|
  {
    steps == [] || (Enabled(s, steps[0]) && Feasible(Apply(s, steps[0]), steps[1..]))
  }

  function After(s: State, steps: seq<Step>): State
    requires Feasible(s, steps)
    decreases |steps|
  {
    if steps == [] then s else After(Apply(s, steps[0]), steps[1..])
  }

  lemma Prepend(s: State, a: Step, steps: seq<Step>)
    requires Enabled(s, a) && Feasible(Apply(s, a), steps)
    ensures Feasible(s, [a] + steps) && After(s, [a] + steps) == After(Apply(s, a), steps)
    ensures !a.Begin? && NoBegin(steps) ==> NoBegin([a] + steps)
  {
    assert ([a] + steps)[1..] == steps;
  }

  // ---------------------------------------------------------------- what holds of one subscriber

  /** The offered events that found a free slot, in order. */
  function Taken(offers: seq<Offer>): seq<nat> {
    if offers == [] then []
    else
      var last := offers[|offers| - 1];
      Taken(offers[..|offers| - 1]) + if last.depth < SLOTS then [last.event] else []
  }

  predicate Offered(u: Sub, e: nat) {
    exists k :: 0 <= k < |u.offers| && u.offers[k].event == e
  }

  /** Nothing is offered twice; what the subscriber received and what is queued are, in order, the
      offers that found one of the slots free. */
  ghost predicate Fair(u: Sub, begun: nat) {
    && |u.queue| <= SLOTS && u.joined <= begun
    && Taken(u.offers) == u.received + u.queue
    && (forall k :: 0 <= k < |u.offers| ==> u.joined <= u.offers[k].event < begun && u.offers[k].depth <= SLOTS)
    && (forall j, k :: 0 <= j < k < |u.offers| ==> u.offers[j].event != u.offers[k].event)
  }

  lemma SendFair(u: Sub, e: nat, begun: nat)
    requires Fair(u, begun) && u.joined <= e < begun && !Offered(u, e)
    ensures Fair(Send(u, e), begun)
  {
    var o := Send(u, e).offers;
    assert o[..|o| - 1] == u.offers;
    assert Taken(o) == u.received + Send(u, e).queue;
    forall j, k | 0 <= j < k < |o| ensures o[j].event != o[k].event {
      if k == |u.offers| {
        assert u.offers[j].event != e;
      }
    }
  }

  // ---------------------------------------------------------------- what holds of the whole

  predicate Listed(u: Sub) {
    u.place == Listening || u.place == Leaving
  }

  /** The list holds exactly the subscribers that have not been removed, each once. */
  ghost predicate ListInv(streams: seq<Chan>, subs: map<Chan, Sub>) {
    && NoDuplicates(streams)
    && (forall c :: c in streams ==> c in subs && Listed(subs[c]))
    && (forall c :: c in subs && Listed(subs[c]) ==> c in streams)
  }

  ghost predicate FairInv(subs: map<Chan, Sub>, begun: nat) {
    forall c :: c in subs ==> Fair(subs[c], begun)
  }

  /** Broadcasts under way carry different events, all begun after every listed subscriber joined. */
  ghost predicate CastInv(streams: seq<Chan>, subs: map<Chan, Sub>, casts: map<nat, Cast>, begun: nat) {
    && (forall t :: t in casts ==> casts[t].event < begun && casts[t].next <= |streams|)
    && (forall t, v :: t in casts && v in casts && t != v ==> casts[t].event != casts[v].event)
    && (forall t, c :: t in casts && c in streams && c in subs ==> subs[c].joined <= casts[t].event)
  }

  /** The broadcast of `e` has not yet reached the `i`-th stream. */
  predicate Pending(casts: map<nat, Cast>, e: nat, i: nat) {
    exists t :: t in casts && casts[t].event == e && casts[t].next <= i
  }

  /** The `i`-th stream was offered exactly the events begun since it joined and not still on the way. */
  ghost predicate Reached(u: Sub, casts: map<nat, Cast>, begun: nat, i: nat) {
    forall e :: u.joined <= e < begun ==> (Offered(u, e) <==> !Pending(casts, e, i))
  }

  ghost predicate ReachInv(streams: seq<Chan>, subs: map<Chan, Sub>, casts: map<nat, Cast>, begun: nat) {
    forall i :: 0 <= i < |streams| && streams[i] in subs ==> Reached(subs[streams[i]], casts, begun, i)
  }

  /** A removed subscriber was offered exactly the events begun between its joining and its removal. */
  ghost predicate GoneInv(subs: map<Chan, Sub>) {
    forall c :: c in subs && !Listed(subs[c]) ==> Complete(subs[c])
  }

  ghost predicate Complete(u: Sub) {
    u.left.Some? && forall e: nat :: Offered(u, e) <==> u.joined <= e < u.left.value
  }

  ghost predicate Inv(s: State) {
    && ListInv(s.streams, s.subs)
    && FairInv(s.subs, s.begun)
    && CastInv(s.streams, s.subs, s.casts, s.begun)
    && ReachInv(s.streams, s.subs, s.casts, s.begun)
    && GoneInv(s.subs)
    && !s.crashed
  }

  // ---------------------------------------------------------------- removal

  lemma {:induction false} WithoutAt(s: seq<Chan>, i: nat)
    requires i < |s| && s[i] !in s[..i]
    ensures Without(s, s[i]) == s[..i] + s[i + 1..]
  {
    if i > 0 {
      assert s[0] in s[..i];
      assert s[1..][..i - 1] == s[..i][1..];
      WithoutAt(s[1..], i - 1);
    }
  }

  lemma WithoutMembers(s: seq<Chan>, c: Chan)
    requires NoDuplicates(s) && c in s
    ensures NoDuplicates(Without(s, c))
    ensures forall d :: d in Without(s, c) <==> d in s && d != c
  {
    var i := WithoutKeepsOrder(s, c);
    var r := Without(s, c);
    assert forall k :: 0 <= k < |r| ==> r[k] == s[if k < i then k else k + 1];
    forall d | d in s && d != c ensures d in r {
      var k :| 0 <= k < |s| && s[k] == d;
      assert r[if k < i then k else k - 1] == d;
    }
  }

  /** Removal takes out `c` alone: the others stay in the same order. */
  lemma WithoutKeepsOrder(s: seq<Chan>, c: Chan) returns (i: nat)
    requires NoDuplicates(s) && c in s
    ensures i < |s| && s[i] == c && Without(s, c) == s[..i] + s[i + 1..]
  {
    i :| 0 <= i < |s| && s[i] == c;
    WithoutAt(s, i);
  }

  /** Shift the elements after position `i` down by one, in the same array. */
  method ShiftDown(a: array<Chan>, n: nat, i: nat)
    requires i < n <= a.Length
    modifies a
    ensures a[..n - 1] == old(a[..i] + a[i + 1..n])
  {
    var j := i;
    while j + 1 < n
      invariant i <= j < n
      invariant forall k :: 0 <= k < i ==> a[k] == old(a[k])
      invariant forall k :: i <= k < j ==> a[k] == old(a[k + 1])
      invariant forall k :: j <= k < n ==> a[k] == old(a[k])
    {
      a[j] := a[j + 1];
      j := j + 1;
    }
  }

  /** The removal loop: find the channel, then close the gap in the same array. */
  method RemoveInPlace(a: array<Chan>, n: nat, c: Chan) returns (m: nat)
    requires n <= a.Length
    modifies a
    ensures m <= n && a[..m] == Without(old(a[..n]), c)
  {
    ghost var s := a[..n];
    var i := 0;
    while i < n && a[i] != c
      invariant i <= n && c !in s[..i]
    {
      i := i + 1;
    }
    if i == n {
      assert s[..i] == s;
      return n;
    }
    WithoutAt(s, i);
    assert a[..i] + a[i + 1..n] == s[..i] + s[i + 1..];
    ShiftDown(a, n, i);
    m := n - 1;
  }

  // ---------------------------------------------------------------- every step keeps the invariant

  /** A step that touches one subscriber but neither its offers nor its place in the list. */
  lemma TouchKeeps(s: State, c: Chan, u: Sub)
    requires Inv(s) && c in s.subs && Fair(u, s.begun)
    requires var w := s.subs[c];
             w.joined == u.joined && w.left == u.left && w.offers == u.offers && Listed(w) == Listed(u)
    ensures Inv(s.(subs := s.subs[c := u]))
  {
    var subs := s.subs[c := u];
    forall i | 0 <= i < |s.streams| && s.streams[i] in subs
      ensures Reached(subs[s.streams[i]], s.casts, s.begun, i)
    {
      SameReached(s.subs[s.streams[i]], subs[s.streams[i]], s.casts, s.begun, i);
    }
    forall d | d in subs && !Listed(subs[d]) ensures Complete(subs[d]) {
      SameComplete(s.subs[d], subs[d]);
    }
  }

  lemma SameReached(w: Sub, u: Sub, casts: map<nat, Cast>, begun: nat, i: nat)
    requires w.joined == u.joined && w.offers == u.offers && Reached(w, casts, begun, i)
    ensures Reached(u, casts, begun, i)
  {
    assert forall e :: Offered(u, e) == Offered(w, e);
  }

  lemma SameComplete(w: Sub, u: Sub)
    requires w.joined == u.joined && w.offers == u.offers && w.left == u.left && Complete(w)
    ensures Complete(u)
  {
    assert forall e :: Offered(u, e) == Offered(w, e);
  }

  lemma ReceiveFair(u: Sub, begun: nat)
    requires Fair(u, begun) && u.queue != []
    ensures Fair(u.(queue := u.queue[1..], received := u.received + [u.queue[0]]), begun)
  {
    assert u.received + u.queue == u.received + [u.queue[0]] + u.queue[1..];
  }

  lemma JoinReach(s: State, c: Chan)
    requires Inv(s) && Enabled(s, Join(c))
    ensures var r := Apply(s, Join(c)); ReachInv(r.streams, r.subs, r.casts, r.begun)
  {
    var r := Apply(s, Join(c));
    forall i | 0 <= i < |r.streams| && r.streams[i] in r.subs
      ensures Reached(r.subs[r.streams[i]], r.casts, r.begun, i)
    {
      if i < |s.streams| {
        assert r.streams[i] == s.streams[i] && s.streams[i] in s.streams;
        assert Reached(s.subs[s.streams[i]], s.casts, s.begun, i);
      }
    }
  }

  lemma JoinList(streams: seq<Chan>, subs: map<Chan, Sub>, c: Chan, u: Sub)
    requires ListInv(streams, subs) && c !in subs && Listed(u)
    ensures ListInv(streams + [c], subs[c := u])
  {
    assert c !in streams;
    assert (streams + [c])[|streams|] == c;
  }

  lemma JoinKeeps(s: State, c: Chan)
    requires Inv(s) && Enabled(s, Join(c))
    ensures Inv(Apply(s, Join(c)))
  {
    var u := Sub(Listening, s.begun, None, [], [], []);
    JoinReach(s, c);
    JoinList(s.streams, s.subs, c, u);
    FairUpdate(s.subs, c, u, s.begun);
  }

  lemma RemoveReach(s: State, c: Chan)
    requires Inv(s) && Enabled(s, Remove(c))
    ensures var r := Apply(s, Remove(c)); ReachInv(r.streams, r.subs, r.casts, r.begun)
  {
    var r := Apply(s, Remove(c));
    WithoutMembers(s.streams, c);
    forall i | 0 <= i < |r.streams| && r.streams[i] in r.subs
      ensures Reached(r.subs[r.streams[i]], r.casts, r.begun, i)
    {
      var d := r.streams[i];
      assert d in s.streams && d != c;
      var j :| 0 <= j < |s.streams| && s.streams[j] == d;
      assert Reached(s.subs[d], s.casts, s.begun, j);
    }
  }

  lemma RemoveKeeps(s: State, c: Chan)
    requires Inv(s) && Enabled(s, Remove(c))
    ensures Inv(Apply(s, Remove(c)))
  {
    RemoveReach(s, c);
    RemovedComplete(s, c);
    WithoutMembers(s.streams, c);
  }

  /** With no broadcast under way a listed subscriber has been offered everything since it joined. */
  lemma RemovedComplete(s: State, c: Chan)
    requires Inv(s) && Enabled(s, Remove(c))
    ensures Complete(Apply(s, Remove(c)).subs[c])
  {
    var u := s.subs[c];
    assert Fair(u, s.begun);
    assert c in s.streams;
    var i :| 0 <= i < |s.streams| && s.streams[i] == c;
    assert Reached(u, s.casts, s.begun, i);
    var v := Apply(s, Remove(c)).subs[c];
    forall e: nat ensures Offered(v, e) <==> v.joined <= e < v.left.value {
      assert Offered(v, e) == Offered(u, e);
    }
  }

  lemma BeginKeeps(s: State, t: nat)
    requires Inv(s) && Enabled(s, Begin(t))
    ensures Inv(Apply(s, Begin(t)))
  {
    var r := Apply(s, Begin(t));
    forall c | c in r.subs ensures Fair(r.subs[c], r.begun) {
      assert Fair(s.subs[c], s.begun);
    }
    forall i | 0 <= i < |r.streams| && r.streams[i] in r.subs
      ensures Reached(r.subs[r.streams[i]], r.casts, r.begun, i)
    {
      var u := s.subs[r.streams[i]];
      assert Fair(u, s.begun) && Reached(u, s.casts, s.begun, i);
      forall e | u.joined <= e < r.begun ensures Offered(u, e) <==> !Pending(r.casts, e, i) {
        BeginPending(s, t, e, i);
      }
    }
  }

  lemma BeginPending(s: State, t: nat, e: nat, i: nat)
    requires t !in s.casts && (forall v :: v in s.casts ==> s.casts[v].event < s.begun)
    ensures Pending(s.casts[t := Cast(s.begun, 0)], e, i) <==> Pending(s.casts, e, i) || e == s.begun
  {
    var casts := s.casts[t := Cast(s.begun, 0)];
    if e == s.begun {
      assert casts[t].event == e;
    }
    if Pending(s.casts, e, i) {
      var v :| v in s.casts && s.casts[v].event == e && s.casts[v].next <= i;
      assert casts[v].event == e && casts[v].next <= i;
    }
  }

  lemma EndKeeps(s: State, t: nat)
    requires Inv(s) && Enabled(s, End(t))
    ensures Inv(Apply(s, End(t)))
  {
    var r := Apply(s, End(t));
    forall i | 0 <= i < |r.streams| && r.streams[i] in r.subs
      ensures Reached(r.subs[r.streams[i]], r.casts, r.begun, i)
    {
      var u := s.subs[r.streams[i]];
      assert Reached(u, s.casts, s.begun, i);
      forall e: nat ensures Pending(s.casts, e, i) <==> Pending(r.casts, e, i) {
        if Pending(s.casts, e, i) {
          var v :| v in s.casts && s.casts[v].event == e && s.casts[v].next <= i;
          assert v in r.casts && r.casts[v] == s.casts[v];
        }
      }
    }
  }

  /** One more stream is reached by `t` and by no other broadcast. */
  lemma NextPending(s: State, t: nat, e: nat, i: nat)
    requires t in s.casts
    requires forall v :: v in s.casts && v != t ==> s.casts[v].event != s.casts[t].event
    ensures var x := s.casts[t];
            Pending(s.casts[t := x.(next := x.next + 1)], e, i) <==>
              Pending(s.casts, e, i) && !(e == x.event && i == x.next)
  {
    var x := s.casts[t];
    var casts := s.casts[t := x.(next := x.next + 1)];
    if Pending(s.casts, e, i) && !(e == x.event && i == x.next) {
      var v :| v in s.casts && s.casts[v].event == e && s.casts[v].next <= i;
      assert casts[v].event == e && casts[v].next <= i;
    }
    if Pending(casts, e, i) {
      var v :| v in casts && casts[v].event == e && casts[v].next <= i;
      assert s.casts[v].event == e && s.casts[v].next <= i;
    }
  }

  lemma SendOffered(u: Sub, e: nat, x: nat)
    ensures Offered(Send(u, e), x) <==> Offered(u, x) || x == e
  {
    var v := Send(u, e);
    if Offered(u, x) {
      var k :| 0 <= k < |u.offers| && u.offers[k].event == x;
      assert v.offers[k].event == x;
    }
    if x == e {
      assert v.offers[|u.offers|].event == x;
    }
  }

  /** The stream that `t` comes to next is open and has not been offered the event. */
  lemma NextFinds(s: State, t: nat)
    requires Inv(s) && Enabled(s, Next(t))
    ensures var c := s.streams[s.casts[t].next];
            && Listed(s.subs[c]) && s.subs[c].joined <= s.casts[t].event
            && !Offered(s.subs[c], s.casts[t].event)
  {
    var n := s.casts[t].next;
    assert s.streams[n] in s.streams;
    assert Reached(s.subs[s.streams[n]], s.casts, s.begun, n);
    assert Pending(s.casts, s.casts[t].event, n);
  }

  lemma NextReached(s: State, t: nat, u: Sub, v: Sub, i: nat)
    requires t in s.casts && Reached(u, s.casts, s.begun, i)
    requires forall w :: w in s.casts && w != t ==> s.casts[w].event != s.casts[t].event
    requires v == if i == s.casts[t].next then Send(u, s.casts[t].event) else u
    ensures var x := s.casts[t];
            Reached(v, s.casts[t := x.(next := x.next + 1)], s.begun, i)
  {
    var x := s.casts[t];
    var casts := s.casts[t := x.(next := x.next + 1)];
    forall e | v.joined <= e < s.begun ensures Offered(v, e) <==> !Pending(casts, e, i) {
      NextPending(s, t, e, i);
      SendOffered(u, x.event, e);
    }
  }

  /** A walk with streams to go can always go on. */
  lemma NextReady(s: State, t: nat)
    requires Inv(s) && t in s.casts && s.casts[t].next < |s.streams|
    ensures Enabled(s, Next(t)) && s.subs[s.streams[s.casts[t].next]].place != Closed
  {
    assert s.streams[s.casts[t].next] in s.streams;
  }

  lemma NextNet(s: State, t: nat)
    requires Enabled(s, Next(t)) && s.subs[s.streams[s.casts[t].next]].place != Closed
    ensures var r := Apply(s, Next(t)); var c := s.streams[s.casts[t].next];
            && r.streams == s.streams && r.begun == s.begun && SamePlaces(s, r)
            && r.casts == s.casts[t := Cast(s.casts[t].event, s.casts[t].next + 1)]
            && r.subs == s.subs[c := Send(s.subs[c], s.casts[t].event)]
  {
  }

  /** Nobody joins or moves on. */
  ghost predicate SamePlaces(s: State, r: State) {
    forall c :: c in s.subs ==> c in r.subs && r.subs[c].place == s.subs[c].place
  }

  /** What one step of a walk does to the `i`-th stream. */
  lemma NextAt(s: State, t: nat, i: nat)
    requires Enabled(s, Next(t)) && NoDuplicates(s.streams) && i < |s.streams| && s.streams[i] in s.subs
    requires s.subs[s.streams[s.casts[t].next]].place != Closed
    ensures var r := Apply(s, Next(t)); var x := s.casts[t]; var u := s.subs[s.streams[i]];
            && r.streams == s.streams && r.begun == s.begun
            && r.casts == s.casts[t := x.(next := x.next + 1)]
            && s.streams[i] in r.subs
            && r.subs[s.streams[i]] == if i == x.next then Send(u, x.event) else u
  {
    assert i != s.casts[t].next ==> s.streams[i] != s.streams[s.casts[t].next];
  }

  lemma NextReach(s: State, t: nat)
    requires Inv(s) && Enabled(s, Next(t))
    ensures var r := Apply(s, Next(t)); ReachInv(r.streams, r.subs, r.casts, r.begun)
  {
    NextFinds(s, t);
    var r := Apply(s, Next(t));
    forall i | 0 <= i < |r.streams| && r.streams[i] in r.subs
      ensures Reached(r.subs[r.streams[i]], r.casts, r.begun, i)
    {
      var d := s.streams[i];
      assert d in s.streams;
      NextAt(s, t, i);
      assert Reached(s.subs[d], s.casts, s.begun, i);
      NextReached(s, t, s.subs[d], r.subs[d], i);
    }
  }

  lemma NextFair(s: State, t: nat)
    requires Inv(s) && Enabled(s, Next(t))
    ensures FairInv(Apply(s, Next(t)).subs, s.begun)
  {
    NextFinds(s, t);
    var c := s.streams[s.casts[t].next];
    SendFair(s.subs[c], s.casts[t].event, s.begun);
    FairUpdate(s.subs, c, Send(s.subs[c], s.casts[t].event), s.begun);
  }

  lemma FairUpdate(subs: map<Chan, Sub>, c: Chan, u: Sub, begun: nat)
    requires FairInv(subs, begun) && Fair(u, begun)
    ensures FairInv(subs[c := u], begun)
  {
  }

  lemma NextCasts(s: State, t: nat)
    requires Inv(s) && Enabled(s, Next(t))
    ensures var r := Apply(s, Next(t)); CastInv(r.streams, r.subs, r.casts, r.begun)
  {
    NextFinds(s, t);
  }

  lemma NextKeeps(s: State, t: nat)
    requires Inv(s) && Enabled(s, Next(t))
    ensures Inv(Apply(s, Next(t)))
  {
    NextFinds(s, t);
    NextReach(s, t);
    NextFair(s, t);
    NextCasts(s, t);
  }

  lemma InvStep(s: State, a: Step)
    requires Inv(s) && Enabled(s, a)
    ensures Inv(Apply(s, a))
  {
    match a {
      case Join(c) => JoinKeeps(s, c);
      case Receive(c) =>
        ReceiveFair(s.subs[c], s.begun);
        TouchKeeps(s, c, Apply(s, a).subs[c]);
      case Leave(c) => TouchKeeps(s, c, Apply(s, a).subs[c]);
      case Remove(c) => RemoveKeeps(s, c);
      case Close(c) => TouchKeeps(s, c, Apply(s, a).subs[c]);
      case Begin(t) => BeginKeeps(s, t);
      case Next(t) => NextKeeps(s, t);
      case End(t) => EndKeeps(s, t);
    }
  }

  lemma {:induction false} InvRun(s: State, steps: seq<Step>)
    requires Inv(s) && Feasible(s, steps)
    ensures Inv(After(s, steps))
    decreases |steps|
  {
    if steps != [] {
      InvStep(s, steps[0]);
      InvRun(Apply(s, steps[0]), steps[1..]);
    }
  }

  /** Some offer of `e` found a free slot. */
  predicate Slotted(offers: seq<Offer>, e: nat) {
    exists k :: 0 <= k < |offers| && offers[k].event == e && offers[k].depth < SLOTS
  }

  lemma SlottedLast(front: seq<Offer>, last: Offer, e: nat)
    ensures Slotted(front + [last], e) <==> Slotted(front, e) || (last.event == e && last.depth < SLOTS)
  {
    var offers := front + [last];
    if Slotted(front, e) {
      var k :| 0 <= k < |front| && front[k].event == e && front[k].depth < SLOTS;
      assert offers[k] == front[k];
    }
    assert offers[|front|] == last;
  }

  lemma {:induction false} TakenIff(offers: seq<Offer>, e: nat)
    ensures e in Taken(offers) <==> Slotted(offers, e)
  {
    if offers != [] {
      var front, last := offers[..|offers| - 1], offers[|offers| - 1];
      TakenIff(front, e);
      SlottedLast(front, last, e);
      assert offers == front + [last];
    }
  }

  /** In every run: no channel is sent on after it was closed, and a subscriber misses an event
      broadcast while it was listed only if the event found all slots taken. */
  lemma BroadcastSafe(steps: seq<Step>, c: Chan, e: nat)
    requires Feasible(Init, steps) && c in After(Init, steps).subs
    ensures var s := After(Init, steps);
            var u := s.subs[c];
            && !s.crashed
            && Taken(u.offers) == u.received + u.queue && |u.queue| <= 100
            && (!Listed(u) ==> u.left.Some? && (Offered(u, e) <==> u.joined <= e < u.left.value))
            && (Offered(u, e) && e !in u.received + u.queue ==> Offer(e, 100) in u.offers)
  {
    InvRun(Init, steps);
    var s := After(Init, steps);
    MissedWhenFull(s.subs[c], s.begun, e);
  }

  lemma MissedWhenFull(u: Sub, begun: nat, e: nat)
    requires Fair(u, begun)
    ensures Offered(u, e) && e !in u.received + u.queue ==> Offer(e, SLOTS) in u.offers
  {
    TakenIff(u.offers, e);
    if Offered(u, e) && e !in Taken(u.offers) {
      var k :| 0 <= k < |u.offers| && u.offers[k].event == e;
      assert u.offers[k] == Offer(e, SLOTS);
    }
  }

  /** In every run a walk comes only to channels that are open. */
  lemma OffersOnlyOpen(steps: seq<Step>, t: nat)
    requires Feasible(Init, steps) && Enabled(After(Init, steps), Next(t))
    ensures var s := After(Init, steps);
            var place := s.subs[s.streams[s.casts[t].next]].place; place == Listening || place == Leaving
  {
    InvRun(Init, steps);
    NextFinds(After(Init, steps), t);
  }

  lemma ClosedStep(s: State, a: Step, c: Chan)
    requires Enabled(s, a)
    ensures At(Apply(s, a), c, Closed) <==> At(s, c, Closed) || a == Close(c)
  {
  }

  lemma {:induction false} ClosedRun(s: State, steps: seq<Step>, c: Chan)
    requires Feasible(s, steps)
    ensures At(After(s, steps), c, Closed) <==> At(s, c, Closed) || Close(c) in steps
    decreases |steps|
  {
    if steps != [] {
      ClosedStep(s, steps[0], c);
      ClosedRun(Apply(s, steps[0]), steps[1..], c);
      assert steps == [steps[0]] + steps[1..];
    }
  }

  /** A channel is closed exactly once its subscriber has closed it, and is off the list by then. */
  lemma ClosedIff(steps: seq<Step>, c: Chan)
    requires Feasible(Init, steps)
    ensures At(After(Init, steps), c, Closed) <==> Close(c) in steps
    ensures Close(c) in steps ==> c !in After(Init, steps).streams
  {
    ClosedRun(Init, steps, c);
    InvRun(Init, steps);
  }

  // ---------------------------------------------------------------- order

  /** The events offered so far are the first ones begun since the subscriber joined, in that order. */
  predicate InOrder(u: Sub) {
    forall k :: 0 <= k < |u.offers| ==> u.offers[k].event == u.joined + k
  }

  ghost predicate Ordered(s: State) {
    forall c :: c in s.streams && c in s.subs ==> InOrder(s.subs[c])
  }

  /** A broadcast other than the newest one still has streams to reach. */
  predicate Trailing(s: State, t: nat, v: nat) {
    t in s.casts && v in s.casts && s.casts[t].event < s.casts[v].event && s.casts[t].next < |s.streams|
  }

  ghost predicate Overlap(s: State) {
    exists t, v :: Trailing(s, t, v)
  }

  predicate NoBegin(steps: seq<Step>) {
    forall k :: 0 <= k < |steps| ==> !steps[k].Begin?
  }

  /** For an ordered subscriber the events still on the way are the ones after its last offer. */
  lemma PendingAfter(s: State, i: nat, e: nat)
    requires Inv(s) && Ordered(s) && i < |s.streams|
    requires s.subs[s.streams[i]].joined <= e < s.begun
    ensures var u := s.subs[s.streams[i]];
            Pending(s.casts, e, i) <==> u.joined + |u.offers| <= e
  {
    var u := s.subs[s.streams[i]];
    assert s.streams[i] in s.streams;
    assert InOrder(u) && Reached(u, s.casts, s.begun, i);
    if e < u.joined + |u.offers| {
      assert u.offers[e - u.joined].event == e;
    }
  }

  /** When no older broadcast trails, the event offered next is the next one in order. */
  lemma NextIsFirst(s: State, t: nat)
    requires Inv(s) && Ordered(s) && !Overlap(s) && Enabled(s, Next(t))
    ensures var u := s.subs[s.streams[s.casts[t].next]];
            s.casts[t].event == u.joined + |u.offers|
  {
    NextFinds(s, t);
    var x := s.casts[t];
    var u := s.subs[s.streams[x.next]];
    assert Fair(u, s.begun);
    assert Pending(s.casts, x.event, x.next);
    PendingAfter(s, x.next, x.event);
    var first := u.joined + |u.offers|;
    if first < x.event {
      PendingAfter(s, x.next, first);
      var v :| v in s.casts && s.casts[v].event == first && s.casts[v].next <= x.next;
      assert Trailing(s, v, t);
    }
  }

  lemma SendInOrder(u: Sub, e: nat)
    requires InOrder(u) && e == u.joined + |u.offers|
    ensures InOrder(Send(u, e))
  {
  }

  lemma NextOrdered(s: State, t: nat)
    requires Inv(s) && Ordered(s) && !Overlap(s) && Enabled(s, Next(t))
    ensures Ordered(Apply(s, Next(t)))
  {
    NextFinds(s, t);
    NextIsFirst(s, t);
    var c := s.streams[s.casts[t].next];
    SendInOrder(s.subs[c], s.casts[t].event);
  }

  lemma CalmNext(s: State, t: nat)
    requires Inv(s) && !Overlap(s) && Enabled(s, Next(t))
    ensures !Overlap(Apply(s, Next(t)))
  {
    NextReady(s, t);
    NextNet(s, t);
    var r := Apply(s, Next(t));
    forall u, v | Trailing(r, u, v) ensures false {
      assert Trailing(s, u, v);
    }
  }

  lemma CalmRemove(s: State, c: Chan)
    requires Inv(s) && Ordered(s) && Enabled(s, Remove(c))
    ensures Ordered(Apply(s, Remove(c)))
  {
    WithoutMembers(s.streams, c);
  }

  /** The other steps change neither an offer nor, while a walk is under way, the list. */
  lemma CalmOther(s: State, a: Step)
    requires !Overlap(s) && Enabled(s, a) && !a.Begin? && !a.Next?
    ensures !Overlap(Apply(s, a))
  {
    var r := Apply(s, a);
    forall t, v | Trailing(r, t, v) ensures false {
      assert Trailing(s, t, v);
    }
  }

  lemma OtherOrdered(s: State, a: Step)
    requires Ordered(s) && Enabled(s, a) && !a.Begin? && !a.Next? && !a.Remove?
    ensures Ordered(Apply(s, a))
  {
  }

  lemma CalmStep(s: State, a: Step)
    requires Inv(s) && Ordered(s) && !Overlap(s) && Enabled(s, a) && !a.Begin?
    ensures Ordered(Apply(s, a)) && !Overlap(Apply(s, a))
  {
    if a.Next? {
      CalmNext(s, a.t);
      NextOrdered(s, a.t);
    } else {
      CalmOther(s, a);
      if a.Remove? {
        CalmRemove(s, a.c);
      } else {
        OtherOrdered(s, a);
      }
    }
  }

  lemma {:induction false} CalmRun(s: State, steps: seq<Step>)
    requires Inv(s) && Ordered(s) && !Overlap(s) && NoBegin(steps) && Feasible(s, steps)
    ensures Ordered(After(s, steps))
    decreases |steps|
  {
    if steps != [] {
      CalmStep(s, steps[0]);
      InvStep(s, steps[0]);
      CalmRun(Apply(s, steps[0]), steps[1..]);
    }
  }

  /** A newer broadcast that is ahead of an older one has spoilt the order. */
  lemma AheadSpoils(s: State, t: nat, v: nat)
    requires Inv(s) && Trailing(s, t, v) && s.casts[t].next < s.casts[v].next
    ensures !Ordered(s)
  {
    if Ordered(s) {
      var i, e, f := s.casts[t].next, s.casts[t].event, s.casts[v].event;
      assert s.streams[i] in s.streams;
      assert Pending(s.casts, e, i);
      PendingAfter(s, i, e);
      PendingAfter(s, i, f);
    }
  }

  lemma OvertakeStep(s: State, t: nat, v: nat)
    requires Inv(s) && Trailing(s, t, v) && s.casts[v].next <= s.casts[t].next
    ensures Enabled(s, Next(v)) && Inv(Apply(s, Next(v))) && Trailing(Apply(s, Next(v)), t, v)
    ensures var r := Apply(s, Next(v)); r.streams == s.streams && r.casts[v].next == s.casts[v].next + 1
  {
    NextReady(s, v);
    NextNet(s, v);
    NextKeeps(s, v);
  }

  /** The newer broadcast runs ahead until it has passed the older one. */
  lemma {:induction false} Overtake(s: State, t: nat, v: nat) returns (steps: seq<Step>)
    requires Inv(s) && Trailing(s, t, v)
    ensures NoBegin(steps) && Feasible(s, steps) && !Ordered(After(s, steps))
    decreases |s.streams| - s.casts[v].next
  {
    if s.casts[t].next < s.casts[v].next {
      AheadSpoils(s, t, v);
      steps := [];
    } else {
      OvertakeStep(s, t, v);
      var rest := Overtake(Apply(s, Next(v)), t, v);
      steps := [Next(v)] + rest;
      Prepend(s, Next(v), rest);
    }
  }

  /** While every stream has so far been offered its events in the order begun, that order can still
      be lost, without any further broadcast, exactly when an older broadcast trails a newer one. */
  lemma OrderLostIffOverlap(s: State)
    requires Inv(s) && Ordered(s)
    ensures Overlap(s) <==> exists steps :: NoBegin(steps) && Feasible(s, steps) && !Ordered(After(s, steps))
  {
    if Overlap(s) {
      var t, v :| Trailing(s, t, v);
      var steps := Overtake(s, t, v);
    }
    forall steps | NoBegin(steps) && Feasible(s, steps) && !Ordered(After(s, steps)) ensures Overlap(s) {
      if !Overlap(s) {
        CalmRun(s, steps);
      }
    }
  }

  /** No broadcast begins while another is under way. */
  predicate OneAtATime(s: State, steps: seq<Step>)
    requires Feasible(s, steps)
    decreases |steps|
  {
    steps == [] ||
    ((steps[0].Begin? ==> s.casts == map[]) && OneAtATime(Apply(s, steps[0]), steps[1..]))
  }

  lemma {:induction false} SerialRun(s: State, steps: seq<Step>)
    requires Inv(s) && Ordered(s) && !Overlap(s) && Feasible(s, steps) && OneAtATime(s, steps)
    ensures Ordered(After(s, steps))
    decreases |steps|
  {
    if steps != [] {
      var r := Apply(s, steps[0]);
      if steps[0].Begin? {
        assert forall t, v :: !Trailing(r, t, v);
      } else {
        CalmStep(s, steps[0]);
      }
      InvStep(s, steps[0]);
      SerialRun(r, steps[1..]);
    }
  }

  /** Broadcasts that do not overlap reach every subscriber in the order begun. */
  lemma SerialBroadcastsInOrder(steps: seq<Step>)
    requires Feasible(Init, steps) && OneAtATime(Init, steps)
    ensures Ordered(After(Init, steps))
  {
    SerialRun(Init, steps);
  }

  /** Two overlapping broadcasts can reach a subscriber in the other order. */
  lemma OverlapReorders()
    ensures exists steps :: Feasible(Init, steps) && !Ordered(After(Init, steps))
  {
    var steps := [Join(7), Begin(0), Begin(1), Next(1)];
    var s1 := Apply(Init, Join(7));
    var s2 := Apply(s1, Begin(0));
    var s3 := Apply(s2, Begin(1));
    var s4 := Apply(s3, Next(1));
    assert Feasible(s3, [Next(1)]) && After(s3, [Next(1)]) == s4;
    assert [Begin(1), Next(1)][1..] == [Next(1)];
    assert Feasible(s2, [Begin(1), Next(1)]) && After(s2, [Begin(1), Next(1)]) == s4;
    assert [Begin(0), Begin(1), Next(1)][1..] == [Begin(1), Next(1)];
    assert steps[1..] == [Begin(0), Begin(1), Next(1)];
    assert Feasible(Init, steps) && After(Init, steps) == s4;
    assert s4.subs[7].offers[0].event == 1;
  }
}
