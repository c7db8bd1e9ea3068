/**
 The reading half of module `ConsoleTraffic`: the bytes that arrive, the buffers they end up in, and a
 log of which call got which byte.
 */
module ConsoleReads {
  import opened Basics
  import opened Console
  import opened ConsoleIO
  import ConsoleTraffic

  /** `arrived` is everything that ever came in and `bufs` the buffers of the calls; `was` and `since`
      are each call's buffer and the length of the log when the call began. */
  datatype Reads = Reads(s: State, arrived: seq<Byte>, log: seq<Entry>, bufs: map<Tid, seq<Byte>>,
                         was: map<Tid, seq<Byte>>, since: map<Tid, nat>)

  datatype Move = Begin(t: Tid, p: seq<Byte>) | Arrives(bytes: seq<Byte>) | Other(step: Step)

  const Idle := Reads(Init, [], [], map[], map[], map[])

  predicate Taking(step: Step) {
    step.Poll? && step.d == Rd
  }

  predicate Plain(step: Step) {
    !(step.Enter? && step.d == Rd) && !(step.Arrive? && step.d == Rd)
  }

  ghost predicate CanMove(x: Reads, m: Move) {
    match m
    case Begin(t, p) => Enabled(x.s, Enter(Rd, t, |p|))
    case Arrives(bytes) => Enabled(x.s, Arrive(Rd, |bytes|))
    case Other(step) =>
      && Enabled(x.s, step) && Plain(step)
      && (Taking(step) ==>
            && |x.log| + step.k <= |x.arrived| && step.t in x.bufs
            && x.s.rd.calls[step.t].n + step.k <= |x.bufs[step.t]|)
  }

  /** The bytes copied into `p` at `n`. */
  function Filled(p: seq<Byte>, n: nat, bytes: seq<Byte>): seq<Byte>
    requires n + |bytes| <= |p|
  {
    p[..n] + bytes + p[n + |bytes|..]
  }

  ghost function Moved(x: Reads, m: Move): Reads
    requires CanMove(x, m)
  {
    match m
    case Begin(t, p) =>
      x.(s := Apply(x.s, Enter(Rd, t, |p|)), bufs := x.bufs[t := p], was := x.was[t := p], since := x.since[t := |x.log|])
    case Arrives(bytes) => x.(s := Apply(x.s, Arrive(Rd, |bytes|)), arrived := x.arrived + bytes)
    case Other(step) =>
      if Taking(step) then Took(x, step) else x.(s := Apply(x.s, step))
  }

  /** A console read hands the next `k` bytes to the call. */
  ghost function Took(x: Reads, step: Step): Reads
    requires CanMove(x, Other(step)) && Taking(step)
  {
    var bytes := x.arrived[|x.log|..|x.log| + step.k];
    x.(s := Apply(x.s, step), log := x.log + Tag(bytes, step.t),
       bufs := x.bufs[step.t := Filled(x.bufs[step.t], x.s.rd.calls[step.t].n, bytes)])
  }

  ghost predicate CanRun(x: Reads, moves: seq<Move>)
    decreases |moves|
  {
    moves == [] || (CanMove(x, moves[0]) && CanRun(Moved(x, moves[0]), moves[1..]))
  }

  ghost function RunTo(x: Reads, moves: seq<Move>): Reads
    requires CanRun(x, moves)
    decreases |moves|
  {
    if moves == [] then x else RunTo(Moved(x, moves[0]), moves[1..])
  }

  /** The bytes of a log, whoever got them. */
  function Bytes(log: seq<Entry>): seq<Byte> {
    seq(|log|, i requires 0 <= i < |log| => log[i].b)
  }

  /** What arrived is what was handed out, each byte once and in order, and what is still available. */
  ghost predicate Handed(x: Reads) {
    |x.log| + x.s.rd.avail == |x.arrived| && Bytes(x.log) == x.arrived[..|x.log|]
  }

  /** The buffer starts with what the log has for the call since it began, and ends as it was. */
  predicate Holds(log: seq<Entry>, since: nat, t: Tid, buf: seq<Byte>, was: seq<Byte>, len: nat, n: nat) {
    && since <= |log| && |buf| == |was| == len && n <= len
    && Mine(log[since..], t) == buf[..n] && buf[n..] == was[n..]
  }

  ghost predicate Kept(x: Reads, t: Tid, c: Call) {
    && t in x.bufs && t in x.was && t in x.since
    && Holds(x.log, x.since[t], t, x.bufs[t], x.was[t], c.len, c.n)
  }

  ghost predicate Conserved(x: Reads) {
    Handed(x) && forall t :: t in x.s.rd.calls ==> Kept(x, t, x.s.rd.calls[t])
  }

  /** What the steps do to the bytes available to readers. */
  lemma AvailStays(s: State, step: Step)
    requires Enabled(s, step)
    ensures Apply(s, step).rd.avail ==
            if step.Arrive? && step.d == Rd then s.rd.avail + step.k
            else if Taking(step) then s.rd.avail - step.k else s.rd.avail
  {
  }

  lemma TagBytes(log: seq<Entry>, bytes: seq<Byte>, t: Tid)
    ensures Bytes(log + Tag(bytes, t)) == Bytes(log) + bytes
  {
  }

  lemma OthersRead(log: seq<Entry>, since: nat, t: Tid, buf: seq<Byte>, was: seq<Byte>, len: nat, n: nat,
                   bytes: seq<Byte>, who: Tid)
    requires Holds(log, since, t, buf, was, len, n) && who != t
    ensures Holds(log + Tag(bytes, who), since, t, buf, was, len, n)
  {
    assert (log + Tag(bytes, who))[since..] == log[since..] + Tag(bytes, who);
    MineConcat(log[since..], Tag(bytes, who), t);
    MineForeign(Tag(bytes, who), t);
  }

  lemma OwnRead(log: seq<Entry>, since: nat, t: Tid, buf: seq<Byte>, was: seq<Byte>, len: nat, n: nat, bytes: seq<Byte>)
    requires Holds(log, since, t, buf, was, len, n) && n + |bytes| <= len
    ensures Holds(log + Tag(bytes, t), since, t, Filled(buf, n, bytes), was, len, n + |bytes|)
  {
    assert (log + Tag(bytes, t))[since..] == log[since..] + Tag(bytes, t);
    MineConcat(log[since..], Tag(bytes, t), t);
    MineTag(bytes, t);
    var k, after := |bytes|, Filled(buf, n, bytes);
    assert after[..n + k] == buf[..n] + bytes;
    assert after[n + k..] == buf[n..][k..] == was[n..][k..] == was[n + k..];
  }

  lemma TookHanded(x: Reads, step: Step)
    requires Conserved(x) && CanMove(x, Other(step)) && Taking(step)
    ensures Handed(Took(x, step))
  {
    AvailStays(x.s, step);
    var bytes := x.arrived[|x.log|..|x.log| + step.k];
    TagBytes(x.log, bytes, step.t);
    assert x.arrived[..|x.log|] + bytes == x.arrived[..|x.log| + step.k];
  }

  lemma TookKept(x: Reads, step: Step, t: Tid, c: Call)
    requires CanMove(x, Other(step)) && Taking(step) && t in x.s.rd.calls && Kept(x, t, x.s.rd.calls[t])
    requires c.len == x.s.rd.calls[t].len && c.n == x.s.rd.calls[t].n + if step.t == t then step.k else 0
    ensures Kept(Took(x, step), t, c)
  {
    var o := x.s.rd.calls[t];
    var bytes := x.arrived[|x.log|..|x.log| + step.k];
    if step.t == t {
      OwnRead(x.log, x.since[t], t, x.bufs[t], x.was[t], o.len, o.n, bytes);
    } else {
      OthersRead(x.log, x.since[t], t, x.bufs[t], x.was[t], o.len, o.n, bytes, step.t);
    }
  }

  lemma MoveHanded(x: Reads, m: Move)
    requires Conserved(x) && CanMove(x, m)
    ensures Handed(Moved(x, m))
  {
    match m
    case Begin(t, p) => AvailStays(x.s, Enter(Rd, t, |p|));
    case Arrives(bytes) =>
      AvailStays(x.s, Arrive(Rd, |bytes|));
      assert (x.arrived + bytes)[..|x.log|] == x.arrived[..|x.log|];
    case Other(step) =>
      if Taking(step) {
        TookHanded(x, step);
      } else {
        AvailStays(x.s, step);
      }
  }

  lemma MoveKept(x: Reads, m: Move, t: Tid)
    requires Conserved(x) && CanMove(x, m) && t in Moved(x, m).s.rd.calls
    ensures Kept(Moved(x, m), t, Moved(x, m).s.rd.calls[t])
  {
    var y := Moved(x, m);
    match m
    case Begin(u, p) =>
      if t == u {
        assert x.log[|x.log|..] == [];
      } else {
        assert Kept(x, t, x.s.rd.calls[t]);
      }
    case Arrives(bytes) =>
      ConsoleTraffic.CountsStay(x.s, Arrive(Rd, |bytes|), Rd, t);
      assert Kept(x, t, x.s.rd.calls[t]);
    case Other(step) =>
      ConsoleTraffic.CountsStay(x.s, step, Rd, t);
      assert Kept(x, t, x.s.rd.calls[t]);
      if Taking(step) {
        TookKept(x, step, t, y.s.rd.calls[t]);
      }
  }

  lemma MoveKeeps(x: Reads, m: Move)
    requires Conserved(x) && CanMove(x, m)
    ensures Conserved(Moved(x, m))
  {
    MoveHanded(x, m);
    forall t | t in Moved(x, m).s.rd.calls ensures Kept(Moved(x, m), t, Moved(x, m).s.rd.calls[t]) {
      MoveKept(x, m, t);
    }
  }

  lemma {:induction false} RunKeeps(x: Reads, moves: seq<Move>)
    requires Conserved(x) && CanRun(x, moves)
    ensures Conserved(RunTo(x, moves))
    decreases |moves|
  {
    if moves != [] {
      MoveKeeps(x, moves[0]);
      RunKeeps(Moved(x, moves[0]), moves[1..]);
    }
  }

  /** In every state of every interleaving, what arrived is split among the readers: each byte handed
      out once and in order, the rest still available; and each reader's buffer starts with exactly
      the `n` bytes handed to it, with its tail untouched. */
  lemma ReadsConserved(moves: seq<Move>)
    requires CanRun(Idle, moves)
    ensures var x := RunTo(Idle, moves);
            Handed(x) && forall t :: t in x.s.rd.calls ==> Kept(x, t, x.s.rd.calls[t])
  {
    RunKeeps(Idle, moves);
  }

  /** The buffers and bytes add nothing to what the machine can do. */
  lemma NothingBlocked(x: Reads, step: Step)
    requires Conserved(x) && Enabled(x.s, step) && Plain(step)
    ensures CanMove(x, Other(step))
  {
    if Taking(step) {
      assert Kept(x, step.t, x.s.rd.calls[step.t]);
    }
  }
}
