/**
 The bytes of every caller at once.  The machine of module `Console` is run with the buffers of the
 calls and a log of what crossed the device, so the traffic of the others is whatever the lock and the
 condition variable let happen.
 */
module ConsoleTraffic {
  import opened Basics
  import opened Console
  import opened ConsoleIO

  /** `data` holds each call's buffer and `since` the length of the log when the call began. */
  datatype Traffic = Traffic(s: State, data: map<Tid, seq<Byte>>, since: map<Tid, nat>, log: seq<Entry>)

  /** A call of `Write` begins with its buffer; every other step is one of the console machine. */
  datatype Move = Begin(t: Tid, p: seq<Byte>) | Other(step: Step)

  const Idle := Traffic(Init, map[], map[], [])

  predicate BeginsWrite(step: Step) {
    step.Enter? && step.d == Wr
  }

  predicate Writes(step: Step) {
    step.Poll? && step.d == Wr
  }

  ghost predicate CanMove(x: Traffic, m: Move) {
    match m
    case Begin(t, p) => Enabled(x.s, Enter(Wr, t, |p|))
    case Other(step) =>
      && Enabled(x.s, step) && !BeginsWrite(step)
      && (Writes(step) ==> step.t in x.data && x.s.wr.calls[step.t].n + step.k <= |x.data[step.t]|)
  }

  ghost function Moved(x: Traffic, m: Move): Traffic
    requires CanMove(x, m)
  {
    match m
    case Begin(t, p) =>
      Traffic(Apply(x.s, Enter(Wr, t, |p|)), x.data[t := p], x.since[t := |x.log|], x.log)
    case Other(step) =>
      x.(s := Apply(x.s, step), log := if Writes(step) then x.log + Accepted(x, step) else x.log)
  }

  /** The bytes a console write takes: the next `k` of the call's buffer. */
  ghost function Accepted(x: Traffic, step: Step): seq<Entry>
    requires CanMove(x, Other(step)) && Writes(step)
  {
    var n := x.s.wr.calls[step.t].n;
    Tag(x.data[step.t][n..n + step.k], step.t)
  }

  ghost predicate CanRun(x: Traffic, moves: seq<Move>)
    decreases |moves|
  {
    moves == [] || (CanMove(x, moves[0]) && CanRun(Moved(x, moves[0]), moves[1..]))
  }

  ghost function RunTo(x: Traffic, moves: seq<Move>): Traffic
    requires CanRun(x, moves)
    decreases |moves|
  {
    if moves == [] then x else RunTo(Moved(x, moves[0]), moves[1..])
  }

  /** What crossed for call `t` since it began is what its count says of its buffer. */
  ghost predicate Kept(x: Traffic, t: Tid, c: Call) {
    t in x.data && t in x.since && Shows(x.log, x.since[t], t, x.data[t], c.len, c.n)
  }

  /** From `since` on, the log has for `t` exactly the first `n` of the `len` bytes of `p`. */
  predicate Shows(log: seq<Entry>, since: nat, t: Tid, p: seq<Byte>, len: nat, n: nat) {
    since <= |log| && |p| == len && n <= len && Mine(log[since..], t) == p[..n]
  }

  ghost predicate Conserved(x: Traffic) {
    forall t :: t in x.s.wr.calls ==> Kept(x, t, x.s.wr.calls[t])
  }

  /** What a step of the calls of one half does to buffer lengths and counts. */
  lemma CallCounts(x: Side, closed: bool, step: Step, t: Tid)
    requires CallStep(step) && CallEnabled(x, step) && !step.Enter? && t in CallApply(x, closed, step).calls
    ensures t in x.calls && CallApply(x, closed, step).calls[t].len == x.calls[t].len
    ensures CallApply(x, closed, step).calls[t].n == x.calls[t].n + if step.Poll? && step.t == t then step.k else 0
  {
  }

  lemma WakeCounts(x: Side, t: Tid)
    requires t in x.calls
    ensures t in Wake(x).calls && Wake(x).calls[t].len == x.calls[t].len && Wake(x).calls[t].n == x.calls[t].n
  {
  }

  lemma OtherCounts(s: State, step: Step, d: Dir, t: Tid)
    requires Enabled(s, step) && !CallStep(step) && t in At(Apply(s, step), d).calls
    ensures t in At(s, d).calls && At(Apply(s, step), d).calls[t].len == At(s, d).calls[t].len
    ensures At(Apply(s, step), d).calls[t].n == At(s, d).calls[t].n
  {
    if t in At(s, d).calls {
      WakeCounts(At(s, d), t);
    }
  }

  /** Only a console call of the call itself changes its count. */
  lemma CountsStay(s: State, step: Step, d: Dir, t: Tid)
    requires Enabled(s, step) && !(step.Enter? && step.d == d) && t in At(Apply(s, step), d).calls
    ensures t in At(s, d).calls && At(Apply(s, step), d).calls[t].len == At(s, d).calls[t].len
    ensures At(Apply(s, step), d).calls[t].n ==
            At(s, d).calls[t].n + if step.Poll? && step.d == d && step.t == t then step.k else 0
  {
    if !CallStep(step) {
      OtherCounts(s, step, d, t);
    } else if step.d == d {
      CallCounts(At(s, d), s.closed, step, t);
    }
  }

  lemma OthersWrite(log: seq<Entry>, since: nat, t: Tid, p: seq<Byte>, len: nat, n: nat, bytes: seq<Byte>, who: Tid)
    requires Shows(log, since, t, p, len, n) && who != t
    ensures Shows(log + Tag(bytes, who), since, t, p, len, n)
  {
    assert (log + Tag(bytes, who))[since..] == log[since..] + Tag(bytes, who);
    MineConcat(log[since..], Tag(bytes, who), t);
    MineForeign(Tag(bytes, who), t);
  }

  lemma OwnWrite(log: seq<Entry>, since: nat, t: Tid, p: seq<Byte>, len: nat, n: nat, k: nat)
    requires Shows(log, since, t, p, len, n) && n + k <= len
    ensures Shows(log + Tag(p[n..n + k], t), since, t, p, len, n + k)
  {
    var bytes := p[n..n + k];
    assert (log + Tag(bytes, t))[since..] == log[since..] + Tag(bytes, t);
    MineConcat(log[since..], Tag(bytes, t), t);
    MineTag(bytes, t);
    assert p[..n] + bytes == p[..n + k];
  }

  lemma LogGrows(x: Traffic, y: Traffic, t: Tid, c: Call, c': Call, who: Tid, n: nat, k: nat)
    requires Kept(x, t, c) && c'.len == c.len && c'.n == c.n + if who == t then k else 0
    requires who in x.data && n + k <= |x.data[who]| && (who == t ==> n == c.n)
    requires y.data == x.data && y.since == x.since && y.log == x.log + Tag(x.data[who][n..n + k], who)
    ensures Kept(y, t, c')
  {
    if who == t {
      OwnWrite(x.log, x.since[t], t, x.data[t], c.len, c.n, k);
    } else {
      OthersWrite(x.log, x.since[t], t, x.data[t], c.len, c.n, x.data[who][n..n + k], who);
    }
  }

  lemma MoveKeeps(x: Traffic, m: Move)
    requires Conserved(x) && CanMove(x, m)
    ensures Conserved(Moved(x, m))
  {
    var y := Moved(x, m);
    forall t | t in y.s.wr.calls ensures Kept(y, t, y.s.wr.calls[t]) {
      if m.Other? {
        if Writes(m.step) {
          CountsStay(x.s, m.step, Wr, t);
          assert Kept(x, t, x.s.wr.calls[t]);
          LogGrows(x, y, t, x.s.wr.calls[t], y.s.wr.calls[t], m.step.t, x.s.wr.calls[m.step.t].n, m.step.k);
        } else {
          CountsStay(x.s, m.step, Wr, t);
          assert Kept(x, t, x.s.wr.calls[t]);
        }
      } else if t != m.t {
        assert Kept(x, t, x.s.wr.calls[t]);
      } else {
        assert x.log[|x.log|..] == [];
      }
    }
  }

  lemma {:induction false} RunKeeps(x: Traffic, moves: seq<Move>)
    requires Conserved(x) && CanRun(x, moves)
    ensures Conserved(RunTo(x, moves))
    decreases |moves|
  {
    if moves != [] {
      MoveKeeps(x, moves[0]);
      RunKeeps(Moved(x, moves[0]), moves[1..]);
    }
  }

  /** In every state of every interleaving, what crossed the device for each writer is exactly the
      first `n` bytes of its buffer, in order, with no gap and no repeat. */
  lemma WritesConserved(moves: seq<Move>, t: Tid)
    requires CanRun(Idle, moves) && t in RunTo(Idle, moves).s.wr.calls
    ensures var x := RunTo(Idle, moves);
            Kept(x, t, x.s.wr.calls[t])
  {
    RunKeeps(Idle, moves);
  }

  /** The data add nothing to what the machine can do: every enabled step is still possible. */
  lemma NothingBlocked(x: Traffic, step: Step)
    requires Conserved(x) && Enabled(x.s, step) && !BeginsWrite(step)
    ensures CanMove(x, Other(step))
  {
    if Writes(step) {
      assert Kept(x, step.t, x.s.wr.calls[step.t]);
    }
  }
}
