/**
 The loops of `KqueueConsole.Read` and `KqueueConsole.Write` (pkg/kqueue).

 The machine of module `Console` counts bytes; here the bytes themselves are followed.
 A call is run against a script of console answers.  Whatever other goroutines do to the
 device happens while this call is asleep, so each answer also carries the traffic of
 the others during the sleep that follows it.  A script that ends in a hangup leaves the call asleep.
 */
module ConsoleIO {
  import opened Basics
  import opened Console

  /** One byte that crossed the device, and the call it crossed for. */
  datatype Entry = Entry(who: Tid, b: Byte)

  /** An answer of the console: at most `k` bytes go through, then `err`; `closed` is the flag as
      the call finds it, and `others` is what crosses while the call sleeps after a hangup. */
  datatype Answer = Answer(k: nat, err: Err, closed: bool, others: seq<Entry>)

  datatype Result = ResNil | ResEOF | ResShortWrite | ResClosed | ResOther

  datatype Outcome = Returned(res: Result) | Asleep

  /** The bytes that crossed the device for call `me`, in order. */
  function Mine(log: seq<Entry>, me: Tid): seq<Byte> {
    if log == [] then []
    else (if log[0].who == me then [log[0].b] else []) + Mine(log[1..], me)
  }

  function Tag(bytes: seq<Byte>, me: Tid): seq<Entry> {
    seq(|bytes|, i requires 0 <= i < |bytes| => Entry(me, bytes[i]))
  }

  predicate Foreign(log: seq<Entry>, me: Tid) {
    forall i :: 0 <= i < |log| ==> log[i].who != me
  }

  lemma {:induction false} MineConcat(a: seq<Entry>, b: seq<Entry>, me: Tid)
    ensures Mine(a + b, me) == Mine(a, me) + Mine(b, me)
  {
    if a == [] {
      assert a + b == b;
    } else {
      var head := if a[0].who == me then [a[0].b] else [];
      assert (a + b)[0] == a[0] && (a + b)[1..] == a[1..] + b;
      calc {
        Mine(a + b, me);
        head + Mine(a[1..] + b, me);
        { MineConcat(a[1..], b, me); }
        head + (Mine(a[1..], me) + Mine(b, me));
        (head + Mine(a[1..], me)) + Mine(b, me);
      }
    }
  }

  lemma {:induction false} MineForeign(log: seq<Entry>, me: Tid)
    requires Foreign(log, me)
    ensures Mine(log, me) == []
  {
    if log != [] {
      MineForeign(log[1..], me);
    }
  }

  lemma {:induction false} MineTag(bytes: seq<Byte>, me: Tid)
    ensures Mine(Tag(bytes, me), me) == bytes
    decreases |bytes|
  {
    if bytes != [] {
      assert Tag(bytes, me)[1..] == Tag(bytes[1..], me);
      MineTag(bytes[1..], me);
    }
  }

  function Min(a: nat, b: nat): nat {
    if a < b then a else b
  }

  /** The bytes a call moves under a script, and how far into the script it gets before it returns. */
  function Progress(script: seq<Answer>, i: nat, len: nat): (n: nat)
    requires i <= |script|
    ensures n <= len
  {
    if i == 0 then 0
    else var n := Progress(script, i - 1, len); n + Min(script[i - 1].k, len - n)
  }

  /** Whether a call is back to sleep after answer `i`. */
  predicate Sleeps(d: Dir, script: seq<Answer>, i: nat, len: nat)
    requires i < |script|
  {
    Waits(d, len, Progress(script, i + 1, len), script[i].closed, script[i].err)
  }

  /** The first answer from `i` on that lets the call leave its loop. */
  function Stop(d: Dir, script: seq<Answer>, i: nat, len: nat): (k: nat)
    requires i <= |script|
    ensures i <= k <= |script|
    ensures forall j :: i <= j < k ==> Sleeps(d, script, j, len)
    ensures k < |script| ==> !Sleeps(d, script, k, len)
    decreases |script| - i
  {
    if i < |script| && Sleeps(d, script, i, len) then Stop(d, script, i + 1, len) else i
  }

  /** The count a call has reached when it stops at answer `k`, or sleeps at the end of the script. */
  function Reached(script: seq<Answer>, k: nat, len: nat): nat
    requires k <= |script|
  {
    Progress(script, if k < |script| then k + 1 else k, len)
  }

  /** What a call that leaves its loop with `n` of `len` bytes and error `err` returns. */
  function ResultOf(d: Dir, err: Err, n: nat, len: nat): Result {
    if err == Hangup then ResClosed
    else if err == OtherErr then ResOther
    else if d == Rd then (if n == 0 && len > 0 then ResEOF else ResNil)
    else (if n < len then ResShortWrite else ResNil)
  }

  /** The outcome of a whole call, as a function of its script. */
  function OutcomeOf(d: Dir, script: seq<Answer>, len: nat): Outcome {
    var k := Stop(d, script, 0, len);
    if k == |script| then Asleep else Returned(ResultOf(d, script[k].err, Reached(script, k, len), len))
  }

  function CountOf(d: Dir, script: seq<Answer>, len: nat): nat {
    Reached(script, Stop(d, script, 0, len), len)
  }

  /** A nil error means the whole buffer was written, a nil read error means progress, and the
      closed error is only reported to a reader that has nothing in a non-empty buffer. */
  lemma OutcomeMeaning(d: Dir, script: seq<Answer>, len: nat)
    ensures OutcomeOf(Wr, script, len) == Returned(ResNil) ==> CountOf(Wr, script, len) == len
    ensures OutcomeOf(Wr, script, len) != Returned(ResClosed)
    ensures OutcomeOf(Rd, script, len) == Returned(ResNil) ==> CountOf(Rd, script, len) > 0 || len == 0
    ensures OutcomeOf(Rd, script, len) == Returned(ResClosed) ==> CountOf(Rd, script, len) == 0 && len > 0
    ensures OutcomeOf(d, script, len) == Asleep <==>
              forall i :: 0 <= i < |script| ==> Sleeps(d, script, i, len)
  {
    var k := Stop(d, script, 0, len);
    if k < |script| {
      assert !Sleeps(d, script, k, len);
    }
    var w := Stop(Wr, script, 0, len);
    if w < |script| {
      assert !Sleeps(Wr, script, w, len);
    }
  }

  // ---------------------------------------------------------------- exactly what a call returns

  /** The bytes offered by the first `i` answers. */
  function Offered(script: seq<Answer>, i: nat): nat
    requires i <= |script|
  {
    if i == 0 then 0 else Offered(script, i - 1) + script[i - 1].k
  }

  /** A call moves what it is offered until its buffer is used up. */
  lemma {:induction false} ProgressIs(script: seq<Answer>, i: nat, len: nat)
    requires i <= |script|
    ensures Progress(script, i, len) == if Offered(script, i) < len then Offered(script, i) else len
  {
    if i > 0 {
      ProgressIs(script, i - 1, len);
    }
  }

  /** Answer `i` ends a call: it is no hangup, or the console is closed and a reader with room has
      been offered nothing so far. */
  predicate Ends(d: Dir, script: seq<Answer>, i: nat, len: nat)
    requires i < |script|
  {
    script[i].err != Hangup || (d == Rd && script[i].closed && len > 0 && Offered(script, i + 1) == 0)
  }

  lemma EndsIffAwake(d: Dir, script: seq<Answer>, i: nat, len: nat)
    requires i < |script|
    ensures Ends(d, script, i, len) <==> !Sleeps(d, script, i, len)
  {
    ProgressIs(script, i + 1, len);
  }

  /** The first answer that ends the call. */
  predicate FirstEnd(d: Dir, script: seq<Answer>, k: nat, len: nat) {
    k < |script| && Ends(d, script, k, len) && forall j :: 0 <= j < k ==> !Ends(d, script, j, len)
  }

  /** What the first ending answer makes the call return. */
  predicate Returns(d: Dir, a: Answer, n: nat, len: nat, res: Result) {
    match res
    case ResNil => a.err == NoErr && if d == Wr then n == len else n > 0 || len == 0
    case ResShortWrite => a.err == NoErr && d == Wr && n < len
    case ResEOF => a.err == NoErr && d == Rd && n == 0 && len > 0
    case ResOther => a.err == OtherErr
    case ResClosed => a.err == Hangup && d == Rd && a.closed && n == 0 && len > 0
  }

  /** A call that meets an ending answer returns there: its count is what it was offered, as far as its
      buffer reaches, and each result is returned in exactly one case. */
  lemma ReturnsExactly(d: Dir, script: seq<Answer>, len: nat, k: nat)
    requires FirstEnd(d, script, k, len)
    ensures CountOf(d, script, len) == if Offered(script, k + 1) < len then Offered(script, k + 1) else len
    ensures forall res :: OutcomeOf(d, script, len) == Returned(res) <==>
              Returns(d, script[k], CountOf(d, script, len), len, res)
  {
    StopsAt(d, script, len, k);
    ProgressIs(script, k + 1, len);
  }

  lemma StopsAt(d: Dir, script: seq<Answer>, len: nat, k: nat)
    requires FirstEnd(d, script, k, len)
    ensures Stop(d, script, 0, len) == k
  {
    var m := Stop(d, script, 0, len);
    EndsIffAwake(d, script, k, len);
    if m < k {
      EndsIffAwake(d, script, m, len);
    }
  }

  /** A call sleeps through a script exactly when no answer in it ends the call. */
  lemma AsleepExactly(d: Dir, script: seq<Answer>, len: nat)
    ensures OutcomeOf(d, script, len) == Asleep <==> forall i :: 0 <= i < |script| ==> !Ends(d, script, i, len)
    ensures OutcomeOf(d, script, len) == Asleep ==>
              CountOf(d, script, len) == if Offered(script, |script|) < len then Offered(script, |script|) else len
  {
    var m := Stop(d, script, 0, len);
    ProgressIs(script, |script|, len);
    forall i | 0 <= i < |script| ensures Ends(d, script, i, len) <==> !Sleeps(d, script, i, len) {
      EndsIffAwake(d, script, i, len);
    }
  }

  /** On an open console a hangup never ends a call, whatever its buffer and whatever it has. */
  lemma OpenHangupsSleep(d: Dir, script: seq<Answer>, len: nat)
    requires forall i :: 0 <= i < |script| ==> script[i].err == Hangup && !script[i].closed
    ensures OutcomeOf(d, script, len) == Asleep
  {
    AsleepExactly(d, script, len);
  }

  /** The device behind the console: everything that crossed it, in order. */
  class Device {
    var log: seq<Entry>

    constructor ()
      ensures log == []
    {
      log := [];
    }

    method Cross(me: Tid, bytes: seq<Byte>)
      modifies this
      ensures log == old(log) + Tag(bytes, me)
      ensures Mine(log, me) == Mine(old(log), me) + bytes
    {
      log := log + Tag(bytes, me);
      MineConcat(old(log), Tag(bytes, me), me);
      MineTag(bytes, me);
    }

    method Sleep(me: Tid, others: seq<Entry>)
      requires Foreign(others, me)
      modifies this
      ensures log == old(log) + others
      ensures Mine(log, me) == Mine(old(log), me)
    {
      log := log + others;
      MineConcat(old(log), others, me);
      MineForeign(others, me);
    }

    /** One turn of the loop of `Read`: a console read into `p[n:]`, and the sleep if it has to wait. */
    method ReadOnce(me: Tid, p: array<Byte>, n: nat, a: Answer, bytes: seq<Byte>) returns (wait: bool)
      requires n + |bytes| <= p.Length && Foreign(a.others, me)
      modifies this, p
      ensures old(log) <= log
      ensures Mine(log, me) == Mine(old(log), me) + bytes
      ensures p[..n + |bytes|] == old(p[..n]) + bytes
      ensures forall j :: n + |bytes| <= j < p.Length ==> p[j] == old(p[j])
      ensures wait <==> a.err == Hangup && !(n + |bytes| == 0 && p.Length > 0 && a.closed)
    {
      forall j | n <= j < n + |bytes| {
        p[j] := bytes[j - n];
      }
      Cross(me, bytes);
      wait := ReadWaits(p.Length, n + |bytes|, a.closed, a.err);
      if wait {
        Sleep(me, a.others);
      }
    }

    /** One turn of the loop of `Write`: the console takes some bytes, and the call sleeps if it has to. */
    method WriteOnce(me: Tid, a: Answer, bytes: seq<Byte>) returns (wait: bool)
      requires Foreign(a.others, me)
      modifies this
      ensures old(log) <= log
      ensures Mine(log, me) == Mine(old(log), me) + bytes
      ensures wait <==> a.err == Hangup
    {
      Cross(me, bytes);
      wait := a.err != NoErr && WriteWaits(a.err);
      if wait {
        Sleep(me, a.others);
      }
    }

    /** `Write`: across every sleep the bytes accepted for this call are `p[..n]`, in order. */
    method Write(me: Tid, p: seq<Byte>, script: seq<Answer>) returns (n: nat, out: Outcome)
      requires forall i :: 0 <= i < |script| ==> Foreign(script[i].others, me)
      modifies this
      ensures n <= |p|
      ensures Mine(log, me) == Mine(old(log), me) + p[..n]
      ensures old(log) <= log
      ensures n == CountOf(Wr, script, |p|) && out == OutcomeOf(Wr, script, |p|)
    {
      n := 0;
      var i := 0;
      while i < |script|
        invariant 0 <= i <= |script| && n == Progress(script, i, |p|)
        invariant Stop(Wr, script, 0, |p|) == Stop(Wr, script, i, |p|)
        invariant Mine(log, me) == Mine(old(log), me) + p[..n]
        invariant old(log) <= log
      {
        var written := Min(script[i].k, |p| - n);
        var wait := WriteOnce(me, script[i], p[n..n + written]);
        assert p[..n] + p[n..n + written] == p[..n + written];
        n := n + written;
        assert wait == Sleeps(Wr, script, i, |p|);
        if !wait {
          return n, Returned(ResultOf(Wr, script[i].err, n, |p|));
        }
        i := i + 1;
      }
      out := Asleep;
    }

    /** `Read`: the buffer is filled from the front with exactly the bytes delivered to this call;
        `input[i]` holds the bytes the device has ready at answer `i`. */
    method Read(me: Tid, p: array<Byte>, script: seq<Answer>, input: seq<seq<Byte>>) returns (n: nat, out: Outcome)
      requires |input| == |script|
      requires forall i :: 0 <= i < |script| ==> Foreign(script[i].others, me) && |input[i]| == script[i].k
      modifies this, p
      ensures n <= p.Length
      ensures Mine(log, me) == Mine(old(log), me) + p[..n]
      ensures forall j :: n <= j < p.Length ==> p[j] == old(p[j])
      ensures old(log) <= log
      ensures n == CountOf(Rd, script, p.Length) && out == OutcomeOf(Rd, script, p.Length)
    {
      n := 0;
      var i := 0;
      while i < |script|
        invariant 0 <= i <= |script| && n == Progress(script, i, p.Length)
        invariant Stop(Rd, script, 0, p.Length) == Stop(Rd, script, i, p.Length)
        invariant Mine(log, me) == Mine(old(log), me) + p[..n]
        invariant forall j :: n <= j < p.Length ==> p[j] == old(p[j])
        invariant old(log) <= log
      {
        var read := Min(script[i].k, p.Length - n);
        var wait := ReadOnce(me, p, n, script[i], input[i][..read]);
        n := n + read;
        assert wait == Sleeps(Rd, script, i, p.Length);
        if !wait {
          return n, Returned(ResultOf(Rd, script[i].err, n, p.Length));
        }
        i := i + 1;
      }
      out := Asleep;
    }
  }
}
