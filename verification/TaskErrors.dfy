/** The collected errors of a task group (pkg/taskgroup/errors.go). */
module TaskErrors {
  import opened Basics

  const PanicMark: string := "panic in task:"

  predicate Contains(s: string, pat: string) {
    exists i :: 0 <= i <= |s| && pat <= s[i..]
  }

  /** The value behind a `TaskGroupError`. */
  datatype Group = Group(errors: map<string, string>, panics: nat, fails: nat)

  const NoErrors := Group(map[], 0, 0)

  function AddError(g: Group, name: string, msg: string): Group {
    if Contains(msg, PanicMark)
    then Group(g.errors[name := msg], g.panics + 1, g.fails)
    else Group(g.errors[name := msg], g.panics, g.fails + 1)
  }

  /** How a task ends: its function returns, returns an error, or panics. */
  datatype Outcome = Ok | Fail(msg: string) | Panic(value: string)

  /** The error text a worker hands on; a recovered panic is wrapped. */
  function Message(out: Outcome): string
    requires !out.Ok?
  {
    if out.Fail? then out.msg else PanicMark + " " + out.value
  }

  /** Every recovered panic is counted as a panic, and a plain failure is so counted
      exactly when its own text carries the mark. */
  lemma PanicsCountAsPanics(g: Group, name: string, out: Outcome)
    requires !out.Ok?
    ensures out.Panic? ==> AddError(g, name, Message(out)).panics == g.panics + 1
    ensures out.Fail? ==>
              (AddError(g, name, Message(out)).panics == g.panics + 1 <==> Contains(out.msg, PanicMark))
  {
    if out.Panic? {
      var m := Message(out);
      assert PanicMark <= m[0..];
    }
  }

  /** An error is counted as a panic exactly when the mark occurs somewhere in its text, and as a
      failure otherwise; a recovered panic's text is the mark and the value. */
  lemma CountedByMark(g: Group, name: string, msg: string, value: string)
    ensures var r := AddError(g, name, msg);
            var marked := exists pre: string, post: string :: msg == pre + "panic in task:" + post;
            && r.panics == g.panics + (if marked then 1 else 0)
            && r.fails == g.fails + (if marked then 0 else 1)
            && r.errors == g.errors[name := msg]
    ensures Message(Panic(value)) == "panic in task: " + value
    ensures Message(Fail(msg)) == msg
  {
    var mark: string := "panic in task:";
    if Contains(msg, mark) {
      var i :| 0 <= i <= |msg| && mark <= msg[i..];
      assert msg == msg[..i] + mark + msg[i + |mark|..];
    }
    if pre: string, post: string :| msg == pre + mark + post {
      assert msg[|pre|..] == mark + post;
    }
    assert Message(Panic(value)) == mark + " " + value == "panic in task: " + value;
  }

  // ---------------------------------------------------------------- the order of sort.Strings

  predicate Leq(a: string, b: string) {
    a == [] || (b != [] && (a[0] < b[0] || (a[0] == b[0] && Leq(a[1..], b[1..]))))
  }

  /** The order of strings: a prefix comes first, and otherwise the first difference decides. */
  lemma {:induction false} LeqMeans(a: string, b: string)
    ensures Leq(a, b) <==> a <= b || exists i :: 0 <= i < |a| && i < |b| && a[..i] == b[..i] && a[i] < b[i]
    decreases |a|
  {
    if a != [] && b != [] && a[0] == b[0] {
      LeqMeans(a[1..], b[1..]);
      assert a == [a[0]] + a[1..] && b == [b[0]] + b[1..];
      if i :| 0 <= i < |a[1..]| && i < |b[1..]| && a[1..][..i] == b[1..][..i] && a[1..][i] < b[1..][i] {
        assert a[..i + 1] == [a[0]] + a[1..][..i] && b[..i + 1] == [b[0]] + b[1..][..i];
        assert a[i + 1] < b[i + 1];
      }
      if i :| 0 <= i < |a| && i < |b| && a[..i] == b[..i] && a[i] < b[i] {
        assert i > 0;
        assert a[1..][..i - 1] == a[..i][1..] && b[1..][..i - 1] == b[..i][1..];
        assert a[1..][i - 1] < b[1..][i - 1];
      }
    } else if a != [] && b != [] && a[0] < b[0] {
      assert a[..0] == b[..0];
    } else if a != [] && b != [] {
      forall i | 0 < i < |a| && i < |b| ensures a[..i] != b[..i] {
        assert a[..i][0] != b[..i][0];
      }
    }
  }

  lemma {:induction false} LeqTotal(a: string, b: string)
    ensures Leq(a, b) || Leq(b, a)
    decreases |a|
  {
    if a != [] && b != [] && a[0] == b[0] {
      LeqTotal(a[1..], b[1..]);
    }
  }

  lemma {:induction false} LeqAntisymmetric(a: string, b: string)
    requires Leq(a, b) && Leq(b, a)
    ensures a == b
    decreases |a|
  {
    if a != [] {
      LeqAntisymmetric(a[1..], b[1..]);
      assert a == [a[0]] + a[1..] && b == [b[0]] + b[1..];
    }
  }

  lemma {:induction false} LeqTransitive(a: string, b: string, c: string)
    requires Leq(a, b) && Leq(b, c)
    ensures Leq(a, c)
    decreases |a|
  {
    if a != [] && a[0] == b[0] && b[0] == c[0] {
      LeqTransitive(a[1..], b[1..], c[1..]);
    }
  }

  predicate Sorted(names: seq<string>) {
    forall i, j :: 0 <= i < j < |names| ==> Leq(names[i], names[j])
  }

  /** A sorted list without repeats is determined by its elements, so the order in which a
      map is walked cannot show in the result. */
  lemma {:induction false} SortedUnique(a: seq<string>, b: seq<string>)
    requires Sorted(a) && Sorted(b) && NoDuplicates(a) && NoDuplicates(b)
    requires forall x :: x in a <==> x in b
    ensures a == b
    decreases |a|
  {
    assert b != [] ==> b[0] in b;
    if a != [] {
      assert a[0] in b;
      assert b != [] && b[0] in a;
      var i :| 0 <= i < |b| && b[i] == a[0];
      var j :| 0 <= j < |a| && a[j] == b[0];
      if a[0] != b[0] {
        LeqAntisymmetric(a[0], b[0]);
      }
      forall x ensures x in a[1..] <==> x in b[1..] {
        assert x in a[1..] ==> x in a && x != a[0];
        assert x in b[1..] ==> x in b && x != b[0];
        assert a == [a[0]] + a[1..] && b == [b[0]] + b[1..];
      }
      SortedUnique(a[1..], b[1..]);
    }
  }

  lemma InsertAt(names: seq<string>, k: nat, x: string)
    requires k <= |names| && Sorted(names) && NoDuplicates(names) && x !in names
    requires forall j :: 0 <= j < k ==> Leq(names[j], x)
    requires forall j :: k <= j < |names| ==> Leq(x, names[j])
    ensures var r := names[..k] + [x] + names[k..];
            Sorted(r) && NoDuplicates(r) && forall y :: y in r <==> y in names || y == x
  {
    var r := names[..k] + [x] + names[k..];
    assert forall i :: 0 <= i < k ==> r[i] == names[i];
    assert forall i :: k < i < |r| ==> r[i] == names[i - 1];
    assert r[k] == x;
    forall y | y in names ensures y in r {
      var i :| 0 <= i < |names| && names[i] == y;
      assert r[if i < k then i else i + 1] == y;
    }
  }

  /** Insertion sort, standing for `sort.Strings`. */
  method Sort(names: seq<string>) returns (r: seq<string>)
    requires NoDuplicates(names)
    ensures Sorted(r) && NoDuplicates(r)
    ensures forall y :: y in r <==> y in names
  {
    r := [];
    for i := 0 to |names|
      invariant Sorted(r) && NoDuplicates(r)
      invariant forall y :: y in r <==> y in names[..i]
    {
      var x, k := names[i], |r|;
      assert x !in names[..i];
      while k > 0 && Leq(x, r[k - 1])
        invariant 0 <= k <= |r|
        invariant forall j :: k <= j < |r| ==> Leq(x, r[j])
      {
        k := k - 1;
      }
      forall j | 0 <= j < k ensures Leq(r[j], x) {
        LeqTotal(x, r[k - 1]);
        if j < k - 1 {
          LeqTransitive(r[j], r[k - 1], x);
        }
      }
      InsertAt(r, k, x);
      r := r[..k] + [x] + r[k..];
      assert names[..i + 1] == names[..i] + [x];
    }
    assert names[..|names|] == names;
  }

  class TaskGroupError {
    var errors: map<string, string>
    var panics: nat
    var fails: nat

    function View(): Group
      reads this
    {
      Group(errors, panics, fails)
    }

    constructor ()
      ensures View() == NoErrors
    {
      errors, panics, fails := map[], 0, 0;
    }

    /** A nil error changes nothing; any other is stored under its name and counted once. */
    method AddTaskError(name: string, err: Option<string>)
      modifies this
      ensures View() == if err.Some? then AddError(old(View()), name, err.value) else old(View())
      ensures panics + fails == old(panics + fails) + if err.Some? then 1 else 0
    {
      if err.Some? {
        errors := errors[name := err.value];
        if Contains(err.value, PanicMark) {
          panics := panics + 1;
        } else {
          fails := fails + 1;
        }
      }
    }

    method HasErrors() returns (b: bool)
      ensures b <==> exists name :: name in errors
    {
      b := |errors| > 0;
      if b {
        var name :| name in errors;
      }
    }

    /** The sorted, repeat-free list of the names that have an error. */
    method GetFailedTaskNames() returns (names: seq<string>)
      ensures Sorted(names) && NoDuplicates(names)
      ensures forall x :: x in names <==> x in errors
    {
      names := [];
      var todo := errors.Keys;
      while todo != {}
        invariant todo <= errors.Keys && NoDuplicates(names)
        invariant forall x :: x in names <==> x in errors.Keys - todo
        decreases |todo|
      {
        var x :| x in todo;
        assert x !in names;
        names := names + [x];
        todo := todo - {x};
      }
      names := Sort(names);
    }
  }
}
