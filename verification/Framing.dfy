/** Delimited log framing (pkg/logging/delim.go), over a reader that may cut its stream anywhere. */
module Framing {
  import opened Basics

  const INITIAL: nat := 1024 * 1024
  const MAX: nat := 10 * 1024 * 1024

  /** `byte(delimiter)`: a rune keeps its low eight bits. */
  function ByteOf(rune: int): Byte {
    rune % 256
  }

  /** A rune below 256 is its own byte, and adding a multiple of 256 changes nothing. */
  lemma ByteOfIs(rune: int, b: Byte, q: int)
    requires rune == 256 * q + b
    ensures ByteOf(rune) == b
  {
  }

  // ---------------------------------------------------------------- the split function

  /** The trimming step; cutting two bytes off a single one is out of range. */
  function ReplaceDelimiter(data: seq<Byte>, d: Byte): Option<seq<Byte>> {
    if |data| > 0 && data[|data| - 1] == d then
      if |data| >= 2 then Some(data[..|data| - 2]) else None
    else Some(data)
  }

  datatype Split = More | Token(advance: nat, token: seq<Byte>) | Panics

  function Cut(advance: nat, trimmed: Option<seq<Byte>>): Split {
    if trimmed.Some? then Token(advance, trimmed.value) else Panics
  }

  function SplitFunc(data: seq<Byte>, atEOF: bool, d: Byte): Split {
    var i := IndexOf(data, d);
    if atEOF && data == [] then More
    else if i < |data| then Cut(i + 1, ReplaceDelimiter(data[..i], d))
    else if atEOF then Cut(|data|, ReplaceDelimiter(data, d))
    else More
  }

  /** The trimming branch is never reached: a token is the whole piece before the delimiter. */
  lemma NeverTrims(data: seq<Byte>, atEOF: bool, d: Byte)
    ensures var r := SplitFunc(data, atEOF, d);
            && !r.Panics?
            && (r.More? <==> d !in data && (atEOF ==> data == []))
            && (r.Token? ==> d !in r.token && r.advance <= |data|)
            && (r.Token? && d in data ==> data[..r.advance] == r.token + [d])
            && (r.Token? && d !in data ==> atEOF && r.token == data && r.advance == |data|)
  {
    var i := IndexOf(data, d);
    assert i == |data| ==> data[..i] == data;
    if i < |data| {
      assert data[..i + 1] == data[..i] + [d];
      assert i > 0 ==> data[..i][i - 1] in data[..i];
    } else {
      assert i > 0 ==> data[i - 1] in data;
    }
  }

  // ---------------------------------------------------------------- what should come out

  /** The pieces between delimiters; an empty last piece is not one. */
  function Pieces(s: seq<Byte>, d: Byte): seq<seq<Byte>>
    decreases |s|
  {
    var i := IndexOf(s, d);
    if s == [] then [] else if i == |s| then [s] else [s[..i]] + Pieces(s[i + 1..], d)
  }

  function Concat(ps: seq<seq<Byte>>): seq<Byte> {
    if ps == [] then [] else ps[0] + Concat(ps[1..])
  }

  /** The bytes that are not the delimiter. */
  function Strip(s: seq<Byte>, d: Byte): seq<Byte> {
    if s == [] then [] else (if s[0] == d then [] else [s[0]]) + Strip(s[1..], d)
  }

  lemma {:induction false} StripClean(a: seq<Byte>, d: Byte)
    requires d !in a
    ensures Strip(a, d) == a
  {
    if a != [] {
      StripClean(a[1..], d);
    }
  }

  lemma {:induction false} StripFirst(h: seq<Byte>, t: seq<Byte>, d: Byte)
    requires d !in h
    ensures Strip(h + [d] + t, d) == h + Strip(t, d)
  {
    var s := h + [d] + t;
    if h == [] {
      assert s[1..] == t;
    } else {
      assert s[1..] == h[1..] + [d] + t;
      StripFirst(h[1..], t, d);
    }
  }

  lemma ConcatFirst(p: seq<Byte>, ps: seq<seq<Byte>>)
    ensures Concat([p] + ps) == p + Concat(ps)
  {
    assert ([p] + ps)[1..] == ps;
  }

  /** Together the pieces are the stream with the delimiters removed. */
  lemma {:induction false} PiecesStrip(s: seq<Byte>, d: Byte)
    ensures Concat(Pieces(s, d)) == Strip(s, d)
    decreases |s|
  {
    var i := IndexOf(s, d);
    if i < |s| {
      var t := s[i + 1..];
      PiecesStrip(t, d);
      StripFirst(s[..i], t, d);
      assert s == s[..i] + [d] + t;
      ConcatFirst(s[..i], Pieces(t, d));
    } else if s != [] {
      assert s[..i] == s;
      StripClean(s, d);
      assert Concat([s]) == s + Concat([]);
    }
  }

  /** No piece holds a delimiter. */
  lemma {:induction false} PiecesClean(s: seq<Byte>, d: Byte, k: nat)
    requires k < |Pieces(s, d)|
    ensures d !in Pieces(s, d)[k]
    decreases |s|
  {
    var i := IndexOf(s, d);
    assert i == |s| ==> s[..i] == s;
    if k > 0 {
      PiecesClean(s[i + 1..], d, k - 1);
    }
  }

  /** A producer's framing: every message followed by the delimiter. */
  function Frame(ms: seq<seq<Byte>>, d: Byte): seq<Byte> {
    if ms == [] then [] else ms[0] + [d] + Frame(ms[1..], d)
  }

  lemma {:induction false} IndexAfter(m: seq<Byte>, s: seq<Byte>, d: Byte)
    requires d !in m
    ensures IndexOf(m + [d] + s, d) == |m|
  {
    var i, t := IndexOf(m + [d] + s, d), m + [d] + s;
    assert t[|m|] == d;
  }

  /** Framed messages come back one by one, the empty ones too. */
  lemma {:induction false} FrameRoundTrip(ms: seq<seq<Byte>>, d: Byte)
    requires forall k :: 0 <= k < |ms| ==> d !in ms[k]
    ensures Pieces(Frame(ms, d), d) == ms
  {
    if ms != [] {
      var rest := Frame(ms[1..], d);
      IndexAfter(ms[0], rest, d);
      FrameRoundTrip(ms[1..], d);
      var s := Frame(ms, d);
      assert s[..|ms[0]|] == ms[0] && s[|ms[0]| + 1..] == rest;
    }
  }

  // ---------------------------------------------------------------- the reader and the scanner

  datatype Fault = EOF | Broken | TooLong

  /** A stream that ends properly or breaks off; each read returns some of it, cut anywhere. */
  class Reader {
    const stream: seq<Byte>
    const broken: bool
    var pos: nat

    constructor (stream: seq<Byte>, broken: bool)
      ensures this.stream == stream && this.broken == broken && pos == 0
    {
      this.stream, this.broken, pos := stream, broken, 0;
    }

    function Last(): Fault {
      if broken then Broken else EOF
    }

    /** The final condition comes alone, or already with the last bytes. */
    method Read(room: nat) returns (chunk: seq<Byte>, err: Option<Fault>)
      requires pos <= |stream| && room > 0
      modifies this
      ensures old(pos) <= pos <= |stream|
      ensures chunk == stream[old(pos)..pos] && |chunk| <= room
      ensures err.None? ==> chunk != []
      ensures err.Some? ==> pos == |stream| && err.value == Last()
    {
      if pos == |stream| {
        return [], Some(Last());
      }
      var n: nat :| 1 <= n <= room && pos + n <= |stream|;
      chunk := stream[pos..pos + n];
      pos := pos + n;
      var early: bool :| early ==> pos == |stream|;
      err := if early then Some(Last()) else None;
    }
  }

  /** The scanner's buffer: the unread bytes, its present size and the condition that stopped reading. */
  class Scanner {
    const reader: Reader
    const d: Byte
    var unread: seq<Byte>
    var size: nat
    var err: Option<Fault>

    ghost predicate Valid()
      reads this, reader
    {
      && reader.pos <= |reader.stream| && |unread| <= size <= MAX && 0 < size
      && (err.Some? ==> err.value == reader.Last() && reader.pos == |reader.stream|)
    }

    /** What is still to be delivered. */
    ghost function Rest(): seq<Byte>
      reads this, reader
      requires reader.pos <= |reader.stream|
    {
      unread + reader.stream[reader.pos..]
    }

    constructor (reader: Reader, d: Byte)
      requires reader.pos <= |reader.stream|
      ensures Valid() && this.reader == reader && this.d == d && unread == [] && err.None?
    {
      this.reader, this.d := reader, d;
      unread, size, err := [], INITIAL, None;
    }

    /** One more read into the free part of the buffer. */
    method Fill()
      requires Valid() && err.None? && |unread| < size
      modifies this, reader
      ensures Valid() && size == old(size) && Rest() == old(Rest())
      ensures |reader.stream| - reader.pos < old(|reader.stream| - reader.pos) || err.Some?
    {
      ghost var pos := reader.pos;
      var chunk, e := reader.Read(size - |unread|);
      assert reader.stream[pos..] == chunk + reader.stream[reader.pos..];
      unread := unread + chunk;
      err := e;
      assert Rest() == old(unread) + (chunk + reader.stream[reader.pos..]);
    }

    /** A token from the bytes already read, if they hold one. */
    method Take() returns (got: Option<seq<Byte>>)
      requires Valid()
      modifies this`unread
      ensures Valid()
      ensures got.Some? ==> d !in got.value
      ensures got.Some? ==> Terminated(got.value, old(Rest()), Rest(), d) || Final(got.value, old(Rest()), Rest())
      ensures got.None? ==> unread == old(unread) && d !in unread && (err.Some? ==> unread == [])
    {
      got := None;
      if |unread| > 0 || err.Some? {
        NeverTrims(unread, err.Some?, d);
        var r := SplitFunc(unread, err.Some?, d);
        if r.Token? {
          assert Rest() == unread[..r.advance] + (unread[r.advance..] + reader.stream[reader.pos..]);
          unread := unread[r.advance..];
          got := Some(r.token);
        }
      }
    }

    /** The next token, or the end: everything was delivered, or a piece fills the largest buffer. */
    method Scan() returns (ok: bool, token: seq<Byte>)
      requires Valid()
      modifies this, reader
      ensures ok ==> Valid() && d !in token
      ensures ok ==> Terminated(token, old(Rest()), Rest(), d) || Final(token, old(Rest()), Rest())
      ensures !ok && err != Some(TooLong) ==> err == Some(reader.Last()) && old(Rest()) == []
      ensures !ok && err == Some(TooLong) ==> Overlong(old(Rest()), d)
    {
      var got := Take();
      while got.None?
        invariant Valid()
        invariant got.Some? ==> d !in got.value
        invariant got.Some? ==> Terminated(got.value, old(Rest()), Rest(), d) || Final(got.value, old(Rest()), Rest())
        invariant got.None? ==> Rest() == old(Rest()) && d !in unread && (err.Some? ==> unread == [])
        decreases got.None?, |reader.stream| - reader.pos, err.None?
      {
        if err.Some? {
          return false, [];
        }
        if |unread| == size {
          if size >= MAX {
            assert Rest()[..MAX] == unread;
            err := Some(TooLong);
            return false, [];
          }
          size := if 2 * size <= MAX then 2 * size else MAX;
        }
        Fill();
        got := Take();
      }
      ok, token := true, got.value;
    }
  }

  predicate Terminated(token: seq<Byte>, before: seq<Byte>, after: seq<Byte>, d: Byte) {
    before == token + [d] + after && |token| < MAX
  }

  predicate Final(token: seq<Byte>, before: seq<Byte>, after: seq<Byte>) {
    before == token && token != [] && after == [] && |token| <= MAX
  }

  predicate Overlong(s: seq<Byte>, d: Byte) {
    |s| >= MAX && d !in s[..MAX]
  }

  lemma PiecesTerminated(token: seq<Byte>, s: seq<Byte>, d: Byte)
    requires d !in token
    ensures Pieces(token + [d] + s, d) == [token] + Pieces(s, d)
  {
    IndexAfter(token, s, d);
    var t := token + [d] + s;
    assert t[..|token|] == token && t[|token| + 1..] == s;
  }

  lemma PiecesFinal(token: seq<Byte>, d: Byte)
    requires d !in token && token != []
    ensures Pieces(token, d) == [token]
  {
    assert IndexOf(token, d) == |token|;
  }

  lemma PiecesOverlong(s: seq<Byte>, d: Byte)
    requires Overlong(s, d)
    ensures Pieces(s, d) != [] && |Pieces(s, d)[0]| >= MAX
  {
    assert IndexOf(s, d) >= MAX;
  }

  /** The pieces fit: all but the last are shorter than the largest buffer, the last no longer. */
  predicate Fits(ps: seq<seq<Byte>>) {
    forall k :: 0 <= k < |ps| ==> |ps[k]| <= MAX && (k < |ps| - 1 ==> |ps[k]| < MAX)
  }

  /** `out` was delivered and `rest` is still to come. */
  ghost predicate Progress(out: seq<seq<Byte>>, rest: seq<Byte>, ps: seq<seq<Byte>>, d: Byte) {
    && ps == out + Pieces(rest, d)
    && forall k :: 0 <= k < |out| ==> |out[k]| <= MAX && (k < |ps| - 1 ==> |out[k]| < MAX)
  }

  lemma PiecesNext(token: seq<Byte>, before: seq<Byte>, after: seq<Byte>, d: Byte)
    requires d !in token && (Terminated(token, before, after, d) || Final(token, before, after))
    ensures Pieces(before, d) == [token] + Pieces(after, d)
    ensures |token| <= MAX && (Pieces(after, d) != [] ==> |token| < MAX)
  {
    if Terminated(token, before, after, d) {
      PiecesTerminated(token, after, d);
    } else {
      PiecesFinal(token, d);
    }
  }

  lemma Delivered(out: seq<seq<Byte>>, token: seq<Byte>, ps: seq<seq<Byte>>, qs: seq<seq<Byte>>)
    requires ps == out + ([token] + qs) && |token| <= MAX && (qs != [] ==> |token| < MAX)
    requires forall k :: 0 <= k < |out| ==> |out[k]| <= MAX && (k < |ps| - 1 ==> |out[k]| < MAX)
    ensures ps == out + [token] + qs
    ensures forall k :: 0 <= k <= |out| ==>
              |(out + [token])[k]| <= MAX && (k < |ps| - 1 ==> |(out + [token])[k]| < MAX)
  {
  }

  lemma ProgressStep(out: seq<seq<Byte>>, token: seq<Byte>, before: seq<Byte>, after: seq<Byte>,
                     ps: seq<seq<Byte>>, d: Byte)
    requires Progress(out, before, ps, d) && d !in token
    requires Terminated(token, before, after, d) || Final(token, before, after)
    ensures Progress(out + [token], after, ps, d) && |after| < |before|
  {
    PiecesNext(token, before, after, d);
    Delivered(out, token, ps, Pieces(after, d));
  }

  lemma ProgressStops(out: seq<seq<Byte>>, rest: seq<Byte>, ps: seq<seq<Byte>>, d: Byte)
    requires Progress(out, rest, ps, d) && (rest == [] || Overlong(rest, d))
    ensures rest == [] ==> out == ps && Fits(ps)
    ensures Overlong(rest, d) ==> out <= ps && |out| < |ps| && |ps[|out|]| >= MAX
    ensures Overlong(rest, d) ==> forall k :: 0 <= k < |out| ==> |out[k]| < MAX
  {
    if Overlong(rest, d) {
      PiecesOverlong(rest, d);
    }
  }

  /** Whatever the cuts, the pieces are delivered in order, all of them if they fit, and otherwise up
      to the first that fills the largest buffer. */
  method HandleDelimitedProxy(reader: Reader, delimiter: int) returns (out: seq<seq<Byte>>, fault: Option<Fault>)
    requires reader.pos == 0
    modifies reader
    ensures var ps := Pieces(reader.stream, ByteOf(delimiter));
            && out <= ps
            && (fault == Some(TooLong) ==> |out| < |ps| && |ps[|out|]| >= 10485760)
            && (fault == Some(TooLong) ==> forall k :: 0 <= k < |out| ==> |out[k]| < 10485760)
            && (fault != Some(TooLong) ==> out == ps && Fits(ps) && Concat(out) == Strip(reader.stream, ByteOf(delimiter)))
            && (fault != Some(TooLong) ==> fault == if reader.broken then Some(Broken) else None)
  {
    var d := ByteOf(delimiter);
    var scanner := new Scanner(reader, d);
    out := [];
    ghost var ps := Pieces(reader.stream, d);
    ghost var rest := reader.stream;
    assert scanner.Rest() == rest;
    var ok, token := scanner.Scan();
    while ok
      invariant scanner.reader == reader && scanner.d == d && fresh(scanner)
      invariant Progress(out, rest, ps, d)
      invariant ok ==> scanner.Valid() && d !in token
      invariant ok ==> Terminated(token, rest, scanner.Rest(), d) || Final(token, rest, scanner.Rest())
      invariant !ok ==> if scanner.err == Some(TooLong) then Overlong(rest, d)
                        else rest == [] && scanner.err == Some(reader.Last())
      decreases |rest|
    {
      ProgressStep(out, token, rest, scanner.Rest(), ps, d);
      out := out + [token];
      rest := scanner.Rest();
      ok, token := scanner.Scan();
    }
    ProgressStops(out, rest, ps, d);
    PiecesStrip(reader.stream, d);
    fault := if scanner.err == Some(EOF) then None else scanner.err;
  }
}
