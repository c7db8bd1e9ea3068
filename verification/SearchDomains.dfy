/** Search-domain parsing and its limits on macOS (core/gvnet/dns.go).  A `char` stands for a byte. */
module SearchDomains {
  import opened Basics

  const LIMIT: nat := 256
  const DOMAINS: nat := 6
  const Prefix: string := "search "

  // ---------------------------------------------------------------- string operations

  function Split(s: string): (r: seq<string>)
    ensures r != []
    decreases |s|
  {
    var i := IndexOf(s, ' ');
    if i == |s| then [s] else [s[..i]] + Split(s[i + 1..])
  }

  function Join(ds: seq<string>): string {
    if ds == [] then "" else if |ds| == 1 then ds[0] else ds[0] + " " + Join(ds[1..])
  }

  function TrimPrefix(s: string, prefix: string): string {
    if prefix <= s then s[|prefix|..] else s
  }

  /** The position of the last space. */
  function LastSpace(s: string): (r: Option<nat>)
    ensures r.None? ==> ' ' !in s
    ensures r.Some? ==> r.value < |s| && s[r.value] == ' ' && ' ' !in s[r.value + 1..]
  {
    if s == [] then None
    else
      var n := |s| - 1;
      if s[n] == ' ' then Some(n)
      else
        var r := LastSpace(s[..n]);
        assert s == s[..n] + [s[n]];
        assert r.Some? ==> s[r.value + 1..] == s[..n][r.value + 1..] + [s[n]];
        r
  }

  // ---------------------------------------------------------------- the parser

  function Truncated(text: string): string
    requires |text| > LIMIT
  {
    var cut := text[..LIMIT];
    var last := LastSpace(cut);
    if last.Some? then cut[..last.value] else cut
  }

  function ParseSearchString(text: string, prefix: string, darwin: bool): seq<string> {
    var t := if darwin && |text| > LIMIT then Truncated(text) else text;
    var domains := Split(TrimPrefix(t, prefix));
    if darwin && |domains| > DOMAINS then domains[..DOMAINS] else domains
  }

  // ---------------------------------------------------------------- splitting

  lemma {:induction false} IndexBefore(a: string, b: string)
    requires ' ' !in a
    ensures IndexOf(a + " " + b, ' ') == |a|
  {
    if a != [] {
      assert (a + " " + b)[1..] == a[1..] + " " + b;
      IndexBefore(a[1..], b);
    }
  }

  lemma SplitFirst(a: string, b: string)
    requires ' ' !in a
    ensures Split(a + " " + b) == [a] + Split(b)
  {
    IndexBefore(a, b);
    var s := a + " " + b;
    assert s[..|a|] == a && s[|a| + 1..] == b;
  }

  lemma Regroup(h: string, t: string, b: string, x: seq<string>, y: seq<string>)
    ensures h + " " + t + " " + b == h + " " + (t + " " + b)
    ensures [h] + x + y == [h] + (x + y)
  {
  }

  lemma SplitLater(h: string, t: string, b: string)
    requires ' ' !in h && Split(t + " " + b) == Split(t) + Split(b)
    ensures Split(h + " " + t + " " + b) == Split(h + " " + t) + Split(b)
  {
    Regroup(h, t, b, Split(t), Split(b));
    SplitFirst(h, t);
    SplitFirst(h, t + " " + b);
  }

  lemma FirstSpace(s: string) returns (h: string, t: string)
    requires ' ' in s
    ensures s == h + " " + t && ' ' !in h
  {
    var i := IndexOf(s, ' ');
    h, t := s[..i], s[i + 1..];
  }

  lemma JoinFirst(h: string, ds: seq<string>)
    requires ds != []
    ensures Join([h] + ds) == h + " " + Join(ds)
  {
    assert ([h] + ds)[1..] == ds;
  }

  /** Splitting and joining undo each other. */
  lemma {:induction false} JoinSplit(s: string)
    ensures Join(Split(s)) == s
    decreases |s|
  {
    if ' ' !in s {
      assert Split(s) == [s];
    } else {
      var h, t := FirstSpace(s);
      JoinSplit(t);
      SplitFirst(h, t);
      JoinFirst(h, Split(t));
    }
  }

  /** A list split at one of its spaces splits into the two halves. */
  lemma {:induction false} SplitAt(a: string, b: string)
    ensures Split(a + " " + b) == Split(a) + Split(b)
    decreases |a|
  {
    if ' ' !in a {
      SplitFirst(a, b);
      assert Split(a) == [a];
    } else {
      var h, t := FirstSpace(a);
      SplitAt(t, b);
      SplitLater(h, t, b);
    }
  }

  lemma {:induction false} SplitJoin(ds: seq<string>)
    requires ds != [] && forall k :: 0 <= k < |ds| ==> ' ' !in ds[k]
    ensures Split(Join(ds)) == ds
  {
    assert IndexOf(ds[0], ' ') == |ds[0]|;
    if |ds| > 1 {
      SplitJoin(ds[1..]);
      SplitAt(ds[0], Join(ds[1..]));
    }
  }

  /** The number of spaces. */
  function Spaces(s: string): nat {
    multiset(s)[' ']
  }

  lemma SpacesAdd(a: string, c: string)
    ensures Spaces(a + " " + c) == Spaces(a) + 1 + Spaces(c)
  {
  }

  lemma {:induction false} SplitCount(s: string)
    ensures |Split(s)| == Spaces(s) + 1
    decreases |s|
  {
    if ' ' !in s {
      assert Split(s) == [s];
    } else {
      var h, t := FirstSpace(s);
      SplitCount(t);
      SplitFirst(h, t);
      SpacesAdd(h, t);
    }
  }

  /** Dropping domains never lengthens the list. */
  lemma {:induction false} JoinShorter(ds: seq<string>, k: nat)
    requires k <= |ds|
    ensures |Join(ds[..k])| <= |Join(ds)|
  {
    if 1 < |ds| && 0 < k {
      JoinShorter(ds[1..], k - 1);
      assert ds[..k][1..] == ds[1..][..k - 1];
    }
  }

  // ---------------------------------------------------------------- the limits

  /** All the domains of a line. */
  function Domains(text: string): seq<string>
    requires Prefix <= text
  {
    Split(text[|Prefix|..])
  }

  /** Some domain ends before the limit, or nothing has to be cut. */
  predicate Cuttable(text: string)
    requires Prefix <= text
  {
    |text| <= LIMIT || ' ' in text[|Prefix|..LIMIT]
  }

  /** What a macOS resolver needs of the result. */
  predicate Acceptable(r: seq<string>, text: string)
    requires Prefix <= text
  {
    r <= Domains(text) && |r| <= DOMAINS && |Prefix + Join(r)| <= LIMIT
  }

  function AtMost(ds: seq<string>): seq<string> {
    if |ds| > DOMAINS then ds[..DOMAINS] else ds
  }

  /** Where the cut falls in an over-long line: at the last space among the domains, if any, and
      otherwise at the space of the prefix itself. */
  lemma CutPoint(text: string)
    requires Prefix <= text && |text| > LIMIT
    ensures var last := LastSpace(text[..LIMIT]);
            && last.Some? && last.value >= |Prefix| - 1
            && (' ' in text[|Prefix|..LIMIT] <==> last.value >= |Prefix|)
  {
    var cut := text[..LIMIT];
    assert cut[|Prefix| - 1] == ' ';
    var last := LastSpace(cut);
    if last.value >= |Prefix| {
      assert text[|Prefix|..LIMIT][last.value - |Prefix|] == ' ';
    } else {
      assert cut[|Prefix|..] == text[|Prefix|..LIMIT];
    }
  }

  lemma CutShape(text: string) returns (a: string, b: string, c: string)
    requires Prefix <= text && |text| > LIMIT && ' ' in text[|Prefix|..LIMIT]
    ensures text[|Prefix|..] == a + " " + b && text[|Prefix|..LIMIT] == a + " " + c && ' ' !in c
    ensures Truncated(text) == Prefix + a && |Prefix + a| < LIMIT
  {
    CutPoint(text);
    var cut := text[..LIMIT];
    var last := LastSpace(cut).value;
    a, b, c := text[|Prefix|..last], text[last + 1..], text[last + 1..LIMIT];
    assert cut[last + 1..] == c;
    assert text[last] == cut[last];
    assert cut[..last] == Prefix + a;
  }

  /** The over-long line, cut at the last space before the limit: what is left are the domains that
      end before it. */
  lemma CutDomains(text: string)
    requires Prefix <= text && |text| > LIMIT && ' ' in text[|Prefix|..LIMIT]
    ensures var n := Spaces(text[|Prefix|..LIMIT]);
            && Prefix <= Truncated(text) && |Truncated(text)| < LIMIT
            && n <= |Domains(text)| && Split(Truncated(text)[|Prefix|..]) == Domains(text)[..n]
  {
    var a, b, c := CutShape(text);
    SplitAt(a, b);
    assert Truncated(text)[|Prefix|..] == a;
    SpacesAdd(a, c);
    SplitCount(a);
  }

  /** On macOS an over-long line keeps exactly the domains that end before the limit, six at most. */
  lemma DarwinKeepsWholeDomains(text: string)
    requires Prefix <= text && |text| > LIMIT && ' ' in text[|Prefix|..LIMIT]
    ensures var n := Spaces(text[|Prefix|..LIMIT]);
            && n <= |Domains(text)|
            && ParseSearchString(text, Prefix, true) == AtMost(Domains(text)[..n])
  {
    CutDomains(text);
  }

  /** With no space among the first domains the cut falls on the prefix: its name is the result. */
  lemma DarwinCutsPrefix(text: string)
    requires Prefix <= text && !Cuttable(text)
    ensures ParseSearchString(text, Prefix, true) == ["search"]
  {
    CutPoint(text);
    assert Truncated(text) == "search";
    assert IndexOf("search", ' ') == 6;
  }

  lemma FirstDomain(s: string, n: nat)
    requires n <= |s| && ' ' !in s[..n]
    ensures |Split(s)[0]| >= n
  {
    assert IndexOf(s, ' ') >= n;
  }

  lemma AtMostFits(s: string)
    ensures AtMost(Split(s)) <= Split(s) && |Join(AtMost(Split(s)))| <= |s|
  {
    JoinSplit(s);
    if |Split(s)| > DOMAINS {
      JoinShorter(Split(s), DOMAINS);
    }
  }

  lemma ShortAcceptable(text: string)
    requires Prefix <= text && |text| <= LIMIT
    ensures Acceptable(ParseSearchString(text, Prefix, true), text)
  {
    AtMostFits(text[|Prefix|..]);
  }

  lemma CutAcceptable(text: string)
    requires Prefix <= text && |text| > LIMIT && Cuttable(text)
    ensures Acceptable(ParseSearchString(text, Prefix, true), text)
  {
    CutDomains(text);
    AtMostFits(Truncated(text)[|Prefix|..]);
  }

  lemma UncutUnacceptable(text: string)
    requires Prefix <= text && !Cuttable(text)
    ensures !Acceptable(ParseSearchString(text, Prefix, true), text)
  {
    DarwinCutsPrefix(text);
    assert text[|Prefix|..][..LIMIT - |Prefix|] == text[|Prefix|..LIMIT];
    FirstDomain(text[|Prefix|..], LIMIT - |Prefix|);
    assert |Domains(text)[0]| > |"search"|;
  }

  /** On macOS the result is a list of whole leading domains within both limits exactly when the line
      is short enough or some domain ends before the limit. */
  lemma AcceptableIffCuttable(text: string)
    requires Prefix <= text
    ensures Acceptable(ParseSearchString(text, Prefix, true), text) <==> Cuttable(text)
  {
    if |text| <= LIMIT {
      ShortAcceptable(text);
    } else if Cuttable(text) {
      CutAcceptable(text);
    } else {
      UncutUnacceptable(text);
    }
  }

  lemma LinuxRebuilds(text: string)
    requires Prefix <= text
    ensures Prefix + Join(ParseSearchString(text, Prefix, false)) == text
  {
    JoinSplit(text[|Prefix|..]);
  }

  lemma LinuxReturns(ds: seq<string>)
    requires ds != [] && forall k :: 0 <= k < |ds| ==> ' ' !in ds[k]
    ensures ParseSearchString(Prefix + Join(ds), Prefix, false) == ds
  {
    SplitJoin(ds);
    assert (Prefix + Join(ds))[|Prefix|..] == Join(ds);
  }

  /** Elsewhere nothing is lost: the line can be rebuilt, and any list of domains comes back. */
  lemma LinuxRoundTrip(text: string, ds: seq<string>)
    requires Prefix <= text
    requires ds != [] && forall k :: 0 <= k < |ds| ==> ' ' !in ds[k]
    ensures Prefix + Join(ParseSearchString(text, Prefix, false)) == text
    ensures ParseSearchString(Prefix + Join(ds), Prefix, false) == ds
  {
    LinuxRebuilds(text);
    LinuxReturns(ds);
  }

  /** On macOS a line of at most 256 bytes keeps its leading domains, all of them or the first six. */
  lemma DarwinKeepsShortLines(text: string)
    requires "search " <= text && |text| <= 256
    ensures var r, all := ParseSearchString(text, "search ", true), Split(text[7..]);
            r <= all && |r| == if |all| < 6 then |all| else 6
  {
  }

  /** An over-long line keeps, of the domains that end before byte 256, all or the first six. */
  lemma DarwinKeepsLongLines(text: string)
    requires "search " <= text && |text| > 256 && ' ' in text[7..256]
    ensures var r, all := ParseSearchString(text, "search ", true), Split(text[7..]);
            var n := multiset(text[7..256])[' '];
            n <= |all| && r <= all && |r| == if n < 6 then n else 6
  {
    DarwinKeepsWholeDomains(text);
  }

  /** Whatever the prefix, elsewhere only it is taken off. */
  lemma LinuxAnyPrefix(text: string, prefix: string)
    ensures var rest := Join(ParseSearchString(text, prefix, false));
            if prefix <= text then prefix + rest == text else rest == text
  {
    JoinSplit(TrimPrefix(text, prefix));
  }
}
