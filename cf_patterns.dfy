/** The two Codeforces URL regexes used by both routers:
      /\/contest\/(\d+)\/problem\/([A-Z0-9]+)/
      /\/problemset\/problem\/(\d+)\/([A-Z0-9]+)/
    Each has the shape  lead (\d+) mid ([A-Z0-9]+).  Because `mid` starts
    with '/', which is not a digit, the greedy `\d+` can only succeed with
    the longest run of digits, and the trailing `[A-Z0-9]+` takes the longest
    run of id characters; `String.prototype.match` reports the leftmost
    position where the shape occurs. */
module CfPatterns {
  import opened Strings

  datatype CharClass = Digit | Id

  /** `\d` and `[A-Z0-9]`. */
  predicate InClass(k: CharClass, c: char) {
    match k
    case Digit => '0' <= c <= '9'
    case Id => 'A' <= c <= 'Z' || '0' <= c <= '9'
  }

  predicate AllIn(k: CharClass, s: string) {
    forall i :: 0 <= i < |s| ==> InClass(k, s[i])
  }

  /** How many characters a greedy `[class]*` consumes at the start of s. */
  function Run(k: CharClass, s: string): (n: nat)
    ensures n <= |s|
    ensures AllIn(k, s[..n])
    ensures n < |s| ==> !InClass(k, s[n])
  {
    if s != [] && InClass(k, s[0]) then
      var n := 1 + Run(k, s[1..]);
      assert s[..n] == [s[0]] + s[1..][..n - 1];
      n
    else 0
  }

  datatype Pattern = Pattern(lead: string, mid: string)

  const Contest := Pattern("/contest/", "/problem/")
  const Problemset := Pattern("/problemset/problem/", "/")

  /** The patterns whose greedy runs are the only way to match. */
  predicate WellFormed(p: Pattern) {
    p.mid != [] && !InClass(Digit, p.mid[0])
  }

  /** u begins with the id group x: a non-empty run of id characters not
      followed by another one. */
  predicate IdShaped(u: string, x: string) {
    && x != [] && AllIn(Id, x)
    && StartsWith(u, x)
    && (|x| < |u| ==> !InClass(Id, u[|x|]))
  }

  /** t begins with  d mid x  where d is a non-empty run of digits. */
  predicate GroupsShaped(p: Pattern, t: string, d: string, x: string) {
    && d != [] && AllIn(Digit, d)
    && StartsWith(t, d)
    && StartsWith(t[|d|..], p.mid)
    && IdShaped(t[|d| + |p.mid|..], x)
  }

  /** s begins with  lead d mid x: exactly when the regex matches at index 0
      with groups d, x. */
  predicate Shaped(p: Pattern, s: string, d: string, x: string) {
    StartsWith(s, p.lead) && GroupsShaped(p, s[|p.lead|..], d, x)
  }

  /** `([A-Z0-9]+)` at the start of u, the digit group d already taken. */
  function IdGroup(d: string, u: string): (r: Option<(string, string)>)
    ensures r.Some? ==> r.value.0 == d && IdShaped(u, r.value.1)
  {
    var m := Run(Id, u);
    if m == 0 then None else Some((d, u[..m]))
  }

  /** `(\d+)mid([A-Z0-9]+)` at the start of t. */
  function Groups(p: Pattern, t: string): (r: Option<(string, string)>)
    ensures r.Some? ==> GroupsShaped(p, t, r.value.0, r.value.1)
  {
    var n := Run(Digit, t);
    if n == 0 || !StartsWith(t[n..], p.mid) then None
    else IdGroup(t[..n], t[n + |p.mid|..])
  }

  /** The regex tried at index 0 of s: the two capture groups, or None. */
  function MatchAt(p: Pattern, s: string): (r: Option<(string, string)>)
    ensures r.Some? ==> Shaped(p, s, r.value.0, r.value.1)
  {
    if !StartsWith(s, p.lead) then None else Groups(p, s[|p.lead|..])
  }

  /** A non-empty run of class characters followed by a non-class character
      or the end is exactly what Run consumes. */
  lemma {:induction false} RunExact(k: CharClass, d: string, rest: string)
    requires AllIn(k, d)
    requires rest == [] || !InClass(k, rest[0])
    ensures Run(k, d + rest) == |d|
  {
    if d != [] {
      assert (d + rest)[1..] == d[1..] + rest;
      RunExact(k, d[1..], rest);
    }
  }

  /** A run followed by anything else splits off exactly. */
  lemma RunSplits(k: CharClass, d: string, rest: string)
    requires AllIn(k, d)
    requires rest == [] || !InClass(k, rest[0])
    ensures Run(k, d + rest) == |d|
    ensures (d + rest)[..|d|] == d && (d + rest)[|d|..] == rest
  {
    RunExact(k, d, rest);
  }

  lemma IdGroupComplete(d: string, x: string, rest: string)
    requires x != [] && AllIn(Id, x)
    requires rest == [] || !InClass(Id, rest[0])
    ensures IdGroup(d, x + rest) == Some((d, x))
  {
    RunSplits(Id, x, rest);
  }

  lemma GroupsComplete(p: Pattern, d: string, x: string, rest: string)
    requires WellFormed(p)
    requires d != [] && AllIn(Digit, d) && x != [] && AllIn(Id, x)
    requires rest == [] || !InClass(Id, rest[0])
    ensures Groups(p, d + (p.mid + (x + rest))) == Some((d, x))
  {
    var after := p.mid + (x + rest);
    assert after[0] == p.mid[0];
    RunSplits(Digit, d, after);
    assert after[..|p.mid|] == p.mid && after[|p.mid|..] == x + rest;
    var t := d + after;
    assert t[|d| + |p.mid|..] == after[|p.mid|..];
    IdGroupComplete(t[..|d|], x, rest);
  }

  /** The regex matches at index 0 of  lead d mid x rest  with groups d, x
      whenever d is a non-empty digit run, x a non-empty id run and rest
      does not continue x: with MatchAt's own guarantee, the regex matches
      at index 0 exactly on the shaped texts. */
  lemma MatchAtComplete(p: Pattern, d: string, x: string, rest: string)
    requires WellFormed(p)
    requires d != [] && AllIn(Digit, d) && x != [] && AllIn(Id, x)
    requires rest == [] || !InClass(Id, rest[0])
    ensures MatchAt(p, p.lead + (d + (p.mid + (x + rest)))) == Some((d, x))
  {
    var t := d + (p.mid + (x + rest));
    var s := p.lead + t;
    assert s[..|p.lead|] == p.lead && s[|p.lead|..] == t;
    GroupsComplete(p, d, x, rest);
  }

  /** `s.match(regex)`: the groups of the leftmost match, which have the
      regex's shape. */
  function Find(p: Pattern, s: string): (r: Option<(string, string)>)
    ensures r.Some? ==> && r.value.0 != [] && AllIn(Digit, r.value.0)
                        && r.value.1 != [] && AllIn(Id, r.value.1)
    decreases |s|
  {
    match MatchAt(p, s)
    case Some(g) => Some(g)
    case None => if s == [] then None else Find(p, s[1..])
  }

  /** Find reports the first index at which the regex matches. */
  lemma {:induction false} FindFirst(p: Pattern, s: string, k: nat)
    requires k <= |s|
    requires MatchAt(p, s[k..]).Some?
    requires forall j :: 0 <= j < k ==> MatchAt(p, s[j..]).None?
    ensures Find(p, s) == MatchAt(p, s[k..])
  {
    if k > 0 {
      assert s[0..] == s;
      assert MatchAt(p, s[0..]).None?;
      forall j | 0 <= j < k - 1
        ensures MatchAt(p, s[1..][j..]).None?
      {
        assert s[1..][j..] == s[j + 1..];
      }
      assert s[1..][k - 1..] == s[k..];
      FindFirst(p, s[1..], k - 1);
    }
  }

  /** Whatever Find reports is a match at some index, with no match before it. */
  lemma {:induction false} FindSound(p: Pattern, s: string)
    requires Find(p, s).Some?
    ensures exists k :: 0 <= k <= |s| && MatchAt(p, s[k..]) == Find(p, s)
                        && forall j :: 0 <= j < k ==> MatchAt(p, s[j..]).None?
  {
    assert s[0..] == s;
    if MatchAt(p, s).None? {
      FindSound(p, s[1..]);
      var k :| 0 <= k <= |s[1..]| && MatchAt(p, s[1..][k..]) == Find(p, s[1..])
               && forall j :: 0 <= j < k ==> MatchAt(p, s[1..][j..]).None?;
      assert s[1..][k..] == s[k + 1..];
      forall j | 0 <= j < k + 1
        ensures MatchAt(p, s[j..]).None?
      {
        if j > 0 {
          assert s[1..][j - 1..] == s[j..];
        }
      }
      assert MatchAt(p, s[k + 1..]) == Find(p, s);
    }
  }

  /** Find reports nothing exactly when the regex matches at no index. */
  lemma {:induction false} FindNone(p: Pattern, s: string)
    requires forall j :: 0 <= j <= |s| ==> MatchAt(p, s[j..]).None?
    ensures Find(p, s).None?
  {
    assert s[0..] == s;
    if s != [] {
      forall j | 0 <= j <= |s[1..]|
        ensures MatchAt(p, s[1..][j..]).None?
      {
        assert s[1..][j..] == s[j + 1..];
      }
      FindNone(p, s[1..]);
    }
  }

  /** A match needs the literal lead to occur in the text. */
  lemma {:induction false} FindNeedsLead(p: Pattern, s: string)
    requires Find(p, s).Some?
    ensures Contains(s, p.lead)
    decreases |s|
  {
    if MatchAt(p, s).None? {
      FindNeedsLead(p, s[1..]);
      assert s == [s[0]] + s[1..];
      ContainsPrepend([s[0]], s[1..], p.lead);
    }
  }

  /** No match starts before index n when the lead's o-th character does
      not occur in the first n + o characters of the text. */
  lemma NoMatchBefore(p: Pattern, s: string, n: nat, o: nat)
    requires o < |p.lead| && n + o <= |s|
    requires p.lead[o] !in s[..n + o]
    ensures forall j :: 0 <= j < n ==> MatchAt(p, s[j..]).None?
  {
    forall j | 0 <= j < n
      ensures MatchAt(p, s[j..]).None?
    {
      assert s[j..][o] == s[..n + o][j + o];
      assert s[j..][o] != p.lead[o];
    }
  }

  // The Codeforces pages the routers recognise and the submit pages they open.

  const CfHost := "https://codeforces.com"

  /** https://codeforces.com/contest/<d>/problem/<x> */
  function ContestPage(d: string, x: string): string {
    CfHost + Contest.lead + d + Contest.mid + x
  }

  /** https://codeforces.com/problemset/problem/<d>/<x> */
  function ProblemsetPage(d: string, x: string): string {
    CfHost + Problemset.lead + d + Problemset.mid + x
  }

  function ContestSubmitUrl(d: string): string {
    CfHost + "/contest/" + d + "/submit"
  }

  const ProblemsetSubmitUrl := CfHost + "/problemset/submit"

  /** On a page  CfHost lead d mid x  the regex matches right after the host. */
  lemma MatchAfterHost(p: Pattern, d: string, x: string)
    requires WellFormed(p)
    requires d != [] && AllIn(Digit, d) && x != [] && AllIn(Id, x)
    ensures MatchAt(p, (CfHost + p.lead + d + p.mid + x)[|CfHost|..]) == Some((d, x))
  {
    var t := p.lead + d + p.mid + x;
    assert (CfHost + p.lead + d + p.mid + x)[|CfHost|..] == t;
    var e: string := [];
    assert t == p.lead + (d + (p.mid + (x + e)));
    MatchAtComplete(p, d, x, e);
  }

  /** ... and nowhere inside the host, when the lead's o-th character does
      not occur in the page's first |CfHost| + o characters. */
  lemma FindAfterHost(p: Pattern, d: string, x: string, o: nat)
    requires WellFormed(p)
    requires d != [] && AllIn(Digit, d) && x != [] && AllIn(Id, x)
    requires o < |p.lead| && p.lead[o] !in (CfHost + p.lead)[..|CfHost| + o]
    ensures Find(p, CfHost + p.lead + d + p.mid + x) == Some((d, x))
  {
    var s := CfHost + p.lead + d + p.mid + x;
    assert s[..|CfHost| + o] == (CfHost + p.lead)[..|CfHost| + o];
    MatchAfterHost(p, d, x);
    NoMatchBefore(p, s, |CfHost|, o);
    FindFirst(p, s, |CfHost|);
  }

  /** The contest regex extracts <d> and <x> from a contest page. */
  lemma ContestPageMatches(d: string, x: string)
    requires d != [] && AllIn(Digit, d) && x != [] && AllIn(Id, x)
    ensures Find(Contest, ContestPage(d, x)) == Some((d, x))
  {
    assert (CfHost + Contest.lead)[..|CfHost| + 3] == "https://codeforces.com/co";
    FindAfterHost(Contest, d, x, 3);
  }

  /** The problem-set regex extracts <d> and <x> from a problem-set page. */
  lemma ProblemsetPageMatches(d: string, x: string)
    requires d != [] && AllIn(Digit, d) && x != [] && AllIn(Id, x)
    ensures Find(Problemset, ProblemsetPage(d, x)) == Some((d, x))
  {
    assert (CfHost + Problemset.lead)[..|CfHost| + 4] == "https://codeforces.com/pro";
    FindAfterHost(Problemset, d, x, 4);
  }

  /** The problem-set lead contains "/problemset/", the plugin's pre-test. */
  lemma ProblemsetLeadTested(s: string)
    requires Contains(s, Problemset.lead)
    ensures Contains(s, "/problemset/")
  {
    assert OccursAt(Problemset.lead, "/problemset/", 0);
    ContainsSub(s, Problemset.lead, "/problemset/");
  }

  /** The problem-set page of problem 4A. */
  lemma Page4A()
    ensures ProblemsetPage("4", "A") == "https://codeforces.com/problemset/problem/4/A"
  {
  }

  /** A problem-set page does not mention "/contest/", so the contest regex fails on it. */
  lemma ProblemsetPageNotContest(d: string, x: string)
    requires AllIn(Digit, d) && AllIn(Id, x)
    ensures !Contains(ProblemsetPage(d, x), "/contest/")
    ensures Find(Contest, ProblemsetPage(d, x)).None?
  {
    var s := ProblemsetPage(d, x);
    assert 'n' !in CfHost;
    assert 'n' !in Problemset.lead;
    assert 'n' !in d && 'n' !in x;
    assert s == CfHost + Problemset.lead + d + "/" + x;
    assert 'n' in "/contest/";
    MissingChar(s, "/contest/", 'n');
    if Find(Contest, s).Some? {
      FindNeedsLead(Contest, s);
    }
  }
}
