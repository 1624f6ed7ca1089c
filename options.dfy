/** The save handler of options.js: trim host and port, fall back to the
    defaults when empty, then strip one leading `ws://` or `wss://` from the
    host. */
module Options {
  import opened Strings

  const DefaultHost := "127.0.0.1"
  const DefaultPort := "10044"

  /** What `String.prototype.trim` removes: the white space and line
      terminator characters of ECMAScript. */
  predicate JsSpace(c: char) {
    || c == '\t' || c == '\n' || c == '\U{000B}' || c == '\U{000C}' || c == '\r' || c == ' '
    || c == '\U{00A0}' || c == '\U{1680}' || ('\U{2000}' <= c <= '\U{200A}')
    || c == '\U{2028}' || c == '\U{2029}' || c == '\U{202F}' || c == '\U{205F}'
    || c == '\U{3000}' || c == '\U{FEFF}'
  }

  predicate AllSpace(s: string) {
    forall i :: 0 <= i < |s| ==> JsSpace(s[i])
  }

  /** Drops the leading white space: what is left is a suffix of s that is
      empty or starts with a non-space, and everything dropped is space. */
  function TrimStart(s: string): (r: string)
    ensures |r| <= |s| && r == s[|s| - |r|..]
    ensures AllSpace(s[..|s| - |r|])
    ensures r != [] ==> !JsSpace(r[0])
  {
    if s != [] && JsSpace(s[0]) then
      var r := TrimStart(s[1..]);
      assert s[..|s| - |r|] == [s[0]] + s[1..][..|s| - 1 - |r|];
      r
    else s
  }

  /** Drops the trailing white space, symmetrically. */
  function TrimEnd(s: string): (r: string)
    ensures |r| <= |s| && r == s[..|r|]
    ensures AllSpace(s[|r|..])
    ensures r != [] ==> !JsSpace(r[|r| - 1])
  {
    if s != [] && JsSpace(s[|s| - 1]) then
      var r := TrimEnd(s[..|s| - 1]);
      assert s[..|s| - 1][..|r|] == s[..|r|];
      assert s[|r|..] == s[..|s| - 1][|r|..] + [s[|s| - 1]];
      r
    else s
  }

  /** `s.trim()`: the piece of s left once the white space before and
      after it is dropped; it has no white space at either end. */
  function Trim(s: string): (r: string)
    ensures var k := |s| - |TrimStart(s)|;
      && k + |r| <= |s| && r == s[k..k + |r|]
      && AllSpace(s[..k]) && AllSpace(s[k + |r|..])
    ensures r != [] ==> !JsSpace(r[0]) && !JsSpace(r[|r| - 1])
  {
    var t := TrimStart(s);
    var r := TrimEnd(t);
    PrefixOfSuffix(s, |s| - |t|, |r|);
    r
  }

  /** A prefix of a suffix is a slice, and what follows it a suffix. */
  lemma PrefixOfSuffix(s: string, k: nat, n: nat)
    requires k + n <= |s|
    ensures s[k..][..n] == s[k..k + n]
    ensures s[k..][n..] == s[k + n..]
  {
  }

  /** `s.trim() || fallback` */
  function OrDefault(s: string, fallback: string): (r: string)
    ensures Trim(s) != "" ==> r == Trim(s)
    ensures Trim(s) == "" ==> r == fallback
  {
    var t := Trim(s);
    if t != "" then t else fallback
  }

  /** `host.replace(/^wss?:\/\//, '')`: removes exactly one leading prefix,
      and leaves a host without one alone, whatever it holds further on. */
  function StripScheme(h: string): (r: string)
    ensures StartsWith(h, "wss://") ==> h == "wss://" + r
    ensures !StartsWith(h, "wss://") && StartsWith(h, "ws://") ==> h == "ws://" + r
    ensures !StartsWith(h, "wss://") && !StartsWith(h, "ws://") ==> r == h
  {
    assert StartsWith(h, "wss://") ==> h == h[..6] + h[6..];
    assert StartsWith(h, "ws://") ==> h == h[..5] + h[5..];
    if StartsWith(h, "wss://") then h[6..]
    else if StartsWith(h, "ws://") then h[5..]
    else h
  }

  /** The `{host, port}` the handler stores: the trimmed host, or the
      default when that is empty, with one prefix stripped (the default has
      none); the trimmed port, or the default when that is empty. */
  function Save(host: string, port: string): (r: (string, string))
    ensures Trim(host) == "" ==> r.0 == DefaultHost
    ensures Trim(host) != "" ==> r.0 == StripScheme(Trim(host))
    ensures r.1 == if Trim(port) == "" then DefaultPort else Trim(port)
  {
    var d := DefaultHost;
    assert d[..5][0] == '1' && d[..6][0] == '1';
    (StripScheme(OrDefault(host, DefaultHost)), OrDefault(port, DefaultPort))
  }

  /** Trimming keeps exactly the part between the leading and trailing
      white space. */
  lemma TrimSurrounded(a: string, t: string, b: string)
    requires AllSpace(a) && AllSpace(b)
    requires t != [] ==> !JsSpace(t[0]) && !JsSpace(t[|t| - 1])
    ensures Trim(a + t + b) == t
  {
    if t == [] {
      assert a + t + b == a + b;
      assert AllSpace(a + b) by {
        forall i | 0 <= i < |a + b| ensures JsSpace((a + b)[i]) {
          if i < |a| { assert (a + b)[i] == a[i]; } else { assert (a + b)[i] == b[i - |a|]; }
        }
      }
      SpaceTrimsAway(a + b);
    } else {
      assert a + t + b == a + (t + b);
      assert (t + b)[0] == t[0];
      StartStops(a, t + b);
      EndStops(t, b);
    }
  }

  /** White space alone trims to nothing. */
  lemma {:induction false} SpaceTrimsAway(s: string)
    requires AllSpace(s)
    ensures TrimStart(s) == []
    decreases |s|
  {
    if s != [] {
      assert JsSpace(s[0]);
      SpaceTrimsAway(s[1..]);
    }
  }

  /** Leading white space is dropped up to the first non-space. */
  lemma {:induction false} StartStops(a: string, w: string)
    requires AllSpace(a)
    requires w != [] && !JsSpace(w[0])
    ensures TrimStart(a + w) == w
    decreases |a|
  {
    if a == [] {
      assert a + w == w;
    } else {
      assert (a + w)[0] == a[0];
      assert (a + w)[1..] == a[1..] + w;
      StartStops(a[1..], w);
    }
  }

  /** Trailing white space is dropped back to the last non-space. */
  lemma {:induction false} EndStops(w: string, b: string)
    requires AllSpace(b)
    requires w != [] && !JsSpace(w[|w| - 1])
    ensures TrimEnd(w + b) == w
    decreases |b|
  {
    if b == [] {
      assert w + b == w;
    } else {
      var init := b[..|b| - 1];
      assert (w + b)[|w + b| - 1] == b[|b| - 1];
      assert (w + b)[..|w + b| - 1] == w + init;
      EndStops(w, init);
    }
  }

  /** Trimming twice is trimming once. */
  lemma TrimIdempotent(s: string)
    ensures Trim(Trim(s)) == Trim(s)
  {
    var t := Trim(s);
    TrimSurrounded([], t, []);
    assert [] + t + [] == t;
  }

  /** One `ws://` or `wss://` prefix is removed, and only one. */
  lemma StripOnePrefix(h: string)
    ensures StripScheme("ws://" + h) == h
    ensures StripScheme("wss://" + h) == h
  {
    var p, q := "ws://", "wss://";
    assert (p + h)[2] == ':';
    assert (p + h)[..5] == p && (p + h)[5..] == h;
    assert (q + h)[..6] == q && (q + h)[6..] == h;
  }

  /** The default is applied before the prefix is stripped: a host that is
      only a prefix (around white space) is saved empty. */
  lemma BarePrefixSavedEmpty(host: string, port: string)
    requires Trim(host) == "ws://" || Trim(host) == "wss://"
    ensures Save(host, port).0 == ""
  {
    StripOnePrefix("");
    assert "ws://" + "" == "ws://" && "wss://" + "" == "wss://";
  }
}
