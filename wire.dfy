/** Values that cross a boundary of the background scripts: inbound relay
    frames, the payload handed to a tab, outbound control frames, the socket
    as the browser exposes it, and the judge a URL belongs to. */
module Wire {
  import opened Strings
  import opened CfPatterns

  /** An inbound WebSocket frame after `JSON.parse`: a parse failure, or an
      object of which only the string fields the scripts read are kept
      (an absent field is None). */
  datatype Frame =
    | Unparsable
    | Record(kind: Option<string>, url: Option<string>, code: Option<string>,
             language: Option<string>, problem: Option<string>)

  /** The `code` of a payload: the job's source text, or, for Codeforces,
      the nested `{source, problem, language}` object. */
  datatype Code = Plain(text: string) | Nested(source: string, problem: string, language: string)

  /** `{url, code, language}`: what a router emits and a tab receives. */
  datatype Submission = Submission(url: string, code: Code, language: string)

  /** Outbound control frames: `{type:'ping', t}`, `{type:'ping'}` and
      `{type:'hello', client}`. */
  datatype Outbound = Ping(t: int) | BarePing | Hello(client: string)

  /** `WebSocket.readyState` while the manager still holds the socket. */
  datatype ReadyState = Connecting | Open | Closing

  /** A `new WebSocket(url)`; `id` stands for the object's identity. */
  datatype Socket = Socket(id: nat, url: string, state: ReadyState)

  datatype Site = Luogu | Codeforces | Nowcoder | Elsewhere

  /** The judge of a URL, tested by substring in the routers' fixed order:
      the first of the three host names the URL contains decides. */
  function SiteOf(url: string): (r: Site)
    ensures r == Luogu <==> Contains(url, "luogu.com.cn")
    ensures r == Codeforces <==> !Contains(url, "luogu.com.cn") && Contains(url, "codeforces.com")
    ensures r == Nowcoder <==>
              !Contains(url, "luogu.com.cn") && !Contains(url, "codeforces.com") && Contains(url, "nowcoder.com")
  {
    if Contains(url, "luogu.com.cn") then Luogu
    else if Contains(url, "codeforces.com") then Codeforces
    else if Contains(url, "nowcoder.com") then Nowcoder
    else Elsewhere
  }

  /** Luogu's `#submit` anchor keeps a Luogu URL on Luogu. */
  lemma LuoguAnchorSite(url: string)
    requires SiteOf(url) == Luogu
    ensures SiteOf(url + "#submit") == Luogu
  {
    ContainsAppend(url, "#submit", "luogu.com.cn");
  }

  /** A URL made of the Codeforces host and a rest without a 'g' is a
      Codeforces URL ("luogu.com.cn" needs a 'g'). */
  lemma CfHostSite(rest: string)
    requires 'g' !in rest
    ensures SiteOf(CfHost + rest) == Codeforces
  {
    var url := CfHost + rest;
    assert url[8..22] == "codeforces.com";
    assert OccursAt(url, "codeforces.com", 8);
    MissingChar(url, "luogu.com.cn", 'g');
  }

  lemma {:induction false} NoGInDigitsOrIds(k: CharClass, s: string)
    requires AllIn(k, s)
    ensures 'g' !in s
  {
    if s != [] {
      assert InClass(k, s[0]);
      NoGInDigitsOrIds(k, s[1..]);
      assert s == [s[0]] + s[1..];
    }
  }

  /** Every Codeforces page a router recognises, and every Codeforces submit
      page it opens, classifies as Codeforces. */
  lemma CfPagesSite(d: string, x: string)
    requires AllIn(Digit, d) && AllIn(Id, x)
    ensures SiteOf(ContestPage(d, x)) == Codeforces
    ensures SiteOf(ProblemsetPage(d, x)) == Codeforces
    ensures SiteOf(ContestSubmitUrl(d)) == Codeforces
    ensures SiteOf(ProblemsetSubmitUrl) == Codeforces
  {
    NoGInDigitsOrIds(Digit, d);
    NoGInDigitsOrIds(Id, x);
    var c := Contest.lead + d + Contest.mid + x;
    assert ContestPage(d, x) == CfHost + c;
    CfHostSite(c);
    var q := Problemset.lead + d + Problemset.mid + x;
    assert ProblemsetPage(d, x) == CfHost + q;
    CfHostSite(q);
    assert ContestSubmitUrl(d) == CfHost + ("/contest/" + d + "/submit");
    CfHostSite("/contest/" + d + "/submit");
    CfHostSite("/problemset/submit");
  }
}
