/** Job routing in plugin/background.js: `handleOJ` and the frame triage of
    `wsManager.handleMessage`. */
module PluginRouter {
  import opened Strings
  import opened CfPatterns
  import opened Wire

  /** The submit page and problem id for a Codeforces URL; ("", "") when the
      regex selected by the "/contest/" / "/problemset/" test does not match. */
  function CfTarget(url: string): (r: (string, string))
    ensures r.0 != "" <==> if Contains(url, "/contest/") then Find(Contest, url).Some?
                           else Contains(url, "/problemset/") && Find(Problemset, url).Some?
    ensures r.0 == "" ==> r.1 == ""
    ensures r.0 != "" ==> r.1 != "" && SiteOf(r.0) == Codeforces
    ensures Contains(url, "/contest/") && Find(Contest, url).Some? ==>
              var (d, x) := Find(Contest, url).value; r == (ContestSubmitUrl(d), x)
    ensures !Contains(url, "/contest/") && Contains(url, "/problemset/") && Find(Problemset, url).Some? ==>
              var (d, x) := Find(Problemset, url).value; r == (ProblemsetSubmitUrl, d + x)
  {
    if Contains(url, "/contest/") then
      match Find(Contest, url)
      case Some((d, x)) => CfPagesSite(d, ""); (ContestSubmitUrl(d), x)
      case None => ("", "")
    else if Contains(url, "/problemset/") then
      match Find(Problemset, url)
      case Some((d, x)) => CfPagesSite(d, ""); (ProblemsetSubmitUrl, d + x)
      case None => ("", "")
    else ("", "")
  }

  /** `handleOJ(url, code, language, problem)`: the `submitInfo` list, each
      entry of which becomes one tab. */
  function HandleOJ(url: string, code: string, language: string, problem: Option<string>): (r: seq<Submission>)
    ensures |r| <= 1
    ensures r != [] ==> SiteOf(url) != Elsewhere && r[0].language == language
  {
    match SiteOf(url)
    case Luogu => [Submission(url + "#submit", Plain(code), language)]
    case Codeforces =>
      var (submitUrl, problemId) := CfTarget(url);
      if submitUrl != "" && problemId != "" then
        [Submission(submitUrl, Nested(code, Or(problem, problemId), language), language)]
      else []
    case Nowcoder => [Submission(url, Plain(code), language)]
    case Elsewhere => []
  }

  /** The four ways `handleMessage` treats a frame. */
  datatype Outcome = Unparsed | Pong | Invalid | Routed(submissions: seq<Submission>)

  /** `handleMessage(raw)` without its one side effect (a pong refreshes
      `lastPongTime`, done by the connection manager): a job frame is routed
      exactly when `url` and `code` are truthy, with its own fields and
      `language` defaulting to "text". */
  function HandleMessage(f: Frame): (r: Outcome)
    ensures r.Unparsed? <==> f.Unparsable?
    ensures r.Pong? <==> f.Record? && f.kind == Some("pong")
    ensures r.Routed? <==> f.Record? && f.kind != Some("pong") && Truthy(f.url) && Truthy(f.code)
    ensures r.Routed? ==> r.submissions == HandleOJ(f.url.value, f.code.value, Or(f.language, "text"), f.problem)
  {
    match f
    case Unparsable => Unparsed
    case Record(kind, url, code, language, problem) =>
      if kind == Some("pong") then Pong
      else if !Truthy(url) || !Truthy(code) then Invalid
      else Routed(HandleOJ(url.value, code.value, Or(language, "text"), problem))
  }

  /** The tab a job opens is on the job's own judge. */
  lemma TargetSameSite(url: string, code: string, language: string, problem: Option<string>)
    requires HandleOJ(url, code, language, problem) != []
    ensures SiteOf(HandleOJ(url, code, language, problem)[0].url) == SiteOf(url)
  {
    match SiteOf(url)
    case Luogu => LuoguAnchorSite(url);
    case Nowcoder =>
    case Codeforces =>
      if Contains(url, "/contest/") {
        CfPagesSite(Find(Contest, url).value.0, "");
      } else {
        CfPagesSite("", "");
      }
  }

  /** Luogu: one tab on `url#submit`, still on Luogu, with the job's own
      code and language. */
  lemma LuoguRoute(url: string, code: string, language: string, problem: Option<string>)
    requires SiteOf(url) == Luogu
    ensures HandleOJ(url, code, language, problem) == [Submission(url + "#submit", Plain(code), language)]
    ensures SiteOf(HandleOJ(url, code, language, problem)[0].url) == Luogu
  {
    LuoguAnchorSite(url);
  }

  /** Nowcoder: the job passes on unchanged. */
  lemma NowcoderRoute(url: string, code: string, language: string, problem: Option<string>)
    requires SiteOf(url) == Nowcoder
    ensures HandleOJ(url, code, language, problem) == [Submission(url, Plain(code), language)]
  {
  }

  /** Any other URL opens no tab. */
  lemma ElsewhereRoute(url: string, code: string, language: string, problem: Option<string>)
    requires SiteOf(url) == Elsewhere
    ensures HandleOJ(url, code, language, problem) == []
  {
  }

  /** Any Codeforces URL on which the contest regex matches opens the
      contest's submit page for match[1], with problem match[2] unless a
      (non-empty) `problem` hint overrides it; whatever else the URL holds. */
  lemma ContestMatchRoute(url: string, d: string, x: string, code: string, language: string, problem: Option<string>)
    requires SiteOf(url) == Codeforces && Find(Contest, url) == Some((d, x))
    ensures HandleOJ(url, code, language, problem)
            == [Submission(ContestSubmitUrl(d), Nested(code, Or(problem, x), language), language)]
  {
    FindNeedsLead(Contest, url);
  }

  /** Any Codeforces URL without "/contest/" on which the problem-set regex
      matches opens the problem-set submit page, for problem
      match[1] + match[2] unless a (non-empty) `problem` hint overrides it. */
  lemma ProblemsetMatchRoute(url: string, d: string, x: string, code: string, language: string, problem: Option<string>)
    requires SiteOf(url) == Codeforces && !Contains(url, "/contest/")
    requires Find(Problemset, url) == Some((d, x))
    ensures HandleOJ(url, code, language, problem)
            == [Submission(ProblemsetSubmitUrl, Nested(code, Or(problem, d + x), language), language)]
  {
    FindNeedsLead(Problemset, url);
    ProblemsetLeadTested(url);
  }

  /** A contest page opens the contest's submit page, for problem <x> unless
      a (non-empty) `problem` hint overrides it. */
  lemma ContestRoute(d: string, x: string, code: string, language: string, problem: Option<string>)
    requires d != [] && AllIn(Digit, d) && x != [] && AllIn(Id, x)
    ensures HandleOJ(ContestPage(d, x), code, language, problem)
            == [Submission(ContestSubmitUrl(d), Nested(code, Or(problem, x), language), language)]
  {
    CfPagesSite(d, x);
    ContestPageMatches(d, x);
    ContestMatchRoute(ContestPage(d, x), d, x, code, language, problem);
  }

  /** A problem-set page opens the problem-set submit page, for problem
      <d><x> unless a (non-empty) `problem` hint overrides it. */
  lemma ProblemsetRoute(d: string, x: string, code: string, language: string, problem: Option<string>)
    requires d != [] && AllIn(Digit, d) && x != [] && AllIn(Id, x)
    ensures HandleOJ(ProblemsetPage(d, x), code, language, problem)
            == [Submission(ProblemsetSubmitUrl, Nested(code, Or(problem, d + x), language), language)]
  {
    CfPagesSite(d, x);
    ProblemsetPageNotContest(d, x);
    ProblemsetPageMatches(d, x);
    ProblemsetMatchRoute(ProblemsetPage(d, x), d, x, code, language, problem);
  }

  /** The job of test.py:5 (no language, no hint) asks Codeforces for problem "4A". */
  lemma TestVector(url: string, code: string)
    requires url == "https://codeforces.com/problemset/problem/4/A" && code != ""
    ensures HandleMessage(Record(None, Some(url), Some(code), None, None))
            == Routed([Submission(ProblemsetSubmitUrl, Nested(code, "4A", "text"), "text")])
  {
    Page4A();
    assert "4" + "A" == "4A";
    ProblemsetRoute("4", "A", code, "text", None);
  }

  /** A Codeforces URL whose selected regex does not match yields nothing,
      whatever hint the job carries. */
  lemma CfUnmatchedDropped(url: string, code: string, language: string, problem: Option<string>)
    requires SiteOf(url) == Codeforces
    requires Contains(url, "/contest/") ==> Find(Contest, url).None?
    requires !Contains(url, "/contest/") ==> Find(Problemset, url).None?
    ensures HandleOJ(url, code, language, problem) == []
  {
  }

  /** A Codeforces URL with a matching regex always yields its task: the
      `submitUrl && problemId` guard never fails after a match. */
  lemma CfMatchedRouted(url: string, code: string, language: string, problem: Option<string>)
    requires SiteOf(url) == Codeforces
    requires Contains(url, "/contest/") ==> Find(Contest, url).Some?
    requires !Contains(url, "/contest/") ==> Find(Problemset, url).Some?
    ensures |HandleOJ(url, code, language, problem)| == 1
  {
    if !Contains(url, "/contest/") {
      FindNeedsLead(Problemset, url);
      ProblemsetLeadTested(url);
    }
  }
}
