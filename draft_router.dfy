/** Job routing in background.js: `handleOJ` (tab target plus payload) and
    the frame triage of `ws.onmessage`. */
module DraftRouter {
  import opened Strings
  import opened CfPatterns
  import opened Wire

  /** The destructured job `{url, code, language = 'text', problem}`. */
  datatype Job = Job(url: string, code: string, language: Option<string>, problem: Option<string>)

  /** `{targetUrl, payload}`: the tab to open and the message for it. */
  datatype Task = Task(targetUrl: string, payload: Submission)

  /** A destructuring default: it applies only to an absent field. */
  function Default(o: Option<string>, fallback: string): (r: string)
    ensures o.Some? ==> r == o.value
    ensures o.None? ==> r == fallback
  {
    if o.Some? then o.value else fallback
  }

  /** Submit page and problem id: the contest regex is tried first, then the
      problem-set regex, whatever substrings the URL contains; ("", "") when
      neither matches. */
  function CfTarget(url: string): (r: (string, string))
    ensures r.0 != "" <==> Find(Contest, url).Some? || Find(Problemset, url).Some?
    ensures r.0 == "" ==> r.1 == ""
    ensures r.0 != "" ==> r.1 != "" && SiteOf(r.0) == Codeforces
    ensures Find(Contest, url).Some? ==>
              var (d, x) := Find(Contest, url).value; r == (ContestSubmitUrl(d), x)
    ensures Find(Contest, url).None? && Find(Problemset, url).Some? ==>
              var (d, x) := Find(Problemset, url).value; r == (ProblemsetSubmitUrl, d + x)
  {
    match Find(Contest, url)
    case Some((d, x)) => CfPagesSite(d, ""); (ContestSubmitUrl(d), x)
    case None =>
      match Find(Problemset, url)
      case Some((d, x)) => CfPagesSite(d, ""); (ProblemsetSubmitUrl, d + x)
      case None => ("", "")
  }

  /** `handleOJ(job)`: the `tasks` list. */
  function HandleOJ(job: Job): (r: seq<Task>)
    ensures |r| <= 1
    ensures r != [] ==> SiteOf(job.url) != Elsewhere && r[0].payload.language == Default(job.language, "text")
  {
    var language := Default(job.language, "text");
    match SiteOf(job.url)
    case Luogu => [Task(job.url + "#submit", Submission(job.url, Plain(job.code), language))]
    case Codeforces =>
      var (submitUrl, problemId) := CfTarget(job.url);
      if submitUrl != "" then
        [Task(submitUrl, Submission(submitUrl, Nested(job.code, Or(job.problem, problemId), language), language))]
      else []
    case Nowcoder => [Task(job.url, Submission(job.url, Plain(job.code), language))]
    case Elsewhere => []
  }

  /** `ws.onmessage`: parse failures and pongs are dropped; a frame reaches
      `handleOJ` exactly when it has a truthy `url` and `code`. */
  function OnMessage(f: Frame): (r: seq<Task>)
    ensures r != [] ==> f.Record? && f.kind != Some("pong") && Truthy(f.url) && Truthy(f.code)
    ensures f.Record? && f.kind != Some("pong") && Truthy(f.url) && Truthy(f.code) ==>
              r == HandleOJ(Job(f.url.value, f.code.value, f.language, f.problem))
  {
    match f
    case Unparsable => []
    case Record(kind, url, code, language, problem) =>
      if kind == Some("pong") then []
      else if Truthy(url) && Truthy(code) then HandleOJ(Job(url.value, code.value, language, problem))
      else []
  }

  /** Luogu: the tab gets the `#submit` anchor, the payload keeps the job's
      own URL, code and language. */
  lemma LuoguTask(job: Job)
    requires SiteOf(job.url) == Luogu
    ensures HandleOJ(job) == [Task(job.url + "#submit", Submission(job.url, Plain(job.code), Default(job.language, "text")))]
    ensures SiteOf(HandleOJ(job)[0].targetUrl) == Luogu
  {
    LuoguAnchorSite(job.url);
  }

  /** Nowcoder: the job's URL is both target and payload URL. */
  lemma NowcoderTask(job: Job)
    requires SiteOf(job.url) == Nowcoder
    ensures HandleOJ(job) == [Task(job.url, Submission(job.url, Plain(job.code), Default(job.language, "text")))]
  {
  }

  /** Any other URL yields nothing. */
  lemma ElsewhereNoTask(job: Job)
    requires SiteOf(job.url) == Elsewhere
    ensures HandleOJ(job) == []
  {
  }

  /** On Codeforces a task is emitted exactly when one of the two regexes
      matches, and a contest match wins over a problem-set match. */
  lemma CfEmitted(job: Job)
    requires SiteOf(job.url) == Codeforces
    ensures HandleOJ(job) != [] <==> Find(Contest, job.url).Some? || Find(Problemset, job.url).Some?
    ensures Find(Contest, job.url).Some? ==>
              HandleOJ(job)[0].targetUrl == ContestSubmitUrl(Find(Contest, job.url).value.0)
    ensures Find(Contest, job.url).None? && Find(Problemset, job.url).Some? ==>
              HandleOJ(job)[0].targetUrl == ProblemsetSubmitUrl
  {
  }

  /** Any Codeforces URL on which the contest regex matches opens the
      contest's submit page for match[1], with problem match[2] unless a
      (non-empty) `problem` hint overrides it; whatever else the URL holds. */
  lemma ContestMatchRoute(url: string, d: string, x: string, code: string, language: Option<string>, problem: Option<string>)
    requires SiteOf(url) == Codeforces && Find(Contest, url) == Some((d, x))
    ensures var l := Default(language, "text");
            HandleOJ(Job(url, code, language, problem))
            == [Task(ContestSubmitUrl(d), Submission(ContestSubmitUrl(d), Nested(code, Or(problem, x), l), l))]
  {
  }

  /** Any Codeforces URL on which only the problem-set regex matches opens
      the problem-set submit page, for problem match[1] + match[2] unless a
      (non-empty) `problem` hint overrides it. */
  lemma ProblemsetMatchRoute(url: string, d: string, x: string, code: string, language: Option<string>, problem: Option<string>)
    requires SiteOf(url) == Codeforces && Find(Contest, url).None?
    requires Find(Problemset, url) == Some((d, x))
    ensures var l := Default(language, "text");
            HandleOJ(Job(url, code, language, problem))
            == [Task(ProblemsetSubmitUrl, Submission(ProblemsetSubmitUrl, Nested(code, Or(problem, d + x), l), l))]
  {
  }

  /** A contest page opens the contest's submit page for problem <x>,
      unless a (non-empty) `problem` hint overrides it. */
  lemma ContestRoute(d: string, x: string, code: string, language: Option<string>, problem: Option<string>)
    requires d != [] && AllIn(Digit, d) && x != [] && AllIn(Id, x)
    ensures var l := Default(language, "text");
            HandleOJ(Job(ContestPage(d, x), code, language, problem))
            == [Task(ContestSubmitUrl(d), Submission(ContestSubmitUrl(d), Nested(code, Or(problem, x), l), l))]
  {
    CfPagesSite(d, x);
    ContestPageMatches(d, x);
    ContestMatchRoute(ContestPage(d, x), d, x, code, language, problem);
  }

  /** A problem-set page opens the problem-set submit page for problem
      <d><x>, unless a (non-empty) `problem` hint overrides it. */
  lemma ProblemsetRoute(d: string, x: string, code: string, language: Option<string>, problem: Option<string>)
    requires d != [] && AllIn(Digit, d) && x != [] && AllIn(Id, x)
    ensures var l := Default(language, "text");
            HandleOJ(Job(ProblemsetPage(d, x), code, language, problem))
            == [Task(ProblemsetSubmitUrl, Submission(ProblemsetSubmitUrl, Nested(code, Or(problem, d + x), l), l))]
  {
    CfPagesSite(d, x);
    ProblemsetPageNotContest(d, x);
    ProblemsetPageMatches(d, x);
    ProblemsetMatchRoute(ProblemsetPage(d, x), d, x, code, language, problem);
  }

  /** The job of test.py:5 asks Codeforces for problem "4A" here too. */
  lemma TestVector(url: string, code: string)
    requires url == "https://codeforces.com/problemset/problem/4/A" && code != ""
    ensures OnMessage(Record(None, Some(url), Some(code), None, None))
            == [Task(ProblemsetSubmitUrl, Submission(ProblemsetSubmitUrl, Nested(code, "4A", "text"), "text"))]
  {
    Page4A();
    assert "4" + "A" == "4A";
    ProblemsetRoute("4", "A", code, None, None);
  }

  /** Every task opens a tab on the job's own judge. */
  lemma TargetSameSite(job: Job)
    requires HandleOJ(job) != []
    ensures SiteOf(HandleOJ(job)[0].targetUrl) == SiteOf(job.url)
    ensures SiteOf(HandleOJ(job)[0].payload.url) == SiteOf(job.url)
  {
    match SiteOf(job.url)
    case Luogu => LuoguAnchorSite(job.url);
    case Nowcoder =>
    case Codeforces =>
      match Find(Contest, job.url)
      case Some((d, x)) =>
        CfPagesSite(d, "");
      case None =>
        CfPagesSite("", "");
  }
}
