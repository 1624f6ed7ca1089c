/** How the two background drafts relate, and what a routed job becomes
    once content.js receives it. */
module Drafts {
  import opened Strings
  import opened CfPatterns
  import opened Wire
  import PluginRouter
  import DraftRouter
  import Content

  /** The one shape of URL on which the drafts pick different regexes: it
      mentions "/contest/" without matching the contest regex, but matches
      the problem-set regex. */
  predicate Divergent(url: string) {
    Contains(url, "/contest/") && Find(Contest, url).None? && Find(Problemset, url).Some?
  }

  /** The Codeforces targets agree on every other URL; on a divergent URL
      only background.js finds the problem-set page. */
  lemma CfTargetsAgree(url: string)
    ensures !Divergent(url) ==> PluginRouter.CfTarget(url) == DraftRouter.CfTarget(url)
    ensures Divergent(url) ==> PluginRouter.CfTarget(url) == ("", "")
    ensures Divergent(url) ==> DraftRouter.CfTarget(url).0 == ProblemsetSubmitUrl
  {
    if Find(Contest, url).Some? {
      FindNeedsLead(Contest, url);
    }
    if Find(Problemset, url).Some? {
      FindNeedsLead(Problemset, url);
      ProblemsetLeadTested(url);
    }
  }

  /** Away from a divergent URL and an empty `language`, both drafts open the
      same tab with the same code and language, and their payload URLs name
      the same judge (they differ only on Luogu, where background.js keeps
      the job's URL without `#submit`). */
  lemma DraftsAgree(f: Frame)
    requires f.Record? && f.language != Some("")
    requires f.url.Some? ==> !Divergent(f.url.value)
    ensures var d := DraftRouter.OnMessage(f);
            match PluginRouter.HandleMessage(f)
            case Routed(s) =>
              && |s| == |d|
              && (forall i :: 0 <= i < |s| ==>
                    && s[i].url == d[i].targetUrl && s[i].code == d[i].payload.code
                    && s[i].language == d[i].payload.language
                    && SiteOf(s[i].url) == SiteOf(d[i].payload.url))
            case _ => d == []
  {
    if PluginRouter.HandleMessage(f).Routed? {
      var url := f.url.value;
      CfTargetsAgree(url);
      var job := DraftRouter.Job(url, f.code.value, f.language, f.problem);
      if DraftRouter.HandleOJ(job) != [] {
        DraftRouter.TargetSameSite(job);
      }
    }
  }

  /** An empty `language` field: plugin/background.js replaces it with
      "text" (`||`), background.js keeps "" (a destructuring default only
      replaces an absent field). */
  lemma EmptyLanguage(url: string, code: string)
    requires SiteOf(url) == Luogu && code != ""
    ensures PluginRouter.HandleMessage(Record(None, Some(url), Some(code), Some(""), None)).submissions[0].language == "text"
    ensures DraftRouter.OnMessage(Record(None, Some(url), Some(code), Some(""), None))[0].payload.language == ""
  {
    assert url != "" by { assert |url| >= |"luogu.com.cn"|; }
  }

  /** A divergent Codeforces URL: plugin/background.js drops the job,
      background.js opens the problem-set submit page. */
  lemma DivergentJob(url: string, code: string, language: string, problem: Option<string>)
    requires SiteOf(url) == Codeforces && Divergent(url)
    ensures PluginRouter.HandleOJ(url, code, language, problem) == []
    ensures |DraftRouter.HandleOJ(DraftRouter.Job(url, code, Some(language), problem))| == 1
    ensures DraftRouter.HandleOJ(DraftRouter.Job(url, code, Some(language), problem))[0].targetUrl == ProblemsetSubmitUrl
  {
    CfTargetsAgree(url);
  }

  /** A job routed by plugin/background.js reaches the content-script
      handler of its own judge with its own code: Luogu gets the code and
      its Luogu language name, Codeforces the nested source and problem and
      its language fragment, Nowcoder the escaped code and its language
      name. */
  lemma PluginDelivery(url: string, code: string, language: string, problem: Option<string>)
    requires PluginRouter.HandleOJ(url, code, language, problem) != []
    ensures var s := PluginRouter.HandleOJ(url, code, language, problem)[0];
            var a := Content.Dispatch(Content.Deliver(s));
            match SiteOf(url)
            case Luogu => a == Content.LuoguEditor(Plain(code), Content.LuoguLanguage(Some(language)))
            case Codeforces => a.CodeforcesForm? && a.source == Some(code)
                               && a.fragment == Content.CodeforcesLanguage(Some(language))
            case Nowcoder => a == Content.NowcoderScript(Some(Content.Escape(code)), Content.NowcoderLanguage(Some(language)))
            case Elsewhere => false
  {
    var s := PluginRouter.HandleOJ(url, code, language, problem)[0];
    PluginRouter.TargetSameSite(url, code, language, problem);
    assert s.url != "" by {
      if SiteOf(url) == Nowcoder {
        assert |url| >= |"nowcoder.com"|;
      }
    }
  }

  /** The same for a task of background.js. */
  lemma DraftDelivery(job: DraftRouter.Job)
    requires DraftRouter.HandleOJ(job) != []
    ensures var t := DraftRouter.HandleOJ(job)[0];
            var l := DraftRouter.Default(job.language, "text");
            var a := Content.Dispatch(Content.Deliver(t.payload));
            match SiteOf(job.url)
            case Luogu => a == Content.LuoguEditor(Plain(job.code), Content.LuoguLanguage(Some(l)))
            case Codeforces => a.CodeforcesForm? && a.source == Some(job.code)
                               && a.fragment == Content.CodeforcesLanguage(Some(l))
            case Nowcoder => a == Content.NowcoderScript(Some(Content.Escape(job.code)), Content.NowcoderLanguage(Some(l)))
            case Elsewhere => false
  {
    var t := DraftRouter.HandleOJ(job)[0];
    DraftRouter.TargetSameSite(job);
    assert t.payload.url != "" by {
      if SiteOf(job.url) == Nowcoder {
        assert |job.url| >= |"nowcoder.com"|;
      } else if SiteOf(job.url) == Luogu {
        assert |job.url| >= |"luogu.com.cn"|;
      }
    }
  }

  /** The Nowcoder page's editor receives exactly the job's code, provided
      it has no carriage return. */
  lemma NowcoderCodeArrives(url: string, code: string, language: string, problem: Option<string>)
    requires SiteOf(url) == Nowcoder && '\r' !in code
    ensures var a := Content.Dispatch(Content.Deliver(PluginRouter.HandleOJ(url, code, language, problem)[0]));
            a.NowcoderScript? && a.escaped.Some? && Content.ReadTemplate(a.escaped.value) == Some(code)
  {
    PluginDelivery(url, code, language, problem);
    Content.ReadEscaped(code);
  }
}
