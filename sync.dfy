/**
 * `create_alert`: for each alert in order, one search for its `html_url`, and
 * a create request only when the lookup gives `None`. Every create result is
 * appended to `alerts_added` (`None` when the request failed). A KeyError or
 * ValueError raised while reading an alert escapes the loop and ends the run.
 *
 * Jira is outside the program. Its state is a value here: the issues it
 * holds, in creation order, and the search and create requests it has
 * received. How it answers each request is an input script, one entry per
 * alert.
 */
module Sync {
  import opened Wrappers
  import opened Records
  import opened IssueBuilder
  import opened IssueLookup
  import Timestamps
  import GitHandler

  /** How Jira answers the search request made for one alert. */
  datatype SearchScript =
    | SearchDown                                          // transport or HTTP error
    | SearchLive                                          // its issues whose description contains the URL
    | SearchCanned(issues: Option<seq<Option<Issue>>>)    // exactly this decoded `"issues"` value

  /** How Jira answers the create request made for one alert. */
  datatype CreateScript = CreateAccepted | CreateRejected

  datatype Net = Net(search: SearchScript, create: CreateScript)

  /** The decoded body of a successful create: here, the new issue's position in Jira. */
  datatype Created = Created(id: nat)

  datatype Jira = Jira(issues: seq<Issue>, searches: seq<string>, posts: seq<IssueFields>)

  /** The issues a live search returns: every issue that mentions `url`, in creation order. */
  function Matching(issues: seq<Issue>, url: string): (r: seq<Option<Issue>>)
    ensures forall k :: 0 <= k < |r| ==> r[k].Some? && Mentions(r[k].value, url)
    ensures |r| > 0 <==> exists k :: 0 <= k < |issues| && Mentions(issues[k], url)
  {
    if |issues| == 0 then []
    else
      var rest := Matching(issues[1..], url);
      assert forall k :: 1 <= k < |issues| ==> issues[k] == issues[1..][k - 1];
      if Mentions(issues[0], url) then [Some(issues[0])] + rest else rest
  }

  /** The search request: Jira logs it and answers as scripted. */
  function Search(jira: Jira, url: string, script: SearchScript): (Jira, SearchResponse) {
    var logged := jira.(searches := jira.searches + [url]);
    match script
    case SearchDown => (logged, SearchFailed)
    case SearchLive => (logged, SearchOk(Some(Matching(jira.issues, url))))
    case SearchCanned(issues) => (logged, SearchOk(issues))
  }

  /** The create request: Jira logs it and, if it accepts it, files the issue. */
  function Post(jira: Jira, fields: IssueFields, script: CreateScript): (Jira, Option<Created>) {
    var logged := jira.(posts := jira.posts + [fields]);
    match script
    case CreateAccepted => (logged.(issues := jira.issues + [Issue(fields)]), Some(Created(|jira.issues|)))
    case CreateRejected => (logged, None)
  }

  /** A live search finds an issue exactly when Jira holds one that mentions the URL. */
  lemma LiveLookupFindsIff(jira: Jira, url: string)
    ensures Lookup(Search(jira, url, SearchLive).1, url).Some?
            <==> exists k :: 0 <= k < |jira.issues| && Mentions(jira.issues[k], url)
  {
    var m := Matching(jira.issues, url);
    if |m| > 0 {
      assert FirstPresent(m) == m[0];
    }
  }

  /** `alerts_added` so far, Jira's state, and the error that ended the run, if any. */
  datatype RunState = RunState(added: seq<Option<Created>>, jira: Jira, error: Option<Error>)

  /** One iteration of the loop of `create_alert`. */
  function Step(cfg: Config, alert: Alert, net: Net, st: RunState): RunState
    requires st.error.None?
  {
    match alert.htmlUrl
    case None => st.(error := Some(MissingField(HtmlUrl)))
    case Some(url) => Handle(url, BuildIssue(cfg, alert), net, st)
  }

  /**
   * The iteration once `alert["html_url"]` has been read: search, and when the
   * lookup gives nothing, build (`built` is what building gives) and post.
   */
  function Handle(url: string, built: Result<IssueFields, Error>, net: Net, st: RunState): RunState
    requires st.error.None?
  {
    var searched := Search(st.jira, url, net.search);
    if Lookup(searched.1, url).Some? then st.(jira := searched.0)
    else
      match built
      case Err(e) => st.(jira := searched.0, error := Some(e))
      case Ok(fields) =>
        var posted := Post(searched.0, fields, net.create);
        RunState(st.added + [posted.1], posted.0, None)
  }

  /** The loop from a given state on, stopping at the first error. */
  function Run(cfg: Config, alerts: seq<Alert>, nets: seq<Net>, st: RunState): RunState
    requires |nets| == |alerts|
    decreases |alerts|
  {
    if |alerts| == 0 || st.error.Some? then st
    else Run(cfg, alerts[1..], nets[1..], Step(cfg, alerts[0], nets[0], st))
  }

  /** A whole run of `create_alert` against Jira in state `jira`. */
  function Sync(cfg: Config, alerts: seq<Alert>, jira: Jira, nets: seq<Net>): RunState
    requires |nets| == |alerts|
  {
    Run(cfg, alerts, nets, RunState([], jira, None))
  }

  /** `_create_alert_issue`: build the payload, then post it. */
  method CreateAlertIssue(cfg: Config, alert: Alert, jira: Jira, script: CreateScript)
    returns (issue: Option<Created>, jiraAfter: Jira, failure: Option<Error>)
    ensures BuildIssue(cfg, alert).Err? ==> failure == Some(BuildIssue(cfg, alert).error) && jiraAfter == jira && issue.None?
    ensures BuildIssue(cfg, alert).Ok? ==> failure.None? && (jiraAfter, issue) == Post(jira, BuildIssue(cfg, alert).value, script)
  {
    var built := BuildIssue(cfg, alert);
    if built.Err? {
      return None, jira, Some(built.error);
    }
    var posted := Post(jira, built.value, script);
    jiraAfter, issue := posted.0, posted.1;
    failure := None;
  }

  /** `create_alert` as written: the loop, calling `get_issue_by_alert_url` and `_create_alert_issue` as it does. */
  method CreateAlert(cfg: Config, alerts: seq<Alert>, jira: Jira, nets: seq<Net>)
    returns (alertsAdded: seq<Option<Created>>, jiraAfter: Jira, failure: Option<Error>)
    requires |nets| == |alerts|
    ensures RunState(alertsAdded, jiraAfter, failure) == Sync(cfg, alerts, jira, nets)
  {
    alertsAdded, jiraAfter, failure := [], jira, None;
    var i := 0;
    while i < |alerts|
      invariant 0 <= i <= |alerts|
      invariant Run(cfg, alerts[i..], nets[i..], RunState(alertsAdded, jiraAfter, None)) == Sync(cfg, alerts, jira, nets)
    {
      ghost var st := RunState(alertsAdded, jiraAfter, None);
      assert alerts[i..][0] == alerts[i] && alerts[i..][1..] == alerts[i + 1..];
      assert nets[i..][0] == nets[i] && nets[i..][1..] == nets[i + 1..];
      var alert := alerts[i];
      if alert.htmlUrl.None? {
        failure := Some(MissingField(HtmlUrl));
        return;
      }
      var url := alert.htmlUrl.value;
      var searched := Search(jiraAfter, url, nets[i].search);
      jiraAfter := searched.0;
      var oldIssueIfApplies := GetIssueByAlertUrl(searched.1, url);
      if oldIssueIfApplies.None? {
        var issue, err;
        issue, jiraAfter, err := CreateAlertIssue(cfg, alert, jiraAfter, nets[i].create);
        if err.Some? {
          failure := err;
          return;
        }
        alertsAdded := alertsAdded + [issue];
      }
      assert RunState(alertsAdded, jiraAfter, None) == Step(cfg, alerts[i], nets[i], st);
      i := i + 1;
    }
  }

  /** A run over `a1 + a2` is the run over `a1` followed by the run over `a2`. */
  lemma {:induction false} RunAppend(cfg: Config, a1: seq<Alert>, a2: seq<Alert>, n1: seq<Net>, n2: seq<Net>, st: RunState)
    requires |n1| == |a1| && |n2| == |a2|
    ensures Run(cfg, a1 + a2, n1 + n2, st) == Run(cfg, a2, n2, Run(cfg, a1, n1, st))
    decreases |a1|
  {
    if |a1| == 0 {
      assert a1 + a2 == a2 && n1 + n2 == n2;
    } else if st.error.None? {
      assert (a1 + a2)[0] == a1[0] && (a1 + a2)[1..] == a1[1..] + a2;
      assert (n1 + n2)[0] == n1[0] && (n1 + n2)[1..] == n1[1..] + n2;
      RunAppend(cfg, a1[1..], a2, n1[1..], n2, Step(cfg, a1[0], n1[0], st));
    }
  }

  /** Once an alert raises, the alerts after it are neither searched for nor created. */
  lemma AbortSkipsRest(cfg: Config, a1: seq<Alert>, a2: seq<Alert>, n1: seq<Net>, n2: seq<Net>, st: RunState)
    requires |n1| == |a1| && |n2| == |a2|
    requires Run(cfg, a1, n1, st).error.Some?
    ensures Run(cfg, a1 + a2, n1 + n2, st) == Run(cfg, a1, n1, st)
  {
    RunAppend(cfg, a1, a2, n1, n2, st);
  }

  /**
   * One alert: exactly one search, for its URL; a create request exactly
   * when the lookup gives `None` and the payload builds, carrying that
   * payload; an error exactly when the URL is missing, or the lookup gives
   * `None` and the payload does not build.
   */
  lemma StepDecision(cfg: Config, alert: Alert, net: Net, st: RunState)
    requires st.error.None? && alert.htmlUrl.Some?
    ensures var r := Step(cfg, alert, net, st);
      var notFound := Lookup(Search(st.jira, alert.htmlUrl.value, net.search).1, alert.htmlUrl.value).None?;
      && r.jira.searches == st.jira.searches + [alert.htmlUrl.value]
      && (|r.jira.posts| == |st.jira.posts| + 1 <==> notFound && BuildIssue(cfg, alert).Ok?)
      && (|r.jira.posts| != |st.jira.posts| + 1 ==> r.jira.posts == st.jira.posts && r.added == st.added && r.jira.issues == st.jira.issues)
      && (notFound && BuildIssue(cfg, alert).Ok? ==>
            && r.jira.posts == st.jira.posts + [BuildIssue(cfg, alert).value]
            && |r.added| == |st.added| + 1 && r.added[..|st.added|] == st.added)
      && (r.error.Some? <==> notFound && BuildIssue(cfg, alert).Err?)
  {
    var r := Step(cfg, alert, net, st);
    if BuildIssue(cfg, alert).Ok? && |r.added| == |st.added| + 1 {
      assert r.added[..|st.added|] == st.added;
    }
  }

  /** A missing `html_url` raises before any request is made. */
  lemma StepWithoutUrl(cfg: Config, alert: Alert, net: Net, st: RunState)
    requires st.error.None? && alert.htmlUrl.None?
    ensures Step(cfg, alert, net, st) == st.(error := Some(MissingField(HtmlUrl)))
  {
  }

  /**
   * The search log of a run: one entry per processed alert, its URL, in
   * input order; every alert is processed when the run ends without error.
   */
  lemma {:induction false} RunSearches(cfg: Config, alerts: seq<Alert>, nets: seq<Net>, st: RunState)
    requires |nets| == |alerts| && st.error.None?
    ensures var r := Run(cfg, alerts, nets, st);
      var s := |st.jira.searches|;
      && st.jira.searches <= r.jira.searches
      && |r.jira.searches| <= s + |alerts|
      && (forall j :: s <= j < |r.jira.searches| ==> alerts[j - s].htmlUrl == Some(r.jira.searches[j]))
      && (r.error.None? ==> |r.jira.searches| == s + |alerts|)
    decreases |alerts|
  {
    if |alerts| > 0 {
      var s1 := Step(cfg, alerts[0], nets[0], st);
      if s1.error.None? {
        StepDecision(cfg, alerts[0], nets[0], st);
        RunSearches(cfg, alerts[1..], nets[1..], s1);
        var r := Run(cfg, alerts, nets, st);
        var s := |st.jira.searches|;
        forall j | s <= j < |r.jira.searches|
          ensures alerts[j - s].htmlUrl == Some(r.jira.searches[j])
        {
          if j == s {
            assert r.jira.searches[j] == s1.jira.searches[j];
          } else {
            assert alerts[j - s] == alerts[1..][j - (s + 1)];
          }
        }
      }
    }
  }

  /** How many create requests Jira accepted. */
  function CountCreated(added: seq<Option<Created>>): (n: nat)
    ensures n <= |added|
    ensures n == |added| <==> forall k :: 0 <= k < |added| ==> added[k].Some?
  {
    if |added| == 0 then 0
    else
      assert forall k :: 1 <= k < |added| ==> added[k] == added[1..][k - 1];
      CountCreated(added[1..]) + if added[0].Some? then 1 else 0
  }

  lemma {:induction false} CountCreatedSnoc(added: seq<Option<Created>>, x: Option<Created>)
    ensures CountCreated(added + [x]) == CountCreated(added) + if x.Some? then 1 else 0
    decreases |added|
  {
    if |added| > 0 {
      assert (added + [x])[1..] == added[1..] + [x];
      CountCreatedSnoc(added[1..], x);
    }
  }

  /**
   * The create log of a run: `alerts_added` gets one entry per create
   * request, and Jira gains one issue per accepted request, filed from that
   * request's payload under the id the response names.
   */
  predicate Filed(added: seq<Option<Created>>, jira: Jira, posts0: nat, issues0: nat)
  {
    && posts0 <= |jira.posts| && issues0 <= |jira.issues|
    && |added| == |jira.posts| - posts0
    && |jira.issues| - issues0 == CountCreated(added)
    && forall k :: 0 <= k < |added| && added[k].Some? ==>
         issues0 <= added[k].value.id < |jira.issues| && jira.issues[added[k].value.id] == Issue(jira.posts[posts0 + k])
  }

  lemma StepFiles(cfg: Config, alert: Alert, net: Net, st: RunState, posts0: nat, issues0: nat)
    requires st.error.None? && Filed(st.added, st.jira, posts0, issues0)
    ensures var r := Step(cfg, alert, net, st);
      Filed(r.added, r.jira, posts0, issues0) && st.jira.issues <= r.jira.issues
  {
    if alert.htmlUrl.Some? {
      HandleFiles(alert.htmlUrl.value, BuildIssue(cfg, alert), net, st, posts0, issues0);
    }
  }

  lemma HandleFiles(url: string, built: Result<IssueFields, Error>, net: Net, st: RunState, posts0: nat, issues0: nat)
    requires st.error.None? && Filed(st.added, st.jira, posts0, issues0)
    ensures var r := Handle(url, built, net, st);
      Filed(r.added, r.jira, posts0, issues0) && st.jira.issues <= r.jira.issues
  {
    var searched := Search(st.jira, url, net.search);
    if Lookup(searched.1, url).None? && built.Ok? {
      var posted := Post(searched.0, built.value, net.create);
      CountCreatedSnoc(st.added, posted.1);
      assert posted.0.issues[..|st.jira.issues|] == st.jira.issues;
    }
  }

  lemma {:induction false} RunFiles(cfg: Config, alerts: seq<Alert>, nets: seq<Net>, st: RunState, posts0: nat, issues0: nat)
    requires |nets| == |alerts| && Filed(st.added, st.jira, posts0, issues0)
    ensures var r := Run(cfg, alerts, nets, st);
      Filed(r.added, r.jira, posts0, issues0) && st.jira.issues <= r.jira.issues
    decreases |alerts|
  {
    if |alerts| > 0 && st.error.None? {
      StepFiles(cfg, alerts[0], nets[0], st, posts0, issues0);
      RunFiles(cfg, alerts[1..], nets[1..], Step(cfg, alerts[0], nets[0], st), posts0, issues0);
    }
  }

  /**
   * A whole run: `alerts_added` has one entry per create request sent,
   * the issues Jira held before are kept, and each accepted request filed
   * exactly one new issue, under the id its response names.
   */
  lemma SyncFiles(cfg: Config, alerts: seq<Alert>, jira: Jira, nets: seq<Net>)
    requires |nets| == |alerts|
    ensures var r := Sync(cfg, alerts, jira, nets);
      Filed(r.added, r.jira, |jira.posts|, |jira.issues|) && jira.issues <= r.jira.issues
  {
    RunFiles(cfg, alerts, nets, RunState([], jira, None), |jira.posts|, |jira.issues|);
  }

  predicate NoCanned(nets: seq<Net>) {
    forall k :: 0 <= k < |nets| ==> !nets[k].search.SearchCanned?
  }

  predicate AllLive(nets: seq<Net>) {
    forall k :: 0 <= k < |nets| ==> nets[k].search == SearchLive
  }

  predicate AllAccepted(nets: seq<Net>) {
    forall k :: 0 <= k < |nets| ==> nets[k].create == CreateAccepted
  }

  /** Every alert has a URL that some issue in `issues` mentions. */
  predicate Covered(alerts: seq<Alert>, issues: seq<Issue>) {
    forall j :: 0 <= j < |alerts| ==>
      alerts[j].htmlUrl.Some? && exists k :: 0 <= k < |issues| && Mentions(issues[k], alerts[j].htmlUrl.value)
  }

  lemma StepCovers(cfg: Config, alert: Alert, net: Net, st: RunState)
    requires st.error.None? && !net.search.SearchCanned? && net.create == CreateAccepted
    ensures var r := Step(cfg, alert, net, st);
      && st.jira.issues <= r.jira.issues
      && (r.error.None? ==> alert.htmlUrl.Some? && exists k :: 0 <= k < |r.jira.issues| && Mentions(r.jira.issues[k], alert.htmlUrl.value))
  {
    match alert.htmlUrl
    case None =>
    case Some(url) =>
      if BuildIssue(cfg, alert).Ok? {
        BuiltIssueMentionsUrl(cfg, alert);
      }
      HandleCovers(url, BuildIssue(cfg, alert), net, st);
  }

  lemma HandleCovers(url: string, built: Result<IssueFields, Error>, net: Net, st: RunState)
    requires st.error.None? && !net.search.SearchCanned? && net.create == CreateAccepted
    requires built.Ok? ==> Mentions(Issue(built.value), url)
    ensures var r := Handle(url, built, net, st);
      && st.jira.issues <= r.jira.issues
      && (r.error.None? ==> exists k :: 0 <= k < |r.jira.issues| && Mentions(r.jira.issues[k], url))
  {
    var searched := Search(st.jira, url, net.search);
    if Lookup(searched.1, url).Some? {
      LiveLookupFindsIff(st.jira, url);
    } else if built.Ok? {
      var issues := st.jira.issues + [Issue(built.value)];
      assert Handle(url, built, net, st).jira.issues == issues;
      assert issues[|st.jira.issues|] == Issue(built.value);
    }
  }

  /** A run that searches live or fails, with every create accepted, leaves every alert it completes covered. */
  lemma {:induction false} RunCovers(cfg: Config, alerts: seq<Alert>, nets: seq<Net>, st: RunState)
    requires |nets| == |alerts| && st.error.None? && NoCanned(nets) && AllAccepted(nets)
    ensures var r := Run(cfg, alerts, nets, st);
      st.jira.issues <= r.jira.issues && (r.error.None? ==> Covered(alerts, r.jira.issues))
    decreases |alerts|
  {
    if |alerts| > 0 {
      var s1 := Step(cfg, alerts[0], nets[0], st);
      StepCovers(cfg, alerts[0], nets[0], st);
      if s1.error.None? {
        assert NoCanned(nets[1..]) && AllAccepted(nets[1..]) by {
          assert forall k :: 0 <= k < |nets[1..]| ==> nets[1..][k] == nets[k + 1];
        }
        RunCovers(cfg, alerts[1..], nets[1..], s1);
        var r := Run(cfg, alerts, nets, st);
        if r.error.None? {
          forall j | 0 <= j < |alerts|
            ensures alerts[j].htmlUrl.Some? && exists k :: 0 <= k < |r.jira.issues| && Mentions(r.jira.issues[k], alerts[j].htmlUrl.value)
          {
            if j == 0 {
              var k :| 0 <= k < |s1.jira.issues| && Mentions(s1.jira.issues[k], alerts[0].htmlUrl.value);
              assert r.jira.issues[k] == s1.jira.issues[k];
            } else {
              assert alerts[j] == alerts[1..][j - 1];
            }
          }
        }
      }
    }
  }

  /** A live run over covered alerts finds every one of them and sends no create request. */
  lemma {:induction false} RunNoCreates(cfg: Config, alerts: seq<Alert>, nets: seq<Net>, st: RunState)
    requires |nets| == |alerts| && st.error.None? && AllLive(nets) && Covered(alerts, st.jira.issues)
    ensures var r := Run(cfg, alerts, nets, st);
      r.error.None? && r.added == st.added && r.jira.issues == st.jira.issues && r.jira.posts == st.jira.posts
    decreases |alerts|
  {
    if |alerts| > 0 {
      var url := alerts[0].htmlUrl.value;
      LiveLookupFindsIff(st.jira, url);
      var s1 := Step(cfg, alerts[0], nets[0], st);
      assert s1 == st.(jira := st.jira.(searches := st.jira.searches + [url]));
      assert AllLive(nets[1..]) by {
        assert forall k :: 0 <= k < |nets[1..]| ==> nets[1..][k] == nets[k + 1];
      }
      assert Covered(alerts[1..], s1.jira.issues) by {
        assert forall j :: 0 <= j < |alerts[1..]| ==> alerts[1..][j] == alerts[j + 1];
      }
      RunNoCreates(cfg, alerts[1..], nets[1..], s1);
    }
  }

  /**
   * Re-running the same alerts is harmless: after a run that searched live
   * (or failed to search), had every create accepted and ended without
   * error, a second live run sends no create request and adds nothing.
   */
  lemma SyncIdempotent(cfg: Config, alerts: seq<Alert>, jira: Jira, nets1: seq<Net>, nets2: seq<Net>)
    requires |nets1| == |alerts| && |nets2| == |alerts|
    requires NoCanned(nets1) && AllAccepted(nets1) && AllLive(nets2)
    requires Sync(cfg, alerts, jira, nets1).error.None?
    ensures var first := Sync(cfg, alerts, jira, nets1);
      var second := Sync(cfg, alerts, first.jira, nets2);
      second.error.None? && second.added == [] && second.jira.issues == first.jira.issues && second.jira.posts == first.jira.posts
  {
    var first := Sync(cfg, alerts, jira, nets1);
    RunCovers(cfg, alerts, nets1, RunState([], jira, None));
    RunNoCreates(cfg, alerts, nets2, RunState([], first.jira, None));
  }

  /** At most one issue carries any given alert link. */
  predicate LinksUnique(issues: seq<Issue>) {
    forall i, j :: 0 <= i < j < |issues| && AlertLink(issues[i].fields.description).Some? ==>
      AlertLink(issues[i].fields.description) != AlertLink(issues[j].fields.description)
  }

  lemma StepKeepsLinksUnique(cfg: Config, alert: Alert, net: Net, st: RunState)
    requires st.error.None? && net.search == SearchLive && LinksUnique(st.jira.issues)
    ensures LinksUnique(Step(cfg, alert, net, st).jira.issues)
  {
    match alert.htmlUrl
    case None =>
    case Some(url) =>
      if BuildIssue(cfg, alert).Ok? {
        BuiltIssueLink(cfg, alert);
      }
      HandleKeepsLinksUnique(url, BuildIssue(cfg, alert), net, st);
  }

  lemma HandleKeepsLinksUnique(url: string, built: Result<IssueFields, Error>, net: Net, st: RunState)
    requires st.error.None? && net.search == SearchLive && LinksUnique(st.jira.issues)
    requires built.Ok? ==> AlertLink(built.value.description) == Some(url)
    ensures LinksUnique(Handle(url, built, net, st).jira.issues)
  {
    if Lookup(Search(st.jira, url, SearchLive).1, url).None? && built.Ok? && net.create == CreateAccepted {
      LiveLookupFindsIff(st.jira, url);
      ContainsSelf(url);
      var newIssue := Issue(built.value);
      var issues := st.jira.issues + [newIssue];
      assert Handle(url, built, net, st).jira.issues == issues;
      forall i | 0 <= i < |st.jira.issues| && AlertLink(issues[i].fields.description).Some?
        ensures AlertLink(issues[i].fields.description) != AlertLink(newIssue.fields.description)
      {
        if AlertLink(issues[i].fields.description) == Some(url) {
          LinkedIssueMentions(st.jira.issues[i], url, url);
        }
      }
    }
  }

  lemma {:induction false} RunKeepsLinksUnique(cfg: Config, alerts: seq<Alert>, nets: seq<Net>, st: RunState)
    requires |nets| == |alerts| && AllLive(nets) && LinksUnique(st.jira.issues)
    ensures LinksUnique(Run(cfg, alerts, nets, st).jira.issues)
    decreases |alerts|
  {
    if |alerts| > 0 && st.error.None? {
      StepKeepsLinksUnique(cfg, alerts[0], nets[0], st);
      assert AllLive(nets[1..]) by {
        assert forall k :: 0 <= k < |nets[1..]| ==> nets[1..][k] == nets[k + 1];
      }
      RunKeepsLinksUnique(cfg, alerts[1..], nets[1..], Step(cfg, alerts[0], nets[0], st));
    }
  }

  /** While every search succeeds, no alert link ends up on two issues. */
  lemma SyncKeepsLinksUnique(cfg: Config, alerts: seq<Alert>, jira: Jira, nets: seq<Net>)
    requires |nets| == |alerts| && AllLive(nets) && LinksUnique(jira.issues)
    ensures LinksUnique(Sync(cfg, alerts, jira, nets).jira.issues)
  {
    RunKeepsLinksUnique(cfg, alerts, nets, RunState([], jira, None));
  }

  /** The lookup found an issue: only the search is logged, nothing is built or posted. */
  lemma HandleFound(url: string, built: Result<IssueFields, Error>, net: Net, st: RunState)
    requires st.error.None? && Lookup(Search(st.jira, url, net.search).1, url).Some?
    ensures Handle(url, built, net, st) == st.(jira := st.jira.(searches := st.jira.searches + [url]))
  {
  }

  /** The lookup found nothing and the payload built: the search and an accepted create are logged. */
  lemma HandleCreates(url: string, fields: IssueFields, net: Net, st: RunState)
    requires st.error.None? && Lookup(Search(st.jira, url, net.search).1, url).None?
    requires net.create == CreateAccepted
    ensures Handle(url, Ok(fields), net, st)
         == RunState(st.added + [Some(Created(|st.jira.issues|))],
                     Jira(st.jira.issues + [Issue(fields)], st.jira.searches + [url], st.jira.posts + [fields]), None)
  {
  }

  /** A run over one alert is its step. */
  lemma RunSingle(cfg: Config, a: Alert, n: Net, st: RunState)
    requires st.error.None?
    ensures Run(cfg, [a], [n], st) == Step(cfg, a, n, st)
  {
    assert [a][1..] == [] && [n][1..] == [];
  }

  /** A run over two alerts is the two steps, when the first does not raise. */
  lemma RunPair(cfg: Config, a: Alert, b: Alert, n1: Net, n2: Net, st: RunState)
    requires st.error.None? && Step(cfg, a, n1, st).error.None?
    ensures Run(cfg, [a, b], [n1, n2], st) == Step(cfg, b, n2, Step(cfg, a, n1, st))
  {
    assert [a, b][1..] == [b] && [n1, n2][1..] == [n2];
    RunSingle(cfg, b, n2, Step(cfg, a, n1, st));
  }

  /**
   * Alert `a` already has an issue, alert `b` has none: a live run over
   * `[a, b]` sends exactly one create request, for `b`.
   */
  lemma CreatesOnlyMissing(cfg: Config, a: Alert, b: Alert, jira: Jira, i: nat)
    requires a.htmlUrl.Some? && i < |jira.issues| && Mentions(jira.issues[i], a.htmlUrl.value)
    requires BuildIssue(cfg, b).Ok?
    requires forall k :: 0 <= k < |jira.issues| ==> !Mentions(jira.issues[k], b.htmlUrl.value)
    ensures var r := Sync(cfg, [a, b], jira, [Net(SearchLive, CreateAccepted), Net(SearchLive, CreateAccepted)]);
      && r.error.None? && r.added == [Some(Created(|jira.issues|))]
      && r.jira.posts == jira.posts + [BuildIssue(cfg, b).value]
      && r.jira.issues == jira.issues + [Issue(BuildIssue(cfg, b).value)]
  {
    var net := Net(SearchLive, CreateAccepted);
    var st := RunState([], jira, None);
    var urlA, urlB := a.htmlUrl.value, b.htmlUrl.value;
    LiveLookupFindsIff(jira, urlA);
    HandleFound(urlA, BuildIssue(cfg, a), net, st);
    var s1 := st.(jira := jira.(searches := jira.searches + [urlA]));
    assert Step(cfg, a, net, st) == s1;
    LiveLookupFindsIff(s1.jira, urlB);
    HandleCreates(urlB, BuildIssue(cfg, b).value, net, s1);
    RunPair(cfg, a, b, net, net, st);
  }

  /**
   * A failed search reads as "no issue yet": an alert that already has an
   * issue gets a second one.
   */
  lemma SearchFailureDuplicates(cfg: Config, alert: Alert, jira: Jira, i: nat)
    requires BuildIssue(cfg, alert).Ok?
    requires i < |jira.issues| && Mentions(jira.issues[i], alert.htmlUrl.value)
    ensures var r := Sync(cfg, [alert], jira, [Net(SearchDown, CreateAccepted)]);
      && r.error.None? && r.added == [Some(Created(|jira.issues|))]
      && r.jira.posts == jira.posts + [BuildIssue(cfg, alert).value]
      && |r.jira.issues| == |jira.issues| + 1
      && Mentions(r.jira.issues[i], alert.htmlUrl.value) && Mentions(r.jira.issues[|jira.issues|], alert.htmlUrl.value)
  {
    BuiltIssueMentionsUrl(cfg, alert);
    var url := alert.htmlUrl.value;
    var fields := BuildIssue(cfg, alert).value;
    var net := Net(SearchDown, CreateAccepted);
    var st := RunState([], jira, None);
    HandleCreates(url, fields, net, st);
    RunSingle(cfg, alert, net, st);
    var issues := jira.issues + [Issue(fields)];
    assert Sync(cfg, [alert], jira, [net]).jira.issues == issues;
    assert issues[i] == jira.issues[i] && issues[|jira.issues|] == Issue(fields);
  }

  /**
   * Substring matching lets one alert shadow another: when `b`'s URL occurs
   * inside `a`'s (".../alerts/1" inside ".../alerts/10"), the issue created
   * for `a` is found for `b`, and `b` never gets an issue of its own.
   */
  lemma ContainedUrlIsShadowed(cfg: Config, a: Alert, b: Alert, jira: Jira)
    requires BuildIssue(cfg, a).Ok? && b.htmlUrl.Some?
    requires Contains(a.htmlUrl.value, b.htmlUrl.value)
    requires forall k :: 0 <= k < |jira.issues| ==> !Mentions(jira.issues[k], a.htmlUrl.value)
    ensures var r := Sync(cfg, [a, b], jira, [Net(SearchLive, CreateAccepted), Net(SearchLive, CreateAccepted)]);
      && r.error.None? && r.added == [Some(Created(|jira.issues|))]
      && r.jira.posts == jira.posts + [BuildIssue(cfg, a).value]
  {
    var net := Net(SearchLive, CreateAccepted);
    var st := RunState([], jira, None);
    var urlA, urlB := a.htmlUrl.value, b.htmlUrl.value;
    var fields := BuildIssue(cfg, a).value;
    LiveLookupFindsIff(jira, urlA);
    HandleCreates(urlA, fields, net, st);
    var s1 := RunState([Some(Created(|jira.issues|))],
                       Jira(jira.issues + [Issue(fields)], jira.searches + [urlA], jira.posts + [fields]), None);
    assert Step(cfg, a, net, st) == s1;
    BuiltIssueLink(cfg, a);
    LinkedIssueMentions(Issue(fields), urlA, urlB);
    assert s1.jira.issues[|jira.issues|] == Issue(fields);
    LiveLookupFindsIff(s1.jira, urlB);
    HandleFound(urlB, BuildIssue(cfg, b), net, s1);
    RunPair(cfg, a, b, net, net, st);
  }

  /**
   * `LinksUnique` is about the exact link: an issue per URL "containing" it
   * does not hold. Filing ".../alerts/1" and then ".../alerts/10" on an empty
   * tracker leaves two issues, and both contain ".../alerts/1".
   */
  lemma PrefixUrlOnTwoIssues(cfg: Config, a: Alert, b: Alert)
    requires BuildIssue(cfg, a).Ok? && BuildIssue(cfg, b).Ok?
    requires a.htmlUrl == Some("https://x/alerts/1") && b.htmlUrl == Some("https://x/alerts/10")
    requires !Mentions(Issue(BuildIssue(cfg, a).value), b.htmlUrl.value)
    ensures var r := Sync(cfg, [a, b], Jira([], [], []), [Net(SearchLive, CreateAccepted), Net(SearchLive, CreateAccepted)]);
      && r.error.None? && |r.jira.issues| == 2 && LinksUnique(r.jira.issues)
      && Mentions(r.jira.issues[0], a.htmlUrl.value) && Mentions(r.jira.issues[1], a.htmlUrl.value)
  {
    var net := Net(SearchLive, CreateAccepted);
    var st := RunState([], Jira([], [], []), None);
    var urlA, urlB := a.htmlUrl.value, b.htmlUrl.value;
    var fa, fb := BuildIssue(cfg, a).value, BuildIssue(cfg, b).value;
    LiveLookupFindsIff(st.jira, urlA);
    HandleCreates(urlA, fa, net, st);
    var s1 := RunState([Some(Created(0))], Jira([Issue(fa)], [urlA], [fa]), None);
    assert Step(cfg, a, net, st) == s1;
    LiveLookupFindsIff(s1.jira, urlB);
    HandleCreates(urlB, fb, net, s1);
    var issues := [Issue(fa), Issue(fb)];
    assert Step(cfg, b, net, s1).jira.issues == issues;
    RunPair(cfg, a, b, net, net, st);
    SyncKeepsLinksUnique(cfg, [a, b], st.jira, [net, net]);
    BuiltIssueMentionsUrl(cfg, a);
    BuiltIssueLink(cfg, b);
    AlertOneInsideAlertTen();
    LinkedIssueMentions(Issue(fb), urlB, urlA);
    assert issues[0] == Issue(fa) && issues[1] == Issue(fb);
  }

  lemma AlertOneInsideAlertTen()
    ensures Contains("https://x/alerts/10", "https://x/alerts/1")
  {
    assert "https://x/alerts/1" <= "https://x/alerts/10"[0..];
  }

  const SampleUrl: string := "https://x/alerts/1"

  /** A sample alert: rule CVE-X, severity high, app.py lines 10-12, column 3. */
  function SampleAlert(): Alert {
    Alert(Some("CVE-X"), Some("high"), Some("CodeQL"), Some("SQL injection"),
          Some(Location(Some("app.py"), Some(10), Some(12), Some(3), Some(3))),
          Some("2024-01-05T10:00:00Z"), Some("2024-01-06T10:00:00Z"), Some(SampleUrl), Some("open"))
  }

  /** The values the builder reads out of the sample alert. */
  function SampleFactsValue(): AlertFacts {
    AlertFacts("High", "CVE-X", "SQL injection", "CodeQL",
               "January 05, 2024 10:00", "January 06, 2024 10:00",
               "app.py", 10, 12, 3, SampleUrl)
  }

  lemma SampleFacts()
    ensures ReadAlert(SampleAlert()) == Ok(SampleFactsValue())
  {
    var alert := SampleAlert();
    Timestamps.ReformatExample();
    Timestamps.ReformatNextDay();
    assert Buildable(alert);
    BuildableIsRead(alert);
    ReadAlertFacts(alert);
  }

  /** The sample alert builds, into the payload of the facts read from it. */
  lemma SampleBuilds(cfg: Config)
    ensures BuildIssue(cfg, SampleAlert()) == Ok(Payload(cfg, SampleFactsValue()))
  {
    SampleFacts();
  }

  /** Its priority is "High" and its summary names the rule. */
  lemma SampleSummary(cfg: Config)
    ensures var p := Payload(cfg, SampleFactsValue());
      p.priority == "High" && p.summary == "CodeQL [" + cfg.repoName + "]: CVE-X"
  {
    PayloadContent(cfg, SampleFactsValue());
    assert "CodeQL" + " [" + cfg.repoName + "]: " + "CVE-X" == "CodeQL [" + cfg.repoName + "]: CVE-X";
  }

  /** The first paragraph of a payload carries both reformatted timestamps. */
  lemma TimestampsInFirstParagraph(cfg: Config, f: AlertFacts)
    ensures var p := Payload(cfg, f);
      && |p.description.content[0].content| == 1
      && Contains(p.description.content[0].content[0].text, f.created)
      && Contains(p.description.content[0].content[0].text, f.updated)
  {
    PayloadContent(cfg, f);
    ContainsInfix("Alert created on ", f.created, " (updated on " + f.updated + ") ");
    assert "Alert created on " + f.created + " (updated on " + f.updated + ") "
        == "Alert created on " + f.created + (" (updated on " + f.updated + ") ");
    assert "Alert created on " + f.created + " (updated on " + f.updated + ") "
        == ("Alert created on " + f.created + " (updated on ") + f.updated + ") ";
    ContainsInfix("Alert created on " + f.created + " (updated on ", f.updated, ") ");
  }

  lemma SampleTimestamps(cfg: Config)
    ensures var p := Payload(cfg, SampleFactsValue());
      && Contains(p.description.content[0].content[0].text, "January 05, 2024 10:00")
      && Contains(p.description.content[0].content[0].text, "January 06, 2024 10:00")
  {
    TimestampsInFirstParagraph(cfg, SampleFactsValue());
  }

  /** Its location, message and link paragraphs. */
  lemma SampleBody(cfg: Config)
    ensures var p := Payload(cfg, SampleFactsValue());
      && p.description.content[2].content
         == [Plain("Vulnerable code: "), Plain("app.py, lines 10-12, column 3-3  ")]
      && p.description.content[3].content == [Inline("text", "Description: ", [Strong]), Plain("SQL injection")]
      && p.description.content[4].content
         == [Inline("text", "Link to Alert: ", [Strong]), Inline("text", SampleUrl, [Link(SampleUrl)])]
  {
    PayloadContent(cfg, SampleFactsValue());
    LocationTextExample();
  }

  /** An alert no issue mentions gets exactly one create request, carrying its payload. */
  lemma NewAlertIsCreated(cfg: Config, alert: Alert, jira: Jira)
    requires BuildIssue(cfg, alert).Ok?
    requires forall k :: 0 <= k < |jira.issues| ==> !Mentions(jira.issues[k], alert.htmlUrl.value)
    ensures var fields := BuildIssue(cfg, alert).value;
      Sync(cfg, [alert], jira, [Net(SearchLive, CreateAccepted)])
      == RunState([Some(Created(|jira.issues|))],
                  Jira(jira.issues + [Issue(fields)], jira.searches + [alert.htmlUrl.value], jira.posts + [fields]), None)
  {
    var url := alert.htmlUrl.value;
    var fields := BuildIssue(cfg, alert).value;
    var net := Net(SearchLive, CreateAccepted);
    var st := RunState([], jira, None);
    LiveLookupFindsIff(jira, url);
    HandleCreates(url, fields, net, st);
    RunSingle(cfg, alert, net, st);
  }

  /** First run against an empty tracker: one create request, carrying the sample payload. */
  lemma SampleFirstRun(cfg: Config)
    ensures var r := Sync(cfg, [SampleAlert()], Jira([], [], []), [Net(SearchLive, CreateAccepted)]);
      && r.error.None? && r.added == [Some(Created(0))]
      && r.jira.searches == [SampleUrl]
      && r.jira.posts == [BuildIssue(cfg, SampleAlert()).value]
  {
    SampleBuilds(cfg);
    NewAlertIsCreated(cfg, SampleAlert(), Jira([], [], []));
  }

  /** Second run with the same alert, against the tracker the first run left: no create request. */
  lemma SampleSecondRun(cfg: Config)
    ensures var first := Sync(cfg, [SampleAlert()], Jira([], [], []), [Net(SearchLive, CreateAccepted)]);
      var second := Sync(cfg, [SampleAlert()], first.jira, [Net(SearchLive, CreateAccepted)]);
      second.error.None? && second.added == [] && second.jira.posts == first.jira.posts
  {
    var nets := [Net(SearchLive, CreateAccepted)];
    SampleFirstRun(cfg);
    SyncIdempotent(cfg, [SampleAlert()], Jira([], [], []), nets, nets);
  }

  /** A failed alert fetch gives the empty list, and a run over it sends Jira nothing. */
  lemma FetchFailureSyncsNothing(cfg: Config, jira: Jira)
    ensures GitHandler.GetAlerts(GitHandler.FetchFailed) == Ok([])
    ensures Sync(cfg, GitHandler.GetAlerts(GitHandler.FetchFailed).value, jira, []) == RunState([], jira, None)
  {
    assert GitHandler.GetAlerts(GitHandler.FetchFailed).value == [];
  }
}
