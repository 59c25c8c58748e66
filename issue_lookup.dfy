/**
 * `get_issue_by_alert_url`: the local filtering of the issues Jira's search
 * returns. The counter `issueCount` grows once per non-null issue, and an
 * issue is kept only while the counter is at most 1, so only the FIRST
 * non-null issue can be returned, and only when one of its paragraph text
 * nodes contains the URL as a substring. A transport error gives `None`.
 */
module IssueLookup {
  import opened Wrappers
  import opened Records
  import opened IssueBuilder

  /** The outcome of the search request: a transport or HTTP error, or the decoded `"issues"` value. */
  datatype SearchResponse = SearchFailed | SearchOk(issues: Option<seq<Option<Issue>>>)

  /** Python's `pattern in text` on strings. */
  predicate Contains(text: string, pattern: string) {
    exists i :: 0 <= i <= |text| && pattern <= text[i..]
  }

  predicate NodeMentions(node: Inline, url: string) {
    node.kind == "text" && Contains(node.text, url)
  }

  predicate BlockMentions(block: Block, url: string) {
    block.kind == "paragraph" && exists k :: 0 <= k < |block.content| && NodeMentions(block.content[k], url)
  }

  predicate DocMentions(blocks: seq<Block>, url: string) {
    exists j :: 0 <= j < |blocks| && BlockMentions(blocks[j], url)
  }

  /** Some paragraph of the issue's description has a text node containing `url`. */
  predicate Mentions(issue: Issue, url: string) {
    DocMentions(issue.fields.description.content, url)
  }

  /** The first non-null entry of a search result. */
  function FirstPresent(s: seq<Option<Issue>>): (r: Option<Issue>)
    ensures r.Some? <==> exists k :: 0 <= k < |s| && s[k].Some?
    ensures r.Some? ==> exists k :: 0 <= k < |s| && s[k] == r && forall j :: 0 <= j < k ==> s[j].None?
  {
    if |s| == 0 then None
    else if s[0].Some? then s[0]
    else
      var r := FirstPresent(s[1..]);
      assert forall k :: 1 <= k < |s| ==> s[k] == s[1..][k - 1];
      r
  }

  /** The number of non-null entries, the final value of `issueCount`. */
  function CountPresent(s: seq<Option<Issue>>): (n: nat)
    ensures n == 0 <==> FirstPresent(s).None?
  {
    if |s| == 0 then 0
    else
      var n := CountPresent(s[1..]);
      assert forall k :: 1 <= k < |s| ==> s[k] == s[1..][k - 1];
      (if s[0].Some? then 1 else 0) + n
  }

  /** The issue a list of search results yields: its first non-null issue, if that one mentions `url`. */
  function LookupList(issues: seq<Option<Issue>>, url: string): (r: Option<Issue>)
    ensures r.None? || r == FirstPresent(issues)
    ensures r.Some? <==> FirstPresent(issues).Some? && Mentions(FirstPresent(issues).value, url)
  {
    var first := FirstPresent(issues);
    if first.Some? && Mentions(first.value, url) then first else None
  }

  /** What `get_issue_by_alert_url` returns for a search response. */
  function Lookup(response: SearchResponse, url: string): (r: Option<Issue>)
    ensures response.SearchFailed? ==> r.None?
    ensures response == SearchOk(None) ==> r.None?
    ensures response.SearchOk? && response.issues.Some? ==> r == LookupList(response.issues.value, url)
  {
    match response
    case SearchFailed => None
    case SearchOk(None) => None
    case SearchOk(Some(issues)) => LookupList(issues, url)
  }

  lemma {:induction false} FirstPresentSnoc(s: seq<Option<Issue>>, x: Option<Issue>)
    ensures FirstPresent(s + [x]) == if FirstPresent(s).Some? then FirstPresent(s) else x
    decreases |s|
  {
    if |s| > 0 {
      assert (s + [x])[1..] == s[1..] + [x];
      FirstPresentSnoc(s[1..], x);
    } else {
      assert s + [x] == [x];
    }
  }

  lemma {:induction false} CountPresentSnoc(s: seq<Option<Issue>>, x: Option<Issue>)
    ensures CountPresent(s + [x]) == CountPresent(s) + if x.Some? then 1 else 0
    decreases |s|
  {
    if |s| > 0 {
      assert (s + [x])[1..] == s[1..] + [x];
      CountPresentSnoc(s[1..], x);
    } else {
      assert s + [x] == [x];
    }
  }

  /** A match among the first `j` blocks, or among the first `k` nodes of block `j`. */
  predicate ScannedMentions(blocks: seq<Block>, j: nat, k: nat, url: string)
    requires j < |blocks| && k <= |blocks[j].content|
  {
    DocMentions(blocks[..j], url) || exists m :: 0 <= m < k && NodeMentions(blocks[j].content[m], url)
  }

  lemma DocMentionsSnoc(blocks: seq<Block>, j: nat, url: string)
    requires j < |blocks|
    ensures DocMentions(blocks[..j + 1], url) <==> DocMentions(blocks[..j], url) || BlockMentions(blocks[j], url)
  {
    assert forall m :: 0 <= m < j ==> blocks[..j + 1][m] == blocks[..j][m];
    assert blocks[..j + 1][j] == blocks[j];
  }

  lemma ScannedMentionsSnoc(blocks: seq<Block>, j: nat, k: nat, url: string)
    requires j < |blocks| && k < |blocks[j].content|
    ensures ScannedMentions(blocks, j, k + 1, url)
            <==> ScannedMentions(blocks, j, k, url) || NodeMentions(blocks[j].content[k], url)
  {
  }

  lemma LookupListSnoc(s: seq<Option<Issue>>, x: Option<Issue>, url: string)
    ensures LookupList(s + [x], url)
         == if FirstPresent(s).Some? then LookupList(s, url)
            else if x.Some? && Mentions(x.value, url) then x else None
  {
    FirstPresentSnoc(s, x);
  }

  /**
   * `get_issue_by_alert_url` as written: three nested loops, the counter of
   * non-null issues, and the inner `break` once a match is found in an issue
   * after the first (where `get_issue_by_alert_url` prints its "Key Err" warning).
   */
  method GetIssueByAlertUrl(response: SearchResponse, alertUrl: string) returns (theIssue: Option<Issue>)
    ensures theIssue == Lookup(response, alertUrl)
  {
    theIssue := None;
    if response.SearchFailed? {
      return;
    }
    var issueCount := 0;
    if response.issues.Some? {
      var issues := response.issues.value;
      var i := 0;
      while i < |issues|
        invariant 0 <= i <= |issues|
        invariant issueCount == CountPresent(issues[..i])
        invariant theIssue == LookupList(issues[..i], alertUrl)
      {
        assert issues[..i + 1] == issues[..i] + [issues[i]];
        LookupListSnoc(issues[..i], issues[i], alertUrl);
        CountPresentSnoc(issues[..i], issues[i]);
        if issues[i].Some? {
          var issue := issues[i].value;
          issueCount := issueCount + 1;
          ghost var before := theIssue;
          var description := issue.fields.description.content;
          var j := 0;
          while j < |description|
            invariant 0 <= j <= |description|
            invariant issueCount == 1 ==> theIssue == if DocMentions(description[..j], alertUrl) then Some(issue) else None
            invariant issueCount != 1 ==> theIssue == before
          {
            DocMentionsSnoc(description, j, alertUrl);
            var block := description[j];
            if block.kind == "paragraph" {
              var k := 0;
              while k < |block.content|
                invariant 0 <= k <= |block.content|
                invariant issueCount == 1 ==> theIssue == if ScannedMentions(description, j, k, alertUrl) then Some(issue) else None
                invariant issueCount != 1 ==> theIssue == before
              {
                ScannedMentionsSnoc(description, j, k, alertUrl);
                var content := block.content[k];
                if content.kind == "text" && Contains(content.text, alertUrl) {
                  if issueCount <= 1 {
                    theIssue := Some(issue);
                  } else {
                    break;
                  }
                }
                k := k + 1;
              }
            }
            j := j + 1;
          }
          assert description[..j] == description;
        }
        i := i + 1;
      }
      assert issues[..i] == issues;
    }
  }

  lemma ContainsSelf(s: string)
    ensures Contains(s, s)
  {
    assert s <= s[0..];
  }

  lemma ContainsInfix(a: string, b: string, c: string)
    ensures Contains(a + b + c, b)
  {
    assert (a + b + c)[|a|..] == b + c;
    assert b <= b + c;
  }

  /** An issue whose link paragraph carries a URL containing `url` is one that mentions `url`. */
  lemma LinkedIssueMentions(issue: Issue, link: string, url: string)
    requires AlertLink(issue.fields.description) == Some(link) && Contains(link, url)
    ensures Mentions(issue, url)
  {
    var blocks := issue.fields.description.content;
    assert NodeMentions(blocks[4].content[1], url);
    assert BlockMentions(blocks[4], url);
  }

  /** The payload built for an alert mentions the alert's URL. */
  lemma BuiltIssueMentionsUrl(cfg: Config, alert: Alert)
    requires BuildIssue(cfg, alert).Ok?
    ensures Mentions(Issue(BuildIssue(cfg, alert).value), alert.htmlUrl.value)
  {
    BuiltIssueLink(cfg, alert);
    ContainsSelf(alert.htmlUrl.value);
    LinkedIssueMentions(Issue(BuildIssue(cfg, alert).value), alert.htmlUrl.value, alert.htmlUrl.value);
  }

  /**
   * Build/lookup round trip: when the search returns the created issue as its
   * first non-null entry, the lookup returns that issue, whatever follows it.
   */
  lemma BuiltIssueIsFound(cfg: Config, alert: Alert, nulls: seq<Option<Issue>>, rest: seq<Option<Issue>>)
    requires BuildIssue(cfg, alert).Ok?
    requires forall k :: 0 <= k < |nulls| ==> nulls[k].None?
    ensures var issue := Issue(BuildIssue(cfg, alert).value);
      Lookup(SearchOk(Some(nulls + [Some(issue)] + rest)), alert.htmlUrl.value) == Some(issue)
  {
    var issue := Issue(BuildIssue(cfg, alert).value);
    var s := nulls + [Some(issue)] + rest;
    BuiltIssueMentionsUrl(cfg, alert);
    assert s[|nulls|] == Some(issue);
    assert forall k :: 0 <= k < |nulls| ==> s[k] == nulls[k];
  }

  /** A match in a later issue is never returned when the first non-null issue does not match. */
  lemma LaterMatchIsIgnored(first: Issue, later: Issue, url: string)
    requires !Mentions(first, url) && Mentions(later, url)
    ensures Lookup(SearchOk(Some([None, Some(first), Some(later)])), url) == None
  {
    var s := [None, Some(first), Some(later)];
    assert s[1..] == [Some(first), Some(later)];
    assert FirstPresent(s) == FirstPresent(s[1..]) == Some(first);
  }
}
