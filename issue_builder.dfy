/**
 * The payload `_create_alert_issue` posts to Jira's create-issue endpoint:
 * priority from a fixed severity table, a summary line, two reformatted
 * timestamps and a five-paragraph ADF description whose last paragraph holds
 * the alert's `html_url` verbatim (the key later lookups search for).
 *
 * Every key the function reads before the request raises KeyError when it is
 * missing, in the order `_create_alert_issue` reads them; that error is `Err` here.
 */
module IssueBuilder {
  import opened Wrappers
  import opened Digits
  import opened Timestamps
  import opened Records

  const SeverityToPriority: map<string, string> :=
    map["critical" := "Highest", "high" := "High", "medium" := "Medium", "low" := "Low"]

  /** The project every issue is filed in, and its issue type. */
  const ProjectKey: string := "SEO"
  const IssueTypeName: string := "Bug"

  /** The text of the link paragraph's label; the alert URL follows it. */
  const LinkLabel: string := "Link to Alert: "

  /** `severity_to_priority[level]`: None where Python raises KeyError. */
  function Priority(severity: string): (r: Option<string>)
    ensures r.Some? <==> severity in {"critical", "high", "medium", "low"}
    ensures severity == "critical" ==> r == Some("Highest")
    ensures severity == "high" ==> r == Some("High")
    ensures severity == "medium" ==> r == Some("Medium")
    ensures severity == "low" ==> r == Some("Low")
  {
    if severity in SeverityToPriority then Some(SeverityToPriority[severity]) else None
  }

  function Summary(toolName: string, repoName: string, ruleId: string): string {
    toolName + " [" + repoName + "]: " + ruleId
  }

  /** The text after "Vulnerable code: "; the end column is never printed. */
  function LocationText(path: string, startLine: int, endLine: int, startColumn: int): string {
    path + ", lines " + IntToDecimal(startLine) + "-" + IntToDecimal(endLine)
    + ", column " + IntToDecimal(startColumn) + "-" + IntToDecimal(startColumn) + "  "
  }

  function TimestampsText(created: string, updated: string): string {
    "Alert created on " + created + " (updated on " + updated + ") "
  }

  /** The link as display text with a link mark whose `href` is the same URL. */
  function LinkNode(url: string): Inline {
    Inline("text", url, [Link(url)])
  }

  function Description(cfg: Config, created: string, updated: string, code: string,
                       message: string, url: string): (d: Doc)
    ensures |d.content| == 5
  {
    Doc("doc", 1, [
      Paragraph([Plain(TimestampsText(created, updated))]),
      Paragraph([Plain("Discovered in: "), Bold(cfg.repoOwner + "/" + cfg.repoName)]),
      Paragraph([Plain("Vulnerable code: "), Plain(code)]),
      Paragraph([Bold("Description: "), Plain(message)]),
      Paragraph([Bold(LinkLabel), LinkNode(url)])
    ])
  }

  /** The values the builder reads out of an alert before it formats anything. */
  datatype AlertFacts = AlertFacts(
    priority: string, ruleId: string, message: string, toolName: string,
    created: string, updated: string,
    path: string, startLine: int, endLine: int, startColumn: int,
    url: string)

  /**
   * The key lookups of `_create_alert_issue`, in the order it makes
   * them: the first missing key, unmapped severity or unreadable timestamp is
   * the error raised. The timestamps come back already reformatted.
   */
  function ReadAlert(alert: Alert): (r: Result<AlertFacts, Error>)
  {
    if alert.severity.None? then Err(MissingField(RuleSecuritySeverityLevel))
    else if Priority(alert.severity.value).None? then Err(UnmappedSeverity(alert.severity.value))
    else if alert.ruleId.None? then Err(MissingField(RuleId))
    else if alert.messageText.None? then Err(MissingField(MessageText))
    else if alert.toolName.None? then Err(MissingField(ToolName))
    else if alert.location.None? then Err(MissingField(LocationKey))
    else if alert.createdAt.None? then Err(MissingField(CreatedAt))
    else if ParseIso(alert.createdAt.value).None? then Err(BadTimestamp(alert.createdAt.value))
    else if alert.updatedAt.None? then Err(MissingField(UpdatedAt))
    else if ParseIso(alert.updatedAt.value).None? then Err(BadTimestamp(alert.updatedAt.value))
    else if alert.location.value.path.None? then Err(MissingField(LocationPath))
    else if alert.location.value.startLine.None? then Err(MissingField(LocationStartLine))
    else if alert.location.value.endLine.None? then Err(MissingField(LocationEndLine))
    else if alert.location.value.startColumn.None? then Err(MissingField(LocationStartColumn))
    else if alert.htmlUrl.None? then Err(MissingField(HtmlUrl))
    else
      var loc := alert.location.value;
      Ok(AlertFacts(Priority(alert.severity.value).value, alert.ruleId.value, alert.messageText.value,
                    alert.toolName.value, Reformat(alert.createdAt.value).value,
                    Reformat(alert.updatedAt.value).value, loc.path.value, loc.startLine.value,
                    loc.endLine.value, loc.startColumn.value, alert.htmlUrl.value))
  }

  /** The payload dictionary built from the values read. */
  function Payload(cfg: Config, f: AlertFacts): IssueFields {
    var code := LocationText(f.path, f.startLine, f.endLine, f.startColumn);
    IssueFields(ProjectKey, Summary(f.toolName, cfg.repoName, f.ruleId),
                Description(cfg, f.created, f.updated, code, f.message, f.url),
                IssueTypeName, f.priority)
  }

  /** `_create_alert_issue` up to the request: the payload, or the error raised building it. */
  function BuildIssue(cfg: Config, alert: Alert): (r: Result<IssueFields, Error>)
  {
    match ReadAlert(alert)
    case Err(e) => Err(e)
    case Ok(f) => Ok(Payload(cfg, f))
  }

  /** The alert holds every key the builder reads, a mapped severity and readable timestamps. */
  predicate Buildable(alert: Alert) {
    && alert.severity.Some? && Priority(alert.severity.value).Some?
    && alert.ruleId.Some? && alert.messageText.Some? && alert.toolName.Some?
    && alert.location.Some? && alert.location.value.path.Some?
    && alert.location.value.startLine.Some? && alert.location.value.endLine.Some?
    && alert.location.value.startColumn.Some?
    && alert.createdAt.Some? && ParseIso(alert.createdAt.value).Some?
    && alert.updatedAt.Some? && ParseIso(alert.updatedAt.value).Some?
    && alert.htmlUrl.Some?
  }

  /**
   * Building fails exactly when a key is missing, the severity is not one of
   * the four mapped levels or a timestamp is unreadable.
   */
  lemma BuildIssueSucceedsIff(cfg: Config, alert: Alert)
    ensures BuildIssue(cfg, alert).Ok? <==> Buildable(alert)
    ensures Buildable(alert) ==> alert.severity.value in {"critical", "high", "medium", "low"}
  {
    if Buildable(alert) {
      BuildableIsRead(alert);
    } else if ReadAlert(alert).Ok? {
      ReadAlertFacts(alert);
    }
  }

  lemma BuildableIsRead(alert: Alert)
    requires Buildable(alert)
    ensures ReadAlert(alert).Ok?
  {
    assert Reformat(alert.createdAt.value).Some? && Reformat(alert.updatedAt.value).Some?;
  }

  /** An unmapped severity fails the build with that severity, whatever else the alert holds. */
  lemma UnmappedSeverityFails(cfg: Config, alert: Alert)
    requires alert.severity.Some? && alert.severity.value !in {"critical", "high", "medium", "low"}
    ensures BuildIssue(cfg, alert) == Err(UnmappedSeverity(alert.severity.value))
  {
  }

  /** What the builder reads out of the alert: the mapped priority and the reformatted timestamps. */
  lemma ReadAlertFacts(alert: Alert)
    requires ReadAlert(alert).Ok?
    ensures var f := ReadAlert(alert).value;
      && Buildable(alert)
      && Some(f.priority) == Priority(alert.severity.value)
      && f.ruleId == alert.ruleId.value && f.message == alert.messageText.value
      && f.toolName == alert.toolName.value
      && Some(f.created) == Reformat(alert.createdAt.value)
      && Some(f.updated) == Reformat(alert.updatedAt.value)
      && f.path == alert.location.value.path.value
      && f.startLine == alert.location.value.startLine.value
      && f.endLine == alert.location.value.endLine.value
      && f.startColumn == alert.location.value.startColumn.value
      && f.url == alert.htmlUrl.value
  {
  }

  /**
   * What a payload holds: project and type constants, the priority, the
   * summary line, and the five paragraphs in order.
   */
  lemma PayloadContent(cfg: Config, f: AlertFacts)
    ensures var p := Payload(cfg, f);
      && p.projectKey == "SEO" && p.issueType == "Bug" && p.priority == f.priority
      && p.summary == f.toolName + " [" + cfg.repoName + "]: " + f.ruleId
      && p.description.kind == "doc" && p.description.version == 1
      && |p.description.content| == 5
      && (forall i :: 0 <= i < 5 ==> p.description.content[i].kind == "paragraph")
      && p.description.content[0].content
         == [Plain("Alert created on " + f.created + " (updated on " + f.updated + ") ")]
      && p.description.content[1].content
         == [Plain("Discovered in: "), Inline("text", cfg.repoOwner + "/" + cfg.repoName, [Strong])]
      && p.description.content[2].content
         == [Plain("Vulnerable code: "), Plain(LocationText(f.path, f.startLine, f.endLine, f.startColumn))]
      && p.description.content[3].content
         == [Inline("text", "Description: ", [Strong]), Plain(f.message)]
      && p.description.content[4].content
         == [Inline("text", "Link to Alert: ", [Strong]), Inline("text", f.url, [Link(f.url)])]
  {
  }

  /** The end column never reaches the payload; the start column is printed twice. */
  lemma BuildIgnoresEndColumn(cfg: Config, alert: Alert, endColumn: Option<int>)
    requires alert.location.Some?
    ensures BuildIssue(cfg, alert) == BuildIssue(cfg, alert.(location := Some(alert.location.value.(endColumn := endColumn))))
  {
    var other := alert.(location := Some(alert.location.value.(endColumn := endColumn)));
    assert other.location.value.path == alert.location.value.path;
    assert other.location.value.startLine == alert.location.value.startLine;
    assert other.location.value.endLine == alert.location.value.endLine;
    assert other.location.value.startColumn == alert.location.value.startColumn;
    assert ReadAlert(other) == ReadAlert(alert);
  }

  /** The location text `_create_alert_issue` writes: "path, lines a-b, column c-c" and two spaces. */
  lemma LocationTextExample()
    ensures LocationText("app.py", 10, 12, 3) == "app.py, lines 10-12, column 3-3  "
  {
    assert IntToDecimal(3) == "3";
    assert IntToDecimal(10) == "10";
    assert IntToDecimal(12) == "12";
  }

  /**
   * The dedup key as a reader finds it: the text of the second node of the
   * fifth paragraph, when that paragraph starts with the bold link label.
   */
  function AlertLink(doc: Doc): (r: Option<string>)
    ensures r.Some? ==> |doc.content| >= 5 && doc.content[4].kind == "paragraph"
                        && |doc.content[4].content| >= 2 && doc.content[4].content[1].kind == "text"
                        && doc.content[4].content[1].text == r.value
  {
    if |doc.content| >= 5 && doc.content[4].kind == "paragraph" && |doc.content[4].content| >= 2
       && doc.content[4].content[0] == Bold(LinkLabel) && doc.content[4].content[1].kind == "text"
    then Some(doc.content[4].content[1].text)
    else None
  }

  /** Dedup key fidelity: the link read back from a built payload is the alert's URL, character for character. */
  lemma BuiltIssueLink(cfg: Config, alert: Alert)
    requires BuildIssue(cfg, alert).Ok?
    ensures AlertLink(BuildIssue(cfg, alert).value.description) == alert.htmlUrl
    ensures BuildIssue(cfg, alert).value.description.content[4].content[1].marks == [Link(alert.htmlUrl.value)]
  {
  }
}
