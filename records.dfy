/**
 * The records the synchroniser reads and writes: a code-scanning alert as the
 * alert source returns it, the Atlassian Document Format (ADF) rich text of an
 * issue description, the issue fields sent to and read back from Jira, and
 * the errors that escape the per-alert work.
 *
 * An alert field that may be missing is an `Option`; `None` is the missing key.
 */
module Records {
  import opened Wrappers

  /** `most_recent_instance.location` of an alert. */
  datatype Location = Location(
    path: Option<string>,
    startLine: Option<int>,
    endLine: Option<int>,
    startColumn: Option<int>,
    endColumn: Option<int>)

  /** One code-scanning alert record. */
  datatype Alert = Alert(
    ruleId: Option<string>,             // rule.id
    severity: Option<string>,           // rule.security_severity_level
    toolName: Option<string>,           // tool.name
    messageText: Option<string>,        // most_recent_instance.message.text
    location: Option<Location>,         // most_recent_instance.location
    createdAt: Option<string>,          // created_at
    updatedAt: Option<string>,          // updated_at
    htmlUrl: Option<string>,            // html_url
    state: Option<string>)              // state

  /** The repository the alerts belong to, read once from the environment. */
  datatype Config = Config(repoOwner: string, repoName: string)

  /** An ADF mark: bold text, or a hyperlink with its `href` attribute. */
  datatype Mark = Strong | Link(href: string)

  /**
   * An inline ADF node. `kind` is its `"type"`; the model keeps `"text"` nodes
   * and any other kind a fetched issue may hold. A missing `"text"` key reads
   * as `""`, as `content.get("text", "")` does.
   */
  datatype Inline = Inline(kind: string, text: string, marks: seq<Mark>)

  /** A block of an ADF document; a missing `"content"` list reads as empty. */
  datatype Block = Block(kind: string, content: seq<Inline>)

  /** An ADF document (`{"type": "doc", "version": 1, "content": [...]}`). */
  datatype Doc = Doc(kind: string, version: int, content: seq<Block>)

  /** The `fields` object of a Jira issue, as created and as fetched. */
  datatype IssueFields = IssueFields(
    projectKey: string,
    summary: string,
    description: Doc,
    issueType: string,
    priority: string)

  datatype Issue = Issue(fields: IssueFields)

  /** The JSON keys whose absence raises KeyError, by their path in the alert record. */
  datatype Key =
    | RuleSecuritySeverityLevel    // rule.security_severity_level
    | RuleId                       // rule.id
    | MessageText                  // most_recent_instance.message.text
    | ToolName                     // tool.name
    | LocationKey                  // most_recent_instance.location
    | CreatedAt                    // created_at
    | UpdatedAt                    // updated_at
    | LocationPath                 // most_recent_instance.location.path
    | LocationStartLine            // most_recent_instance.location.start_line
    | LocationEndLine              // most_recent_instance.location.end_line
    | LocationStartColumn          // most_recent_instance.location.start_column
    | HtmlUrl                      // html_url
    | State                        // state

  /**
   * What escapes the per-alert work: a KeyError on a missing key or on a
   * severity the priority table does not hold, or the ValueError of a
   * timestamp `strptime` cannot read.
   */
  datatype Error =
    | MissingField(key: Key)
    | UnmappedSeverity(severity: string)
    | BadTimestamp(text: string)

  /** Plain text. */
  function Plain(text: string): Inline {
    Inline("text", text, [])
  }

  /** Bold text. */
  function Bold(text: string): Inline {
    Inline("text", text, [Strong])
  }

  function Paragraph(content: seq<Inline>): Block {
    Block("paragraph", content)
  }
}
