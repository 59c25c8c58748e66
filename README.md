# GitHub code-scanning alerts to Jira issues

A Dafny model of the synchronisation core of `olympix-jira-new`. The tool has
four parts:

- It fetches a repository's code-scanning alerts and keeps the open ones
  (`git_handler.get_alerts`).
- For each alert it asks Jira whether an issue already links to the alert's
  `html_url` (`jira_handler.get_issue_by_alert_url`).
- When none does, it builds a create-issue payload and posts it
  (`jira_handler._create_alert_issue`).
- The loop that chains these is `jira_handler.create_alert`.

Modules, one per concern:

- `Wrappers`: `Option` and `Result`.
- `Records`: the alert record, the Atlassian Document Format (ADF) document, the issue, and the error a run can end with.
  Every alert field the builder and the open filter read is an `Option`, so a missing alert key is a value the model handles.
- `Digits`: Python's `str()` of an integer, and the zero-padded fields of `strftime`.
- `Timestamps`: `strptime(s, "%Y-%m-%dT%H:%M:%SZ")` and `strftime("%B %d, %Y %H:%M")`.
  The input form is the UTC date-time of RFC 3339, section 5.6.
- `IssueBuilder`: the payload of `_create_alert_issue`.
  It has the severity-to-priority table, the summary, the five-paragraph description, and the order in which missing keys raise.
- `IssueLookup`: the result-matching loops of `get_issue_by_alert_url`.
  They are an imperative method, proved equal to a functional specification.
- `GitHandler`: the open-state filter and its fail-open branch.
- `Sync`: `create_alert` as an imperative loop (`Sync.CreateAlert`), proved equal to a step function `Sync.Sync`.

Jira is modelled as a value: its issues, plus the logs of the search and
create requests it received. Each alert is paired with a scripted answer for
its search and for its create request:

- A search can be a transport failure, a "live" answer, or a fixed decoded result.
  A live answer is every issue whose description mentions the URL, in creation order.
- A create can be accepted or rejected.

Behaviour the model keeps from the code:

- A missing key, an unmapped severity or an unreadable timestamp raises out of `create_alert`, which ends the run.
  The model returns this as an error result that stops the loop.
- A failed search reads as `None`, so an alert that already has an issue is filed again (`Sync.SearchFailureDuplicates`).
- A KeyError in one alert ends the run, and later alerts are never searched (`Sync.AbortSkipsRest`).
- Only the first non-null search result can ever be returned.
  It is returned when one of its paragraph text nodes contains the URL as a substring.

## Model

| member | source | states |
|---|---|---|
| Digits.IntToDecimal | jira_handler.py:88 | `str()` of an integer is non-empty and starts with a minus sign exactly when the integer is negative |
| Digits.NatToDecimalRoundTrip | jira_handler.py:88 | the decimal text of a natural number reads back as that number |
| Digits.ZeroPaddedRoundTrip | jira_handler.py:45-50 | a field printed zero-padded to its width reads back as the same number |
| Digits.DigitsAreZeroPadded | jira_handler.py:45-46 | a digit field is exactly the zero-padded text of the number it denotes |
| Timestamps.DaysInMonth | jira_handler.py:45-46 | a month has 28 to 31 days, and 29 exactly for February of a leap year |
| Timestamps.ParseIso | jira_handler.py:45-49 | every date-time `strptime` accepts is a real calendar instant in years 1 to 9999 |
| Timestamps.FormatIso | jira_handler.py:45-49 | the RFC 3339 text of a date-time has the 20-character layout, with each field zero-padded |
| Timestamps.Reformat | jira_handler.py:45-50 | the reformatting succeeds exactly when the text parses |
| Timestamps.ParseFormatIso | jira_handler.py:45-46 | parsing the RFC 3339 text of any valid date-time returns it |
| Timestamps.FormatParseIso | jira_handler.py:45-46 | any text that parses is exactly the RFC 3339 text of its value |
| Timestamps.ReformatDropsSeconds | jira_handler.py:47 | the long form ignores the seconds field |
| Timestamps.RejectsNonexistentDay | jira_handler.py:45-47 | February 29 of a common year is rejected |
| Timestamps.AcceptsLeapDay | jira_handler.py:45-47 | February 29, 2024 is accepted and printed with its month name |
| Timestamps.ReformatExample | jira_handler.py:45-47 | "2024-01-05T10:00:00Z" becomes "January 05, 2024 10:00" |
| Timestamps.ReformatNextDay | jira_handler.py:48-50 | "2024-01-06T10:00:00Z" becomes "January 06, 2024 10:00" |
| IssueBuilder.Priority | jira_handler.py:31-37 | critical, high, medium and low map to Highest, High, Medium and Low; every other severity has no priority |
| IssueBuilder.Description | jira_handler.py:52-122 | the description document has exactly five blocks |
| IssueBuilder.BuildIssueSucceedsIff | jira_handler.py:37-117 | a payload is built exactly when every key read is present, the severity is one of the four mapped levels and both timestamps parse |
| IssueBuilder.UnmappedSeverityFails | jira_handler.py:31-37 | an unmapped severity fails with that severity, whatever the rest of the alert holds |
| IssueBuilder.ReadAlertFacts | jira_handler.py:37-50 | the values read are the mapped priority, the alert's fields verbatim and the two reformatted timestamps |
| IssueBuilder.PayloadContent | jira_handler.py:52-134 | project key "SEO", issue type "Bug", summary `tool [repo]: rule`, and five paragraphs: timestamps, bold `owner/name`, vulnerable code, bold "Description: " with the message, bold "Link to Alert: " with the link |
| IssueBuilder.BuildIgnoresEndColumn | jira_handler.py:88 | the end column never affects the payload |
| IssueBuilder.LocationTextExample | jira_handler.py:88 | path `app.py`, lines 10 to 12, column 3 print as "app.py, lines 10-12, column 3-3  " |
| IssueBuilder.AlertLink | jira_handler.py:106-120 | a link that can be extracted is the text of the second node of the fifth paragraph |
| IssueBuilder.BuiltIssueLink | jira_handler.py:114-117 | the link of a built payload is the alert's `html_url`, and its mark's `href` is the same URL |
| IssueLookup.FirstPresent | jira_handler.py:195-198 | the first non-null entry: present exactly when some entry is, with only nulls before it |
| IssueLookup.CountPresent | jira_handler.py:196-198 | the non-null counter is zero exactly when there is no non-null entry |
| IssueLookup.LookupList | jira_handler.py:195-219 | the lookup returns nothing or the first non-null issue, and returns it exactly when that issue mentions the URL |
| IssueLookup.Lookup | jira_handler.py:184-221 | a failed request and a null `"issues"` value both give no issue |
| IssueLookup.GetIssueByAlertUrl | jira_handler.py:191-219 | the nested loops with `issueCount` and the inner `break` compute exactly the lookup function |
| IssueLookup.LinkedIssueMentions | jira_handler.py:204-213 | an issue whose link text contains the URL is matched by the scan |
| IssueLookup.BuiltIssueMentionsUrl | jira_handler.py:114-117 | the payload built for an alert is matched by a scan for that alert's URL |
| IssueLookup.BuiltIssueIsFound | jira_handler.py:195-219 | build/lookup round trip: a search result whose first non-null entry is the built issue finds that issue |
| IssueLookup.LaterMatchIsIgnored | jira_handler.py:212-218 | a match in the second non-null issue is not returned when the first does not match |
| GitHandler.KeepOpen | git_handler.py:30 | every alert kept is open; each open alert is kept as often as it occurs; order is kept |
| GitHandler.OpenAlerts | git_handler.py:30 | the filter succeeds exactly when every record has a state, and otherwise fails on the missing `"state"` key |
| GitHandler.GetAlerts | git_handler.py:23-39 | a failed request gives the empty list; otherwise the result is the filter's |
| GitHandler.KeepOpenIdempotent | git_handler.py:30 | filtering the filter's output changes nothing |
| GitHandler.KeepOpenOfOpen | git_handler.py:30 | records that are all open pass through unchanged |
| GitHandler.GetAlertsResultIsOpen | git_handler.py:23-39 | every alert returned is open, and the filter is the identity on the result |
| Sync.Matching | jira_handler.py:172 | a live search returns only issues that mention the URL, and returns some exactly when Jira holds one |
| Sync.LiveLookupFindsIff | jira_handler.py:172-219 | against a live search, the lookup finds an issue exactly when Jira holds an issue that mentions the URL |
| Sync.CreateAlertIssue | jira_handler.py:29-147 | a build failure is returned and no request is sent; otherwise the built payload is posted |
| Sync.CreateAlert | jira_handler.py:223-240 | the loop of `create_alert` ends in exactly the state of the step-function run |
| Sync.RunAppend | jira_handler.py:225-238 | a run over two lists of alerts is the run over the first followed by the run over the second |
| Sync.AbortSkipsRest | jira_handler.py:229-234 | once an alert raises, no later alert is searched for or created |
| Sync.StepDecision | jira_handler.py:229-238 | one search per alert, for its URL; a create request exactly when the lookup gives nothing and the payload builds, carrying that payload; an error exactly when the lookup gives nothing and the payload does not build |
| Sync.StepWithoutUrl | jira_handler.py:229 | an alert without `html_url` raises before any request |
| Sync.RunSearches | jira_handler.py:225-229 | the search log gets one entry per processed alert, its URL, in input order; all alerts are searched for when no error occurs |
| Sync.SyncFiles | jira_handler.py:232-235 | one entry is appended to `alerts_added` per create request; each accepted request files exactly one issue under the id it returns; earlier issues are kept |
| Sync.RunCovers | jira_handler.py:223-240 | after an error-free run with live or failed searches and accepted creates, every alert's URL is mentioned by some issue |
| Sync.RunNoCreates | jira_handler.py:223-240 | a live run over alerts that all have matching issues sends no create request |
| Sync.SyncIdempotent | jira_handler.py:223-240 | a second live run over the same alerts after an error-free, fully accepted first run adds nothing |
| Sync.SyncKeepsLinksUnique | jira_handler.py:223-240 | while searches are live, no alert link ends up on two issues |
| Sync.CreatesOnlyMissing | jira_handler.py:223-240 | if alert A has an issue and alert B has none, exactly one create request is sent, for B |
| Sync.NewAlertIsCreated | jira_handler.py:223-240 | an alert that no issue mentions gets exactly one create request, and Jira files its payload |
| Sync.SearchFailureDuplicates | jira_handler.py:220-235 | a failed search for an alert that already has an issue produces a second issue mentioning the same URL |
| Sync.ContainedUrlIsShadowed | jira_handler.py:209-213 | when one alert's URL occurs inside another's, the second alert finds the first one's issue and never gets its own |
| Sync.PrefixUrlOnTwoIssues | jira_handler.py:209-213 | filing ".../alerts/1" and then ".../alerts/10" leaves two issues that both contain ".../alerts/1", although their links differ |
| Sync.TimestampsInFirstParagraph | jira_handler.py:61 | the first paragraph is one text node containing both reformatted timestamps |
| Sync.SampleFacts | jira_handler.py:37-50 | the sample alert CVE-X (severity high) reads as priority "High" with timestamps "January 05, 2024 10:00" and "January 06, 2024 10:00" |
| Sync.SampleBuilds | jira_handler.py:29-134 | the sample alert builds a payload |
| Sync.SampleSummary | jira_handler.py:44 | the sample's summary is `CodeQL [repo]: CVE-X` and its priority is "High" |
| Sync.SampleTimestamps | jira_handler.py:61 | the sample description contains "January 05, 2024 10:00" |
| Sync.SampleBody | jira_handler.py:79-120 | the sample's location, message and link paragraphs, with the link "https://x/alerts/1" verbatim |
| Sync.SampleFirstRun | jira_handler.py:223-240 | a first run on an empty tracker sends one search and one create request, with the sample payload |
| Sync.SampleSecondRun | jira_handler.py:223-240 | a second run against the tracker the first run left sends no create request |
| Sync.FetchFailureSyncsNothing | git_handler.py:38-39 | a failed alert fetch yields an empty run that sends Jira nothing |

## Left out

- The HTTP requests are not modelled: `requests.get`, `requests.request` and `requests.post`.
  Their outcome is an input to the model: a failure, or a decoded answer.
- JSON decoding and encoding are not modelled.
  A non-string or null value under a key the code reads is not modelled either: an alert field is either missing or present with the type the code uses: text, or an integer for the line and column fields.
- Shape errors inside fetched issues are not modelled, because issues are taken as well shaped.
  Examples are a missing `"fields"` key or a null `description`.
  Likewise, a missing `"issues"` key is not modelled.
- Jira's JQL filter (`description ~ "url"`) is idealised in the live search script as the same substring test the local scan applies.
  Jira's real text search is looser, and the scripted canned answer covers any other result.
- Environment reads are not modelled. The repository owner and name are a `Config` value.
  A variable that is unset would print as "None" in Python; that is not modelled.
- The `JIRA(...)` client, `print` logging, the "Key Err" message, the commented-out `create_issue` path and `main.py` are all left out.
  The catch-all in `main.py` at lines 24-25 is where an aborting error lands; the model returns that error as the run's result.
- Writing `alerts.json` after filtering is file output, and is left out.
- Timestamps.ParseIso: accepts only the canonical 20-character form.
  `strptime` also accepts lower-case `t` and `z`, fields with fewer digits, and space-padded numbers. The model treats these as malformed.
- Timestamps.FormatLong: uses English month names only, and always pads the year to four digits.
  Locale-dependent `%B` and platform-dependent `%Y` for years below 1000 are not modelled.
- Sync.SyncKeepsLinksUnique: uniqueness is proved for the exact link in the fifth paragraph, not for "at most one issue containing the URL".
  The stronger form fails when one alert URL is contained in another, as `Sync.PrefixUrlOnTwoIssues` shows for ".../alerts/1" and ".../alerts/10".
- Concurrent runs are not modelled, because the code has no concurrency.
- Each alert's search and create answers are fixed in advance by the script.
  A Jira that changes between requests for other reasons is not modelled.
