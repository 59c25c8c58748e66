/**
 * The alert source: `get_alerts` fetches the repository's code-scanning
 * alerts and keeps the open ones. A failed request gives the empty list; a
 * record without a `"state"` key raises KeyError out of the comprehension.
 */
module GitHandler {
  import opened Wrappers
  import opened Records

  /** The outcome of the HTTP request: a transport or HTTP error, or the decoded records. */
  datatype FetchResponse = FetchFailed | Fetched(records: seq<Alert>)

  predicate IsOpen(a: Alert) {
    a.state == Some("open")
  }

  /** `a` is `b` with some elements left out, the rest in their original order. */
  predicate IsSubsequence(a: seq<Alert>, b: seq<Alert>)
    decreases |b|
  {
    if |a| == 0 then true
    else if |b| == 0 then false
    else (a[0] == b[0] && IsSubsequence(a[1..], b[1..])) || IsSubsequence(a, b[1..])
  }

  /** `[alert for alert in records if alert["state"] == "open"]` over records that all have a state. */
  function KeepOpen(records: seq<Alert>): (r: seq<Alert>)
    ensures forall i :: 0 <= i < |r| ==> IsOpen(r[i])
    ensures forall a :: multiset(r)[a] == if IsOpen(a) then multiset(records)[a] else 0
    ensures IsSubsequence(r, records)
  {
    if |records| == 0 then []
    else
      var rest := KeepOpen(records[1..]);
      assert records == [records[0]] + records[1..];
      if IsOpen(records[0]) then [records[0]] + rest else rest
  }

  /** The comprehension of `get_alerts`: KeyError on the first record without a state. */
  function OpenAlerts(records: seq<Alert>): (r: Result<seq<Alert>, Error>)
    ensures r.Ok? <==> forall i :: 0 <= i < |records| ==> records[i].state.Some?
    ensures r.Err? ==> r.error == MissingField(State)
    ensures r.Ok? ==> r.value == KeepOpen(records)
  {
    if forall i :: 0 <= i < |records| ==> records[i].state.Some? then Ok(KeepOpen(records))
    else Err(MissingField(State))
  }

  /** `get_alerts`: fail-open to the empty list when the request fails. */
  function GetAlerts(response: FetchResponse): (r: Result<seq<Alert>, Error>)
    ensures response.FetchFailed? ==> r == Ok([])
    ensures response.Fetched? ==> r == OpenAlerts(response.records)
  {
    match response
    case FetchFailed => Ok([])
    case Fetched(records) => OpenAlerts(records)
  }

  /** Filtering the open alerts again changes nothing. */
  lemma {:induction false} KeepOpenIdempotent(records: seq<Alert>)
    ensures KeepOpen(KeepOpen(records)) == KeepOpen(records)
  {
    if |records| > 0 {
      KeepOpenIdempotent(records[1..]);
      var rest := KeepOpen(records[1..]);
      if IsOpen(records[0]) {
        assert ([records[0]] + rest)[1..] == rest;
      }
    }
  }

  /** Keeping the open alerts of records that are all open returns them unchanged. */
  lemma {:induction false} KeepOpenOfOpen(records: seq<Alert>)
    requires forall i :: 0 <= i < |records| ==> IsOpen(records[i])
    ensures KeepOpen(records) == records
  {
    if |records| > 0 {
      KeepOpenOfOpen(records[1..]);
      assert records == [records[0]] + records[1..];
    }
  }

  /** Every alert `get_alerts` returns is open, and a second filtering is the identity. */
  lemma GetAlertsResultIsOpen(response: FetchResponse)
    requires GetAlerts(response).Ok?
    ensures forall i :: 0 <= i < |GetAlerts(response).value| ==> IsOpen(GetAlerts(response).value[i])
    ensures OpenAlerts(GetAlerts(response).value) == GetAlerts(response)
  {
    var r := GetAlerts(response).value;
    KeepOpenOfOpen(r);
  }
}
