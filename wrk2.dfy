/** The wrk2 workload generator: it creates the payload ConfigMap once and a
    wrk2 Job on every task, waits for the Job to complete, and parses the
    request count and the error marker out of the Job's log. */
module Wrk2Workload {
  import opened Common
  import opened Strings

  /** One entry of a Job's `status.conditions`. */
  datatype JobCondition = JobCondition(kind: string, status: string)

  /** A Job status; `conditions` is None when the attribute is missing or None. */
  datatype JobStatus = JobStatus(conditions: Option<seq<JobCondition>>)

  /** The `Complete`/`True` condition. */
  predicate IsComplete(c: JobCondition) {
    c.kind == "Complete" && c.status == "True"
  }

  /** The job has completed: it has conditions and one of them is `Complete`/`True`. */
  predicate JobCompleted(st: JobStatus) {
    st.conditions.Some? && exists k :: 0 <= k < |st.conditions.value| && IsComplete(st.conditions.value[k])
  }

  /** `is_job_completed`: scan the conditions for a completed one. */
  method IsJobCompleted(st: JobStatus) returns (r: bool)
    ensures r <==> JobCompleted(st)
  {
    if st.conditions.None? {
      return false;
    }
    var conds := st.conditions.value;
    for k := 0 to |conds|
      invariant forall j :: 0 <= j < k ==> !IsComplete(conds[j])
    {
      if IsComplete(conds[k]) {
        return true;
      }
    }
    return false;
  }

  /** A poll that ends the wait: an API error or a completed job. */
  predicate Decides(poll: Result<JobStatus, string>) {
    poll.Err? || JobCompleted(poll.value)
  }

  /** The index of the first poll that ends the wait, or `|polls|`. */
  function FirstDecision(polls: seq<Result<JobStatus, string>>): (n: nat)
    ensures n <= |polls|
    ensures forall j :: 0 <= j < n ==> !Decides(polls[j])
    ensures n < |polls| ==> Decides(polls[n])
  {
    if |polls| == 0 || Decides(polls[0]) then 0 else 1 + FirstDecision(polls[1..])
  }

  /** `wait_until_complete` over the statuses the API returns, one per poll (an
      API exception is an Err): Some(true) at the first completed status,
      Some(false) at the first API error, and None when the polls observed end
      with the job still running (the source keeps polling); `n` is the index of
      the deciding poll. */
  method WaitUntilComplete(polls: seq<Result<JobStatus, string>>) returns (r: Option<bool>, n: nat)
    ensures n == FirstDecision(polls)
    ensures r.None? <==> n == |polls|
    ensures r == Some(true) <==> n < |polls| && polls[n].Ok?
    ensures r == Some(false) <==> n < |polls| && polls[n].Err?
  {
    n := 0;
    while n < |polls|
      invariant n <= |polls|
      invariant forall j :: 0 <= j < n ==> !Decides(polls[j])
    {
      if polls[n].Err? {
        assert FirstDecision(polls) == n by { FirstDecisionAt(polls, n); }
        return Some(false), n;
      }
      var done := IsJobCompleted(polls[n].value);
      if done {
        assert FirstDecision(polls) == n by { FirstDecisionAt(polls, n); }
        return Some(true), n;
      }
      n := n + 1;
    }
    FirstDecisionAt(polls, n);
    r := None;
  }

  /** The first deciding poll is the one the scan stops at. */
  lemma FirstDecisionAt(polls: seq<Result<JobStatus, string>>, n: nat)
    requires n <= |polls|
    requires forall j :: 0 <= j < n ==> !Decides(polls[j])
    requires n < |polls| ==> Decides(polls[n])
    ensures FirstDecision(polls) == n
  {
  }

  /** `get_job_logs`: the log of the first pod of the job; no pod raises. */
  function JobLogs(pods: seq<string>, readLog: string -> Result<string, string>,
                   jobName: string, namespace: string): (r: Result<string, string>)
    ensures |pods| == 0 ==> r.Err?
    ensures |pods| > 0 ==> r == readLog(pods[0])
  {
    if |pods| == 0 then Err("No pods found for job " + jobName + " in namespace " + namespace)
    else readLog(pods[0])
  }

  /** The separator line wrk2 prints above its request summary. */
  const Dashes: string := "-----------------------------------"
  const NonOkMarker: string := "Non-2xx or 3xx responses"

  /** The position of the first non-empty piece, or `|parts|`. */
  function FirstNonEmpty(parts: seq<string>): (j: nat)
    ensures j <= |parts|
    ensures forall k :: 0 <= k < j ==> parts[k] == ""
    ensures j < |parts| ==> parts[j] != ""
  {
    if |parts| == 0 || parts[0] != "" then 0 else 1 + FirstNonEmpty(parts[1..])
  }

  /** What the inner loop makes of a summary line: the first non-empty
      space-separated token, which must be followed by "requests"; Ok(None)
      when the line has no such token. */
  function RequestsToken(line: string): (r: Result<Option<string>, string>)
    ensures r.Ok? && r.value.Some? ==> r.value.value != "" && ' ' !in r.value.value
    ensures r.Err? ==> r.error == "IndexError: list index out of range" || r.error == "AssertionError"
  {
    var parts := Split(line, ' ');
    var j := FirstNonEmpty(parts);
    if j == |parts| then Ok(None)
    else if j + 1 >= |parts| then Err("IndexError: list index out of range")
    else if parts[j + 1] != "requests" then Err("AssertionError")
    else Ok(Some(parts[j]))
  }

  /** The inner `for j, part in enumerate(parts)` loop. */
  method ScanRequestsLine(line: string) returns (r: Result<Option<string>, string>)
    ensures r == RequestsToken(line)
  {
    var parts := Split(line, ' ');
    var j := 0;
    while j < |parts|
      invariant j <= |parts|
      invariant forall k :: 0 <= k < j ==> parts[k] == ""
    {
      if parts[j] != "" {
        assert FirstNonEmpty(parts) == j;
        if j + 1 >= |parts| {
          return Err("IndexError: list index out of range");
        }
        if parts[j + 1] != "requests" {
          return Err("AssertionError");
        }
        return Ok(Some(parts[j]));
      }
      j := j + 1;
    }
    assert FirstNonEmpty(parts) == |parts|;
    r := Ok(None);
  }

  /** Line `i` is a separator whose next line mentions "requests". */
  predicate IsHeader(logs: seq<string>, i: int) {
    0 <= i && i + 1 < |logs| && Contains(logs[i], Dashes) && Contains(logs[i + 1], "requests")
  }

  /** Line `i` makes the parse raise: a separator on the last line (the look-ahead
      is out of range), or a header whose summary line has a bad token. */
  predicate Raises(logs: seq<string>, i: int) {
    0 <= i < |logs| && Contains(logs[i], Dashes)
    && (i + 1 == |logs| || (Contains(logs[i + 1], "requests") && RequestsToken(logs[i + 1]).Err?))
  }

  /** The exception line `i` raises. */
  function RaiseError(logs: seq<string>, i: int): (e: string)
    requires Raises(logs, i)
    ensures e == "IndexError: list index out of range" || e == "AssertionError"
  {
    if i + 1 == |logs| then "IndexError: list index out of range" else RequestsToken(logs[i + 1]).error
  }

  /** The first line at or after `i` that makes the parse raise, or `|logs|`. */
  function FirstRaise(logs: seq<string>, i: nat): (j: nat)
    requires i <= |logs|
    ensures i <= j <= |logs|
    ensures forall k :: i <= k < j ==> !Raises(logs, k)
    ensures j < |logs| ==> Raises(logs, j)
    decreases |logs| - i
  {
    if i == |logs| || Raises(logs, i) then i else FirstRaise(logs, i + 1)
  }

  /** The first raising line is the one no earlier line precedes. */
  lemma FirstRaiseAt(logs: seq<string>, j: nat)
    requires j <= |logs| && (j < |logs| ==> Raises(logs, j))
    requires forall k :: 0 <= k < j ==> !Raises(logs, k)
    ensures FirstRaise(logs, 0) == j
  {
  }

  /** The request-count token line `i` contributes, if any. */
  function TokenAt(logs: seq<string>, i: int): Option<string> {
    if IsHeader(logs, i) && RequestsToken(logs[i + 1]).Ok? then RequestsToken(logs[i + 1]).value else None
  }

  /** The token of the last line before `n` that contributes one: a later match
      overwrites an earlier one. */
  function LastToken(logs: seq<string>, n: nat): Option<string> {
    if n == 0 then None
    else if TokenAt(logs, n - 1).Some? then TokenAt(logs, n - 1)
    else LastToken(logs, n - 1)
  }

  /** The stored token is None exactly when no line before `n` contributes one. */
  lemma {:induction false} LastTokenNone(logs: seq<string>, n: nat)
    ensures LastToken(logs, n).None? <==> forall i :: 0 <= i < n ==> TokenAt(logs, i).None?
  {
    if n > 0 {
      LastTokenNone(logs, n - 1);
    }
  }

  /** A stored token is that of a line after which no line before `n` contributes one. */
  lemma {:induction false} LastTokenIsLast(logs: seq<string>, n: nat)
    ensures LastToken(logs, n).Some? ==>
              exists i :: 0 <= i < n && TokenAt(logs, i) == LastToken(logs, n)
                          && forall j :: i < j < n ==> TokenAt(logs, j).None?
  {
    if n > 0 && TokenAt(logs, n - 1).None? && LastToken(logs, n).Some? {
      LastTokenIsLast(logs, n - 1);
      var i :| 0 <= i < n - 1 && TokenAt(logs, i) == LastToken(logs, n - 1)
               && forall j :: i < j < n - 1 ==> TokenAt(logs, j).None?;
      assert forall j :: i < j < n ==> TokenAt(logs, j).None?;
    }
  }

  /** `int(number)` after the loop: the initial -1 stays, a token that is not an
      integer literal gives 0. */
  function FinalNumber(token: Option<string>): (r: int)
    ensures token.None? ==> r == -1
    ensures token.Some? && ParseInt(token.value).Some? ==> r == ParseInt(token.value).value
    ensures token.Some? && ParseInt(token.value).None? ==> r == 0
  {
    match token
    case None => -1
    case Some(t) => ParseInt(t).GetOr(0)
  }

  /** The parsed summary of a run. */
  datatype Summary = Summary(number: int, ok: bool)

  /** One pass of the outer loop over line `i`: the exception it raises, or
      the token it stores in `number` (None leaves `number` as it was). */
  method ScanLine(logs: seq<string>, i: nat) returns (raised: Option<string>, token: Option<string>)
    requires i < |logs|
    ensures raised.Some? <==> Raises(logs, i)
    ensures raised.Some? ==> raised.value == RaiseError(logs, i)
    ensures raised.None? ==> token == TokenAt(logs, i)
  {
    token := None;
    if Contains(logs[i], Dashes) {
      if i + 1 == |logs| {
        return Some("IndexError: list index out of range"), None;
      }
      if Contains(logs[i + 1], "requests") {
        var t := ScanRequestsLine(logs[i + 1]);
        if t.Err? {
          return Some(t.error), None;
        }
        token := t.value;
      }
    }
    raised := None;
  }

  /** The log-summary parse in `retrievelog`. The IndexError of the look-ahead
      and the AssertionError are not caught by `except ValueError` and escape. */
  method ParseSummary(logs: seq<string>) returns (r: Result<Summary, string>)
    ensures r.Err? <==> exists i :: Raises(logs, i)
    ensures r.Err? ==> r.error == "IndexError: list index out of range" || r.error == "AssertionError"
    ensures r.Err? <==> FirstRaise(logs, 0) < |logs|
    ensures r.Err? ==> r.error == RaiseError(logs, FirstRaise(logs, 0))
    ensures r.Ok? ==> r.value.number == FinalNumber(LastToken(logs, |logs|))
    ensures r.Ok? ==> (r.value.ok <==> forall i :: 0 <= i < |logs| ==> !Contains(logs[i], NonOkMarker))
  {
    var number: Option<string> := None;
    var ok := true;
    var i := 0;
    while i < |logs|
      invariant i <= |logs|
      invariant forall k :: 0 <= k < i ==> !Raises(logs, k)
      invariant number == LastToken(logs, i)
      invariant ok <==> forall k :: 0 <= k < i ==> !Contains(logs[k], NonOkMarker)
    {
      var raised, token := ScanLine(logs, i);
      if raised.Some? {
        FirstRaiseAt(logs, i);
        return Err(raised.value);
      }
      if token.Some? {
        number := token;
      }
      if Contains(logs[i], NonOkMarker) {
        ok := false;
      }
      i := i + 1;
    }
    FirstRaiseAt(logs, |logs|);
    r := Ok(Summary(FinalNumber(number), ok));
  }

  /** What `retrievelog` gives back: a workload entry, the error text it returns
      when the logs cannot be read, an exception, or (when the status polls
      observed end first) nothing yet. */
  datatype Retrieval =
    | Entry(time: int, number: int, log: string, ok: bool)
    | GeneratorError(text: string)
    | Raised(exception: string)
    | StillWaiting

  /** One payload ConfigMap or one wrk2 Job created in the cluster. */
  datatype Created =
    | ConfigMap(name: string, namespace: string, payloadScriptPath: string)
    | Job(jobName: string, namespace: string, payloadScript: string, url: string)

  /** The number of ConfigMaps among the created resources. */
  function ConfigMapCount(cs: seq<Created>): (n: nat)
    ensures n <= |cs|
  {
    if |cs| == 0 then 0 else ConfigMapCount(cs[..|cs| - 1]) + (if cs[|cs| - 1].ConfigMap? then 1 else 0)
  }

  class Wrk2Generator {
    const jobName: string
    const payloadScriptPath: string
    const payloadScriptName: string
    const url: string
    /** `configmap_created`; it is missing (false) until the first task. */
    var configmapCreated: bool
    /** What the generator has created, in order. */
    var created: seq<Created>

    /** At most one ConfigMap, and one exactly when the flag is set. */
    predicate Valid()
      reads this
    {
      ConfigMapCount(created) == if configmapCreated then 1 else 0
    }

    constructor(jobName: string, payloadScriptPath: string, payloadScriptName: string, url: string)
      ensures this.jobName == jobName && this.payloadScriptPath == payloadScriptPath
      ensures this.payloadScriptName == payloadScriptName && this.url == url
      ensures !configmapCreated && created == []
      ensures Valid()
    {
      this.jobName := jobName;
      this.payloadScriptPath := payloadScriptPath;
      this.payloadScriptName := payloadScriptName;
      this.url := url;
      configmapCreated := false;
      created := [];
    }

    /** `create_task`: the ConfigMap on the first call only, a Job on every call. */
    method CreateTask()
      requires Valid()
      modifies this
      ensures Valid()
      ensures configmapCreated
      ensures created == old(created)
                         + (if old(configmapCreated) then [] else [ConfigMap("wrk2-payload-script", "default", payloadScriptPath)])
                         + [Job(jobName, "default", payloadScriptName, url)]
      ensures ConfigMapCount(created) == 1
    {
      if !configmapCreated {
        created := created + [ConfigMap("wrk2-payload-script", "default", payloadScriptPath)];
        configmapCreated := true;
      }
      created := created + [Job(jobName, "default", payloadScriptName, url)];
    }

    /** `retrievelog`: wait for the job, read its log, parse the summary. */
    method RetrieveLog(polls: seq<Result<JobStatus, string>>, pods: seq<string>,
                       readLog: string -> Result<string, string>, now: int) returns (r: Retrieval)
      ensures r == StillWaiting <==> FirstDecision(polls) == |polls|
      ensures r == Raised("RuntimeError: Unable to check job status.")
              <==> FirstDecision(polls) < |polls| && polls[FirstDecision(polls)].Err?
      ensures r.GeneratorError? <==>
                FirstDecision(polls) < |polls| && polls[FirstDecision(polls)].Ok?
                && JobLogs(pods, readLog, jobName, "default").Err?
      ensures r.GeneratorError? ==> r.text == "Workload Generator Error: " + JobLogs(pods, readLog, jobName, "default").error
      ensures r.Entry? ==> JobLogs(pods, readLog, jobName, "default").Ok?
      ensures r.Entry? ==> r.time == now && r.log == JobLogs(pods, readLog, jobName, "default").value
      ensures r.Entry? ==>
                r.number == FinalNumber(LastToken(Split(r.log, '\n'), |Split(r.log, '\n')|))
      ensures r.Entry? ==>
                (r.ok <==> forall i :: 0 <= i < |Split(r.log, '\n')| ==> !Contains(Split(r.log, '\n')[i], NonOkMarker))
      ensures r.Entry? <==>
                FirstDecision(polls) < |polls| && polls[FirstDecision(polls)].Ok?
                && JobLogs(pods, readLog, jobName, "default").Ok?
                && FirstRaise(Split(JobLogs(pods, readLog, jobName, "default").value, '\n'), 0)
                   == |Split(JobLogs(pods, readLog, jobName, "default").value, '\n')|
      ensures FirstDecision(polls) < |polls| && polls[FirstDecision(polls)].Ok?
              && JobLogs(pods, readLog, jobName, "default").Ok? ==>
                var lines := Split(JobLogs(pods, readLog, jobName, "default").value, '\n');
                FirstRaise(lines, 0) < |lines| ==> r == Raised(RaiseError(lines, FirstRaise(lines, 0)))
    {
      var done, n := WaitUntilComplete(polls);
      if done.None? {
        return StillWaiting;
      }
      if done == Some(false) {
        return Raised("RuntimeError: Unable to check job status.");
      }
      var text := JobLogs(pods, readLog, jobName, "default");
      if text.Err? {
        return GeneratorError("Workload Generator Error: " + text.error);
      }
      var logs := Split(text.value, '\n');
      var summary := ParseSummary(logs);
      if summary.Err? {
        return Raised(summary.error);
      }
      JoinSplit(text.value, '\n');
      r := Entry(now, summary.value.number, Join(logs, '\n'), summary.value.ok);
    }
  }
}
