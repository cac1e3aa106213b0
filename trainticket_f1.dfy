/** The TrainTicket F1 problem: an 8-second delay in the payment drawback of
    order cancellation, switched on and off by a fault flag, with a scan of
    three services' logs for evidence of the fault. */
module TrainTicketF1 {
  import opened Common
  import opened Strings
  import opened Values

  const FaultName: string := "fault-1-async-message-order"
  const FaultyService: string := "ts-cancel-service"

  /** The services whose logs are scanned, in order. */
  const Services: seq<string> := ["ts-cancel-service", "ts-inside-payment-service", "ts-order-service"]

  /** The results dictionary a new problem starts with. */
  const InitialResults: map<string, Value> := map[
    "fault_injected" := VBool(false),
    "fault_recovered" := VBool(false),
    "delay_observed" := VBool(false),
    "logs_captured" := VList([]),
    "timing_analysis" := VDict(map[])]

  /** The analysis dictionary the log scan starts from. */
  const InitialAnalysis: map<string, Value> := map[
    "cancel_service_logs" := VList([]),
    "payment_service_logs" := VList([]),
    "order_service_logs" := VList([]),
    "fault_messages_found" := VBool(false),
    "delay_evidence" := VBool(false)]

  /** `s.replace(a, b)` for single characters. */
  function ReplaceChar(s: string, a: char, b: char): (r: string)
    ensures |r| == |s|
    ensures forall i :: 0 <= i < |s| ==> r[i] == if s[i] == a then b else s[i]
  {
    seq(|s|, i requires 0 <= i < |s| => if s[i] == a then b else s[i])
  }

  /** The analysis key a service's log lines are stored under. */
  function LogKey(service: string): (k: string)
    ensures |k| == |service| + 5
    ensures k[|service|..] == "_logs"
    ensures forall i :: 0 <= i < |service| ==> k[i] == if service[i] == '-' then '_' else service[i]
    ensures '-' !in k
  {
    ReplaceChar(service, '-', '_') + "_logs"
  }

  /** `logs.split('\n')`, as a list value. */
  function Lines(logs: string): Value {
    VList(seq(|Split(logs, '\n')|, i requires 0 <= i < |Split(logs, '\n')| => VStr(Split(logs, '\n')[i])))
  }

  /** A fetch of a service's logs that succeeded with non-empty text. */
  predicate Captured(fetched: Result<string, string>) {
    fetched.Ok? && fetched.value != ""
  }

  predicate FaultMarked(fetched: Result<string, string>) {
    Captured(fetched) && Contains(fetched.value, "F1 FAULT INJECTED")
  }

  predicate DelayMarked(fetched: Result<string, string>) {
    Captured(fetched) && (Contains(fetched.value, "8-second delay") || Contains(fetched.value, "8000"))
  }

  /** What one pass of the scan does to the analysis: a failed fetch (logged and
      ignored) or empty logs change nothing; otherwise the lines are stored and
      the evidence flags are raised. */
  function ScanStep(analysis: map<string, Value>, service: string, fetched: Result<string, string>): map<string, Value> {
    if !Captured(fetched) then analysis
    else
      var a1 := analysis[LogKey(service) := Lines(fetched.value)];
      var a2 := if FaultMarked(fetched) then a1["fault_messages_found" := VBool(true)] else a1;
      if DelayMarked(fetched) then a2["delay_evidence" := VBool(true)] else a2
  }

  /** The analysis after scanning `services` in order. */
  function AnalysisOf(services: seq<string>, fetch: string -> Result<string, string>): map<string, Value>
    decreases |services|
  {
    if |services| == 0 then InitialAnalysis
    else
      var n := |services| - 1;
      ScanStep(AnalysisOf(services[..n], fetch), services[n], fetch(services[n]))
  }

  /** The log keys of `services` are distinct and are not keys the scan starts with. */
  predicate FreshKeys(services: seq<string>) {
    && (forall i, j :: 0 <= i < j < |services| ==> LogKey(services[i]) != LogKey(services[j]))
    && (forall i :: 0 <= i < |services| ==> LogKey(services[i]) !in InitialAnalysis)
  }

  /** The scanned services have fresh log keys: "ts_cancel_service_logs" and
      the others differ from the pre-seeded "cancel_service_logs" and the rest. */
  lemma ServicesHaveFreshKeys()
    ensures FreshKeys(Services)
  {
    forall i | 0 <= i < |Services| ensures LogKey(Services[i]) !in InitialAnalysis {
      var k := LogKey(Services[i]);
      assert |k| == |Services[i]| + 5;
    }
  }

  /** One pass changes only the service's log key and the two flags, and
      raises a flag only when its marker is in the logs. */
  lemma ScanStepEffect(analysis: map<string, Value>, service: string, fetched: Result<string, string>)
    requires "fault_messages_found" in analysis && "delay_evidence" in analysis
    requires LogKey(service) != "fault_messages_found" && LogKey(service) != "delay_evidence"
    ensures ScanStep(analysis, service, fetched).Keys
            == analysis.Keys + (if Captured(fetched) then {LogKey(service)} else {})
    ensures forall key :: (key in analysis && key != LogKey(service) && key != "fault_messages_found"
                           && key != "delay_evidence") ==> ScanStep(analysis, service, fetched)[key] == analysis[key]
    ensures Captured(fetched) ==> ScanStep(analysis, service, fetched)[LogKey(service)] == Lines(fetched.value)
    ensures ScanStep(analysis, service, fetched)["fault_messages_found"]
            == (if FaultMarked(fetched) then VBool(true) else analysis["fault_messages_found"])
    ensures ScanStep(analysis, service, fetched)["delay_evidence"]
            == (if DelayMarked(fetched) then VBool(true) else analysis["delay_evidence"])
  {
  }

  /** The prefix of services with fresh keys has fresh keys, and the last key is not a flag. */
  lemma FreshPrefix(services: seq<string>)
    requires FreshKeys(services) && |services| > 0
    ensures FreshKeys(services[..|services| - 1])
    ensures var s := services[|services| - 1];
      LogKey(s) != "fault_messages_found" && LogKey(s) != "delay_evidence"
    ensures forall k :: 0 <= k < |services| - 1 ==> LogKey(services[k]) != LogKey(services[|services| - 1])
  {
    var n := |services| - 1;
    assert forall k :: 0 <= k < n ==> services[..n][k] == services[k];
    assert LogKey(services[n]) !in InitialAnalysis;
  }

  /** The scan keeps every pre-seeded key, and the pre-seeded log lists unchanged. */
  lemma {:induction false} AnalysisKeepsSeeded(services: seq<string>, fetch: string -> Result<string, string>)
    requires FreshKeys(services)
    ensures var a := AnalysisOf(services, fetch);
      && (forall key :: key in InitialAnalysis ==> key in a)
      && (forall key :: key in InitialAnalysis && key != "fault_messages_found" && key != "delay_evidence" ==>
            a[key] == InitialAnalysis[key])
      && (forall key :: key in a ==> key in InitialAnalysis || exists k :: 0 <= k < |services| && LogKey(services[k]) == key)
    decreases |services|
  {
    if |services| > 0 {
      var n := |services| - 1;
      FreshPrefix(services);
      AnalysisKeepsSeeded(services[..n], fetch);
      ScanStepEffect(AnalysisOf(services[..n], fetch), services[n], fetch(services[n]));
      assert forall k :: 0 <= k < n ==> services[..n][k] == services[k];
    }
  }

  /** Each service's key is present exactly when its logs were fetched and non-empty. */
  lemma {:induction false} AnalysisStoresKeys(services: seq<string>, fetch: string -> Result<string, string>)
    requires FreshKeys(services)
    ensures var a := AnalysisOf(services, fetch);
      forall k :: 0 <= k < |services| ==> (LogKey(services[k]) in a <==> Captured(fetch(services[k])))
    decreases |services|
  {
    if |services| > 0 {
      var n := |services| - 1;
      FreshPrefix(services);
      AnalysisStoresKeys(services[..n], fetch);
      AnalysisKeepsSeeded(services[..n], fetch);
      ScanStepEffect(AnalysisOf(services[..n], fetch), services[n], fetch(services[n]));
      assert forall k :: 0 <= k < n ==> services[..n][k] == services[k];
      assert LogKey(services[n]) !in AnalysisOf(services[..n], fetch) by {
        assert LogKey(services[n]) !in InitialAnalysis;
        assert forall k :: 0 <= k < n ==> LogKey(services[..n][k]) != LogKey(services[n]);
      }
    }
  }

  /** Under the key of each service whose logs were fetched and non-empty are its log lines. */
  lemma {:induction false} AnalysisStoresLogs(services: seq<string>, fetch: string -> Result<string, string>)
    requires FreshKeys(services)
    ensures var a := AnalysisOf(services, fetch);
      forall k :: 0 <= k < |services| && Captured(fetch(services[k])) ==>
        LogKey(services[k]) in a && a[LogKey(services[k])] == Lines(fetch(services[k]).value)
    decreases |services|
  {
    if |services| > 0 {
      var n := |services| - 1;
      var prev := AnalysisOf(services[..n], fetch);
      FreshPrefix(services);
      AnalysisStoresLogs(services[..n], fetch);
      AnalysisHasFlags(services[..n], fetch);
      ScanStepEffect(prev, services[n], fetch(services[n]));
      forall k | 0 <= k < n && Captured(fetch(services[k]))
        ensures LogKey(services[k]) in AnalysisOf(services, fetch)
        ensures AnalysisOf(services, fetch)[LogKey(services[k])] == Lines(fetch(services[k]).value)
      {
        assert services[..n][k] == services[k];
        assert LogKey(services[k]) !in InitialAnalysis;
      }
    }
  }

  /** The two flags are always present: map updates never remove a key. */
  lemma {:induction false} AnalysisHasFlags(services: seq<string>, fetch: string -> Result<string, string>)
    ensures "fault_messages_found" in AnalysisOf(services, fetch) && "delay_evidence" in AnalysisOf(services, fetch)
    decreases |services|
  {
    if |services| > 0 {
      AnalysisHasFlags(services[..|services| - 1], fetch);
    }
  }

  /** `fault_messages_found` says whether some fetched, non-empty log carries "F1 FAULT INJECTED". */
  lemma {:induction false} AnalysisFaultFlag(services: seq<string>, fetch: string -> Result<string, string>)
    requires FreshKeys(services)
    ensures "fault_messages_found" in AnalysisOf(services, fetch)
    ensures AnalysisOf(services, fetch)["fault_messages_found"]
            == VBool(exists k :: 0 <= k < |services| && FaultMarked(fetch(services[k])))
    decreases |services|
  {
    AnalysisHasFlags(services, fetch);
    if |services| > 0 {
      var n := |services| - 1;
      FreshPrefix(services);
      AnalysisFaultFlag(services[..n], fetch);
      AnalysisHasFlags(services[..n], fetch);
      ScanStepEffect(AnalysisOf(services[..n], fetch), services[n], fetch(services[n]));
      assert forall k :: 0 <= k < n ==> services[..n][k] == services[k];
    }
  }

  /** `delay_evidence` says whether some fetched, non-empty log carries "8-second delay" or "8000". */
  lemma {:induction false} AnalysisDelayFlag(services: seq<string>, fetch: string -> Result<string, string>)
    requires FreshKeys(services)
    ensures "delay_evidence" in AnalysisOf(services, fetch)
    ensures AnalysisOf(services, fetch)["delay_evidence"]
            == VBool(exists k :: 0 <= k < |services| && DelayMarked(fetch(services[k])))
    decreases |services|
  {
    AnalysisHasFlags(services, fetch);
    if |services| > 0 {
      var n := |services| - 1;
      FreshPrefix(services);
      AnalysisDelayFlag(services[..n], fetch);
      AnalysisHasFlags(services[..n], fetch);
      ScanStepEffect(AnalysisOf(services[..n], fetch), services[n], fetch(services[n]));
      assert forall k :: 0 <= k < n ==> services[..n][k] == services[k];
    }
  }

  /** The problem's state: the results dictionary it mutates. */
  class TrainTicketF1Problem {
    var results: map<string, Value>

    /** The pre-seeded keys are always present. */
    predicate Seeded()
      reads this
    {
      forall key :: key in InitialResults ==> key in results
    }

    constructor()
      ensures results == InitialResults
      ensures Seeded()
    {
      results := InitialResults;
    }

    /** `inject_fault`: `injected` is what the injector returned, or the
        exception it raised; only a True return sets `fault_injected`. */
    method InjectFault(injected: Result<bool, string>) returns (ok: bool)
      modifies this
      ensures ok <==> injected == Ok(true)
      ensures results == if ok then old(results)["fault_injected" := VBool(true)] else old(results)
    {
      if injected.Err? || !injected.value {
        return false;
      }
      results := results["fault_injected" := VBool(true)];
      return true;
    }

    /** `recover_fault`: the same for `fault_recovered`. */
    method RecoverFault(recovered: Result<bool, string>) returns (ok: bool)
      modifies this
      ensures ok <==> recovered == Ok(true)
      ensures results == if ok then old(results)["fault_recovered" := VBool(true)] else old(results)
    {
      if recovered.Err? || !recovered.value {
        return false;
      }
      results := results["fault_recovered" := VBool(true)];
      return true;
    }

    /** `analyze_logs`. `kubectlOk` is false when creating the kubectl client
        raises, which returns an empty analysis; `fetch(service)` is the log
        text of the service's pod, or the exception looking it up raises. */
    method AnalyzeLogs(kubectlOk: bool, fetch: string -> Result<string, string>) returns (analysis: map<string, Value>)
      modifies this
      ensures !kubectlOk ==> analysis == map[] && results == old(results)
      ensures kubectlOk ==> analysis == AnalysisOf(Services, fetch)
      ensures kubectlOk ==> results == old(results)["logs_captured" := VDict(analysis)]
    {
      if !kubectlOk {
        return map[];
      }
      analysis := InitialAnalysis;
      for i := 0 to |Services|
        invariant analysis == AnalysisOf(Services[..i], fetch)
      {
        assert Services[..i + 1][..i] == Services[..i];
        var fetched := fetch(Services[i]);
        if Captured(fetched) {
          analysis := analysis[LogKey(Services[i]) := Lines(fetched.value)];
          if Contains(fetched.value, "F1 FAULT INJECTED") {
            analysis := analysis["fault_messages_found" := VBool(true)];
          }
          if Contains(fetched.value, "8-second delay") || Contains(fetched.value, "8000") {
            analysis := analysis["delay_evidence" := VBool(true)];
          }
        }
      }
      assert Services[..|Services|] == Services;
      results := results["logs_captured" := VDict(analysis)];
    }

    /** `get_results`: the fault status, the health report and a fresh log
        analysis are added to the results, in that order. */
    method GetResults(status: string, health: Value, kubectlOk: bool, fetch: string -> Result<string, string>)
      returns (r: map<string, Value>)
      requires Seeded()
      modifies this
      ensures Seeded()
      ensures results.Keys == old(results).Keys + {"fault_status", "health_status", "log_analysis"}
      ensures results["fault_status"] == VStr(status) && results["health_status"] == health
      ensures results["log_analysis"] == VDict(if kubectlOk then AnalysisOf(Services, fetch) else map[])
      ensures kubectlOk ==> results["logs_captured"] == VDict(AnalysisOf(Services, fetch))
      ensures !kubectlOk ==> results["logs_captured"] == old(results)["logs_captured"]
      ensures forall k :: k in old(results) && k !in {"fault_status", "health_status", "log_analysis", "logs_captured"} ==>
        results[k] == old(results)[k]
      ensures r == results
    {
      var analysis := AnalyzeLogs(kubectlOk, fetch);
      results := results["fault_status" := VStr(status)]["health_status" := health]["log_analysis" := VDict(analysis)];
      r := results;
    }
  }
}
