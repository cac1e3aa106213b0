/** The pod-scheduled mitigation oracle: it polls the faulty service's pods
    every four seconds until they are all Running or ninety seconds pass. */
module PodScheduled {
  import opened Common
  import opened Values
  import opened Strings

  const Timeout: int := 90
  const PollInterval: int := 4

  /** What `list_namespaced_pod(ns, label_selector)` gives at the k-th poll:
      the pods' phases, or the ApiException it raises. */
  type PodListing = (string, string, nat) -> Result<seq<string>, string>

  /** Success needs at least one pod, and every pod Running. */
  predicate AllRunning(phases: seq<string>) {
    |phases| > 0 && forall k :: 0 <= k < |phases| ==> phases[k] == "Running"
  }

  /** The label selector of a service's pods. */
  function Selector(service: string): (sel: string)
    ensures StartsWith(sel, "app=") && sel[4..] == service
  {
    "app=" + service
  }

  /** The k-th poll listed at least one pod and every pod was Running. */
  predicate RunningAt(list: PodListing, namespace: string, selector: string, k: nat) {
    list(namespace, selector, k).Ok? && AllRunning(list(namespace, selector, k).value)
  }

  /** The clock reading at the k-th poll: `lag(0)` after the start, then four
      seconds plus the j-th overrun after each earlier poll j. */
  function PollTime(start: int, lag: nat -> nat, k: nat): (t: int)
    ensures t >= start + PollInterval * k
  {
    if k == 0 then start + lag(0) else PollTime(start, lag, k - 1) + PollInterval + lag(k)
  }

  /** `evaluate`. The clock starts at `start`; the first poll happens
      `lag(0)` later and the k-th sleep of four seconds overruns by `lag(k)`.
      An exception from the listing propagates to the caller. */
  method Evaluate(service: string, namespace: string, start: int, lag: nat -> nat, list: PodListing)
    returns (r: Result<map<string, Value>, string>, polls: nat)
    ensures r.Err? ==> polls > 0 && list(namespace, Selector(service), polls - 1) == Err(r.error)
    ensures r.Ok? ==> r.value.Keys == {"success"} && r.value["success"].VBool?
    ensures r.Ok? ==> (r.value["success"].b <==> polls > 0 && RunningAt(list, namespace, Selector(service), polls - 1))
    ensures forall k :: 0 <= k < polls - 1 ==>
      list(namespace, Selector(service), k).Ok? && !RunningAt(list, namespace, Selector(service), k)
    ensures r.Ok? && !r.value["success"].b ==>
      forall k :: 0 <= k < polls ==> list(namespace, Selector(service), k).Ok? && !RunningAt(list, namespace, Selector(service), k)
    ensures polls <= Timeout / PollInterval + 1
    ensures forall k :: 0 <= k < polls ==> PollTime(start, lag, k) < start + Timeout
    ensures r.Ok? && !r.value["success"].b ==> PollTime(start, lag, polls) >= start + Timeout
  {
    var selector := Selector(service);
    var deadline := start + Timeout;
    var now := start + lag(0);
    polls := 0;
    while now < deadline
      invariant now == PollTime(start, lag, polls)
      invariant forall k :: 0 <= k < polls ==> PollTime(start, lag, k) < deadline
      invariant polls <= Timeout / PollInterval + 1
      invariant forall k :: 0 <= k < polls ==> list(namespace, selector, k).Ok? && !RunningAt(list, namespace, selector, k)
      decreases deadline - now
    {
      var listed := list(namespace, selector, polls);
      polls := polls + 1;
      if listed.Err? {
        return Err(listed.error), polls;
      }
      if AllRunning(listed.value) {
        return Ok(map["success" := VBool(true)]), polls;
      }
      now := now + PollInterval + lag(polls);
    }
    r := Ok(map["success" := VBool(false)]);
  }
}
