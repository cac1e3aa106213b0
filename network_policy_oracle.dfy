/** The network-policy detection oracle: it lists a namespace's network
    policies, collects the services that deny-all policies cut off, and
    reports a detection when an expected service is among them. */
module NetworkPolicyDetection {
  import opened Common
  import opened Values

  /** A policy's pod selector; `matchLabels` is None when the field is absent. */
  datatype PodSelector = PodSelector(matchLabels: Option<map<string, string>>)

  /** The part of a policy's spec the oracle reads; a rule list is None when absent. */
  datatype PolicySpec = PolicySpec(
    policyTypes: Option<seq<string>>,
    ingress: Option<seq<Value>>,
    egress: Option<seq<Value>>,
    podSelector: Option<PodSelector>)

  datatype NetworkPolicy = NetworkPolicy(name: string, namespace: string, spec: PolicySpec)

  datatype PolicyDetail = PolicyDetail(name: string, affectedServices: seq<string>, namespace: string)

  /** The report `detect` returns, or the `{'detected': False, 'error': ...}` of a failure. */
  datatype DetectReport =
    | Report(detected: bool, blockedServices: seq<string>, expectedBlockedFound: seq<string>,
             policyDetails: seq<PolicyDetail>)
    | Failure(error: string)

  /** A rule list that is absent or empty. */
  predicate NoRules(rules: Option<seq<Value>>) {
    rules.None? || |rules.value| == 0
  }

  /** `_is_deny_all_policy`. */
  predicate IsDenyAll(spec: PolicySpec) {
    var types := spec.policyTypes.GetOr([]);
    ("Ingress" in types && NoRules(spec.ingress)) || ("Egress" in types && NoRules(spec.egress))
  }

  /** The "app" label of the policy's pod selector, when there is one. */
  function AppLabel(policy: NetworkPolicy): Option<string> {
    var sel := policy.spec.podSelector;
    if sel.Some? && sel.value.matchLabels.Some? && "app" in sel.value.matchLabels.value
    then Some(sel.value.matchLabels.value["app"]) else None
  }

  /** `_get_affected_services`: the policy's "app" label, if its selector has labels. */
  function AffectedServices(policy: NetworkPolicy): (r: seq<string>)
    ensures |r| <= 1
    ensures |r| == 1 <==> AppLabel(policy).Some?
    ensures |r| == 1 ==> r[0] == AppLabel(policy).value
  {
    match policy.spec.podSelector
    case Some(PodSelector(Some(labels))) =>
      if |labels| > 0 && "app" in labels then [labels["app"]] else []
    case _ => []
  }

  /** The services the deny-all policies among `policies` block, in listing order. */
  function Blocked(policies: seq<NetworkPolicy>): seq<string> {
    if |policies| == 0 then []
    else
      var last := policies[|policies| - 1];
      Blocked(policies[..|policies| - 1]) + (if IsDenyAll(last.spec) then AffectedServices(last) else [])
  }

  /** The details of the deny-all policies among `policies`, in listing order. */
  function Details(policies: seq<NetworkPolicy>): seq<PolicyDetail> {
    if |policies| == 0 then []
    else
      var last := policies[|policies| - 1];
      Details(policies[..|policies| - 1])
        + (if IsDenyAll(last.spec) then [PolicyDetail(last.name, AffectedServices(last), last.namespace)] else [])
  }

  /** A service is blocked exactly when some deny-all policy selects it by its "app" label. */
  lemma {:induction false} BlockedIff(policies: seq<NetworkPolicy>, service: string)
    ensures service in Blocked(policies) <==>
      exists i :: 0 <= i < |policies| && IsDenyAll(policies[i].spec) && AffectedServices(policies[i]) == [service]
  {
    if |policies| > 0 {
      var init := policies[..|policies| - 1];
      BlockedIff(init, service);
      var last := policies[|policies| - 1];
      var extra := if IsDenyAll(last.spec) then AffectedServices(last) else [];
      assert Blocked(policies) == Blocked(init) + extra;
      if service in Blocked(init) {
        var i :| 0 <= i < |init| && IsDenyAll(init[i].spec) && AffectedServices(init[i]) == [service];
        assert policies[i] == init[i];
      }
      if exists i :: 0 <= i < |policies| && IsDenyAll(policies[i].spec) && AffectedServices(policies[i]) == [service] {
        var i :| 0 <= i < |policies| && IsDenyAll(policies[i].spec) && AffectedServices(policies[i]) == [service];
        if i < |init| {
          assert init[i] == policies[i];
        }
      }
    }
  }

  /** `[s for s in expected if s in blocked]`. */
  function KeepPresent(expected: seq<string>, blocked: seq<string>): (r: seq<string>)
    ensures |r| <= |expected|
    ensures forall s :: s in r <==> s in expected && s in blocked
  {
    if |expected| == 0 then []
    else (if expected[0] in blocked then [expected[0]] else []) + KeepPresent(expected[1..], blocked)
  }

  /** The oracle with the services it expects to be blocked (`expected or []`). */
  datatype Oracle = Oracle(namespace: string, expected: seq<string>)

  function MakeOracle(namespace: string, expected: Option<seq<string>>): (o: Oracle)
    ensures o.namespace == namespace
    ensures o.expected == (if expected.Some? then expected.value else [])
  {
    Oracle(namespace, expected.GetOr([]))
  }

  /** `detect`, given what listing the namespace's policies returned. */
  method Detect(oracle: Oracle, listing: Result<seq<NetworkPolicy>, string>) returns (r: DetectReport)
    ensures listing.Err? ==> r == Failure(listing.error)
    ensures listing.Ok? ==> r.Report?
    ensures listing.Ok? ==> r.blockedServices == Blocked(listing.value)
    ensures listing.Ok? ==> r.policyDetails == Details(listing.value)
    ensures listing.Ok? ==> r.expectedBlockedFound == KeepPresent(oracle.expected, Blocked(listing.value))
    ensures listing.Ok? ==> (r.detected <==> exists s :: s in oracle.expected && s in Blocked(listing.value))
  {
    if listing.Err? {
      return Failure(listing.error);
    }
    var policies := listing.value;
    var blocked: seq<string> := [];
    var details: seq<PolicyDetail> := [];
    var i := 0;
    while i < |policies|
      invariant 0 <= i <= |policies|
      invariant blocked == Blocked(policies[..i])
      invariant details == Details(policies[..i])
    {
      var policy := policies[i];
      if IsDenyAll(policy.spec) {
        var affected := AffectedServices(policy);
        blocked := blocked + affected;
        details := details + [PolicyDetail(policy.name, affected, policy.namespace)];
      }
      assert policies[..i + 1][..i] == policies[..i];
      i := i + 1;
    }
    assert policies[..i] == policies;
    var found := KeepPresent(oracle.expected, blocked);
    if |found| > 0 {
      assert found[0] in found;
    }
    r := Report(|found| > 0, blocked, found, details);
  }
}
