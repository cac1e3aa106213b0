/** The hardware fault injector: for each workload pod it finds the node, the
    container and its host PID, and asks the Khaos DaemonSet pod on that node
    to inject a syscall-level fault; recovery runs once per node touched. */
module HardwareFaultInjector {
  import opened Common
  import opened Strings

  type Command = seq<string>

  /** One item of the Khaos DaemonSet's pod listing. */
  datatype KhaosItem = KhaosItem(name: string, nodeName: Option<string>, phase: Option<string>)

  /** What the injector sees of the cluster.
      `jsonpath(ns, pod, path)`: the raw output of the `kubectl get pod -o jsonpath` query;
      `khaosPods`: the parsed DaemonSet listing, or the error of listing or parsing it;
      `jqPid`, `sedPid`: what `check_output` returns for the two PID queries run in the
      given Khaos pod for the given container, or the CalledProcessError they raise;
      `run`: whether `subprocess.run(cmd, check=True)` succeeds. */
  datatype Cluster = Cluster(
    jsonpath: (string, string, string) -> Option<string>,
    khaosPods: Result<seq<KhaosItem>, string>,
    jqPid: (string, string) -> Result<string, string>,
    sedPid: (string, string) -> Result<string, string>,
    run: Command -> bool)

  /** The injector's configuration; the defaults are "khaos" and "app=khaos". */
  datatype Injector = Injector(khaosNamespace: string, khaosLabel: string)

  const DefaultInjector: Injector := Injector("khaos", "app=khaos")

  /** `_split_ns_pod`: split at the first "/", or the default namespace. */
  function SplitNsPod(ref: string): (r: (string, string))
    ensures '/' in ref ==> r.0 + "/" + r.1 == ref && '/' !in r.0
    ensures '/' !in ref ==> r == ("default", ref)
  {
    if '/' in ref then
      var i := IndexOf(ref, '/');
      assert ref == ref[..i] + "/" + ref[i + 1..];
      (ref[..i], ref[i + 1..])
    else
      ("default", ref)
  }

  /** A namespace without "/" and any pod name, joined by "/", split back apart. */
  lemma SplitNsPodJoined(ns: string, pod: string)
    requires '/' !in ns
    ensures SplitNsPod(ns + "/" + pod) == (ns, pod)
  {
    var ref := ns + "/" + pod;
    assert ref[|ns|] == '/';
    assert ref[..|ns|] == ns;
    assert IndexOf(ref, '/') == |ns|;
    assert ref[|ns| + 1..] == pod;
  }

  /** `_jsonpath`: the stripped output, or "" when there is none. */
  function JsonPath(c: Cluster, ns: string, pod: string, path: string): string {
    Strip(c.jsonpath(ns, pod, path).GetOr(""))
  }

  /** `_get_pod_node`: the pod's node name; an empty one raises. */
  function PodNode(c: Cluster, ns: string, pod: string): (r: Result<string, string>)
    ensures r.Ok? <==> JsonPath(c, ns, pod, "{.spec.nodeName}") != ""
    ensures r.Ok? ==> r.value == JsonPath(c, ns, pod, "{.spec.nodeName}")
  {
    var node := JsonPath(c, ns, pod, "{.spec.nodeName}");
    if node == "" then Err("RuntimeError: Pod " + ns + "/" + pod + " has no nodeName") else Ok(node)
  }

  /** Everything after the first "://", or the whole id when there is none. */
  function StripScheme(cid: string): (r: string)
    ensures FindFirst(cid, "://").None? ==> r == cid
    ensures FindFirst(cid, "://").Some? ==> cid == cid[..FindFirst(cid, "://").value] + "://" + r
  {
    match FindFirst(cid, "://")
    case None => cid
    case Some(i) =>
      assert cid[i..i + 3] == "://";
      assert cid == cid[..i] + cid[i..i + 3] + cid[i + 3..];
      cid[i + 3..]
  }

  /** A runtime prefix such as "containerd" or "docker" is removed from the id. */
  lemma StripSchemeOf(runtime: string, id: string)
    requires ':' !in runtime
    ensures StripScheme(runtime + "://" + id) == id
  {
    var cid := runtime + "://" + id;
    assert OccursAt(cid, "://", |runtime|);
    forall j | 0 <= j < |runtime|
      ensures !OccursAt(cid, "://", j)
    {
      assert cid[j] == runtime[j];
    }
    assert FindFirst(cid, "://") == Some(|runtime|);
    assert cid[|runtime| + 3..] == id;
  }

  /** `_get_container_id`: the running container's id, else the init
      container's; raises when both are empty; the runtime prefix is removed. */
  function ContainerId(c: Cluster, ns: string, pod: string): (r: Result<string, string>)
    ensures var main := JsonPath(c, ns, pod, "{.status.containerStatuses[0].containerID}");
      var init := JsonPath(c, ns, pod, "{.status.initContainerStatuses[0].containerID}");
      && (r.Err? <==> main == "" && init == "")
      && (main != "" ==> r == Ok(StripScheme(main)))
      && (main == "" && init != "" ==> r == Ok(StripScheme(init)))
  {
    var main := JsonPath(c, ns, pod, "{.status.containerStatuses[0].containerID}");
    var cid := if main != "" then main else JsonPath(c, ns, pod, "{.status.initContainerStatuses[0].containerID}");
    if cid == "" then Err("RuntimeError: Pod " + ns + "/" + pod + " has no containerID yet (not running?)")
    else Ok(StripScheme(cid))
  }

  /** A Khaos pod that runs on `node`. */
  predicate RunsOn(item: KhaosItem, node: string) {
    item.nodeName == Some(node) && item.phase == Some("Running")
  }

  /** The position of the first item that runs on `node`, or `|items|`. */
  function FirstOnNode(items: seq<KhaosItem>, node: string): (i: nat)
    ensures i <= |items|
    ensures forall j :: 0 <= j < i ==> !RunsOn(items[j], node)
    ensures i < |items| ==> RunsOn(items[i], node)
  {
    if |items| == 0 || RunsOn(items[0], node) then 0 else 1 + FirstOnNode(items[1..], node)
  }

  /** The specification of `_get_khaos_pod_on_node`. */
  function KhaosPodFor(c: Cluster, node: string): Result<string, string> {
    if c.khaosPods.Err? then Err(c.khaosPods.error)
    else
      var items := c.khaosPods.value;
      var i := FirstOnNode(items, node);
      if i < |items| then Ok(items[i].name) else Err("RuntimeError: No running Khaos DS pod found on node " + node)
  }

  /** `_get_khaos_pod_on_node`: the first listed Khaos pod running on the node. */
  method KhaosPodOnNode(c: Cluster, node: string) returns (r: Result<string, string>)
    ensures r == KhaosPodFor(c, node)
    ensures r.Ok? ==> exists i :: 0 <= i < |c.khaosPods.value| && RunsOn(c.khaosPods.value[i], node)
                                  && r.value == c.khaosPods.value[i].name
  {
    if c.khaosPods.Err? {
      return Err(c.khaosPods.error);
    }
    var items := c.khaosPods.value;
    var i := 0;
    while i < |items|
      invariant 0 <= i <= |items|
      invariant forall j :: 0 <= j < i ==> !RunsOn(items[j], node)
    {
      if RunsOn(items[i], node) {
        assert FirstOnNode(items, node) == i;
        return Ok(items[i].name);
      }
      i := i + 1;
    }
    r := Err("RuntimeError: No running Khaos DS pod found on node " + node);
  }

  /** The PID text a query produced, if it is all digits. */
  function DigitsOf(out: Result<string, string>): Option<nat> {
    if out.Ok? && IsDigits(Strip(out.value)) then Some(DigitsValue(Strip(out.value))) else None
  }

  /** `_get_host_pid_on_node`: the jq query's PID when it succeeds with digits,
      otherwise the sed query's, which must succeed with digits. */
  function HostPid(c: Cluster, node: string, containerId: string): (r: Result<nat, string>)
    ensures r.Ok? ==> KhaosPodFor(c, node).Ok?
    ensures r.Ok? ==> var pod := KhaosPodFor(c, node).value;
      || DigitsOf(c.jqPid(pod, containerId)) == Some(r.value)
      || (DigitsOf(c.jqPid(pod, containerId)).None? && DigitsOf(c.sedPid(pod, containerId)) == Some(r.value))
    ensures KhaosPodFor(c, node).Ok? && DigitsOf(c.jqPid(KhaosPodFor(c, node).value, containerId)).Some? ==>
              r == Ok(DigitsOf(c.jqPid(KhaosPodFor(c, node).value, containerId)).value)
    ensures KhaosPodFor(c, node).Err? ==> r == Err(KhaosPodFor(c, node).error)
    ensures KhaosPodFor(c, node).Ok? ==> var pod := KhaosPodFor(c, node).value;
      DigitsOf(c.jqPid(pod, containerId)).None? ==>
        && (DigitsOf(c.sedPid(pod, containerId)).Some? ==> r == Ok(DigitsOf(c.sedPid(pod, containerId)).value))
        && (DigitsOf(c.sedPid(pod, containerId)).None? ==> r.Err?)
        && (c.sedPid(pod, containerId).Err? ==> r == Err(c.sedPid(pod, containerId).error))
  {
    match KhaosPodFor(c, node)
    case Err(e) => Err(e)
    case Ok(pod) =>
      match DigitsOf(c.jqPid(pod, containerId))
      case Some(pid) => Ok(pid)
      case None =>
        var sed := c.sedPid(pod, containerId);
        if sed.Err? then Err(sed.error)
        else if !IsDigits(Strip(sed.value)) then
          Err("RuntimeError: Failed to resolve host PID for container " + containerId + " on node " + node
              + ": '" + Strip(sed.value) + "'")
        else Ok(DigitsValue(Strip(sed.value)))
  }

  /** The accepted PID text is all digits, and the PID is the number it spells. */
  lemma HostPidFromDigits(c: Cluster, node: string, containerId: string)
    requires HostPid(c, node, containerId).Ok?
    ensures exists out :: (out == c.jqPid(KhaosPodFor(c, node).value, containerId)
                           || out == c.sedPid(KhaosPodFor(c, node).value, containerId))
                          && out.Ok? && IsDigits(Strip(out.value))
                          && DigitsValue(Strip(out.value)) == HostPid(c, node, containerId).value
  {
    var pod := KhaosPodFor(c, node).value;
    if DigitsOf(c.jqPid(pod, containerId)).Some? {
      var out := c.jqPid(pod, containerId);
      assert out.Ok? && IsDigits(Strip(out.value));
    } else {
      var out := c.sedPid(pod, containerId);
      assert out.Ok? && IsDigits(Strip(out.value));
    }
  }

  /** The Khaos invocation that injects `faultType` into `pid`. */
  function FaultCommand(inj: Injector, khaosPod: string, faultType: string, pid: nat): Command {
    ["kubectl", "-n", inj.khaosNamespace, "exec", khaosPod, "--", "/khaos/khaos", faultType, IntToString(pid)]
  }

  /** The Khaos invocation that recovers `faultType` on the node of `khaosPod`. */
  function RecoverCommand(inj: Injector, khaosPod: string, faultType: string): Command {
    ["kubectl", "-n", inj.khaosNamespace, "exec", khaosPod, "--", "/khaos/khaos", "--recover", faultType]
  }

  /** Everything `inject` does for one pod reference before running the
      Khaos command: the command it runs, or the exception a lookup raises. */
  function PlanFault(inj: Injector, c: Cluster, ref: string, faultType: string): Result<Command, string> {
    var (ns, pod) := SplitNsPod(ref);
    match PodNode(c, ns, pod)
    case Err(e) => Err(e)
    case Ok(node) =>
      match ContainerId(c, ns, pod)
      case Err(e) => Err(e)
      case Ok(cid) =>
        match HostPid(c, node, cid)
        case Err(e) => Err(e)
        case Ok(pid) =>
          match KhaosPodFor(c, node)
          case Err(e) => Err(e)
          case Ok(khaos) => Ok(FaultCommand(inj, khaos, faultType, pid))
  }

  /** The commands a series of steps ran and the exception that stopped it, if any. */
  datatype Outcome = Outcome(issued: seq<Command>, error: Option<string>)

  const ExecFailed: string := "CalledProcessError: Khaos command failed"

  /** For each reference in order: plan its command, then run it; the first
      planning error or failed command stops the series. */
  function RunPlanned(plan: string -> Result<Command, string>, run: Command -> bool, refs: seq<string>): Outcome
    decreases |refs|
  {
    if |refs| == 0 then Outcome([], None)
    else
      match plan(refs[0])
      case Err(e) => Outcome([], Some(e))
      case Ok(cmd) =>
        if !run(cmd) then Outcome([cmd], Some(ExecFailed))
        else
          var rest := RunPlanned(plan, run, refs[1..]);
          Outcome([cmd] + rest.issued, rest.error)
  }

  /** A series that ends without error ran exactly the planned command of each reference, in order. */
  lemma {:induction false} RunPlannedOnePerRef(plan: string -> Result<Command, string>, run: Command -> bool,
                                               refs: seq<string>)
    requires RunPlanned(plan, run, refs).error.None?
    ensures |RunPlanned(plan, run, refs).issued| == |refs|
    ensures forall k :: 0 <= k < |refs| ==> plan(refs[k]) == Ok(RunPlanned(plan, run, refs).issued[k])
    decreases |refs|
  {
    if |refs| > 0 {
      RunPlannedOnePerRef(plan, run, refs[1..]);
      var out := RunPlanned(plan, run, refs);
      var rest := RunPlanned(plan, run, refs[1..]);
      forall k | 0 <= k < |refs|
        ensures plan(refs[k]) == Ok(out.issued[k])
      {
        if k > 0 {
          assert refs[k] == refs[1..][k - 1];
          assert out.issued[k] == rest.issued[k - 1];
        }
      }
    }
  }

  /** The loop of `inject`, over any planner. */
  method RunEachPlanned(plan: string -> Result<Command, string>, run: Command -> bool, refs: seq<string>)
    returns (issued: seq<Command>, error: Option<string>)
    ensures Outcome(issued, error) == RunPlanned(plan, run, refs)
  {
    issued := [];
    var i := 0;
    while i < |refs|
      invariant 0 <= i <= |refs|
      invariant RunPlanned(plan, run, refs)
        == Outcome(issued + RunPlanned(plan, run, refs[i..]).issued, RunPlanned(plan, run, refs[i..]).error)
    {
      assert refs[i..][1..] == refs[i + 1..];
      var planned := plan(refs[i]);
      if planned.Err? {
        return issued, Some(planned.error);
      }
      issued := issued + [planned.value];
      if !run(planned.value) {
        return issued, Some(ExecFailed);
      }
      i := i + 1;
    }
    error := None;
  }

  /** The planner of `inject`. */
  function FaultPlanner(inj: Injector, c: Cluster, faultType: string): string -> Result<Command, string> {
    ref => PlanFault(inj, c, ref, faultType)
  }

  /** The commands `inject` runs for `refs`, in order, up to the first failure. */
  function InjectSpec(inj: Injector, c: Cluster, refs: seq<string>, faultType: string): Outcome {
    RunPlanned(FaultPlanner(inj, c, faultType), c.run, refs)
  }

  /** A successful `inject` runs exactly one Khaos fault command per pod reference, in list order. */
  lemma InjectOnePerRef(inj: Injector, c: Cluster, refs: seq<string>, faultType: string)
    requires InjectSpec(inj, c, refs, faultType).error.None?
    ensures |InjectSpec(inj, c, refs, faultType).issued| == |refs|
    ensures forall k :: 0 <= k < |refs| ==> PlanFault(inj, c, refs[k], faultType) == Ok(InjectSpec(inj, c, refs, faultType).issued[k])
  {
    RunPlannedOnePerRef(FaultPlanner(inj, c, faultType), c.run, refs);
  }

  /** `inject`: one Khaos fault per pod reference; the first failure raises. */
  method Inject(inj: Injector, c: Cluster, refs: seq<string>, faultType: string)
    returns (issued: seq<Command>, error: Option<string>)
    ensures Outcome(issued, error) == InjectSpec(inj, c, refs, faultType)
  {
    issued, error := RunEachPlanned(FaultPlanner(inj, c, faultType), c.run, refs);
  }

  /** For each reference in order: look up its node and, unless the node is
      in `touched`, plan and run the node's command; stop at the first failure. */
  function RunPerNode(nodeOf: string -> Result<string, string>, commandOn: string -> Result<Command, string>,
                      run: Command -> bool, refs: seq<string>, touched: set<string>): Outcome
    decreases |refs|
  {
    if |refs| == 0 then Outcome([], None)
    else
      match nodeOf(refs[0])
      case Err(e) => Outcome([], Some(e))
      case Ok(node) =>
        if node in touched then RunPerNode(nodeOf, commandOn, run, refs[1..], touched)
        else
          match commandOn(node)
          case Err(e) => Outcome([], Some(e))
          case Ok(cmd) =>
            if !run(cmd) then Outcome([cmd], Some(ExecFailed))
            else
              var rest := RunPerNode(nodeOf, commandOn, run, refs[1..], touched + {node});
              Outcome([cmd] + rest.issued, rest.error)
  }

  /** The loop of `recover`, with its `touched` set, over any lookups. */
  method RunOncePerNode(nodeOf: string -> Result<string, string>, commandOn: string -> Result<Command, string>,
                        run: Command -> bool, refs: seq<string>)
    returns (issued: seq<Command>, error: Option<string>)
    ensures Outcome(issued, error) == RunPerNode(nodeOf, commandOn, run, refs, {})
  {
    issued := [];
    var touched: set<string> := {};
    var i := 0;
    while i < |refs|
      invariant 0 <= i <= |refs|
      invariant RunPerNode(nodeOf, commandOn, run, refs, {})
        == Outcome(issued + RunPerNode(nodeOf, commandOn, run, refs[i..], touched).issued,
                   RunPerNode(nodeOf, commandOn, run, refs[i..], touched).error)
    {
      assert refs[i..][1..] == refs[i + 1..];
      var node := nodeOf(refs[i]);
      if node.Err? {
        return issued, Some(node.error);
      }
      if node.value !in touched {
        var cmd := commandOn(node.value);
        if cmd.Err? {
          return issued, Some(cmd.error);
        }
        issued := issued + [cmd.value];
        if !run(cmd.value) {
          return issued, Some(ExecFailed);
        }
        touched := touched + {node.value};
      }
      i := i + 1;
    }
    error := None;
  }

  /** The distinct elements of `xs` not in `seen`, in first-occurrence order. */
  function Dedupe(xs: seq<string>, seen: set<string>): seq<string>
    decreases |xs|
  {
    if |xs| == 0 then []
    else if xs[0] in seen then Dedupe(xs[1..], seen)
    else [xs[0]] + Dedupe(xs[1..], seen + {xs[0]})
  }

  /** `Dedupe` keeps each new element exactly once: no repeats, nothing from
      `seen`, and every element of `xs` outside `seen` is kept. */
  lemma {:induction false} DedupeDistinct(xs: seq<string>, seen: set<string>)
    ensures forall i, j :: 0 <= i < j < |Dedupe(xs, seen)| ==> Dedupe(xs, seen)[i] != Dedupe(xs, seen)[j]
    ensures forall x :: x in Dedupe(xs, seen) <==> x in xs && x !in seen
    decreases |xs|
  {
    if |xs| > 0 {
      if xs[0] in seen {
        DedupeDistinct(xs[1..], seen);
      } else {
        DedupeDistinct(xs[1..], seen + {xs[0]});
        var rest := Dedupe(xs[1..], seen + {xs[0]});
        var d := Dedupe(xs, seen);
        assert d == [xs[0]] + rest;
        forall i, j | 0 <= i < j < |d| ensures d[i] != d[j] {
          if i == 0 {
            assert d[j] == rest[j - 1];
            assert d[j] in rest;
          } else {
            assert d[i] == rest[i - 1] && d[j] == rest[j - 1];
          }
        }
      }
    }
  }

  /** The nodes of the references, when every lookup succeeds. */
  function NodesOf(nodeOf: string -> Result<string, string>, refs: seq<string>): (nodes: seq<string>)
    requires forall k :: 0 <= k < |refs| ==> nodeOf(refs[k]).Ok?
    ensures |nodes| == |refs|
    ensures forall k :: 0 <= k < |refs| ==> nodes[k] == nodeOf(refs[k]).value
  {
    seq(|refs|, k requires 0 <= k < |refs| => nodeOf(refs[k]).value)
  }

  /** When every lookup and command succeeds, the series runs one command per
      distinct node outside `touched`, in the order the nodes first appear. */
  lemma {:induction false} RunPerNodeDistinct(nodeOf: string -> Result<string, string>,
                                              commandOn: string -> Result<Command, string>,
                                              run: Command -> bool, refs: seq<string>, touched: set<string>)
    requires forall k :: 0 <= k < |refs| ==> nodeOf(refs[k]).Ok?
    requires forall k :: 0 <= k < |refs| ==> commandOn(nodeOf(refs[k]).value).Ok?
    requires forall k :: 0 <= k < |refs| ==> run(commandOn(nodeOf(refs[k]).value).value)
    ensures RunPerNode(nodeOf, commandOn, run, refs, touched).error.None?
    ensures |RunPerNode(nodeOf, commandOn, run, refs, touched).issued| == |Dedupe(NodesOf(nodeOf, refs), touched)|
    ensures forall k :: 0 <= k < |Dedupe(NodesOf(nodeOf, refs), touched)| ==>
              Ok(RunPerNode(nodeOf, commandOn, run, refs, touched).issued[k])
              == commandOn(Dedupe(NodesOf(nodeOf, refs), touched)[k])
    decreases |refs|
  {
    if |refs| > 0 {
      var node := nodeOf(refs[0]).value;
      var tail := refs[1..];
      assert forall k :: 0 <= k < |tail| ==> tail[k] == refs[k + 1];
      assert NodesOf(nodeOf, refs) == [node] + NodesOf(nodeOf, tail);
      if node in touched {
        RunPerNodeDistinct(nodeOf, commandOn, run, tail, touched);
      } else {
        var t' := touched + {node};
        RunPerNodeDistinct(nodeOf, commandOn, run, tail, t');
        var outTail := RunPerNode(nodeOf, commandOn, run, tail, t');
        var nodesTail := Dedupe(NodesOf(nodeOf, tail), t');
        var out := RunPerNode(nodeOf, commandOn, run, refs, touched);
        var nodes := Dedupe(NodesOf(nodeOf, refs), touched);
        assert nodes == [node] + nodesTail;
        assert out.issued == [commandOn(node).value] + outTail.issued;
        forall k | 0 <= k < |nodes|
          ensures Ok(out.issued[k]) == commandOn(nodes[k])
        {
          if k > 0 {
            assert out.issued[k] == outTail.issued[k - 1] && nodes[k] == nodesTail[k - 1];
          }
        }
      }
    }
  }

  /** The node of one pod reference, as `recover` looks it up. */
  function NodeOf(c: Cluster, ref: string): Result<string, string> {
    var (ns, pod) := SplitNsPod(ref);
    PodNode(c, ns, pod)
  }

  /** The Khaos recovery command for `node`, or the error of finding its Khaos pod. */
  function RecoverCommandOn(inj: Injector, c: Cluster, node: string, faultType: string): Result<Command, string> {
    match KhaosPodFor(c, node)
    case Err(e) => Err(e)
    case Ok(khaos) => Ok(RecoverCommand(inj, khaos, faultType))
  }

  function NodeLookup(c: Cluster): string -> Result<string, string> {
    ref => NodeOf(c, ref)
  }

  function RecoverPlanner(inj: Injector, c: Cluster, faultType: string): string -> Result<Command, string> {
    node => RecoverCommandOn(inj, c, node, faultType)
  }

  /** The commands `recover` runs for `refs`. */
  function RecoverSpec(inj: Injector, c: Cluster, refs: seq<string>, faultType: string): Outcome {
    RunPerNode(NodeLookup(c), RecoverPlanner(inj, c, faultType), c.run, refs, {})
  }

  /** `recover`: one Khaos recovery per node the pods run on, each node once. */
  method Recover(inj: Injector, c: Cluster, refs: seq<string>, faultType: string)
    returns (issued: seq<Command>, error: Option<string>)
    ensures Outcome(issued, error) == RecoverSpec(inj, c, refs, faultType)
  {
    issued, error := RunOncePerNode(NodeLookup(c), RecoverPlanner(inj, c, faultType), c.run, refs);
  }

  /** When every lookup and command succeeds, `recover` runs exactly one
      recovery per distinct node, in the order the nodes first appear. */
  lemma RecoverOncePerNode(inj: Injector, c: Cluster, refs: seq<string>, faultType: string)
    requires forall k :: 0 <= k < |refs| ==> NodeOf(c, refs[k]).Ok?
    requires forall k :: 0 <= k < |refs| ==> RecoverCommandOn(inj, c, NodeOf(c, refs[k]).value, faultType).Ok?
    requires forall k :: 0 <= k < |refs| ==> c.run(RecoverCommandOn(inj, c, NodeOf(c, refs[k]).value, faultType).value)
    ensures RecoverSpec(inj, c, refs, faultType).error.None?
    ensures var nodes := Dedupe(NodesOf(NodeLookup(c), refs), {});
      && |RecoverSpec(inj, c, refs, faultType).issued| == |nodes|
      && (forall i, j :: 0 <= i < j < |nodes| ==> nodes[i] != nodes[j])
      && (forall k :: 0 <= k < |refs| ==> NodeOf(c, refs[k]).value in nodes)
      && forall k :: 0 <= k < |nodes| ==>
           Ok(RecoverSpec(inj, c, refs, faultType).issued[k]) == RecoverCommandOn(inj, c, nodes[k], faultType)
  {
    var nodeOf := NodeLookup(c);
    var commandOn := RecoverPlanner(inj, c, faultType);
    RunPerNodeDistinct(nodeOf, commandOn, c.run, refs, {});
    var all := NodesOf(nodeOf, refs);
    DedupeDistinct(all, {});
    forall k | 0 <= k < |refs| ensures NodeOf(c, refs[k]).value in Dedupe(all, {}) {
      assert all[k] == NodeOf(c, refs[k]).value;
    }
  }
}
