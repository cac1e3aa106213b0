/** The taint-without-toleration problem: a worker node is tainted, the
    frontend deployment gets a toleration that does not match the taint, and
    its pods are deleted so that they cannot be rescheduled on that node. */
module TaintNoToleration {
  import opened Common
  import opened Strings

  const FaultyService: string := "frontend"

  /** A node that is neither a control-plane nor a master node, by substring. */
  predicate IsWorker(name: string) {
    !Contains(name, "control-plane") && !Contains(name, "master")
  }

  /** The position of the first worker node, or `|names|`. */
  function FirstWorker(names: seq<string>): (i: nat)
    ensures i <= |names|
    ensures forall j :: 0 <= j < i ==> !IsWorker(names[j])
    ensures i < |names| ==> IsWorker(names[i])
  {
    if |names| == 0 || IsWorker(names[0]) then 0 else 1 + FirstWorker(names[1..])
  }

  /** `_pick_worker_node` over the listed node names: the first worker node,
      else the first node; an empty listing raises IndexError. */
  method PickWorkerNode(names: seq<string>) returns (r: Result<string, string>)
    ensures r.Ok? <==> |names| > 0
    ensures r.Ok? && FirstWorker(names) < |names| ==> r.value == names[FirstWorker(names)]
    ensures r.Ok? && FirstWorker(names) == |names| ==> r.value == names[0]
    ensures r.Ok? ==> (IsWorker(r.value) <==> exists j :: 0 <= j < |names| && IsWorker(names[j]))
  {
    for i := 0 to |names|
      invariant forall j :: 0 <= j < i ==> !IsWorker(names[j])
    {
      if IsWorker(names[i]) {
        assert FirstWorker(names) == i by { FirstWorkerAt(names, i); }
        return Ok(names[i]);
      }
    }
    if |names| == 0 {
      return Err("IndexError: list index out of range");
    }
    FirstWorkerAt(names, |names|);
    r := Ok(names[0]);
  }

  /** The first worker is the one the scan stops at. */
  lemma FirstWorkerAt(names: seq<string>, i: nat)
    requires i <= |names|
    requires forall j :: 0 <= j < i ==> !IsWorker(names[j])
    requires i < |names| ==> IsWorker(names[i])
    ensures FirstWorker(names) == i
  {
  }

  /** The JSON patch that adds a toleration for an unrelated key. */
  const TolerationPatch: string :=
    "[{\"op\": \"add\", \"path\": \"/spec/template/spec/tolerations\",\n"
    + "                     \"value\": [{\"key\": \"dummy-key\", \"operator\": \"Exists\", \"effect\": \"NoSchedule\"}]}]"

  /** What the problem asks of the cluster. */
  datatype Action =
    | Exec(command: string)
    | RecoverToleration(services: seq<string>, nodeName: string)

  /** The three commands of `inject_fault`, in order: taint, patch, delete. */
  function InjectCommands(node: string, service: string, namespace: string): (cmds: seq<Action>)
    ensures |cmds| == 3
    ensures cmds[0] == Exec("kubectl taint node " + node + " sre-fault=blocked:NoSchedule --overwrite")
    ensures cmds[1] == Exec("kubectl patch deployment " + service + " -n " + namespace + " --type='json' -p='"
                            + TolerationPatch + "'")
    ensures cmds[2] == Exec("kubectl delete pod -l app=" + service + " -n " + namespace)
  {
    [Exec("kubectl taint node " + node + " sre-fault=blocked:NoSchedule --overwrite"),
     Exec("kubectl patch deployment " + service + " -n " + namespace + " --type='json' -p='" + TolerationPatch + "'"),
     Exec("kubectl delete pod -l app=" + service + " -n " + namespace)]
  }

  class TaintNoTolerationProblem {
    const namespace: string
    /** The node `_pick_worker_node` chose when the problem was created. */
    const faultyNode: string
    /** What the problem has asked of the cluster, in order. */
    var actions: seq<Action>

    constructor(namespace: string, faultyNode: string)
      ensures this.namespace == namespace && this.faultyNode == faultyNode && actions == []
    {
      this.namespace := namespace;
      this.faultyNode := faultyNode;
      actions := [];
    }

    /** `inject_fault`: taint the node, patch the deployment, delete its pods. */
    method InjectFault()
      modifies this
      ensures actions == old(actions) + InjectCommands(faultyNode, FaultyService, namespace)
    {
      actions := actions + [Exec("kubectl taint node " + faultyNode + " sre-fault=blocked:NoSchedule --overwrite")];
      actions := actions + [Exec("kubectl patch deployment " + FaultyService + " -n " + namespace
                                 + " --type='json' -p='" + TolerationPatch + "'")];
      actions := actions + [Exec("kubectl delete pod -l app=" + FaultyService + " -n " + namespace)];
    }

    /** `recover_fault`: hand the service and the node to the virtualization injector. */
    method RecoverFault()
      modifies this
      ensures actions == old(actions) + [RecoverToleration([FaultyService], faultyNode)]
    {
      actions := actions + [RecoverToleration([FaultyService], faultyNode)];
    }
  }
}
