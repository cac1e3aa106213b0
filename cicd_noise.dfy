/** The CI/CD noise generator: on background ticks, at most once per
    interval, it triggers a rolling update of one deployment. */
module CicdNoise {
  import opened Common
  import opened Strings

  /** The generator's configuration entries; a missing entry is None. */
  datatype NoiseConfig = NoiseConfig(interval: Option<int>, deployments: Option<seq<string>>, namespace: Option<string>)

  /** One rolling update: the deployment, its namespace and the time it was triggered. */
  datatype Rollout = Rollout(deployment: string, namespace: string, time: int)

  class CicdNoiseGenerator {
    const interval: int
    const targetDeployments: seq<string>
    const namespace: string
    /** `self.context`, which nothing fills in. */
    const context: map<string, string>
    var lastUpdateTime: int
    /** The rolling updates triggered so far, in order. */
    var rollouts: seq<Rollout>

    /** Consecutive rollouts are at least `interval` apart, the last update
        time is that of the last rollout (0 before the first), and the context
        stays empty. */
    predicate Valid()
      reads this
    {
      && context == map[]
      && (forall i :: 0 < i < |rollouts| ==> rollouts[i].time - rollouts[i - 1].time >= interval)
      && lastUpdateTime == (if |rollouts| == 0 then 0 else rollouts[|rollouts| - 1].time)
    }

    /** `__init__`: interval 60, no configured deployments, namespace "default", an empty context. */
    constructor(config: NoiseConfig)
      ensures interval == config.interval.GetOr(60)
      ensures targetDeployments == config.deployments.GetOr([])
      ensures namespace == config.namespace.GetOr("default")
      ensures context == map[] && lastUpdateTime == 0 && rollouts == []
      ensures Valid()
    {
      interval := config.interval.GetOr(60);
      targetDeployments := config.deployments.GetOr([]);
      namespace := config.namespace.GetOr("default");
      context := map[];
      lastUpdateTime := 0;
      rollouts := [];
    }

    /** The namespace `inject` works in: the context's, which is always empty, else the configured one. */
    function TargetNamespace(): (ns: string)
      reads this
      ensures context == map[] ==> ns == namespace
    {
      if "namespace" in context then context["namespace"] else namespace
    }

    /** The deployments a random target is drawn from: the configured ones, else
        the names the cluster lists; None when there is none to draw from or the
        listing raised. */
    function Candidates(listing: Result<string, string>): (r: Option<seq<string>>)
      reads this
      ensures r.Some? ==> |r.value| > 0
      ensures |targetDeployments| > 0 ==> r == Some(targetDeployments)
    {
      if |targetDeployments| > 0 then Some(targetDeployments)
      else if listing.Ok? && |Words(listing.value)| > 0 then Some(Words(listing.value))
      else None
    }

    /** Whether a tick with this context, at time `now`, gets past both gates. */
    predicate Fires(ctx: map<string, string>, now: int)
      reads this
    {
      (if "trigger" in ctx then ctx["trigger"] else "background") == "background"
      && now - lastUpdateTime >= interval
    }

    /** `inject(context)`. `listing` is the output of the deployment listing (or
        the exception it raised), `pick` the index `random.choice` draws, and
        `rolloutOk` whether the rollout call succeeded. Exceptions inside the
        `try` are logged and swallowed; a None context raises AttributeError. */
    method Inject(ctx: Option<map<string, string>>, now: int, listing: Result<string, string>, pick: nat,
                  rolloutOk: bool) returns (r: Result<(), string>)
      requires Valid()
      modifies this
      ensures Valid()
      ensures r.Err? <==> ctx.None?
      ensures var updated := ctx.Some? && old(Fires(ctx.value, now)) && Candidates(listing).Some? && rolloutOk;
              && lastUpdateTime == (if updated then now else old(lastUpdateTime))
              && rollouts == if updated then
                               old(rollouts) + [Rollout(Candidates(listing).value[pick % |Candidates(listing).value|],
                                                        namespace, now)]
                             else old(rollouts)
    {
      if ctx.None? {
        return Err("AttributeError: 'NoneType' object has no attribute 'get'");
      }
      var trigger := if "trigger" in ctx.value then ctx.value["trigger"] else "background";
      if trigger != "background" {
        return Ok(());
      }
      if now - lastUpdateTime < interval {
        return Ok(());
      }
      var targetNs := TargetNamespace();
      var candidates := Candidates(listing);
      if candidates.None? {
        return Ok(());
      }
      var target := candidates.value[pick % |candidates.value|];
      if !rolloutOk {
        return Ok(());
      }
      rollouts := rollouts + [Rollout(target, targetNs, now)];
      lastUpdateTime := now;
      r := Ok(());
    }
  }

  /** The rate limit: any two rollouts of a generator in a valid state are at
      least `interval` times their distance apart. */
  lemma {:induction false} RolloutsSpaced(g: CicdNoiseGenerator, i: nat, j: nat)
    requires g.Valid() && i <= j < |g.rollouts|
    ensures g.rollouts[j].time - g.rollouts[i].time >= (j - i) * g.interval
    decreases j - i
  {
    if i < j {
      RolloutsSpaced(g, i, j - 1);
      assert g.rollouts[j].time - g.rollouts[j - 1].time >= g.interval;
    }
  }
}
