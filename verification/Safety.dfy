/**
 * What holds throughout every disciplined run of the controller, its users and the cluster: the guarantees the
 * controller exists for.
 */
module Safety {
  import opened Common
  import opened Naming
  import opened Model
  import opened Effects
  import opened Protocol
  import opened Invariants
  import ConfigMaps
  import Pipeline
  import PolicyController
  import Transitions

  lemma {:induction false} InvariantOnRuns(cfg: Config, trace: seq<Machine>, steps: seq<Step>, i: nat)
    requires IsDisciplinedRun(cfg, trace, steps) && i < |trace|
    ensures Invariant(trace[i])
  {
    hide Invariant;
    hide Apply;
    hide Enabled;
    hide Disciplined;
    if i == 0 {
      InitiallyInvariant();
    } else {
      InvariantOnRuns(cfg, trace, steps, i - 1);
      Transitions.InvariantStep(trace[i - 1], cfg, steps[i - 1]);
    }
  }

  /** Some disciplined run ends in `m`. */
  ghost predicate Reachable(cfg: Config, m: Machine) {
    exists trace, steps :: IsDisciplinedRun(cfg, trace, steps) && trace[|steps|] == m
  }

  lemma ReachableInvariant(cfg: Config, m: Machine)
    requires Reachable(cfg, m)
    ensures Invariant(m)
  {
    hide Invariant;
    var trace, steps :| IsDisciplinedRun(cfg, trace, steps) && trace[|steps|] == m;
    hide IsDisciplinedRun;
    InvariantOnRuns(cfg, trace, steps, |steps|);
  }

  // ------------------------------------------------------------------------- routing

  /** The API server sends requests to the policy. */
  predicate HasRoute(s: Store, k: PolicyKey) {
    UniqueName(k) in s.mutating || UniqueName(k) in s.validating
  }

  /**
   * No premature routing: once a live policy has a webhook, every pod of its server that has read a configuration, of
   * whatever revision, ready or not, knows the policy; and a pod that is ready has read one.
   */
  lemma NoPrematureRouting(cfg: Config, m: Machine, k: PolicyKey, p: nat)
    requires Reachable(cfg, m)
    requires IsLive(m.store.policies, k) && HasRoute(m.store, k)
    requires p in m.store.pods && m.store.pods[p].server == m.store.policies[k].spec.policyServer
    ensures var pod := m.store.pods[p];
            && (pod.loaded.Some? ==> UniqueName(k) in pod.loaded.value.policies)
            && (PolicyController.IsPodReady(pod.conditions) ==> pod.loaded.Some?)
  {
    hide Reachable;
    ReachableInvariant(cfg, m);
    RouteIsKnown(m, k);
    ReadyPodHasLoaded(m, p);
  }

  lemma ReadyPodHasLoaded(m: Machine, p: nat)
    requires Invariant(m) && p in m.store.pods
    ensures PolicyController.IsPodReady(m.store.pods[p].conditions) ==> m.store.pods[p].loaded.Some?
  {
    var s := m.store;
    assert GoodPod(s.pods[p], s.rv, s.configMaps, s.replicaSets);
  }

  lemma RouteIsKnown(m: Machine, k: PolicyKey)
    requires Invariant(m) && IsLive(m.store.policies, k) && HasRoute(m.store, k)
    ensures Configured(UniqueName(k), m.store.policies[k].spec.policyServer, m.store.configMaps)
    ensures KnownToPods(UniqueName(k), m.store.policies[k].spec.policyServer, m.store.pods)
  {
    hide UniqueName;
    hide Configured;
    hide KnownToPods;
    assert Routed(k, m.store.mutating, m.store.validating, m.policyRuns);
  }

  /** Configured while routed: the ConfigMap of the policy's server is there and holds the policy. */
  lemma ConfiguredWhileRouted(cfg: Config, m: Machine, k: PolicyKey)
    requires Reachable(cfg, m)
    requires IsLive(m.store.policies, k) && HasRoute(m.store, k)
    ensures var n := m.store.policies[k].spec.policyServer;
            n in m.store.configMaps && ConfigMaps.Serves(m.store.configMaps[n], UniqueName(k))
  {
    hide Reachable;
    ReachableInvariant(cfg, m);
    RouteIsKnown(m, k);
  }

  /**
   * No orphan webhooks: behind every webhook configuration is a policy of its name and kind, not yet let go by the
   * controller, and the webhooks lead to that policy's path at the Service of that policy's server.
   */
  lemma NoOrphanWebhooks(cfg: Config, m: Machine, kind: WebhookKind, u: string)
    requires Reachable(cfg, m) && u in m.store.Webhooks(kind)
    ensures var s := m.store;
            exists k ::
              && k in s.policies && Kubewarden in s.policies[k].finalizers
              && UniqueName(k) == u && KindOf(s.policies[k].spec.mutating) == kind
              && forall w :: w in s.Webhooks(kind)[u].webhooks ==>
                   && w.path == "/validate/" + u
                   && w.serviceName == NameWithPrefix(s.policies[k].spec.policyServer)
  {
    hide Reachable;
    ReachableInvariant(cfg, m);
    HooksAreBacked(m, kind);
    hide Invariant;
    var k :| Backs(k, u, m.store.Webhooks(kind)[u], kind.Mutating?, m.store.policies);
  }

  lemma HooksAreBacked(m: Machine, kind: WebhookKind)
    requires Invariant(m)
    ensures Backed(m.store.Webhooks(kind), kind.Mutating?, m.store.policies)
  {
    hide Backed;
  }

  // --------------------------------------------------------------------------- trust

  /** The root secret, once stored, is the same for the rest of the run. */
  lemma {:induction false} RootNeverChanges(cfg: Config, trace: seq<Machine>, steps: seq<Step>, i: nat, j: nat)
    requires IsDisciplinedRun(cfg, trace, steps) && i <= j < |trace|
    requires ROOT_SECRET in trace[i].store.secrets
    ensures ROOT_SECRET in trace[j].store.secrets
    ensures trace[j].store.secrets[ROOT_SECRET] == trace[i].store.secrets[ROOT_SECRET]
    decreases j - i
  {
    hide Invariant;
    hide Apply;
    hide Enabled;
    hide Disciplined;
    if i < j {
      RootNeverChanges(cfg, trace, steps, i, j - 1);
      InvariantOnRuns(cfg, trace, steps, j - 1);
      ServersAreHeld(trace[j - 1]);
      hide LiveServersHeld;
      Transitions.StepKeepsRoot(trace[j - 1], cfg, steps[j - 1]);
    }
  }

  lemma ServersAreHeld(m: Machine)
    requires Invariant(m)
    ensures LiveServersHeld(m.store.servers) && "root-ca" !in m.store.servers
  {
  }

  /** Trust chain: every serving secret is signed by the stored root, and every webhook trusts that root. */
  lemma TrustChain(cfg: Config, m: Machine)
    requires Reachable(cfg, m)
    ensures SecretsTrusted(m.store.secrets)
    ensures forall kind: WebhookKind :: HooksTrusted(m.store.Webhooks(kind), m.store.secrets)
  {
    hide Reachable;
    hide SecretsTrusted;
    hide HooksTrusted;
    ReachableInvariant(cfg, m);
    RootIsTrusted(m);
    hide Invariant;
    forall kind: WebhookKind
      ensures HooksTrusted(m.store.Webhooks(kind), m.store.secrets)
    {
      if kind.Mutating? {
      } else {
      }
    }
  }

  lemma RootIsTrusted(m: Machine)
    requires Invariant(m)
    ensures SecretsTrusted(m.store.secrets)
    ensures HooksTrusted(m.store.mutating, m.store.secrets) && HooksTrusted(m.store.validating, m.store.secrets)
  {
    hide HooksTrusted;
    hide SecretsTrusted;
  }

  // ----------------------------------------------------------------- owned resources

  /** Owned resources never outlive their server. */
  lemma OwnedNeverOutlive(cfg: Config, m: Machine, n: string)
    requires Reachable(cfg, m) && n != "root-ca"
    ensures n !in m.store.servers ==> Pipeline.OwnsNothing(m.store, n)
  {
    hide Reachable;
    hide NameWithPrefix;
    ReachableInvariant(cfg, m);
  }

  /**
   * The finalizer comes off a server only by its teardown, and only when its four resources are gone and no live policy
   * is bound to it.
   */
  lemma FinalizerComesOffLast(cfg: Config, trace: seq<Machine>, steps: seq<Step>, i: nat, n: string)
    requires IsDisciplinedRun(cfg, trace, steps) && i < |steps|
    requires HoldsServer(trace[i].store.servers, n) && !HoldsServer(trace[i + 1].store.servers, n)
    ensures steps[i].TearDownServer? && steps[i].n == n
    ensures Pipeline.OwnsNothing(trace[i + 1].store, n)
    ensures Transitions.NoLivePolicyBound(trace[i + 1].store, n)
  {
    hide Invariant;
    hide Apply;
    hide Enabled;
    hide Disciplined;
    hide Pipeline.OwnsNothing;
    hide Transitions.NoLivePolicyBound;
    InvariantOnRuns(cfg, trace, steps, i);
    ServersAreHeld(trace[i]);
    hide LiveServersHeld;
    Transitions.StepLetsGo(trace[i], cfg, steps[i], n);
  }

  // ---------------------------------------------------- configuration versions and rollouts

  lemma VersionsAreGood(m: Machine)
    requires Invariant(m)
    ensures VersionsHold(m.store.rv, m.store.configMaps, m.store.deployments, m.store.replicaSets, m.store.pods)
    ensures LatestHolds(m.store.deployments, m.store.replicaSets)
  {
    hide VersionsHold;
    hide LatestHolds;
  }

  /** Two replica sets that both pass the test for the latest one are the same. */
  lemma LatestIsUnique(cfg: Config, m: Machine, n: string, version: nat, a: nat, b: nat)
    requires Reachable(cfg, m) && n in m.store.deployments
    requires var rss, d := m.store.replicaSets, m.store.deployments[n];
             && a in PolicyController.ReplicaSetsOf(m.store, d.serverLabel)
             && b in PolicyController.ReplicaSetsOf(m.store, d.serverLabel)
             && PolicyController.IsLatestReplicaSet(rss[a], d, version)
             && PolicyController.IsLatestReplicaSet(rss[b], d, version)
    ensures a == b
  {
    hide Reachable;
    ReachableInvariant(cfg, m);
    VersionsAreGood(m);
    hide Invariant;
    hide VersionsHold;
    assert SameGeneration(m.store.replicaSets[a], m.store.replicaSets[b]);
  }

  /** So the gate does not depend on the order in which the API server lists the replica sets. */
  lemma GateIgnoresOrder(
    cfg: Config, m: Machine, n: string, u: string, listed: seq<nat>, listed': seq<nat>, faults: set<Call>)
    requires Reachable(cfg, m) && n in m.store.deployments
    requires var rss := PolicyController.ReplicaSetsOf(m.store, m.store.deployments[n].serverLabel);
             Enumerates(listed, rss) && Enumerates(listed', rss)
    ensures var d := m.store.deployments[n];
            PolicyController.IsUniquelyReachable(m.store, n, d, u, listed, faults) ==
            PolicyController.IsUniquelyReachable(m.store, n, d, u, listed', faults)
  {
    hide Reachable;
    hide PolicyController.AllPodsReady;
    hide ConfigMaps.Serves;
    var s, d := m.store, m.store.deployments[n];
    if n in s.configMaps {
      var version := s.configMaps[n].rv;
      PolicyController.LatestHashFound(s.replicaSets, listed, d, version);
      PolicyController.LatestHashFound(s.replicaSets, listed', d, version);
      var h, h' := PolicyController.LatestHash(s.replicaSets, listed, d, version),
                   PolicyController.LatestHash(s.replicaSets, listed', d, version);
      hide PolicyController.LatestHash;
      hide PolicyController.IsLatestReplicaSet;
      if h.Some? && h'.Some? {
        LatestIsUnique(cfg, m, n, version, h.value, h'.value);
      }
    }
  }

  /** Annotation and pod template of a deployment name one configuration version, no newer than the ConfigMap's. */
  lemma VersionsCohere(cfg: Config, m: Machine, n: string)
    requires Reachable(cfg, m) && n in m.store.deployments
    ensures var d := m.store.deployments[n];
            && d.configVersion == Some(d.template.configVersion)
            && (n in m.store.configMaps ==> d.template.configVersion <= m.store.configMaps[n].rv)
  {
    hide Reachable;
    ReachableInvariant(cfg, m);
    VersionsAreGood(m);
    hide Invariant;
    assert GoodDeployment(m.store.deployments[n], n, m.store.rv, m.store.configMaps);
  }

  /** And that version is one the server's ConfigMap has had. */
  lemma {:induction false} VersionsAreHistoric(cfg: Config, trace: seq<Machine>, steps: seq<Step>, i: nat, n: string)
    returns (j: nat)
    requires IsDisciplinedRun(cfg, trace, steps) && i < |trace| && n in trace[i].store.deployments
    ensures j <= i && n in trace[j].store.configMaps
    ensures trace[i].store.deployments[n].configVersion == Some(trace[j].store.configMaps[n].rv)
  {
    hide Apply;
    hide Enabled;
    hide Disciplined;
    var before, after := trace[i - 1].store, trace[i].store;
    Transitions.StepVersions(trace[i - 1], cfg, steps[i - 1]);
    if n in before.deployments && after.deployments[n].configVersion == before.deployments[n].configVersion {
      j := VersionsAreHistoric(cfg, trace, steps, i - 1, n);
    } else {
      j := i - 1;
    }
  }

  lemma DeploymentIsItsServers(cfg: Config, m: Machine, n: string)
    requires Reachable(cfg, m) && n in m.store.deployments
    ensures m.store.deployments[n].serverLabel == n
  {
    hide Reachable;
    ReachableInvariant(cfg, m);
    VersionsAreGood(m);
    hide Invariant;
    assert GoodDeployment(m.store.deployments[n], n, m.store.rv, m.store.configMaps);
  }

  /** Nothing that is ever stored gets in the way: in no reachable state does a reconciliation fail by itself. */
  lemma ReconcileNeverStuck(
    cfg: Config, m: Machine, conditions: map<ServerCondition, bool>, job: Pipeline.Job, freshCa: nat)
    requires Reachable(cfg, m) && job.name in m.store.servers
    ensures Pipeline.Reconcile(m.store, conditions, cfg, job, freshCa, {}).failedAt.None?
  {
    hide Reachable;
    ReachableInvariant(cfg, m);
    NothingInTheWay(m, job.name);
    hide Invariant;
    Pipeline.ReconcileSucceedsExactly(m.store, conditions, cfg, job, freshCa);
  }

  lemma NothingInTheWay(m: Machine, n: string)
    requires Invariant(m) && n in m.store.servers
    ensures n != "root-ca"
    ensures Pipeline.CanServe(m.store, n) && Pipeline.CanConfigure(m.store, n) && Pipeline.CanDeploy(m.store, n)
  {
    hide NameWithPrefix;
    ServersAreHeld(m);
    RootIsTrusted(m);
    VersionsAreGood(m);
    hide Invariant;
    if n in m.store.deployments {
      assert GoodDeployment(m.store.deployments[n], n, m.store.rv, m.store.configMaps);
    }
  }

  // -------------------------------------------------------------------------- status

  /** Status: active means routed; the condition PolicyActive means active and uniquely reachable as well. */
  lemma StatusIsTrue(cfg: Config, m: Machine, k: PolicyKey)
    requires Reachable(cfg, m) && IsLive(m.store.policies, k)
    ensures var status := m.store.policies[k].status;
            && (status.state == Active ==> HasRoute(m.store, k))
            && (status.conditions.active == Some(true) ==>
                  status.state == Active && status.conditions.reachable == Some(true))
  {
    hide Reachable;
    hide UniqueName;
    ReachableInvariant(cfg, m);
    StatusIsGood(m, k);
    hide Invariant;
  }

  lemma StatusIsGood(m: Machine, k: PolicyKey)
    requires Invariant(m) && IsLive(m.store.policies, k)
    ensures GoodStatus(k, m.store.policies[k], m.store.mutating, m.store.validating)
  {
    hide GoodStatus;
  }

  lemma HeldAndTrue(m: Machine)
    requires Invariant(m)
    ensures LivePoliciesHeld(m.store.policies) && PolicyRunsHeld(m.policyRuns, m.store.policies) && StatusTrue(m)
  {
    hide LivePoliciesHeld;
    hide PolicyRunsHeld;
    hide StatusTrue;
  }

  predicate InState(m: Machine, k: PolicyKey, state: PolicyState) {
    IsLive(m.store.policies, k) && m.store.policies[k].status.state == state
  }

  /** From `i` to `j` the policy is live. */
  ghost predicate LiveThroughout(trace: seq<Machine>, i: nat, j: nat, k: PolicyKey) {
    i <= j < |trace| && forall x :: i <= x <= j ==> IsLive(trace[x].store.policies, k)
  }

  /** While a policy lives and is never "scheduled", it stays active once it is. */
  lemma {:induction false} ActiveStaysActive(
    cfg: Config, trace: seq<Machine>, steps: seq<Step>, i: nat, j: nat, k: PolicyKey)
    requires IsDisciplinedRun(cfg, trace, steps) && LiveThroughout(trace, i, j, k)
    requires forall x :: i < x < j ==> !InState(trace[x], k, Scheduled)
    requires InState(trace[i], k, Active)
    ensures InState(trace[j], k, Active) || InState(trace[j], k, Scheduled)
    decreases j - i
  {
    hide Invariant;
    hide Apply;
    hide Enabled;
    hide Disciplined;
    if i < j {
      ActiveStaysActive(cfg, trace, steps, i, j - 1, k);
      InvariantOnRuns(cfg, trace, steps, j - 1);
      HeldAndTrue(trace[j - 1]);
      hide LivePoliciesHeld;
      hide PolicyRunsHeld;
      hide StatusTrue;
      Transitions.StepNeverDemotes(trace[j - 1], cfg, steps[j - 1]);
    }
  }

  /** No way from active to pending but through scheduled. */
  lemma PendingOnlyThroughScheduled(
    cfg: Config, trace: seq<Machine>, steps: seq<Step>, i: nat, j: nat, k: PolicyKey)
    requires IsDisciplinedRun(cfg, trace, steps) && LiveThroughout(trace, i, j, k)
    requires InState(trace[i], k, Active) && InState(trace[j], k, Pending)
    ensures exists x :: i < x < j && InState(trace[x], k, Scheduled)
  {
    hide IsDisciplinedRun;
    if forall x :: i < x < j ==> !InState(trace[x], k, Scheduled) {
      ActiveStaysActive(cfg, trace, steps, i, j, k);
    }
  }
}
