/**
 * Progress: once a server has been reconciled successfully and its rollout is complete, one reconciliation makes each of
 * its live policies active, with the webhook it should have.
 */
module Progress {
  import opened Common
  import opened Naming
  import opened Model
  import opened Effects
  import opened Protocol
  import opened Invariants
  import Api
  import ConfigMaps
  import Deployments
  import Pipeline
  import PolicyController
  import Safety
  import Webhooks

  // ------------------------------------------------------------ a reconciled server

  /** The machine when the run of server `n` goes on from here without anything coming between its stages. */
  ghost function Uninterrupted(m: Machine, cfg: Config, n: string, freshCa: nat, faults: set<Call>): Machine
    requires n in m.serverRuns && m.serverRuns[n].stage <= STAGES
    decreases STAGES - m.serverRuns[n].stage, !m.serverRuns[n].failed
  {
    if m.serverRuns[n].stage == STAGES || m.serverRuns[n].failed then m
    else Uninterrupted(AfterServerStage(m, cfg, n, freshCa, faults), cfg, n, freshCa, faults)
  }

  /** Taken one after the other, the steps of the machine are the whole reconciliation. */
  lemma {:induction false} StagesMakeTheRun(m: Machine, cfg: Config, n: string, freshCa: nat, faults: set<Call>)
    requires n in m.serverRuns && m.serverRuns[n].stage <= STAGES && !m.serverRuns[n].failed
    ensures var run, m' := m.serverRuns[n], Uninterrupted(m, cfg, n, freshCa, faults);
            var q := Pipeline.RunFrom(run.stage, Pipeline.Progress(m.store, run.root, run.conditions, None), cfg, run.job,
                                      freshCa, faults);
            && m'.store == q.store && n in m'.serverRuns
            && m'.serverRuns[n].conditions == q.conditions && m'.serverRuns[n].failed == q.failedAt.Some?
    decreases STAGES - m.serverRuns[n].stage
  {
    hide Pipeline.RunStage;
    if m.serverRuns[n].stage < STAGES {
      var m1 := AfterServerStage(m, cfg, n, freshCa, faults);
      if !m1.serverRuns[n].failed {
        StagesMakeTheRun(m1, cfg, n, freshCa, faults);
      }
    }
  }

  /** What a successful reconciliation of server `n` leaves behind, before or after its status is written. */
  ghost predicate ReconciledTo(s: Store, s1: Store, cfg: Config, n: string) {
    exists conditions, listed, freshCa, faults ::
      && n in s.servers && Enumerates(listed, Pipeline.BoundKeys(s, n))
      && JobSucceeds(s, s1, cfg, n, conditions, listed, freshCa, faults)
  }

  predicate JobSucceeds(
    s: Store, s1: Store, cfg: Config, n: string, conditions: map<ServerCondition, bool>, listed: seq<PolicyKey>,
    freshCa: nat, faults: set<Call>)
    requires n in s.servers
  {
    var job := Pipeline.Job(n, s.servers[n].spec, Pipeline.LiveOnly(s.policies, listed));
    var q := Pipeline.Reconcile(s, conditions, cfg, job, freshCa, faults);
    q.failedAt.None? && (s1 == q.store || s1 == Api.UpdateServerStatus(q.store, n, q.conditions, false).store)
  }

  /**
   * The ConfigMap serves the policy as it is, the deployment asks for that ConfigMap and for the server's number of pods,
   * and there is a root to trust.
   */
  predicate ReadyToServe(s: Store, n: string, k: PolicyKey) {
    && k in s.policies && n in s.servers && n in s.configMaps && n in s.deployments && ROOT_SECRET in s.secrets
    && s.deployments[n].configVersion == Some(s.configMaps[n].rv)
    && s.deployments[n].replicas == s.servers[n].spec.replicas
    && ConfigMaps.ServedPolicies(s.configMaps[n]).Ok?
    && UniqueName(k) in ConfigMaps.ServedPolicies(s.configMaps[n]).value
    && ConfigMaps.ServedPolicies(s.configMaps[n]).value[UniqueName(k)] ==
         ConfigMaps.EntryOf(BoundPolicy(k, s.policies[k].spec))
  }

  lemma {:induction false} LiveOnlyDistinctNames(policies: map<PolicyKey, Policy>, listed: seq<PolicyKey>)
    requires Distinct(listed) && NamesDistinct(policies)
    ensures ConfigMaps.DistinctNames(Pipeline.LiveOnly(policies, listed))
  {
    if listed != [] {
      var last := |listed| - 1;
      var k, front := listed[last], Pipeline.LiveOnly(policies, listed[..last]);
      LiveOnlyDistinctNames(policies, listed[..last]);
      Pipeline.LiveOnlyElements(policies, listed[..last]);
      hide UniqueName;
      if k in policies && !policies[k].deleting {
        var p := BoundPolicy(k, policies[k].spec);
        assert k !in listed[..last];
        assert (front + [p])[..|front|] == front;
        ConfigMaps.DistinctNamesOfFront(front + [p]);
      }
    }
  }

  lemma SnapshotServes(s: Store, n: string, listed: seq<PolicyKey>, k: PolicyKey)
    requires Enumerates(listed, Pipeline.BoundKeys(s, n)) && NamesDistinct(s.policies) && Pipeline.LiveAndBound(s, k, n)
    ensures var served := ConfigMaps.PoliciesMap(Pipeline.LiveOnly(s.policies, listed));
            UniqueName(k) in served && served[UniqueName(k)] == ConfigMaps.EntryOf(BoundPolicy(k, s.policies[k].spec))
  {
    hide UniqueName;
    Pipeline.ListedPolicies(s, n, listed);
    LiveOnlyDistinctNames(s.policies, listed);
    var live := Pipeline.LiveOnly(s.policies, listed);
    assert BoundPolicy(k, s.policies[k].spec) in live;
    var i :| 0 <= i < |live| && live[i] == BoundPolicy(k, s.policies[k].spec);
    ConfigMaps.PoliciesMapEntries(live, i);
  }

  lemma SettledReplicas(s: Store, cfg: Config, job: Pipeline.Job)
    requires Pipeline.Settled(s, cfg, job)
    ensures s.deployments[job.name].replicas == job.spec.replicas
  {
    hide NameWithPrefix;
    hide ConfigMaps.UpToDate;
    hide ConfigMaps.PoliciesMap;
    hide ConfigMaps.DesiredSources;
  }

  /** Once settled, the server serves each policy of the snapshot. */
  lemma SettledServes(s: Store, q: Store, cfg: Config, job: Pipeline.Job, k: PolicyKey)
    requires Pipeline.Settled(q, cfg, job) && q.policies == s.policies && q.servers == s.servers
    requires k in s.policies && job.name in s.servers && job.spec == s.servers[job.name].spec
    requires var served := ConfigMaps.PoliciesMap(job.policies);
             UniqueName(k) in served && served[UniqueName(k)] == ConfigMaps.EntryOf(BoundPolicy(k, s.policies[k].spec))
    ensures ReadyToServe(q, job.name, k) && NameWithPrefix(job.name) in q.secrets
  {
    SettledReplicas(q, cfg, job);
    hide UniqueName;
    hide NameWithPrefix;
    hide Deployments.InStep;
    hide Deployments.BuiltDeployment;
    hide ConfigMaps.PoliciesMap;
  }

  /** Of the servers at most the conditions of `n` have changed. */
  predicate OnlyConditions(before: map<string, PolicyServer>, after: map<string, PolicyServer>, n: string) {
    n in before && n in after && after == before[n := before[n].(conditions := after[n].conditions)]
  }

  lemma StatusWriteKeepsReady(s: Store, n: string, k: PolicyKey, conditions: map<ServerCondition, bool>)
    requires ReadyToServe(s, n, k)
    ensures var s' := Api.UpdateServerStatus(s, n, conditions, false).store;
            && ReadyToServe(s', n, k)
            && s' == s.(servers := s'.servers) && OnlyConditions(s.servers, s'.servers, n)
  {
    hide UniqueName;
  }

  lemma SucceededJobServes(
    s: Store, s1: Store, cfg: Config, n: string, conditions: map<ServerCondition, bool>, listed: seq<PolicyKey>,
    freshCa: nat, faults: set<Call>, k: PolicyKey)
    requires n in s.servers && Enumerates(listed, Pipeline.BoundKeys(s, n))
    requires JobSucceeds(s, s1, cfg, n, conditions, listed, freshCa, faults)
    requires NamesDistinct(s.policies) && Pipeline.LiveAndBound(s, k, n)
    ensures ReadyToServe(s1, n, k) && s1.policies == s.policies && NameWithPrefix(n) in s1.secrets
    ensures OnlyConditions(s.servers, s1.servers, n)
  {
    hide UniqueName;
    hide NameWithPrefix;
    hide NamesDistinct;
    hide Enumerates;
    hide ReadyToServe;
    hide Pipeline.Reconcile;
    hide Pipeline.LiveOnly;
    hide Pipeline.Settled;
    hide ConfigMaps.PoliciesMap;
    var job := Pipeline.Job(n, s.servers[n].spec, Pipeline.LiveOnly(s.policies, listed));
    SnapshotServes(s, n, listed, k);
    hide Api.UpdateServerStatus;
    Pipeline.ReconcileIdempotent(s, conditions, cfg, job, freshCa, faults, freshCa, faults);
    RunKeepsStart(s, conditions, cfg, job, freshCa, faults);
    var q := Pipeline.Reconcile(s, conditions, cfg, job, freshCa, faults);
    SettledServes(s, q.store, cfg, job, k);
    StatusWriteKeepsReady(q.store, n, k, q.conditions);
  }

  /** After a successful reconciliation the server is ready to serve each of its live policies. */
  lemma ReconciledServes(s: Store, s1: Store, cfg: Config, n: string, k: PolicyKey)
    requires ReconciledTo(s, s1, cfg, n) && NamesDistinct(s.policies) && Pipeline.LiveAndBound(s, k, n)
    ensures ReadyToServe(s1, n, k) && s1.policies == s.policies && NameWithPrefix(n) in s1.secrets
    ensures OnlyConditions(s.servers, s1.servers, n)
  {
    hide UniqueName;
    hide NameWithPrefix;
    hide NamesDistinct;
    hide ReadyToServe;
    hide OnlyConditions;
    hide JobSucceeds;
    hide Enumerates;
    var conditions, listed, freshCa, faults :|
      Enumerates(listed, Pipeline.BoundKeys(s, n)) && JobSucceeds(s, s1, cfg, n, conditions, listed, freshCa, faults);
    SucceededJobServes(s, s1, cfg, n, conditions, listed, freshCa, faults, k);
  }

  // ------------------------------------------------------------- a completed rollout

  /** As many pods as the deployment asks for; the API server refuses a negative number. */
  function Wanted(d: Deployment): nat {
    if d.replicas < 0 then 0 else d.replicas
  }

  /** Every pod of server `n` comes from replica set `h` and is ready. */
  ghost predicate OnlyReadyFrom(pods: map<nat, Pod>, n: string, h: nat) {
    forall p :: p in pods && pods[p].server == n ==>
      pods[p].hash == h && PolicyController.IsPodReady(pods[p].conditions)
  }

  /**
   * Only the deployment controller, replica sets and pods have worked, and are done: there are as many pods of the server
   * as its deployment asks for, all come from one replica set, made for the deployment as it is, and are ready.
   */
  ghost predicate RolledOut(s1: Store, s2: Store, n: string) {
    && s2 == s1.(rv := s2.rv, deployments := s2.deployments, replicaSets := s2.replicaSets, pods := s2.pods)
    && n in s1.deployments && n in s2.deployments
    && s2.deployments[n] == s1.deployments[n].(rv := s2.deployments[n].rv, revision := s2.deployments[n].revision)
    && |PodsOf(s2.pods, n)| == Wanted(s2.deployments[n])
    && exists h :: h in s2.replicaSets && IsCurrent(s2.replicaSets[h], s2.deployments[n]) &&
                   OnlyReadyFrom(s2.pods, n, h)
  }

  predicate IsCurrent(r: ReplicaSet, d: Deployment) {
    MadeFrom(r, d) && r.revision == d.revision && r.configVersion == d.configVersion && r.server == d.serverLabel
  }

  /** The gate opens: the replica set that the code picks is the one the pods come from. */
  lemma GateOpens(cfg: Config, m: Machine, n: string, k: PolicyKey, listed: seq<nat>, h: nat)
    requires Safety.Reachable(cfg, m) && ReadyToServe(m.store, n, k)
    requires h in m.store.replicaSets && IsCurrent(m.store.replicaSets[h], m.store.deployments[n])
    requires PolicyController.AllPodsReady(m.store, n, h)
    requires Enumerates(listed, PolicyController.ReplicaSetsOf(m.store, m.store.deployments[n].serverLabel))
    ensures PolicyController.IsUniquelyReachable(m.store, n, m.store.deployments[n], UniqueName(k), listed, {})
  {
    hide Safety.Reachable;
    hide UniqueName;
    var s, d, version := m.store, m.store.deployments[n], m.store.configMaps[n].rv;
    Safety.DeploymentIsItsServers(cfg, m, n);
    PolicyController.LatestHashFound(s.replicaSets, listed, d, version);
    var picked := PolicyController.LatestHash(s.replicaSets, listed, d, version);
    assert h in listed && PolicyController.IsLatestReplicaSet(s.replicaSets[h], d, version);
    hide PolicyController.LatestHash;
    Safety.LatestIsUnique(cfg, m, n, version, picked.value, h);
  }

  // ------------------------------------------------------------- one policy reconcile

  /** The policy is live and active, as configured, and its webhook is the one it should have. */
  ghost predicate Serving(s: Store, cfg: Config, k: PolicyKey, n: string, root: Secret) {
    && IsLive(s.policies, k)
    && var p := s.policies[k]; var hooks := s.Webhooks(KindOf(p.spec.mutating));
       && p.status == PolicyStatus(Active, p.spec.mode, PolicyConditions(Some(true), Some(true), Some(true)))
       && UniqueName(k) in hooks
       && hooks[UniqueName(k)].webhooks == [Webhooks.DesiredWebhook(cfg, k, p.spec, root, NameWithPrefix(n))]
  }

  /** With a pod asked for, there is one. */
  lemma SomePodReady(s: Store, n: string, h: nat)
    requires n in s.deployments && s.deployments[n].replicas > 0 && |PodsOf(s.pods, n)| == Wanted(s.deployments[n])
    requires OnlyReadyFrom(s.pods, n, h)
    ensures PolicyController.AllPodsReady(s, n, h)
  {
    var p :| p in PodsOf(s.pods, n);
  }

  lemma PreparedForPublication(s: Store, k: PolicyKey, listed: seq<nat>)
    requires k in s.policies
    requires var n := s.policies[k].spec.policyServer;
             && n != "" && ReadyToServe(s, n, k)
             && PolicyController.IsUniquelyReachable(s, n, s.deployments[n], UniqueName(k), listed, {})
    ensures var run := PolicyController.Prepare(s, k, s.policies[k], listed, {});
            && run.policy == s.policies[k].(status := run.policy.status)
            && run.policy.status.conditions.reachable == Some(true)
            && run.answer == Pipeline.Finished
            && run.todo == Some(PolicyController.Publication(
                                  s.secrets[ROOT_SECRET], NameWithPrefix(s.policies[k].spec.policyServer)))
  {
    hide UniqueName;
    hide NameWithPrefix;
    hide PolicyController.IsUniquelyReachable;
  }

  lemma PublishedAndFinished(s: Store, cfg: Config, k: PolicyKey, run: PolicyController.PolicyRun)
    requires IsLive(s.policies, k) && run.todo.Some? && run.policy == s.policies[k].(status := run.policy.status)
    requires run.policy.status.conditions.reachable == Some(true)
    requires var n := s.policies[k].spec.policyServer;
             ReadyToServe(s, n, k) && run.todo.value.serviceName == NameWithPrefix(n)
    ensures var (s1, run1) := PolicyController.Publish(s, cfg, k, run, {});
            var (s2, answer) := PolicyController.Finish(s1, k, run1, {});
            answer == Pipeline.Finished &&
            Serving(s2, cfg, k, s.policies[k].spec.policyServer, run.todo.value.root)
  {
    hide UniqueName;
    hide NameWithPrefix;
    hide Webhooks.SyncWebhook;
    hide Webhooks.DesiredWebhook;
    hide ConfigMaps.ServedPolicies;
    var kind := KindOf(s.policies[k].spec.mutating);
    var hooks := PolicyController.DesiredWebhooks(cfg, k, run.policy.spec, run.todo.value);
    Webhooks.SyncWebhookResult(s, kind, UniqueName(k), hooks, {});
    SyncWebhookSucceeds(s, kind, UniqueName(k), hooks);
    var s1 := Webhooks.SyncWebhook(s, kind, UniqueName(k), hooks, {}).store;
    assert s1 == s.(rv := s1.rv, mutating := s1.mutating, validating := s1.validating);
    hide Webhooks.WritesWebhook;
  }

  lemma SyncWebhookSucceeds(s: Store, kind: WebhookKind, u: string, hooks: seq<Webhook>)
    ensures Webhooks.SyncWebhook(s, kind, u, hooks, {}).error.None?
  {
  }

  /**
   * Progress: a live policy bound to a server with at least one replica that was reconciled successfully and has finished
   * its rollout becomes active, with every condition true, its own mode, and the desired webhook, by one reconciliation
   * whose calls succeed.
   */
  lemma PolicyBecomesActive(
    cfg: Config, s: Store, s1: Store, m: Machine, n: string, k: PolicyKey, listed: seq<nat>)
    requires NamesDistinct(s.policies) && n != "" && Pipeline.LiveAndBound(s, k, n)
    requires ReconciledTo(s, s1, cfg, n) && s.servers[n].spec.replicas > 0
    requires RolledOut(s1, m.store, n) && Safety.Reachable(cfg, m)
    requires Enumerates(listed, PolicyController.ReplicaSetsOf(m.store, m.store.deployments[n].serverLabel))
    ensures k in m.store.policies && ROOT_SECRET in m.store.secrets && ReadyToServe(m.store, n, k)
    ensures PolicyController.IsUniquelyReachable(m.store, n, m.store.deployments[n], UniqueName(k), listed, {})
    ensures var (s2, answer) := PolicyController.ReconcilePolicy(m.store, cfg, k, listed, {});
            answer == Pipeline.Finished && Serving(s2, cfg, k, n, m.store.secrets[ROOT_SECRET])
  {
    hide UniqueName;
    hide NameWithPrefix;
    hide Safety.Reachable;
    ReconciledServes(s, s1, cfg, n, k);
    hide ReconciledTo;
    var h :| h in m.store.replicaSets && IsCurrent(m.store.replicaSets[h], m.store.deployments[n]) &&
             OnlyReadyFrom(m.store.pods, n, h);
    hide IsCurrent;
    SomePodReady(m.store, n, h);
    hide OnlyReadyFrom;
    hide PolicyController.AllPodsReady;
    GateOpens(cfg, m, n, k, listed, h);
    PreparedForPublication(m.store, k, listed);
    hide PolicyController.IsUniquelyReachable;
    var run := PolicyController.Prepare(m.store, k, m.store.policies[k], listed, {});
    hide PolicyController.Prepare;
    PublishedAndFinished(m.store, cfg, k, run);
    hide PolicyController.Publish;
    hide PolicyController.Finish;
  }
}
