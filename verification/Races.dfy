/**
 * Why runs must not overtake each other: a policy deleted and created again under its old name, while a run of its server
 * that no longer saw it is yet to write the ConfigMap, gets a route and then loses its configuration.
 */
module Races {
  import opened Common
  import opened Naming
  import opened Model
  import opened Effects
  import opened Invariants
  import opened Paths
  import opened Protocol
  import ConfigMaps
  import Deletion
  import Deployments
  import Liveness
  import Pipeline
  import PolicyController
  import PolicyRunChanges
  import Progress
  import Safety
  import Webhooks

  // ------------------------------------------------------------- the policy goes and returns

  /** The policy is deleted and its reconciler lets it go. */
  lemma PolicyGoes(m: Machine, cfg: Config, n: string, k: PolicyKey, listed: seq<nat>) returns (m': Machine)
    requires Liveness.AtRest(m, cfg, n, k, listed)
    ensures Leads(cfg, m, [DeletePolicy(k)] + [FinalizePolicy(k, {})], m')
    ensures m' == m.(store := m'.store) && PolicyRunChanges.OnlyPolicies(m.store, m'.store)
    ensures m'.store.policies == Remove(m.store.policies, k)
  {
    hide UniqueName;
    hide NameWithPrefix;
    hide PolicyController.IsUniquelyReachable;
    var m1 := m.(store := AfterDeletePolicy(m.store, k));
    assert m1.store == m.store.(policies := m.store.policies[k := m.store.policies[k].(deleting := true)]);
    hide AfterDeletePolicy;
    assert Pipeline.BoundTo(m.store, k, n);
    DeletePolicyLeads(cfg, m, k);
    m' := m1.(store := AfterFinalizePolicy(m1.store, cfg, k, {}));
    Deletion.FinalizeRemoves(m1.store, cfg, k);
    FinalizePolicyLeads(cfg, m1, k);
    hide AfterFinalizePolicy;
    hide Leads;
    Then(cfg, m, [DeletePolicy(k)], m1, [FinalizePolicy(k, {})], m');
    assert Remove(m1.store.policies, k) == Remove(m.store.policies, k);
  }

  /** The server's reconciler lists no policies; then the policy is created again, with the spec it had. */
  lemma PolicyReturns(m: Machine, cfg: Config, n: string, k: PolicyKey, spec: PolicySpec) returns (m': Machine)
    requires n != "" && n in m.store.servers && !m.store.servers[n].deleting && n !in m.serverRuns
    requires k !in m.store.policies && spec.policyServer == n
    requires forall x :: !Pipeline.BoundTo(m.store, x, n)
    ensures Leads(cfg, m, [BeginServer(n, [])] + [CreatePolicy(k, spec, {})], m')
    ensures m'.store == m.store.(policies := m'.store.policies) && m'.policyRuns == m.policyRuns
    ensures IsLive(m'.store.policies, k) && m'.store.policies[k].spec == spec
    ensures n in m'.serverRuns
    ensures m'.serverRuns[n].job == Pipeline.Job(n, m.store.servers[n].spec, []) && m'.serverRuns[n].stage == 0
    ensures !m'.serverRuns[n].failed
  {
    var m1 := AfterBeginServer(m, n, []);
    assert forall x :: x in Pipeline.BoundKeys(m.store, n) ==> Pipeline.BoundTo(m.store, x, n);
    BeginServerLeads(cfg, m, n, []);
    assert Pipeline.LiveOnly(m.store.policies, []) == [];
    CreatePolicyLeads(cfg, m1, k, spec);
    m' := m1.(store := AfterCreatePolicy(m1.store, cfg, k, spec, {}));
    hide Leads;
    Then(cfg, m, [BeginServer(n, [])], m1, [CreatePolicy(k, spec, {})], m');
  }

  // -------------------------------------------------------------------- it is routed again

  /** Gate and root are as they were, so the policy passes at once and its webhook is written. */
  lemma PolicyIsRouted(m: Machine, cfg: Config, n: string, k: PolicyKey, listed: seq<nat>) returns (m': Machine)
    requires IsLive(m.store.policies, k) && m.store.policies[k].spec.policyServer == n && k !in m.policyRuns && n != ""
    requires n in m.store.servers && n in m.store.deployments && ROOT_SECRET in m.store.secrets
    requires Enumerates(listed, PolicyController.ReplicaSetsOf(m.store, m.store.deployments[n].serverLabel))
    requires PolicyController.IsUniquelyReachable(m.store, n, m.store.deployments[n], UniqueName(k), listed, {})
    ensures Leads(cfg, m, [BeginPolicy(k, listed, {})] + [PublishPolicy(k, {})], m')
    ensures m'.serverRuns == m.serverRuns && PolicyRunChanges.OnlyPolicies(m.store, m'.store)
    ensures m'.store.policies == m.store.policies
    ensures Safety.HasRoute(m'.store, k)
  {
    hide UniqueName;
    hide NameWithPrefix;
    hide PolicyController.IsUniquelyReachable;
    var m1 := AfterBeginPolicy(m, k, listed, {});
    BeginPolicyLeads(cfg, m, k, listed);
    GatePassed(m, k, listed);
    hide AfterBeginPolicy;
    m' := AfterPublishPolicy(m1, cfg, k, {});
    PublishPolicyLeads(cfg, m1, k);
    PublishRoutes(m1, cfg, k);
    hide AfterPublishPolicy;
    hide Leads;
    Then(cfg, m, [BeginPolicy(k, listed, {})], m1, [PublishPolicy(k, {})], m');
  }

  lemma GatePassed(m: Machine, k: PolicyKey, listed: seq<nat>)
    requires k in m.store.policies
    requires var n := m.store.policies[k].spec.policyServer;
             && n != "" && n in m.store.servers && n in m.store.deployments && ROOT_SECRET in m.store.secrets
             && PolicyController.IsUniquelyReachable(m.store, n, m.store.deployments[n], UniqueName(k), listed, {})
    ensures var m' := AfterBeginPolicy(m, k, listed, {});
            m' == m.(policyRuns := m'.policyRuns) && k in m'.policyRuns && m'.policyRuns[k].todo.Some?
  {
    hide UniqueName;
    hide PolicyController.IsUniquelyReachable;
  }

  lemma PublishRoutes(m: Machine, cfg: Config, k: PolicyKey)
    requires k in m.policyRuns && m.policyRuns[k].todo.Some?
    ensures var m' := AfterPublishPolicy(m, cfg, k, {});
            && m'.serverRuns == m.serverRuns && PolicyRunChanges.OnlyPolicies(m.store, m'.store)
            && m'.store.policies == m.store.policies && Safety.HasRoute(m'.store, k)
  {
    hide UniqueName;
    var run := m.policyRuns[k];
    var kind, hooks := KindOf(run.policy.spec.mutating),
                       PolicyController.DesiredWebhooks(cfg, k, run.policy.spec, run.todo.value);
    PolicyRunChanges.PublishWrites(m.store, cfg, k, run, {});
    Webhooks.SyncWebhookResult(m.store, kind, UniqueName(k), hooks, {});
    Progress.SyncWebhookSucceeds(m.store, kind, UniqueName(k), hooks);
    hide Webhooks.SyncWebhook;
    hide PolicyController.DesiredWebhooks;
    if kind.Mutating? {
    } else {
    }
  }

  // ------------------------------------------------------------- and the old run goes on

  /** Both secrets are there, so the first two stages write nothing. */
  lemma SecretStage(m: Machine, cfg: Config, n: string)
    requires n in m.serverRuns && m.serverRuns[n].stage < 2 && m.serverRuns[n].job.name == n
    requires Liveness.Rooted(m.store, n)
    ensures var m' := AfterServerStage(m, cfg, n, 0, {});
            && m'.store == m.store && n in m'.serverRuns && !m'.serverRuns[n].failed
            && m'.serverRuns[n].job == m.serverRuns[n].job && m'.serverRuns[n].stage == m.serverRuns[n].stage + 1
  {
    hide NameWithPrefix;
    hide ConfigMaps.ConfigMapStage;
    hide Deployments.DeploymentStage;
    hide Pipeline.ServiceStage;
  }

  /** The ConfigMap then serves nothing. */
  lemma EmptyConfigMapStage(m: Machine, cfg: Config, n: string)
    requires n in m.serverRuns && m.serverRuns[n].stage == CONFIG_MAP_RECONCILED
    requires m.serverRuns[n].job == Pipeline.Job(n, m.serverRuns[n].job.spec, [])
    requires n in m.store.configMaps && ConfigMaps.Decodes(m.store.configMaps[n])
    ensures var m' := AfterServerStage(m, cfg, n, 0, {});
            && m'.store == m.store.(rv := m'.store.rv, configMaps := m'.store.configMaps)
            && n in m'.store.configMaps && ConfigMaps.ServedPolicies(m'.store.configMaps[n]) == Ok(map[])
  {
    var sources := ConfigMaps.DesiredSources(m.serverRuns[n].job.spec);
    assert ConfigMaps.PoliciesMap([]) == map[];
    hide ConfigMaps.DesiredSources;
    hide ConfigMaps.EncodeSources;
    SyncSucceeds(m.store, n, map[], sources);
    ConfigMaps.SyncConfigMapResult(m.store, n, map[], sources, {});
    ConfigMaps.SyncConfigMapWrites(m.store, n, map[], sources, {});
    hide ConfigMaps.SyncConfigMap;
  }

  lemma SyncSucceeds(s: Store, n: string, policies: map<string, PolicyEntry>, sources: Sources)
    requires n in s.configMaps && ConfigMaps.Decodes(s.configMaps[n])
    ensures ConfigMaps.SyncConfigMap(s, n, policies, sources, {}).error.None?
  {
  }

  lemma StaleRunFinishes(m: Machine, cfg: Config, n: string) returns (m': Machine)
    requires n in m.serverRuns && m.serverRuns[n].stage == 0 && !m.serverRuns[n].failed && Liveness.Rooted(m.store, n)
    requires m.serverRuns[n].job == Pipeline.Job(n, m.serverRuns[n].job.spec, [])
    requires n in m.store.configMaps && ConfigMaps.Decodes(m.store.configMaps[n])
    ensures Leads(cfg, m, [ServerStage(n, 0, {})] + [ServerStage(n, 0, {})] + [ServerStage(n, 0, {})], m')
    ensures m'.store == m.store.(rv := m'.store.rv, configMaps := m'.store.configMaps)
    ensures n in m'.store.configMaps && ConfigMaps.ServedPolicies(m'.store.configMaps[n]) == Ok(map[])
  {
    hide Leads;
    hide NameWithPrefix;
    var step := [ServerStage(n, 0, {})];
    ServerStageLeads(cfg, m, n);
    SecretStage(m, cfg, n);
    var m1 := AfterServerStage(m, cfg, n, 0, {});
    hide AfterServerStage;
    ServerStageLeads(cfg, m1, n);
    SecretStage(m1, cfg, n);
    var m2 := AfterServerStage(m1, cfg, n, 0, {});
    ServerStageLeads(cfg, m2, n);
    EmptyConfigMapStage(m2, cfg, n);
    m' := AfterServerStage(m2, cfg, n, 0, {});
    Then(cfg, m, step, m1, step, m2);
    Then(cfg, m, step + step, m2, step, m');
  }

  /** The steps of the race. */
  function Race(n: string, k: PolicyKey, spec: PolicySpec, listed: seq<nat>): seq<Step> {
    ([DeletePolicy(k)] + [FinalizePolicy(k, {})]) +
    ([BeginServer(n, [])] + [CreatePolicy(k, spec, {})]) +
    ([BeginPolicy(k, listed, {})] + [PublishPolicy(k, {})]) +
    ([ServerStage(n, 0, {})] + [ServerStage(n, 0, {})] + [ServerStage(n, 0, {})])
  }

  /**
   * From any server at rest, these steps, every call succeeding, end with the policy live and routed while its server's
   * ConfigMap serves no policy at all.
   */
  lemma StaleRunBreaksRouting(m: Machine, cfg: Config, n: string, k: PolicyKey, listed: seq<nat>)
    returns (m': Machine)
    requires Liveness.AtRest(m, cfg, n, k, listed)
    ensures Leads(cfg, m, Race(n, k, m.store.policies[k].spec, listed), m')
    ensures IsLive(m'.store.policies, k) && m'.store.policies[k].spec == m.store.policies[k].spec
    ensures Safety.HasRoute(m'.store, k) && !Configured(UniqueName(k), n, m'.store.configMaps)
  {
    hide Leads;
    hide UniqueName;
    hide NameWithPrefix;
    var spec := m.store.policies[k].spec;
    assert Pipeline.BoundTo(m.store, k, n);
    var m1 := PolicyGoes(m, cfg, n, k, listed);
    forall x
      ensures !Pipeline.BoundTo(m1.store, x, n)
    {
      assert Pipeline.BoundTo(m.store, x, n) <==> x == k;
    }
    var m2 := PolicyReturns(m1, cfg, n, k, spec);
    Liveness.GateUnmoved(m.store, m2.store, n, UniqueName(k), listed);
    hide PolicyController.IsUniquelyReachable;
    var m3 := PolicyIsRouted(m2, cfg, n, k, listed);
    m' := StaleRunFinishes(m3, cfg, n);
    var goes := [DeletePolicy(k)] + [FinalizePolicy(k, {})];
    var comesBack := [BeginServer(n, [])] + [CreatePolicy(k, spec, {})];
    var routed := [BeginPolicy(k, listed, {})] + [PublishPolicy(k, {})];
    var finishes := [ServerStage(n, 0, {})] + [ServerStage(n, 0, {})] + [ServerStage(n, 0, {})];
    Then(cfg, m, goes, m1, comesBack, m2);
    Then(cfg, m, goes + comesBack, m2, routed, m3);
    Then(cfg, m, goes + comesBack + routed, m3, finishes, m');
  }

  /**
   * And the controller gets there: whatever the server, with at least one replica, and the policy, a disciplined run from
   * the empty cluster reaches the start of the race.  No disciplined run reaches its end.
   */
  lemma RaceIsReachable(cfg: Config, n: string, serverSpec: ServerSpec, k: PolicyKey, spec: PolicySpec)
    returns (m: Machine, listed: seq<nat>, m': Machine)
    requires n != "" && n != "root-ca" && spec.policyServer == n && serverSpec.replicas > 0
    ensures Safety.Reachable(cfg, m) && !Safety.Reachable(cfg, m')
    ensures Leads(cfg, m, Race(n, k, spec, listed), m')
    ensures IsLive(m'.store.policies, k) && m'.store.policies[k].spec == spec
    ensures Safety.HasRoute(m'.store, k) && !Configured(UniqueName(k), n, m'.store.configMaps)
  {
    hide Leads;
    hide UniqueName;
    hide Safety.Reachable;
    hide Race;
    hide PolicyController.IsUniquelyReachable;
    m, listed := Liveness.FirstPolicyGetsServed(cfg, n, serverSpec, k, spec);
    hide Progress.Serving;
    m' := StaleRunBreaksRouting(m, cfg, n, k, listed);
    if Safety.Reachable(cfg, m') {
      Safety.ConfiguredWhileRouted(cfg, m', k);
    }
  }

  /** Exactly the names in a run's snapshot are configured once the run has written the ConfigMap. */
  lemma SnapshotDecides(m: Machine, cfg: Config, n: string, u: string, freshCa: nat, faults: set<Call>)
    requires n in m.serverRuns && m.serverRuns[n].stage == CONFIG_MAP_RECONCILED && m.serverRuns[n].job.name == n
    ensures var m' := AfterServerStage(m, cfg, n, freshCa, faults);
            if m'.serverRuns[n].failed then m'.store == m.store
            else Configured(u, n, m'.store.configMaps) <==> u in ConfigMaps.Names(m.serverRuns[n].job.policies)
  {
    hide UniqueName;
    var run := m.serverRuns[n];
    StageEffect(run.stage, m.store, cfg, run.job, run.root, freshCa, faults);
    hide Pipeline.RunStage;
    ConfigMaps.PoliciesMapKeys(run.job.policies);
    hide ConfigMaps.PoliciesMap;
    hide ConfigMaps.WritesConfigMap;
  }
}
