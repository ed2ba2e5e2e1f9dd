/** Finite paths of the machine, put together from single steps. */
module Paths {
  import opened Common
  import opened Model
  import opened Naming
  import opened Protocol
  import ConfigMaps
  import Pipeline
  import PolicyController

  /** These steps, each enabled in its turn and starting no pod that is not asked for, lead from `m` to `m'`. */
  ghost predicate Leads(cfg: Config, m: Machine, steps: seq<Step>, m': Machine)
    decreases |steps|
  {
    if steps == [] then m' == m
    else Enabled(m, cfg, steps[0]) && AsAskedFor(m.store, steps[0]) && Leads(cfg, Apply(m, cfg, steps[0]), steps[1..], m')
  }

  lemma OneStep(cfg: Config, m: Machine, step: Step)
    requires Enabled(m, cfg, step) && AsAskedFor(m.store, step)
    ensures Leads(cfg, m, [step], Apply(m, cfg, step))
  {
    hide Apply;
    hide Enabled;
    assert [step][1..] == [];
  }

  lemma {:induction false} Then(
    cfg: Config, m: Machine, steps: seq<Step>, m1: Machine, steps1: seq<Step>, m2: Machine)
    requires Leads(cfg, m, steps, m1) && Leads(cfg, m1, steps1, m2)
    ensures Leads(cfg, m, steps + steps1, m2)
    decreases |steps|
  {
    hide Apply;
    hide Enabled;
    if steps == [] {
      assert steps + steps1 == steps1;
    } else {
      Then(cfg, Apply(m, cfg, steps[0]), steps[1..], m1, steps1, m2);
      assert (steps + steps1)[0] == steps[0] && (steps + steps1)[1..] == steps[1..] + steps1;
    }
  }

  // ------------------------------------------------------------------- single steps

  lemma DeletePolicyLeads(cfg: Config, m: Machine, k: PolicyKey)
    requires k in m.store.policies
    ensures Leads(cfg, m, [DeletePolicy(k)], m.(store := AfterDeletePolicy(m.store, k)))
  {
    hide AfterDeletePolicy;
    OneStep(cfg, m, DeletePolicy(k));
    hide Leads;
  }

  lemma FinalizePolicyLeads(cfg: Config, m: Machine, k: PolicyKey)
    requires k in m.store.policies && m.store.policies[k].deleting && k !in m.policyRuns
    ensures Leads(cfg, m, [FinalizePolicy(k, {})], m.(store := AfterFinalizePolicy(m.store, cfg, k, {})))
  {
    hide AfterFinalizePolicy;
    OneStep(cfg, m, FinalizePolicy(k, {}));
    hide Leads;
  }

  lemma CreatePolicyLeads(cfg: Config, m: Machine, k: PolicyKey, spec: PolicySpec)
    requires k !in m.store.policies
    ensures Leads(cfg, m, [CreatePolicy(k, spec, {})], m.(store := AfterCreatePolicy(m.store, cfg, k, spec, {})))
  {
    hide AfterCreatePolicy;
    OneStep(cfg, m, CreatePolicy(k, spec, {}));
    hide Leads;
  }

  lemma BeginServerLeads(cfg: Config, m: Machine, n: string, listed: seq<PolicyKey>)
    requires n in m.store.servers && !m.store.servers[n].deleting && n !in m.serverRuns
    requires Enumerates(listed, Pipeline.BoundKeys(m.store, n))
    ensures Leads(cfg, m, [BeginServer(n, listed)], AfterBeginServer(m, n, listed))
  {
    hide AfterBeginServer;
    OneStep(cfg, m, BeginServer(n, listed));
    hide Leads;
  }

  lemma ServerStageLeads(cfg: Config, m: Machine, n: string)
    requires n in m.serverRuns && m.serverRuns[n].stage < STAGES && !m.serverRuns[n].failed
    ensures Leads(cfg, m, [ServerStage(n, 0, {})], AfterServerStage(m, cfg, n, 0, {}))
  {
    hide AfterServerStage;
    OneStep(cfg, m, ServerStage(n, 0, {}));
    hide Leads;
  }

  lemma EndServerLeads(cfg: Config, m: Machine, n: string)
    requires n in m.serverRuns && (m.serverRuns[n].stage == STAGES || m.serverRuns[n].failed)
    ensures Leads(cfg, m, [EndServer(n, false)], AfterEndServer(m, n, false))
  {
    hide AfterEndServer;
    OneStep(cfg, m, EndServer(n, false));
    hide Leads;
  }

  lemma BeginPolicyLeads(cfg: Config, m: Machine, k: PolicyKey, listed: seq<nat>)
    requires k in m.store.policies && !m.store.policies[k].deleting && k !in m.policyRuns
    requires var n := m.store.policies[k].spec.policyServer;
             n in m.store.deployments ==>
               Enumerates(listed, PolicyController.ReplicaSetsOf(m.store, m.store.deployments[n].serverLabel))
    ensures Leads(cfg, m, [BeginPolicy(k, listed, {})], AfterBeginPolicy(m, k, listed, {}))
  {
    hide AfterBeginPolicy;
    OneStep(cfg, m, BeginPolicy(k, listed, {}));
    hide Leads;
  }

  lemma PublishPolicyLeads(cfg: Config, m: Machine, k: PolicyKey)
    requires k in m.policyRuns && m.policyRuns[k].todo.Some?
    ensures Leads(cfg, m, [PublishPolicy(k, {})], AfterPublishPolicy(m, cfg, k, {}))
  {
    hide AfterPublishPolicy;
    OneStep(cfg, m, PublishPolicy(k, {}));
    hide Leads;
  }

  lemma EndPolicyLeads(cfg: Config, m: Machine, k: PolicyKey)
    requires k in m.policyRuns && m.policyRuns[k].todo.None?
    ensures Leads(cfg, m, [EndPolicy(k, {})], AfterEndPolicy(m, k, {}))
  {
    hide AfterEndPolicy;
    OneStep(cfg, m, EndPolicy(k, {}));
    hide Leads;
  }

  lemma SyncLeads(cfg: Config, m: Machine, n: string, h: nat, revision: nat)
    requires n in m.store.deployments && CanSync(m.store, m.store.deployments[n], h, revision)
    ensures Leads(cfg, m, [SyncReplicaSet(n, h, revision)], m.(store := AfterSyncReplicaSet(m.store, n, h, revision)))
  {
    hide CanSync;
    hide AfterSyncReplicaSet;
    OneStep(cfg, m, SyncReplicaSet(n, h, revision));
    hide Leads;
  }

  lemma RecordLeads(cfg: Config, m: Machine, n: string, h: nat)
    requires n in m.store.deployments && h in m.store.replicaSets
    requires MadeFrom(m.store.replicaSets[h], m.store.deployments[n])
    ensures Leads(cfg, m, [SyncRevision(n, h)], m.(store := AfterSyncRevision(m.store, n, h)))
  {
    hide MadeFrom;
    hide AfterSyncRevision;
    OneStep(cfg, m, SyncRevision(n, h));
    hide Leads;
  }

  lemma DeletePodLeads(cfg: Config, m: Machine, p: nat)
    requires p in m.store.pods
    ensures Leads(cfg, m, [DeletePod(p)], m.(store := AfterDeletePod(m.store, p)))
  {
    hide AfterDeletePod;
    OneStep(cfg, m, DeletePod(p));
    hide Leads;
  }

  lemma CreatePodLeads(cfg: Config, m: Machine, h: nat)
    requires h in m.store.replicaSets && AsAskedFor(m.store, CreatePod(h))
    ensures Leads(cfg, m, [CreatePod(h)], m.(store := AfterCreatePod(m.store, h)))
  {
    hide AfterCreatePod;
    OneStep(cfg, m, CreatePod(h));
    hide Leads;
  }

  lemma LoadPodLeads(cfg: Config, m: Machine, p: nat)
    requires p in m.store.pods && m.store.pods[p].server in m.store.configMaps
    requires ConfigMaps.ServedPolicies(m.store.configMaps[m.store.pods[p].server]).Ok?
    ensures Leads(cfg, m, [LoadPod(p)], m.(store := AfterLoadPod(m.store, p)))
  {
    hide AfterLoadPod;
    hide ConfigMaps.ServedPolicies;
    OneStep(cfg, m, LoadPod(p));
    hide Leads;
  }

  lemma SetPodConditionsLeads(cfg: Config, m: Machine, p: nat, conditions: seq<PodCondition>)
    requires p in m.store.pods && m.store.pods[p].loaded.Some?
    ensures Leads(cfg, m, [SetPodConditions(p, conditions)], m.(store := AfterSetPodConditions(m.store, p, conditions)))
  {
    hide AfterSetPodConditions;
    OneStep(cfg, m, SetPodConditions(p, conditions));
    hide Leads;
  }
}
