/**
 * The other half of liveness: a policy whose server asks for no pods and has none never becomes active, whatever the
 * controller and the cluster do by themselves.
 */
module Starvation {
  import opened Common
  import opened Naming
  import opened Model
  import opened Effects
  import opened Invariants
  import opened Paths
  import opened Protocol
  import Admission
  import ConfigMaps
  import Deployments
  import Liveness
  import Pipeline
  import PolicyChanges
  import PolicyController
  import PolicyRunChanges
  import Safety

  /** Neither the server, nor a run of its reconciler, nor its deployment asks for a pod. */
  predicate AsksForNone(
    servers: map<string, PolicyServer>, runs: map<string, ServerRun>, deployments: map<string, Deployment>, n: string)
  {
    && (n in servers ==> servers[n].spec.replicas <= 0)
    && (n in runs ==> runs[n].job.spec.replicas <= 0)
    && (n in deployments ==> deployments[n].replicas <= 0)
  }

  /** The policy is not active, and no run is about to make it so. */
  predicate Inactive(
    policies: map<PolicyKey, Policy>, runs: map<PolicyKey, PolicyController.PolicyRun>, n: string, k: PolicyKey)
  {
    && (k in policies ==> policies[k].spec.policyServer == n && policies[k].status.state != Active)
    && (k in runs ==> runs[k].todo.None? && runs[k].policy.status.state != Active)
  }

  ghost predicate Starved(m: Machine, n: string, k: PolicyKey) {
    var s := m.store;
    && n != "" && PodsOf(s.pods, n) == {}
    && AsksForNone(s.servers, m.serverRuns, s.deployments, n) && Inactive(s.policies, m.policyRuns, n, k)
  }

  // -------------------------------------------------------------- rollout and pods

  lemma NoPodStarts(s: Store, h: nat, n: string)
    requires h in s.replicaSets && AsAskedFor(s, CreatePod(h)) && PodsOf(s.pods, n) == {}
    requires n in s.deployments ==> s.deployments[n].replicas <= 0
    ensures PodsOf(AfterCreatePod(s, h).pods, n) == {}
  {
    assert |PodsOf(s.pods, s.replicaSets[h].server)| >= 0;
    assert s.replicaSets[h].server != n;
    forall p | p in s.pods
      ensures s.pods[p].server != n
    {
      assert p !in PodsOf(s.pods, n);
    }
  }

  lemma PodsStayAway(s: Store, s': Store, n: string)
    requires PodsOf(s.pods, n) == {}
    requires forall p :: p in s'.pods ==> p in s.pods && s'.pods[p].server == s.pods[p].server
    ensures PodsOf(s'.pods, n) == {}
  {
    forall p | p in s'.pods
      ensures s'.pods[p].server != n
    {
      assert p !in PodsOf(s.pods, n);
    }
  }

  lemma RolloutKeepsStarved(m: Machine, cfg: Config, step: Step, n: string, k: PolicyKey)
    requires Starved(m, n, k) && Enabled(m, cfg, step) && IsRolloutStep(step) && AsAskedFor(m.store, step)
    ensures Starved(Apply(m, cfg, step), n, k)
  {
    hide CanSync;
    hide PodsOf;
    hide Inactive;
    hide ConfigMaps.ServedPolicies;
    hide Admission.AdmitPolicyUpdate;
    hide Pipeline.BoundKeys;
    hide PolicyController.ReplicaSetsOf;
    hide PolicyController.IsPodReady;
    if step.CreatePod? {
      NoPodStarts(m.store, step.hash, n);
    } else {
      PodsStayAway(m.store, Apply(m, cfg, step).store, n);
    }
  }

  // ------------------------------------------------------------ the server's reconciler

  lemma BeginServerKeepsStarved(m: Machine, x: string, listed: seq<PolicyKey>, n: string, k: PolicyKey)
    requires Starved(m, n, k) && x in m.store.servers
    ensures Starved(AfterBeginServer(m, x, listed), n, k)
  {
    hide PodsOf;
    hide Inactive;
    hide Pipeline.LiveOnly;
  }

  /** Of another server's deployment a stage changes nothing, and its own then asks for what the run's server did. */
  predicate ReplicasFrom(
    before: map<string, Deployment>, after: map<string, Deployment>, job: Pipeline.Job, n: string)
  {
    n in after ==>
      || (n in before && after[n].replicas == before[n].replicas)
      || (n == job.name && after[n].replicas == job.spec.replicas)
  }

  lemma DeploymentStageReplicas(s: Store, cfg: Config, job: Pipeline.Job, faults: set<Call>, n: string)
    ensures ReplicasFrom(s.deployments, Deployments.DeploymentStage(s, cfg, job.name, job.spec, faults).store.deployments,
                         job, n)
  {
    if ReadConfigMapVersion !in faults && job.name in s.configMaps &&
       !(job.spec.imagePullSecret != "" && CheckPullSecret in faults) {
      var d := Deployments.BuiltDeployment(cfg, s.configMaps[job.name].rv, job.name, job.spec);
      Deployments.SyncDeploymentWrites(s, job.name, d, faults);
      hide Deployments.SyncDeployment;
    }
  }

  lemma StageReplicas(
    i: nat, s: Store, cfg: Config, job: Pipeline.Job, root: Secret, freshCa: nat, faults: set<Call>, n: string)
    requires i < STAGES
    ensures var s' := Pipeline.RunStage(i, s, cfg, job, root, freshCa, faults).0.store;
            && s'.pods == s.pods && s'.policies == s.policies && s'.servers == s.servers
            && ReplicasFrom(s.deployments, s'.deployments, job, n)
  {
    hide StageWrites;
    var (w, root') := Pipeline.RunStage(i, s, cfg, job, root, freshCa, faults);
    StageEffect(i, s, cfg, job, root, freshCa, faults);
    StageKeepsObjects(i, s, w.store, job, root, root', w.error.None?);
    if i == DEPLOYMENT_RECONCILED {
      hide ReplicasFrom;
      Pipeline.OwnedStages(s, cfg, job, root, freshCa, faults);
      DeploymentStageReplicas(s, cfg, job, faults, n);
    }
    hide Pipeline.RunStage;
  }

  lemma StageKeepsStarved(
    m: Machine, cfg: Config, x: string, freshCa: nat, faults: set<Call>, n: string, k: PolicyKey)
    requires WellAssigned(m) && Starved(m, n, k) && x in m.serverRuns && m.serverRuns[x].stage < STAGES
    ensures Starved(AfterServerStage(m, cfg, x, freshCa, faults), n, k)
  {
    hide PodsOf;
    hide Inactive;
    var run := m.serverRuns[x];
    StageReplicas(run.stage, m.store, cfg, run.job, run.root, freshCa, faults, n);
    hide Pipeline.RunStage;
  }

  lemma EndServerKeepsStarved(m: Machine, x: string, fail: bool, n: string, k: PolicyKey)
    requires Starved(m, n, k) && x in m.serverRuns
    ensures Starved(AfterEndServer(m, x, fail), n, k)
  {
    hide PodsOf;
    hide Inactive;
  }

  lemma MarksKeepInactive(
    policies: map<PolicyKey, Policy>, policies': map<PolicyKey, Policy>,
    runs: map<PolicyKey, PolicyController.PolicyRun>, n: string, k: PolicyKey)
    requires Inactive(policies, runs, n, k) && Marks(policies, policies')
    ensures Inactive(policies', runs, n, k)
  {
  }

  lemma TeardownKeepsStarved(
    m: Machine, x: string, listed: seq<PolicyKey>, faults: set<Call>, n: string, k: PolicyKey)
    requires Starved(m, n, k) && x in m.store.servers && Enumerates(listed, Pipeline.BoundKeys(m.store, x))
    ensures Starved(m.(store := AfterTearDownServer(m.store, x, listed, faults)), n, k)
  {
    TeardownEffect(m.store, x, listed, faults);
    hide Pipeline.ReconcileDeletion;
    hide NameWithPrefix;
    hide PodsOf;
    hide Pipeline.OwnsNothing;
    MarksKeepInactive(m.store.policies, AfterTearDownServer(m.store, x, listed, faults).policies, m.policyRuns, n, k);
    hide Marks;
    hide Inactive;
  }

  // ------------------------------------------------------------ the policy's reconciler

  /** Without a pod the gate is shut. */
  lemma NoPodsShutGate(s: Store, n: string, d: Deployment, u: string, listed: seq<nat>, faults: set<Call>)
    requires PodsOf(s.pods, d.serverLabel) == {}
    ensures !PolicyController.IsUniquelyReachable(s, n, d, u, listed, faults)
  {
    hide ConfigMaps.Serves;
    forall p | p in s.pods
      ensures s.pods[p].server != d.serverLabel
    {
      assert p !in PodsOf(s.pods, d.serverLabel);
    }
  }

  lemma PreparedInactive(s: Store, k: PolicyKey, p: Policy, listed: seq<nat>, faults: set<Call>, n: string)
    requires PodsOf(s.pods, n) == {} && p.spec.policyServer == n && p.status.state != Active
    requires n in s.deployments ==> s.deployments[n].serverLabel == n
    ensures var run := PolicyController.Prepare(s, k, p, listed, faults);
            run.todo.None? && run.policy.status.state != Active
  {
    hide UniqueName;
    if n in s.deployments {
      NoPodsShutGate(s, n, s.deployments[n], UniqueName(k), listed, faults);
    }
    hide PolicyController.IsUniquelyReachable;
  }

  lemma BeginPolicyKeepsStarved(
    m: Machine, x: PolicyKey, listed: seq<nat>, faults: set<Call>, n: string, k: PolicyKey)
    requires WellAssigned(m) && Starved(m, n, k) && x in m.store.policies
    ensures Starved(AfterBeginPolicy(m, x, listed, faults), n, k)
  {
    if x == k {
      PreparedInactive(m.store, k, m.store.policies[k], listed, faults, n);
    }
    hide PolicyController.Prepare;
    hide PodsOf;
    hide AsksForNone;
  }

  lemma PublishKeepsStarved(m: Machine, cfg: Config, x: PolicyKey, faults: set<Call>, n: string, k: PolicyKey)
    requires Starved(m, n, k) && x in m.policyRuns && m.policyRuns[x].todo.Some?
    ensures Starved(AfterPublishPolicy(m, cfg, x, faults), n, k)
  {
    PolicyRunChanges.PublishKeepsPolicies(m.store, cfg, x, m.policyRuns[x], faults);
    hide PolicyController.Publish;
    hide PodsOf;
    hide AsksForNone;
  }

  lemma EndPolicyKeepsStarved(m: Machine, x: PolicyKey, faults: set<Call>, n: string, k: PolicyKey)
    requires WellAssigned(m) && Starved(m, n, k) && x in m.policyRuns
    ensures Starved(AfterEndPolicy(m, x, faults), n, k)
  {
    PolicyRunChanges.FinishWrites(m.store, x, m.policyRuns[x], faults);
    PolicyRunChanges.ObservedKeepsDecision(m.store, x, m.policyRuns[x].policy, faults);
    hide PolicyController.Finish;
    hide PolicyController.ObservedStatus;
    hide PodsOf;
    hide AsksForNone;
  }

  lemma FinalizeKeepsStarved(m: Machine, cfg: Config, x: PolicyKey, faults: set<Call>, n: string, k: PolicyKey)
    requires Starved(m, n, k) && x in m.store.policies && m.store.policies[x].deleting
    ensures Starved(m.(store := AfterFinalizePolicy(m.store, cfg, x, faults)), n, k)
  {
    hide UniqueName;
    hide PolicyController.ReconcilePolicyDeletion;
    hide PolicyRunChanges.HookRemoved;
    hide PolicyChanges.Finalizes;
    hide PodsOf;
    hide AsksForNone;
    hide Inactive;
    PolicyRunChanges.FinalizeWrites(m.store, cfg, x, faults);
    var policies' := AfterFinalizePolicy(m.store, cfg, x, faults).policies;
    if policies' != m.store.policies {
      FinalizedKeepsInactive(m.store.policies, policies', x, m.policyRuns, n, k);
    }
  }

  lemma FinalizedKeepsInactive(
    policies: map<PolicyKey, Policy>, policies': map<PolicyKey, Policy>, x: PolicyKey,
    runs: map<PolicyKey, PolicyController.PolicyRun>, n: string, k: PolicyKey)
    requires Inactive(policies, runs, n, k) && PolicyChanges.Finalizes(policies, policies', x)
    ensures Inactive(policies', runs, n, k)
  {
  }

  // ------------------------------------------------------------------------- every step

  /** Runs are of the servers and policies they are kept under, and deployments of theirs. */
  ghost predicate WellAssigned(m: Machine) {
    && (forall n :: n in m.serverRuns ==> m.serverRuns[n].job.name == n)
    && (forall k :: k in m.policyRuns ==> k in m.store.policies)
    && (forall n :: n in m.store.deployments ==> m.store.deployments[n].serverLabel == n)
  }

  lemma InvariantAssigns(m: Machine)
    requires Invariant(m)
    ensures WellAssigned(m)
  {
    forall n | n in m.store.deployments
      ensures m.store.deployments[n].serverLabel == n
    {
      assert GoodDeployment(m.store.deployments[n], n, m.store.rv, m.store.configMaps);
    }
  }

  lemma ControllerKeepsStarved(m: Machine, cfg: Config, step: Step, n: string, k: PolicyKey)
    requires WellAssigned(m) && Starved(m, n, k) && Enabled(m, cfg, step) && IsControllerStep(step)
    ensures Starved(Apply(m, cfg, step), n, k)
  {
    hide Starved;
    hide WellAssigned;
    hide AfterBeginServer;
    hide AfterServerStage;
    hide AfterEndServer;
    hide AfterTearDownServer;
    hide AfterBeginPolicy;
    hide AfterPublishPolicy;
    hide AfterEndPolicy;
    hide AfterFinalizePolicy;
    match step
    case BeginServer(x, listed) => BeginServerKeepsStarved(m, x, listed, n, k);
    case ServerStage(x, freshCa, faults) => StageKeepsStarved(m, cfg, x, freshCa, faults, n, k);
    case EndServer(x, fail) => EndServerKeepsStarved(m, x, fail, n, k);
    case TearDownServer(x, listed, faults) => TeardownKeepsStarved(m, x, listed, faults, n, k);
    case BeginPolicy(x, listed, faults) => BeginPolicyKeepsStarved(m, x, listed, faults, n, k);
    case PublishPolicy(x, faults) => PublishKeepsStarved(m, cfg, x, faults, n, k);
    case EndPolicy(x, faults) => EndPolicyKeepsStarved(m, x, faults, n, k);
    case FinalizePolicy(x, faults) => FinalizeKeepsStarved(m, cfg, x, faults, n, k);
    case Crash => CrashKeepsStarved(m, n, k);
  }

  lemma CrashKeepsStarved(m: Machine, n: string, k: PolicyKey)
    requires Starved(m, n, k)
    ensures Starved(Machine(m.store, map[], map[]), n, k)
  {
    hide PodsOf;
  }

  /** Whatever controller and cluster do by themselves, for however long, the policy does not become active. */
  lemma {:induction false} StarvedStaysInactive(
    cfg: Config, m: Machine, steps: seq<Step>, m': Machine, n: string, k: PolicyKey)
    requires Safety.Reachable(cfg, m) && Starved(m, n, k)
    requires Leads(cfg, m, steps, m') && Liveness.OnlyOwn(steps)
    ensures Starved(m', n, k) && !Safety.InState(m', k, Active)
    decreases |steps|
  {
    hide Apply;
    hide Enabled;
    hide AsAskedFor;
    hide Disciplined;
    hide Safety.Reachable;
    hide PodsOf;
    hide AsksForNone;
    if steps != [] {
      var step := steps[0];
      Safety.ReachableInvariant(cfg, m);
      InvariantAssigns(m);
      hide Invariant;
      hide WellAssigned;
      Liveness.OwnStepIsDisciplined(cfg, m, step);
      Liveness.ReachableStep(cfg, m, step);
      if IsRolloutStep(step) {
        RolloutKeepsStarved(m, cfg, step, n, k);
      } else {
        ControllerKeepsStarved(m, cfg, step, n, k);
      }
      StarvedStaysInactive(cfg, Apply(m, cfg, step), steps[1..], m', n, k);
    }
  }

  /**
   * For a live inactive policy and its live server, neither being worked on, that has no pods and no deployment asking for
   * any: steps that no user takes can make the policy active exactly when the server asks for at least one replica.
   */
  lemma BecomesActiveExactly(cfg: Config, m: Machine, n: string, k: PolicyKey)
    requires Safety.Reachable(cfg, m)
    requires n != "" && n in m.store.servers && !m.store.servers[n].deleting && n !in m.serverRuns
    requires IsLive(m.store.policies, k) && m.store.policies[k].spec.policyServer == n && k !in m.policyRuns
    requires m.store.policies[k].status.state != Active
    requires PodsOf(m.store.pods, n) == {} && (n in m.store.deployments ==> m.store.deployments[n].replicas <= 0)
    ensures (exists steps, m' ::
               Leads(cfg, m, steps, m') && Liveness.OnlyOwn(steps) && Safety.InState(m', k, Active)) <==>
            m.store.servers[n].spec.replicas > 0
  {
    hide Leads;
    hide Safety.Reachable;
    hide PodsOf;
    if m.store.servers[n].spec.replicas > 0 {
      var steps, m', listed := Liveness.PolicyCanBecomeActive(cfg, m, n, k);
      hide Liveness.InOrder;
      hide UniqueName;
      assert Safety.InState(m', k, Active);
    } else {
      assert Starved(m, n, k);
      forall steps, m' | Leads(cfg, m, steps, m') && Liveness.OnlyOwn(steps)
        ensures !Safety.InState(m', k, Active)
      {
        StarvedStaysInactive(cfg, m, steps, m', n, k);
      }
    }
  }
}
