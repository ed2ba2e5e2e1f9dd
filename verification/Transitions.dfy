/** Every step of a disciplined run keeps the invariant, and what single steps may never do. */
module Transitions {
  import opened Common
  import opened Naming
  import opened Model
  import opened Effects
  import opened Protocol
  import opened Invariants
  import Admission
  import Api
  import ConfigMaps
  import Deployments
  import Pipeline
  import PolicyChanges
  import PolicyController
  import PolicyRunChanges
  import ServerChanges
  import Steps

  // ------------------------------------------------------------------------ every step

  lemma UserStepKeepsInvariant(m: Machine, cfg: Config, step: Step)
    requires Invariant(m) && Enabled(m, cfg, step) && Disciplined(m, cfg, step) && IsUserStep(step)
    ensures Invariant(Apply(m, cfg, step))
  {
    hide Invariant;
    hide CanSync;
    hide Enumerates;
    hide Admission.AdmitPolicyUpdate;
    hide ConfigMaps.ServedPolicies;
    hide AfterCreatePolicy;
    hide AfterUpdatePolicy;
    hide AfterDeletePolicy;
    hide AfterCreateServer;
    hide AfterUpdateServer;
    hide AfterDeleteServer;
    hide AfterRestartRollout;
    match step
    case CreatePolicy(k, spec, finalizers) => Steps.CreatePolicyKeeps(m, cfg, k, spec, finalizers);
    case UpdatePolicy(k, spec, finalizers) => Steps.UpdatePolicyKeeps(m, cfg, k, spec, finalizers);
    case DeletePolicy(k) => Steps.DeletePolicyKeeps(m, k);
    case CreateServer(n, spec, finalizers) => Steps.CreateServerKeeps(m, n, spec, finalizers);
    case UpdateServer(n, spec, finalizers) => Steps.UpdateServerKeeps(m, n, spec, finalizers);
    case DeleteServer(n) => Steps.DeleteServerKeeps(m, n);
    case RestartRollout(n, template) => Steps.RestartRolloutKeeps(m, n, template);
  }

  lemma RolloutStepKeepsInvariant(m: Machine, cfg: Config, step: Step)
    requires Invariant(m) && Enabled(m, cfg, step) && Disciplined(m, cfg, step) && IsRolloutStep(step)
    ensures Invariant(Apply(m, cfg, step))
  {
    hide Invariant;
    hide NotUnderStaleRun;
    hide CanSync;
    hide Enumerates;
    hide Admission.AdmitPolicyUpdate;
    hide ConfigMaps.ServedPolicies;
    hide AfterSyncReplicaSet;
    hide AfterSyncRevision;
    hide AfterDeleteReplicaSet;
    hide AfterCreatePod;
    hide AfterLoadPod;
    hide AfterSetPodConditions;
    hide AfterDeletePod;
    match step
    case SyncReplicaSet(n, hash, revision) => Steps.SyncReplicaSetKeeps(m, n, hash, revision);
    case SyncRevision(n, hash) => Steps.SyncRevisionKeeps(m, n, hash);
    case DeleteReplicaSet(hash) => Steps.DeleteReplicaSetKeeps(m, hash);
    case CreatePod(hash) => Steps.CreatePodKeeps(m, hash);
    case LoadPod(pod) => Steps.LoadPodKeeps(m, pod);
    case SetPodConditions(pod, conditions) => Steps.SetPodConditionsKeeps(m, pod, conditions);
    case DeletePod(pod) => Steps.DeletePodKeeps(m, pod);
  }

  lemma ControllerStepKeepsInvariant(m: Machine, cfg: Config, step: Step)
    requires Invariant(m) && Enabled(m, cfg, step) && Disciplined(m, cfg, step) && IsControllerStep(step)
    ensures Invariant(Apply(m, cfg, step))
  {
    hide Invariant;
    hide CanSync;
    hide Enumerates;
    hide AfterBeginServer;
    hide AfterServerStage;
    hide AfterEndServer;
    hide AfterTearDownServer;
    hide AfterBeginPolicy;
    hide AfterPublishPolicy;
    hide AfterEndPolicy;
    hide AfterFinalizePolicy;
    match step
    case BeginServer(n, listed) => Steps.BeginServerKeeps(m, n, listed);
    case ServerStage(n, freshCa, faults) => Steps.ServerStageKeeps(m, cfg, n, freshCa, faults);
    case EndServer(n, fail) => Steps.EndServerKeeps(m, n, fail);
    case TearDownServer(n, listed, faults) => Steps.TearDownServerKeeps(m, n, listed, faults);
    case BeginPolicy(k, listed, faults) => Steps.BeginPolicyKeeps(m, k, listed, faults);
    case PublishPolicy(k, faults) => Steps.PublishPolicyKeeps(m, cfg, k, faults);
    case EndPolicy(k, faults) => Steps.EndPolicyKeeps(m, k, faults);
    case FinalizePolicy(k, faults) => Steps.FinalizePolicyKeeps(m, cfg, k, faults);
    case Crash => Steps.CrashKeeps(m);
  }

  lemma InvariantStep(m: Machine, cfg: Config, step: Step)
    requires Invariant(m) && Enabled(m, cfg, step) && Disciplined(m, cfg, step)
    ensures Invariant(Apply(m, cfg, step))
  {
    hide Invariant;
    hide Enabled;
    hide Disciplined;
    hide Apply;
    if IsUserStep(step) {
      UserStepKeepsInvariant(m, cfg, step);
    } else if IsRolloutStep(step) {
      RolloutStepKeepsInvariant(m, cfg, step);
    } else {
      ControllerStepKeepsInvariant(m, cfg, step);
    }
  }

  // ----------------------------------------------------------------- what steps leave alone

  /** Steps that write the parts of the store which other steps leave alone. */
  predicate MayChangeServers(step: Step) {
    step.CreateServer? || step.UpdateServer? || step.DeleteServer? || step.EndServer? || step.TearDownServer?
  }

  predicate MayChangeDeployments(step: Step) {
    step.RestartRollout? || step.SyncRevision? || step.ServerStage? || step.TearDownServer?
  }

  predicate MayChangePolicies(step: Step) {
    step.CreatePolicy? || step.UpdatePolicy? || step.DeletePolicy? || step.TearDownServer? || step.EndPolicy? ||
    step.FinalizePolicy?
  }

  /** Servers, deployments, policies and secrets stay as they are, apart from those that may change. */
  predicate Frame(s: Store, s': Store, servers: bool, deployments: bool, policies: bool, secrets: bool) {
    && (!servers ==> s'.servers == s.servers)
    && (!deployments ==> s'.deployments == s.deployments)
    && (!policies ==> s'.policies == s.policies)
    && (!secrets ==> s'.secrets == s.secrets)
  }

  lemma StageFrame(m: Machine, cfg: Config, n: string, freshCa: nat, faults: set<Call>)
    requires n in m.serverRuns && m.serverRuns[n].stage < STAGES
    ensures Frame(m.store, AfterServerStage(m, cfg, n, freshCa, faults).store, false, true, false, true)
  {
    hide Pipeline.RunStage;
    hide StageWrites;
    var run := m.serverRuns[n];
    var (w, root') := Pipeline.RunStage(run.stage, m.store, cfg, run.job, run.root, freshCa, faults);
    StageEffect(run.stage, m.store, cfg, run.job, run.root, freshCa, faults);
    StageKeepsObjects(run.stage, m.store, w.store, run.job, run.root, root', w.error.None?);
  }

  lemma PublishFrame(m: Machine, cfg: Config, k: PolicyKey, faults: set<Call>)
    requires k in m.policyRuns && m.policyRuns[k].todo.Some?
    ensures Frame(m.store, AfterPublishPolicy(m, cfg, k, faults).store, false, false, false, false)
  {
    hide UniqueName;
    hide PolicyController.Publish;
    PolicyRunChanges.PublishWrites(m.store, cfg, k, m.policyRuns[k], faults);
  }

  lemma FinishFrame(m: Machine, k: PolicyKey, faults: set<Call>)
    requires k in m.policyRuns
    ensures Frame(m.store, AfterEndPolicy(m, k, faults).store, false, false, true, false)
  {
    hide PolicyController.ObservedStatus;
  }

  lemma FinalizeFrame(s: Store, cfg: Config, k: PolicyKey, faults: set<Call>)
    requires k in s.policies && s.policies[k].deleting
    ensures Frame(s, AfterFinalizePolicy(s, cfg, k, faults), false, false, true, false)
  {
    hide UniqueName;
    hide PolicyController.ReconcilePolicyDeletion;
    PolicyRunChanges.FinalizeWrites(s, cfg, k, faults);
  }

  lemma PolicyUserFrame(
    s: Store, cfg: Config, k: PolicyKey, spec: PolicySpec, finalizers: set<Finalizer>)
    ensures Frame(s, AfterCreatePolicy(s, cfg, k, spec, finalizers), false, false, true, false)
    ensures Frame(s, AfterDeletePolicy(s, k), false, false, true, false)
    ensures k in s.policies && Admission.AdmitPolicyUpdate(cfg, s.policies[k], spec, finalizers).Some? ==>
              Frame(s, AfterUpdatePolicy(s, cfg, k, spec, finalizers), false, false, true, false)
  {
    hide Admission.AdmitPolicyCreate;
    hide Admission.AdmitPolicyUpdate;
  }

  lemma ServerUserFrame(s: Store, n: string, spec: ServerSpec, finalizers: set<Finalizer>)
    ensures Frame(s, AfterCreateServer(s, n, spec, finalizers), true, false, false, false)
    ensures Frame(s, AfterDeleteServer(s, n), true, false, false, false)
    ensures n in s.servers ==> Frame(s, AfterUpdateServer(s, n, spec, finalizers), true, false, false, false)
  {
    hide Admission.DefaultServer;
    hide Api.PutServer;
  }

  lemma BeginServerFrame(m: Machine, n: string, listed: seq<PolicyKey>)
    requires n in m.store.servers
    ensures AfterBeginServer(m, n, listed).store == m.store
  {
    hide Pipeline.LiveOnly;
  }

  lemma BeginPolicyFrame(m: Machine, k: PolicyKey, listed: seq<nat>, faults: set<Call>)
    requires k in m.store.policies
    ensures AfterBeginPolicy(m, k, listed, faults).store == m.store
  {
    hide PolicyController.Prepare;
  }

  lemma EndServerFrame(m: Machine, n: string, fail: bool)
    requires n in m.serverRuns
    ensures Frame(m.store, AfterEndServer(m, n, fail).store, true, false, false, false)
  {
  }

  ghost predicate StepIsFramed(m: Machine, cfg: Config, step: Step)
    requires Enabled(m, cfg, step)
  {
    Frame(m.store, Apply(m, cfg, step).store, MayChangeServers(step), MayChangeDeployments(step),
          MayChangePolicies(step), step.ServerStage? || step.TearDownServer?)
  }

  lemma UserStepFrame(m: Machine, cfg: Config, step: Step)
    requires Enabled(m, cfg, step) && IsUserStep(step)
    ensures StepIsFramed(m, cfg, step)
  {
    hide CanSync;
    hide Enumerates;
    hide Admission.AdmitPolicyUpdate;
    hide ConfigMaps.ServedPolicies;
    hide AfterCreatePolicy;
    hide AfterUpdatePolicy;
    hide AfterDeletePolicy;
    hide AfterCreateServer;
    hide AfterUpdateServer;
    hide AfterDeleteServer;
    match step
    case CreatePolicy(k, spec, finalizers) => PolicyUserFrame(m.store, cfg, k, spec, finalizers);
    case UpdatePolicy(k, spec, finalizers) => PolicyUserFrame(m.store, cfg, k, spec, finalizers);
    case DeletePolicy(k) => PolicyUserFrame(m.store, cfg, k, m.store.policies[k].spec, {});
    case CreateServer(n, spec, finalizers) => ServerUserFrame(m.store, n, spec, finalizers);
    case UpdateServer(n, spec, finalizers) => ServerUserFrame(m.store, n, spec, finalizers);
    case DeleteServer(n) => ServerUserFrame(m.store, n, m.store.servers[n].spec, {});
    case RestartRollout(_, _) =>
  }

  lemma RolloutStepFrame(m: Machine, cfg: Config, step: Step)
    requires Enabled(m, cfg, step) && IsRolloutStep(step)
    ensures StepIsFramed(m, cfg, step)
  {
    hide CanSync;
    hide Enumerates;
    hide Admission.AdmitPolicyUpdate;
    hide ConfigMaps.ServedPolicies;
    hide AfterEndServer;
    hide AfterTearDownServer;
    hide AfterPublishPolicy;
    hide AfterEndPolicy;
    hide AfterFinalizePolicy;
    hide AfterFinalizePolicy;
  }

  lemma ControllerStepFrame(m: Machine, cfg: Config, step: Step)
    requires Enabled(m, cfg, step) && IsControllerStep(step)
    ensures StepIsFramed(m, cfg, step)
  {
    hide CanSync;
    hide Enumerates;
    hide AfterBeginServer;
    hide AfterServerStage;
    hide AfterEndServer;
    hide AfterBeginPolicy;
    hide AfterPublishPolicy;
    hide AfterEndPolicy;
    hide AfterFinalizePolicy;
    match step
    case ServerStage(n, freshCa, faults) => StageFrame(m, cfg, n, freshCa, faults);
    case EndServer(n, fail) => EndServerFrame(m, n, fail);
    case PublishPolicy(k, faults) => PublishFrame(m, cfg, k, faults);
    case EndPolicy(k, faults) => FinishFrame(m, k, faults);
    case FinalizePolicy(k, faults) => FinalizeFrame(m.store, cfg, k, faults);
    case BeginServer(n, listed) => BeginServerFrame(m, n, listed);
    case BeginPolicy(k, listed, faults) => BeginPolicyFrame(m, k, listed, faults);
    case TearDownServer(_, _, _) =>
    case Crash =>
  }

  /** Every step leaves alone what it is not among the few to change. */
  lemma StepFrame(m: Machine, cfg: Config, step: Step)
    requires Enabled(m, cfg, step)
    ensures Frame(m.store, Apply(m, cfg, step).store, MayChangeServers(step), MayChangeDeployments(step),
                  MayChangePolicies(step), step.ServerStage? || step.TearDownServer?)
  {
    hide Enabled;
    hide Apply;
    hide Frame;
    if IsUserStep(step) {
      UserStepFrame(m, cfg, step);
    } else if IsRolloutStep(step) {
      RolloutStepFrame(m, cfg, step);
    } else {
      ControllerStepFrame(m, cfg, step);
    }
  }

  // --------------------------------------------------------------- what steps do to what is left

  /** The root secret, once stored, stays as it is. */
  predicate RootKept(s: Store, s': Store) {
    ROOT_SECRET in s.secrets ==> ROOT_SECRET in s'.secrets && s'.secrets[ROOT_SECRET] == s.secrets[ROOT_SECRET]
  }

  lemma StageWriteKeepsRoot(
    i: nat, s: Store, s': Store, job: Pipeline.Job, root: Secret, root': Secret, ok: bool)
    requires StageWrites(i, s, s', job, root, root', ok)
    ensures RootKept(s, s')
  {
    hide NameWithPrefix;
    hide ConfigMapStageWrites;
    hide DeploymentStageWrites;
    hide ServiceStageWrites;
    StageKeepsObjects(i, s, s', job, root, root', ok);
  }

  lemma StageKeepsRoot(m: Machine, cfg: Config, n: string, freshCa: nat, faults: set<Call>)
    requires n in m.serverRuns && m.serverRuns[n].stage < STAGES
    ensures RootKept(m.store, AfterServerStage(m, cfg, n, freshCa, faults).store)
  {
    hide Pipeline.RunStage;
    hide StageWrites;
    hide RootKept;
    var run := m.serverRuns[n];
    var (w, root') := Pipeline.RunStage(run.stage, m.store, cfg, run.job, run.root, freshCa, faults);
    StageEffect(run.stage, m.store, cfg, run.job, run.root, freshCa, faults);
    StageWriteKeepsRoot(run.stage, m.store, w.store, run.job, run.root, root', w.error.None?);
  }

  lemma TeardownKeepsRoot(s: Store, n: string, listed: seq<PolicyKey>, faults: set<Call>)
    requires n in s.servers && n != "root-ca" && Enumerates(listed, Pipeline.BoundKeys(s, n))
    ensures RootKept(s, AfterTearDownServer(s, n, listed, faults))
  {
    TeardownEffect(s, n, listed, faults);
    hide Pipeline.ReconcileDeletion;
    ServerNames(n, n);
    hide NameWithPrefix;
  }

  lemma StepKeepsRoot(m: Machine, cfg: Config, step: Step)
    requires Enabled(m, cfg, step) && "root-ca" !in m.store.servers
    ensures RootKept(m.store, Apply(m, cfg, step).store)
  {
    if step.ServerStage? {
      hide AfterServerStage;
      StageKeepsRoot(m, cfg, step.n, step.freshCa, step.faults);
    } else if step.TearDownServer? {
      hide AfterTearDownServer;
      TeardownKeepsRoot(m.store, step.n, step.listed, step.faults);
    } else {
      StepFrame(m, cfg, step);
      hide Apply;
      hide Enabled;
    }
  }

  ghost predicate NoLivePolicyBound(s: Store, n: string) {
    forall k :: !Pipeline.LiveAndBound(s, k, n)
  }

  /** When the controller's finalizer comes off server `n`, nothing of it is left and no live policy is bound to it. */
  ghost predicate LetsGo(s: Store, s': Store, n: string) {
    HoldsServer(s.servers, n) && !HoldsServer(s'.servers, n) ==>
      Pipeline.OwnsNothing(s', n) && NoLivePolicyBound(s', n)
  }

  lemma TeardownLetsGo(s: Store, x: string, listed: seq<PolicyKey>, faults: set<Call>, n: string)
    requires x in s.servers && Enumerates(listed, Pipeline.BoundKeys(s, x))
    ensures LetsGo(s, AfterTearDownServer(s, x, listed, faults), n)
  {
    TeardownEffect(s, x, listed, faults);
    var s' := AfterTearDownServer(s, x, listed, faults);
    hide Pipeline.ReconcileDeletion;
    hide NameWithPrefix;
    hide Pipeline.OwnsNothing;
    if HoldsServer(s.servers, n) && !HoldsServer(s'.servers, n) {
      forall k
        ensures !Pipeline.LiveAndBound(s', k, n)
      {
        assert !Pipeline.LiveAndBound(s, k, n);
      }
    }
  }

  lemma StepLetsGo(m: Machine, cfg: Config, step: Step, n: string)
    requires LiveServersHeld(m.store.servers) && Enabled(m, cfg, step) && Disciplined(m, cfg, step)
    ensures LetsGo(m.store, Apply(m, cfg, step).store, n)
    ensures HoldsServer(m.store.servers, n) && !HoldsServer(Apply(m, cfg, step).store.servers, n) ==>
              step.TearDownServer? && step.n == n
  {
    hide Pipeline.OwnsNothing;
    hide NoLivePolicyBound;
    if step.CreateServer? {
      ServerChanges.CreateServerKeeps(m.store, step.n, step.serverSpec, step.finalizers);
      hide AfterCreateServer;
    } else if step.UpdateServer? {
      ServerChanges.UpdateServerKeeps(m.store, step.n, step.serverSpec, step.finalizers);
      hide AfterUpdateServer;
    } else if step.DeleteServer? {
      ServerChanges.DeleteServerKeeps(m.store, step.n);
      hide AfterDeleteServer;
    } else if step.EndServer? {
      ServerChanges.StatusUpdateKeeps(m.store, step.n, m.serverRuns[step.n].conditions, step.fail);
    } else if step.TearDownServer? {
      TeardownLetsGo(m.store, step.n, step.listed, step.faults, n);
      TeardownOfOneServer(m.store, step.n, step.listed, step.faults, n);
      hide AfterTearDownServer;
    } else {
      StepFrame(m, cfg, step);
      hide Apply;
      hide Enabled;
    }
  }

  lemma TeardownOfOneServer(s: Store, x: string, listed: seq<PolicyKey>, faults: set<Call>, n: string)
    requires x in s.servers && Enumerates(listed, Pipeline.BoundKeys(s, x))
    ensures n != x ==> HoldsServer(AfterTearDownServer(s, x, listed, faults).servers, n) == HoldsServer(s.servers, n)
  {
    TeardownEffect(s, x, listed, faults);
    hide Pipeline.ReconcileDeletion;
    hide NameWithPrefix;
  }

  /** A deployment's configuration version is its former one or its ConfigMap's. */
  ghost predicate VersionFromConfigMap(s: Store, s': Store) {
    forall n :: n in s'.deployments ==>
      || (n in s.deployments && s'.deployments[n].configVersion == s.deployments[n].configVersion)
      || (n in s.configMaps && s'.deployments[n].configVersion == Some(s.configMaps[n].rv))
  }

  lemma DeploymentStageVersions(s: Store, s': Store, n: string)
    requires DeploymentStageWrites(s, s', n)
    ensures VersionFromConfigMap(s, s')
  {
    if s' != s {
      var d :| Fits(d, n, s.configMaps[n].rv) && Deployments.WritesDeployment(s, s', n, d);
    }
  }

  lemma StageWriteVersions(
    i: nat, s: Store, s': Store, job: Pipeline.Job, root: Secret, root': Secret, ok: bool)
    requires StageWrites(i, s, s', job, root, root', ok)
    ensures VersionFromConfigMap(s, s')
  {
    hide NameWithPrefix;
    hide RootStageWrites;
    hide ServingStageWrites;
    hide ConfigMapStageWrites;
    hide DeploymentStageWrites;
    hide ServiceStageWrites;
    StageKeepsObjects(i, s, s', job, root, root', ok);
    if i == DEPLOYMENT_RECONCILED {
      DeploymentStageVersions(s, s', job.name);
    }
  }

  lemma StageVersions(m: Machine, cfg: Config, n: string, freshCa: nat, faults: set<Call>)
    requires n in m.serverRuns && m.serverRuns[n].stage < STAGES
    ensures VersionFromConfigMap(m.store, AfterServerStage(m, cfg, n, freshCa, faults).store)
  {
    hide Pipeline.RunStage;
    hide StageWrites;
    hide VersionFromConfigMap;
    var run := m.serverRuns[n];
    var (w, root') := Pipeline.RunStage(run.stage, m.store, cfg, run.job, run.root, freshCa, faults);
    StageEffect(run.stage, m.store, cfg, run.job, run.root, freshCa, faults);
    StageWriteVersions(run.stage, m.store, w.store, run.job, run.root, root', w.error.None?);
  }

  lemma TeardownVersions(s: Store, n: string, listed: seq<PolicyKey>, faults: set<Call>)
    requires n in s.servers && Enumerates(listed, Pipeline.BoundKeys(s, n))
    ensures VersionFromConfigMap(s, AfterTearDownServer(s, n, listed, faults))
  {
    TeardownEffect(s, n, listed, faults);
    hide Pipeline.ReconcileDeletion;
    hide NameWithPrefix;
  }

  lemma StepVersions(m: Machine, cfg: Config, step: Step)
    requires Enabled(m, cfg, step)
    ensures VersionFromConfigMap(m.store, Apply(m, cfg, step).store)
  {
    if step.ServerStage? {
      hide AfterServerStage;
      StageVersions(m, cfg, step.n, step.freshCa, step.faults);
    } else if step.TearDownServer? {
      hide AfterTearDownServer;
      TeardownVersions(m.store, step.n, step.listed, step.faults);
    } else if step.RestartRollout? || step.SyncRevision? {
    } else {
      StepFrame(m, cfg, step);
      hide Apply;
      hide Enabled;
    }
  }

  /** A live policy that stays live leaves the active state only for "scheduled". */
  ghost predicate NeverDemoted(before: map<PolicyKey, Policy>, after: map<PolicyKey, Policy>) {
    forall k :: IsLive(before, k) && IsLive(after, k) && before[k].status.state == Active ==>
      after[k].status.state in {Active, Scheduled}
  }

  lemma FinishNeverDemotes(m: Machine, k: PolicyKey, faults: set<Call>)
    requires k in m.policyRuns && StatusTrue(m) && k in m.store.policies
    ensures NeverDemoted(m.store.policies, AfterEndPolicy(m, k, faults).store.policies)
  {
    hide GoodStatus;
    PolicyRunChanges.FinishWrites(m.store, k, m.policyRuns[k], faults);
    PolicyRunChanges.ObservedKeepsDecision(m.store, k, m.policyRuns[k].policy, faults);
    hide PolicyController.Finish;
    hide PolicyController.ObservedStatus;
  }

  lemma FinalizeNeverDemotes(s: Store, cfg: Config, k: PolicyKey, faults: set<Call>)
    requires k in s.policies && s.policies[k].deleting
    ensures NeverDemoted(s.policies, AfterFinalizePolicy(s, cfg, k, faults).policies)
  {
    hide UniqueName;
    hide PolicyController.ReconcilePolicyDeletion;
    PolicyRunChanges.FinalizeWrites(s, cfg, k, faults);
  }

  lemma StepNeverDemotes(m: Machine, cfg: Config, step: Step)
    requires LivePoliciesHeld(m.store.policies) && PolicyRunsHeld(m.policyRuns, m.store.policies) && StatusTrue(m)
    requires Enabled(m, cfg, step) && Disciplined(m, cfg, step)
    ensures NeverDemoted(m.store.policies, Apply(m, cfg, step).store.policies)
  {
    hide CanSync;
    hide UniqueName;
    hide ConfigMaps.ServedPolicies;
    hide NotUnderStaleRun;
    if step.UpdatePolicy? {
      PolicyChanges.UpdateEvolves(m.store, cfg, step.k, step.spec, step.finalizers);
      hide AfterUpdatePolicy;
    } else if step.DeletePolicy? {
      PolicyChanges.DeleteEvolves(m.store, step.k);
      hide AfterDeletePolicy;
    } else if step.TearDownServer? {
      TeardownEffect(m.store, step.n, step.listed, step.faults);
    } else if step.EndPolicy? {
      hide AfterEndPolicy;
      FinishNeverDemotes(m, step.k, step.faults);
    } else if step.FinalizePolicy? {
      hide AfterFinalizePolicy;
      FinalizeNeverDemotes(m.store, cfg, step.k, step.faults);
    } else if step.CreatePolicy? {
    } else {
      StepFrame(m, cfg, step);
      hide Apply;
      hide Enabled;
    }
  }

  /** The policy is not new, its spec is the same, and if it was marked for deletion it is still. */
  predicate SpecKept(before: map<PolicyKey, Policy>, after: map<PolicyKey, Policy>, k: PolicyKey) {
    k in after ==> k in before && after[k].spec == before[k].spec && (before[k].deleting ==> after[k].deleting)
  }

  lemma PolicyUserStepKeepsSpec(
    s: Store, cfg: Config, x: PolicyKey, spec: PolicySpec, finalizers: set<Finalizer>, k: PolicyKey)
    ensures SpecKept(s.policies, AfterDeletePolicy(s, x).policies, k)
    ensures x != k ==> SpecKept(s.policies, AfterCreatePolicy(s, cfg, x, spec, finalizers).policies, k)
    ensures x != k && x in s.policies && Admission.AdmitPolicyUpdate(cfg, s.policies[x], spec, finalizers).Some? ==>
              SpecKept(s.policies, AfterUpdatePolicy(s, cfg, x, spec, finalizers).policies, k)
  {
    hide Admission.AdmitPolicyCreate;
    hide Admission.AdmitPolicyUpdate;
  }

  lemma TeardownKeepsSpec(s: Store, n: string, listed: seq<PolicyKey>, faults: set<Call>, k: PolicyKey)
    requires n in s.servers && Enumerates(listed, Pipeline.BoundKeys(s, n))
    ensures SpecKept(s.policies, AfterTearDownServer(s, n, listed, faults).policies, k)
  {
    TeardownEffect(s, n, listed, faults);
    hide Pipeline.ReconcileDeletion;
    hide NameWithPrefix;
    hide Pipeline.OwnsNothing;
  }

  lemma FinishKeepsSpec(m: Machine, x: PolicyKey, faults: set<Call>, k: PolicyKey)
    requires x in m.policyRuns && x in m.store.policies
    ensures SpecKept(m.store.policies, AfterEndPolicy(m, x, faults).store.policies, k)
  {
    PolicyRunChanges.FinishKeepsSpecs(m.store, x, m.policyRuns[x], faults);
    hide PolicyController.Finish;
  }

  lemma FinalizeKeepsSpec(s: Store, cfg: Config, x: PolicyKey, faults: set<Call>, k: PolicyKey)
    requires x in s.policies && s.policies[x].deleting
    ensures SpecKept(s.policies, AfterFinalizePolicy(s, cfg, x, faults).policies, k)
  {
    hide UniqueName;
    PolicyRunChanges.FinalizeWrites(s, cfg, x, faults);
    hide PolicyController.ReconcilePolicyDeletion;
    hide PolicyRunChanges.HookRemoved;
  }

  /** Only its own creation or update gives a policy a new spec, and no step takes the deletion mark off. */
  lemma StepKeepsSpec(m: Machine, cfg: Config, step: Step, k: PolicyKey)
    requires Enabled(m, cfg, step) && !((step.CreatePolicy? || step.UpdatePolicy?) && step.k == k)
    requires forall x :: x in m.policyRuns ==> x in m.store.policies
    ensures SpecKept(m.store.policies, Apply(m, cfg, step).store.policies, k)
  {
    if step.CreatePolicy? || step.UpdatePolicy? {
      hide SpecKept;
      hide AfterCreatePolicy;
      hide AfterUpdatePolicy;
      PolicyUserStepKeepsSpec(m.store, cfg, step.k, step.spec, step.finalizers, k);
    } else if step.DeletePolicy? {
      hide SpecKept;
      hide AfterDeletePolicy;
      PolicyUserStepKeepsSpec(m.store, cfg, step.k, m.store.policies[step.k].spec, {}, k);
    } else if step.TearDownServer? {
      hide SpecKept;
      hide AfterTearDownServer;
      TeardownKeepsSpec(m.store, step.n, step.listed, step.faults, k);
    } else if step.FinalizePolicy? {
      hide SpecKept;
      hide AfterFinalizePolicy;
      FinalizeKeepsSpec(m.store, cfg, step.k, step.faults, k);
    } else if step.EndPolicy? {
      hide SpecKept;
      hide AfterEndPolicy;
      FinishKeepsSpec(m, step.k, step.faults, k);
    } else {
      StepFrame(m, cfg, step);
      hide Apply;
      hide Enabled;
    }
  }
}
