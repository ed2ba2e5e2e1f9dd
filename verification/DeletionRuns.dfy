/**
 * Deletion in the midst of everything else: whatever other servers, policies, rollouts, pods, users and crashes do in
 * between, the deletion of a server takes boundedly many steps, and it cannot get stuck before everything is gone.
 */
module DeletionRuns {
  import opened Common
  import opened Naming
  import opened Model
  import opened Effects
  import opened Protocol
  import opened Invariants
  import opened Deletion
  import Admission
  import ConfigMaps
  import Deployments
  import Pipeline
  import PolicyChanges
  import PolicyController
  import PolicyRunChanges
  import Safety
  import Secrets
  import Transitions
  import Webhooks

  /** Users leave the end of server `n` alone: no new server or policy of it, and no finalizers but the controller's. */
  predicate Spares(m: Machine, cfg: Config, n: string, step: Step)
    requires Enabled(m, cfg, step)
  {
    match step
    case CreatePolicy(_, spec, finalizers) =>
      Admission.AdmitPolicyCreate(cfg, spec, finalizers).spec.policyServer != n
    case UpdatePolicy(k, _, finalizers) =>
      m.store.policies[k].spec.policyServer == n ==> finalizers <= {Kubewarden}
    case CreateServer(x, _, _) => x != n
    case UpdateServer(x, _, finalizers) => x == n ==> finalizers <= {Kubewarden}
    case _ => true
  }

  /** A policy of `n` is taken up once more. */
  predicate BeginsFor(m: Machine, n: string, step: Step) {
    step.BeginPolicy? && Pipeline.BoundTo(m.store, step.k, n)
  }

  // ------------------------------------------------------------------ what makes no new work

  /** Policies of `n` come to be neither more nor live again, and nobody else takes hold of them. */
  ghost predicate PoliciesEase(policies: map<PolicyKey, Policy>, policies': map<PolicyKey, Policy>, n: string) {
    forall k :: k in policies' && policies'[k].spec.policyServer == n ==>
      && k in policies && policies[k].spec.policyServer == n
      && (policies[k].deleting ==> policies'[k].deleting)
      && (policies[k].finalizers <= {Kubewarden} ==> policies'[k].finalizers <= {Kubewarden})
  }

  /** Server `n` stays as it was, or goes when no live policy is bound to it. */
  ghost predicate ServerEases(s: Store, s': Store, n: string) {
    && (n in s'.servers ==> n in s.servers && s'.servers[n].deleting == s.servers[n].deleting &&
                            s'.servers[n].finalizers == s.servers[n].finalizers)
    && (n in s.servers && n !in s'.servers ==> LiveKeys(s'.policies, n) == {})
  }

  predicate OwnedEases(s: Store, s': Store, n: string) {
    && (n in s'.deployments ==> n in s.deployments)
    && (NameWithPrefix(n) in s'.secrets ==> NameWithPrefix(n) in s.secrets)
    && (n in s'.services ==> n in s.services)
    && (n in s'.configMaps ==> n in s.configMaps)
  }

  ghost predicate Eases(s: Store, s': Store, n: string) {
    PoliciesEase(s.policies, s'.policies, n) && ServerEases(s, s', n) && OwnedEases(s, s', n)
  }

  ghost predicate RunsEase(m: Machine, m': Machine, n: string) {
    && (n in m'.serverRuns ==> n in m.serverRuns && m'.serverRuns[n] == m.serverRuns[n])
    && forall k :: k in m'.policyRuns && m'.policyRuns[k].policy.spec.policyServer == n ==>
         && k in m.policyRuns && m.policyRuns[k].policy.spec.policyServer == n
         && (m'.policyRuns[k].todo.Some? ==> m.policyRuns[k].todo.Some?)
  }

  /** From `m` to `m'` no work is added to what is left to do for `n`. */
  ghost predicate NoNewWork(m: Machine, m': Machine, n: string) {
    Eases(m.store, m'.store, n) && RunsEase(m, m', n)
  }

  /** Runs are of the servers and policies they are kept under. */
  ghost predicate RunsAssigned(m: Machine) {
    && (forall x :: x in m.serverRuns ==> m.serverRuns[x].job.name == x)
    && (forall k :: k in m.policyRuns ==> k in m.store.policies)
  }

  lemma EasedPoliciesCount(policies: map<PolicyKey, Policy>, policies': map<PolicyKey, Policy>, n: string)
    requires PoliciesEase(policies, policies', n)
    ensures LiveKeys(policies', n) <= LiveKeys(policies, n)
    ensures 2 * |LiveKeys(policies', n)| + |DeletingKeys(policies', n)| <=
            2 * |LiveKeys(policies, n)| + |DeletingKeys(policies, n)|
  {
    var l, d := LiveKeys(policies, n), DeletingKeys(policies, n);
    var l', d' := LiveKeys(policies', n), DeletingKeys(policies', n);
    SubsetSize(l', l);
    SubsetSize(l' + d', l + d);
    assert l' !! d' && l !! d;
  }

  lemma EasedRunsCount(m: Machine, m': Machine, n: string)
    requires RunsEase(m, m', n)
    ensures |RunKeys(m'.policyRuns, n)| <= |RunKeys(m.policyRuns, n)|
    ensures |TodoKeys(m'.policyRuns, n)| <= |TodoKeys(m.policyRuns, n)|
  {
    SubsetSize(RunKeys(m'.policyRuns, n), RunKeys(m.policyRuns, n));
    SubsetSize(TodoKeys(m'.policyRuns, n), TodoKeys(m.policyRuns, n));
  }

  lemma EasedStillTerminates(m: Machine, m': Machine, n: string)
    requires Terminating(m, n) && PoliciesEase(m.store.policies, m'.store.policies, n)
    requires ServerEases(m.store, m'.store, n)
    ensures Terminating(m', n)
  {
    if n !in m'.store.servers {
      forall k | k in m'.store.policies && m'.store.policies[k].spec.policyServer == n
        ensures m'.store.policies[k].deleting
      {
        if n in m.store.servers {
          assert k !in LiveKeys(m'.store.policies, n);
        }
      }
    }
  }

  lemma EasedOwned(s: Store, s': Store, n: string)
    requires OwnedEases(s, s', n)
    ensures Owned(s', n) <= Owned(s, n)
  {
    hide NameWithPrefix;
  }

  lemma EasedMeasure(m: Machine, m': Machine, n: string)
    requires Terminating(m, n) && NoNewWork(m, m', n)
    ensures Terminating(m', n) && Measure(m', n) <= Measure(m, n)
  {
    EasedStillTerminates(m, m', n);
    EasedPoliciesCount(m.store.policies, m'.store.policies, n);
    EasedRunsCount(m, m', n);
    EasedOwned(m.store, m'.store, n);
    hide Terminating;
    hide OwnedEases;
    hide Owned;
    hide PoliciesEase;
    hide LiveKeys;
    hide DeletingKeys;
    hide RunKeys;
    hide TodoKeys;
    hide NameWithPrefix;
  }

  // ------------------------------------------------------------------------------- users

  lemma SameEases(s: Store, s': Store, n: string)
    requires s'.policies == s.policies && s'.servers == s.servers && s'.deployments.Keys == s.deployments.Keys
    requires s'.secrets == s.secrets && s'.services == s.services && s'.configMaps == s.configMaps
    ensures Eases(s, s', n)
  {
    hide NameWithPrefix;
  }

  lemma StoreStepAddsNoWork(m: Machine, s': Store, n: string)
    requires Eases(m.store, s', n)
    ensures NoNewWork(m, m.(store := s'), n)
  {
    hide Eases;
  }

  lemma CreatePolicyEases(
    m: Machine, cfg: Config, k: PolicyKey, spec: PolicySpec, finalizers: set<Finalizer>, n: string)
    requires k !in m.store.policies && Admission.AdmitPolicyCreate(cfg, spec, finalizers).spec.policyServer != n
    ensures NoNewWork(m, m.(store := AfterCreatePolicy(m.store, cfg, k, spec, finalizers)), n)
  {
    hide NameWithPrefix;
    hide Admission.AdmitPolicyCreate;
  }

  lemma UpdatePolicyEases(
    m: Machine, cfg: Config, k: PolicyKey, spec: PolicySpec, finalizers: set<Finalizer>, n: string)
    requires k in m.store.policies && Admission.AdmitPolicyUpdate(cfg, m.store.policies[k], spec, finalizers).Some?
    requires m.store.policies[k].spec.policyServer == n ==> finalizers <= {Kubewarden}
    ensures NoNewWork(m, m.(store := AfterUpdatePolicy(m.store, cfg, k, spec, finalizers)), n)
  {
    hide NameWithPrefix;
  }

  lemma DeletePolicyEases(m: Machine, k: PolicyKey, n: string)
    requires k in m.store.policies
    ensures NoNewWork(m, m.(store := AfterDeletePolicy(m.store, k)), n)
  {
    hide NameWithPrefix;
  }

  lemma CreateServerEases(m: Machine, x: string, spec: ServerSpec, finalizers: set<Finalizer>, n: string)
    requires x != n
    ensures NoNewWork(m, m.(store := AfterCreateServer(m.store, x, spec, finalizers)), n)
  {
    hide NameWithPrefix;
    hide Admission.DefaultServer;
  }

  /** The server under deletion keeps the controller's finalizer, and so stays. */
  lemma UpdateServerEases(m: Machine, x: string, spec: ServerSpec, finalizers: set<Finalizer>, n: string)
    requires Terminating(m, n) && x in m.store.servers
    requires x == n ==> finalizers <= {Kubewarden}
    requires m.store.servers[x].deleting && Kubewarden in m.store.servers[x].finalizers ==> Kubewarden in finalizers
    ensures NoNewWork(m, m.(store := AfterUpdateServer(m.store, x, spec, finalizers)), n)
  {
    hide NameWithPrefix;
  }

  lemma DeleteServerEases(m: Machine, x: string, n: string)
    requires Terminating(m, n) && x in m.store.servers
    ensures NoNewWork(m, m.(store := AfterDeleteServer(m.store, x)), n)
  {
    hide NameWithPrefix;
  }

  lemma RestartEases(m: Machine, x: string, template: Template, n: string)
    requires x in m.store.deployments
    ensures NoNewWork(m, m.(store := AfterRestartRollout(m.store, x, template)), n)
  {
    hide Eases;
    SameEases(m.store, AfterRestartRollout(m.store, x, template), n);
  }

  lemma UserStepEases(m: Machine, cfg: Config, n: string, step: Step)
    requires Terminating(m, n) && IsUserStep(step)
    requires Enabled(m, cfg, step) && Disciplined(m, cfg, step) && Spares(m, cfg, n, step)
    ensures NoNewWork(m, Apply(m, cfg, step), n)
  {
    hide NoNewWork;
    hide Terminating;
    hide NotUnderStaleRun;
    hide Admission.AdmitPolicyCreate;
    hide Admission.AdmitPolicyUpdate;
    hide AfterCreatePolicy;
    hide AfterUpdatePolicy;
    hide AfterDeletePolicy;
    hide AfterCreateServer;
    hide AfterUpdateServer;
    hide AfterDeleteServer;
    hide AfterRestartRollout;
    match step
    case CreatePolicy(k, spec, finalizers) => CreatePolicyEases(m, cfg, k, spec, finalizers, n);
    case UpdatePolicy(k, spec, finalizers) => UpdatePolicyEases(m, cfg, k, spec, finalizers, n);
    case DeletePolicy(k) => DeletePolicyEases(m, k, n);
    case CreateServer(x, spec, finalizers) => CreateServerEases(m, x, spec, finalizers, n);
    case UpdateServer(x, spec, finalizers) => UpdateServerEases(m, x, spec, finalizers, n);
    case DeleteServer(x) => DeleteServerEases(m, x, n);
    case RestartRollout(x, template) => RestartEases(m, x, template, n);
  }

  // ------------------------------------------------------------------------- the rollout

  lemma RolloutStepEases(m: Machine, cfg: Config, n: string, step: Step)
    requires Enabled(m, cfg, step) && IsRolloutStep(step)
    ensures NoNewWork(m, Apply(m, cfg, step), n)
  {
    hide NoNewWork;
    hide Eases;
    hide CanSync;
    hide NameWithPrefix;
    hide PolicyController.IsPodReady;
    hide ConfigMaps.ServedPolicies;
    var m' := Apply(m, cfg, step);
    SameEases(m.store, m'.store, n);
    StoreStepAddsNoWork(m, m'.store, n);
  }

  // ---------------------------------------------------------------------- the controller

  lemma SecretStageEases(s: Store, s': Store, name: string, n: string)
    requires Secrets.AddsSecret(s, s', name) && name != NameWithPrefix(n)
    ensures OwnedEases(s, s', n)
  {
    hide NameWithPrefix;
  }

  lemma DeploymentStageEases(s: Store, s': Store, x: string, n: string)
    requires DeploymentStageWrites(s, s', x) && x != n
    ensures OwnedEases(s, s', n)
  {
    hide NameWithPrefix;
    hide Fits;
    hide Deployments.TakesOver;
    if s' != s {
      var d :| Fits(d, x, s.configMaps[x].rv) && Deployments.WritesDeployment(s, s', x, d);
    }
  }

  /** Another server's stage adds nothing to what `n` owns. */
  lemma StageOwnsOthers(i: nat, s: Store, s': Store, job: Pipeline.Job, root: Secret, root': Secret, ok: bool, n: string)
    requires StageWrites(i, s, s', job, root, root', ok) && job.name != n && n != "root-ca"
    ensures OwnedEases(s, s', n)
  {
    ServerNames(job.name, n);
    ServerNames(n, n);
    hide NameWithPrefix;
    hide DeploymentStageWrites;
    if i == CA_ROOT_SECRET_RECONCILED {
      SecretStageEases(s, s', ROOT_SECRET, n);
    } else if i == CA_SECRET_RECONCILED {
      SecretStageEases(s, s', NameWithPrefix(job.name), n);
    } else if i == CONFIG_MAP_RECONCILED {
      ConfigMapStageEases(s, s', job.name, n);
    } else if i == DEPLOYMENT_RECONCILED {
      DeploymentStageEases(s, s', job.name, n);
    } else {
    }
  }

  lemma ConfigMapStageEases(s: Store, s': Store, x: string, n: string)
    requires ConfigMaps.WritesConfigMap(s, s', x) && x != n
    ensures OwnedEases(s, s', n)
  {
    hide NameWithPrefix;
  }

  lemma StageEases(m: Machine, cfg: Config, x: string, freshCa: nat, faults: set<Call>, n: string)
    requires RunsAssigned(m) && x in m.serverRuns && m.serverRuns[x].stage < STAGES
    requires Terminating(m, n) && x != n
    ensures var m' := AfterServerStage(m, cfg, x, freshCa, faults);
            NoNewWork(m, m', n)
  {
    hide StageWrites;
    hide OwnedEases;
    var run := m.serverRuns[x];
    var (w, root') := Pipeline.RunStage(run.stage, m.store, cfg, run.job, run.root, freshCa, faults);
    StageEffect(run.stage, m.store, cfg, run.job, run.root, freshCa, faults);
    hide Pipeline.RunStage;
    StageOwnsOthers(run.stage, m.store, w.store, run.job, run.root, root', w.error.None?, n);
    StageKeepsObjects(run.stage, m.store, w.store, run.job, run.root, root', w.error.None?);
  }

  lemma EndServerEases(m: Machine, x: string, fail: bool, n: string)
    requires x in m.serverRuns && x != n
    ensures var m' := AfterEndServer(m, x, fail);
            NoNewWork(m, m', n)
  {
    hide NameWithPrefix;
  }

  lemma BeginServerEases(m: Machine, x: string, listed: seq<PolicyKey>, n: string)
    requires x in m.store.servers && !m.store.servers[x].deleting && Terminating(m, n)
    ensures var m' := AfterBeginServer(m, x, listed);
            NoNewWork(m, m', n)
  {
    hide NameWithPrefix;
    hide Pipeline.LiveOnly;
  }

  lemma MarkedPoliciesEase(policies: map<PolicyKey, Policy>, policies': map<PolicyKey, Policy>, n: string)
    requires Marks(policies, policies')
    ensures PoliciesEase(policies, policies', n)
  {
  }

  lemma TornDownOwnsLess(s: Store, s': Store, x: string, n: string)
    requires x in s.servers && Teardown(s, s', x)
    ensures OwnedEases(s, s', n)
  {
    hide NameWithPrefix;
    hide Marks;
    hide Pipeline.OwnsNothing;
    hide Admission.DefaultServer;
    hide Api.PutServer;
  }

  /** A server is let go only without a live policy. */
  lemma TornDownServerEases(s: Store, s': Store, x: string, n: string)
    requires x in s.servers && Teardown(s, s', x) && TeardownWaits(s, s', x)
    requires n in s.servers ==> s.servers[n].deleting && s.servers[n].finalizers == {Kubewarden}
    requires LiveKeys(s'.policies, n) <= LiveKeys(s.policies, n)
    ensures ServerEases(s, s', n)
  {
    hide NameWithPrefix;
    hide Marks;
    hide Pipeline.OwnsNothing;
    if s'.servers != s.servers && x == n {
      forall k
        ensures k !in LiveKeys(s.policies, n)
      {
        assert !Pipeline.LiveAndBound(s, k, n);
      }
    }
  }

  lemma TornDownPoliciesEase(s: Store, s': Store, x: string, n: string)
    requires x in s.servers && Teardown(s, s', x)
    ensures PoliciesEase(s.policies, s'.policies, n)
  {
    hide Marks;
    hide PoliciesEase;
    hide Pipeline.OwnsNothing;
    MarkedPoliciesEase(s.policies, s'.policies, n);
  }

  /** Any teardown, of whatever server and with whatever faults. */
  lemma TornDownEases(m: Machine, x: string, listed: seq<PolicyKey>, faults: set<Call>, n: string)
    requires x in m.store.servers && Enumerates(listed, Pipeline.BoundKeys(m.store, x)) && Terminating(m, n)
    ensures Eases(m.store, AfterTearDownServer(m.store, x, listed, faults), n)
  {
    var s, s' := m.store, AfterTearDownServer(m.store, x, listed, faults);
    TeardownEffect(s, x, listed, faults);
    hide Pipeline.ReconcileDeletion;
    hide Teardown;
    hide TeardownWaits;
    hide PoliciesEase;
    hide ServerEases;
    hide OwnedEases;
    TornDownPoliciesEase(s, s', x, n);
    EasedPoliciesCount(s.policies, s'.policies, n);
    TornDownServerEases(s, s', x, n);
    TornDownOwnsLess(s, s', x, n);
  }

  lemma TeardownEases(m: Machine, x: string, listed: seq<PolicyKey>, faults: set<Call>, n: string)
    requires x in m.store.servers && Enumerates(listed, Pipeline.BoundKeys(m.store, x)) && Terminating(m, n)
    ensures NoNewWork(m, m.(store := AfterTearDownServer(m.store, x, listed, faults)), n)
  {
    hide AfterTearDownServer;
    TornDownEases(m, x, listed, faults, n);
    StoreStepAddsNoWork(m, AfterTearDownServer(m.store, x, listed, faults), n);
  }

  lemma PublishEases(m: Machine, cfg: Config, k: PolicyKey, faults: set<Call>, n: string)
    requires k in m.policyRuns && m.policyRuns[k].todo.Some?
    ensures var m' := AfterPublishPolicy(m, cfg, k, faults);
            NoNewWork(m, m', n)
  {
    hide UniqueName;
    hide NameWithPrefix;
    hide Webhooks.WritesWebhook;
    hide PolicyController.DesiredWebhooks;
    PolicyRunChanges.PublishKeepsPolicies(m.store, cfg, k, m.policyRuns[k], faults);
    PolicyRunChanges.PublishWrites(m.store, cfg, k, m.policyRuns[k], faults);
    hide PolicyController.Publish;
  }

  lemma EndPolicyEases(m: Machine, k: PolicyKey, faults: set<Call>, n: string)
    requires RunsAssigned(m) && k in m.policyRuns
    ensures var m' := AfterEndPolicy(m, k, faults);
            NoNewWork(m, m', n)
  {
    hide NameWithPrefix;
    PolicyRunChanges.FinishKeepsSpecs(m.store, k, m.policyRuns[k], faults);
    hide PolicyController.Finish;
  }

  lemma FinalizedPoliciesEase(
    policies: map<PolicyKey, Policy>, policies': map<PolicyKey, Policy>, k: PolicyKey, n: string)
    requires PolicyChanges.Finalizes(policies, policies', k)
    ensures PoliciesEase(policies, policies', n)
  {
  }

  lemma FinalizeEases(s: Store, cfg: Config, k: PolicyKey, faults: set<Call>, n: string)
    requires k in s.policies && s.policies[k].deleting
    ensures Eases(s, AfterFinalizePolicy(s, cfg, k, faults), n)
  {
    hide UniqueName;
    hide NameWithPrefix;
    hide PolicyController.ReconcilePolicyDeletion;
    hide PolicyRunChanges.HookRemoved;
    hide PoliciesEase;
    hide PolicyChanges.Finalizes;
    PolicyRunChanges.FinalizeWrites(s, cfg, k, faults);
    var policies' := AfterFinalizePolicy(s, cfg, k, faults).policies;
    SameEases(s, s, n);
    if policies' != s.policies {
      FinalizedPoliciesEase(s.policies, policies', k, n);
    }
  }

  lemma FinalizeStepEases(m: Machine, cfg: Config, k: PolicyKey, faults: set<Call>, n: string)
    requires k in m.store.policies && m.store.policies[k].deleting
    ensures NoNewWork(m, m.(store := AfterFinalizePolicy(m.store, cfg, k, faults)), n)
  {
    hide Eases;
    hide AfterFinalizePolicy;
    FinalizeEases(m.store, cfg, k, faults, n);
  }

  lemma BeginPolicyEases(m: Machine, k: PolicyKey, listed: seq<nat>, faults: set<Call>, n: string)
    requires k in m.store.policies && m.store.policies[k].spec.policyServer != n
    ensures var m' := AfterBeginPolicy(m, k, listed, faults);
            NoNewWork(m, m', n)
  {
    hide UniqueName;
    hide NameWithPrefix;
    hide PolicyController.IsUniquelyReachable;
    SameEases(m.store, m.store, n);
    hide Eases;
  }

  lemma CrashEases(m: Machine, n: string)
    ensures NoNewWork(m, Machine(m.store, map[], map[]), n)
  {
    SameEases(m.store, m.store, n);
  }

  lemma ControllerStepEases(m: Machine, cfg: Config, n: string, step: Step)
    requires Terminating(m, n) && RunsAssigned(m) && Enabled(m, cfg, step) && IsControllerStep(step)
    requires !DeletionStep(m, n, step) && !BeginsFor(m, n, step)
    ensures NoNewWork(m, Apply(m, cfg, step), n)
  {
    hide NoNewWork;
    hide RunsAssigned;
    hide Terminating;
    hide Enumerates;
    hide AfterBeginServer;
    hide AfterServerStage;
    hide AfterEndServer;
    hide AfterTearDownServer;
    hide AfterBeginPolicy;
    hide AfterPublishPolicy;
    hide AfterEndPolicy;
    hide AfterFinalizePolicy;
    match step
    case BeginServer(x, listed) => BeginServerEases(m, x, listed, n);
    case ServerStage(x, freshCa, faults) => StageEases(m, cfg, x, freshCa, faults, n);
    case EndServer(x, fail) => EndServerEases(m, x, fail, n);
    case TearDownServer(x, listed, faults) => TeardownEases(m, x, listed, faults, n);
    case BeginPolicy(k, listed, faults) => BeginPolicyEases(m, k, listed, faults, n);
    case PublishPolicy(k, faults) => PublishEases(m, cfg, k, faults, n);
    case EndPolicy(k, faults) => EndPolicyEases(m, k, faults, n);
    case FinalizePolicy(k, faults) => FinalizeStepEases(m, cfg, k, faults, n);
    case Crash => CrashEases(m, n);
  }

  // ------------------------------------------------------------------------- every step

  /** Taking up a policy of `n` once more costs at most two further steps. */
  lemma BeginCosts(m: Machine, k: PolicyKey, listed: seq<nat>, faults: set<Call>, n: string)
    requires Terminating(m, n) && k in m.store.policies
    ensures var m' := AfterBeginPolicy(m, k, listed, faults);
            Terminating(m', n) && Measure(m', n) <= Measure(m, n) + 2
  {
    hide NameWithPrefix;
    hide PolicyController.Prepare;
    var m' := AfterBeginPolicy(m, k, listed, faults);
    SubsetSize(RunKeys(m'.policyRuns, n), RunKeys(m.policyRuns, n) + {k});
    SubsetSize(TodoKeys(m'.policyRuns, n), TodoKeys(m.policyRuns, n) + {k});
    hide RunKeys;
    hide TodoKeys;
    hide Owned;
  }

  /** What a step does to the work ahead: a step of the deletion does some of it, and only a policy taken up adds to it. */
  lemma StepCosts(m: Machine, cfg: Config, n: string, step: Step)
    requires Invariant(m) && Terminating(m, n) && Enabled(m, cfg, step)
    requires Disciplined(m, cfg, step) && Spares(m, cfg, n, step)
    ensures var m' := Apply(m, cfg, step);
            && Terminating(m', n)
            && Measure(m', n) + Count(DeletionStep(m, n, step)) <= Measure(m, n) + 2 * Count(BeginsFor(m, n, step))
  {
    hide Invariant;
    hide Terminating;
    hide Measure;
    hide AfterBeginPolicy;
    hide Disciplined;
    hide Spares;
    RunsAreHeld(m);
    if DeletionStep(m, n, step) {
      hide Apply;
      hide Enabled;
      DeletionStepDecreases(m, cfg, n, step);
    } else if BeginsFor(m, n, step) {
      BeginCosts(m, step.k, step.replicaSets, step.faults, n);
    } else {
      hide Apply;
      hide Enabled;
      OtherStepCosts(m, cfg, n, step);
    }
  }

  lemma OtherStepCosts(m: Machine, cfg: Config, n: string, step: Step)
    requires RunsAssigned(m) && Terminating(m, n) && Enabled(m, cfg, step)
    requires Disciplined(m, cfg, step) && Spares(m, cfg, n, step)
    requires !DeletionStep(m, n, step) && !BeginsFor(m, n, step)
    ensures Terminating(Apply(m, cfg, step), n) && Measure(Apply(m, cfg, step), n) <= Measure(m, n)
    ensures LiveKeys(Apply(m, cfg, step).store.policies, n) <= LiveKeys(m.store.policies, n)
  {
    hide Apply;
    hide Enabled;
    hide Disciplined;
    hide Spares;
    hide Terminating;
    hide Measure;
    hide DeletionStep;
    hide BeginsFor;
    if IsUserStep(step) {
      UserStepEases(m, cfg, n, step);
    } else if IsRolloutStep(step) {
      RolloutStepEases(m, cfg, n, step);
    } else {
      ControllerStepEases(m, cfg, n, step);
    }
    EasedMeasure(m, Apply(m, cfg, step), n);
    hide PoliciesEase;
    hide ServerEases;
    hide OwnedEases;
    EasedPoliciesCount(m.store.policies, Apply(m, cfg, step).store.policies, n);
  }

  lemma DeletionStepEasesPolicies(m: Machine, cfg: Config, n: string, step: Step)
    requires Terminating(m, n) && Enabled(m, cfg, step) && DeletionStep(m, n, step)
    requires RunsAssigned(m)
    ensures PoliciesEase(m.store.policies, Apply(m, cfg, step).store.policies, n)
  {
    hide NameWithPrefix;
    hide OwnedEases;
    hide ServerEases;
    hide RunsEase;
    if step.TearDownServer? {
      hide AfterTearDownServer;
      TeardownEases(m, n, step.listed, step.faults, n);
    } else if step.FinalizePolicy? {
      hide AfterFinalizePolicy;
      FinalizeEases(m.store, cfg, step.k, step.faults, n);
    } else if step.EndPolicy? {
      hide AfterEndPolicy;
      EndPolicyEases(m, step.k, step.faults, n);
    } else {
      Transitions.StepFrame(m, cfg, step);
      hide Apply;
      hide Enabled;
    }
  }

  /** Once no policy of `n` is live, none becomes live again, and none is taken up. */
  lemma StepKeepsMarked(m: Machine, cfg: Config, n: string, step: Step)
    requires Invariant(m) && Terminating(m, n) && Enabled(m, cfg, step)
    requires Disciplined(m, cfg, step) && Spares(m, cfg, n, step) && LiveKeys(m.store.policies, n) == {}
    ensures LiveKeys(Apply(m, cfg, step).store.policies, n) == {} && !BeginsFor(m, n, step)
  {
    RunsAreHeld(m);
    hide Invariant;
    hide Terminating;
    hide Measure;
    hide Apply;
    hide Disciplined;
    hide Spares;
    NoneTakenUp(m, cfg, n, step);
    hide Enabled;
    hide BeginsFor;
    if DeletionStep(m, n, step) {
      DeletionStepEasesPolicies(m, cfg, n, step);
      EasedPoliciesCount(m.store.policies, Apply(m, cfg, step).store.policies, n);
    } else {
      OtherStepCosts(m, cfg, n, step);
    }
  }

  lemma NoneTakenUp(m: Machine, cfg: Config, n: string, step: Step)
    requires Enabled(m, cfg, step) && LiveKeys(m.store.policies, n) == {}
    ensures !BeginsFor(m, n, step)
  {
    if step.BeginPolicy? {
      assert step.k !in LiveKeys(m.store.policies, n);
    }
  }

  /** The first teardown step whose calls succeed marks every policy of the server, if any is live. */
  lemma TeardownMarksAll(m: Machine, cfg: Config, n: string, listed: seq<PolicyKey>)
    requires Terminating(m, n) && n in m.store.servers && Enumerates(listed, Pipeline.BoundKeys(m.store, n))
    ensures LiveKeys(AfterTearDownServer(m.store, n, listed, {}).policies, n) == {}
  {
    if LiveKeys(m.store.policies, n) != {} {
      TeardownMarks(m.store, n, listed);
    } else {
      TeardownEnds(m.store, n, listed);
    }
    hide Pipeline.ReconcileDeletion;
    hide LiveKeys;
  }

  // --------------------------------------------------------------------- no policy comes back

  /** No policy comes back, and none moves to another server. */
  ghost predicate PoliciesShrink(before: map<PolicyKey, Policy>, after: map<PolicyKey, Policy>) {
    forall k :: k in after ==> k in before && after[k].spec.policyServer == before[k].spec.policyServer
  }

  lemma UpdateShrinks(s: Store, cfg: Config, k: PolicyKey, spec: PolicySpec, finalizers: set<Finalizer>)
    requires k in s.policies && Admission.AdmitPolicyUpdate(cfg, s.policies[k], spec, finalizers).Some?
    ensures PoliciesShrink(s.policies, AfterUpdatePolicy(s, cfg, k, spec, finalizers).policies)
  {
  }

  lemma StepShrinks(m: Machine, cfg: Config, step: Step)
    requires Enabled(m, cfg, step) && !step.CreatePolicy? && forall k :: k in m.policyRuns ==> k in m.store.policies
    ensures PoliciesShrink(m.store.policies, Apply(m, cfg, step).store.policies)
  {
    if step.UpdatePolicy? {
      hide PoliciesShrink;
      hide AfterUpdatePolicy;
      UpdateShrinks(m.store, cfg, step.k, step.spec, step.finalizers);
    } else {
      hide Apply;
      hide Enabled;
      hide PoliciesShrink;
      OtherStepShrinks(m, cfg, step);
    }
  }

  lemma OtherStepShrinks(m: Machine, cfg: Config, step: Step)
    requires Enabled(m, cfg, step) && !step.CreatePolicy? && !step.UpdatePolicy?
    requires forall k :: k in m.policyRuns ==> k in m.store.policies
    ensures PoliciesShrink(m.store.policies, Apply(m, cfg, step).store.policies)
  {
    hide Apply;
    hide Enabled;
    var before, after := m.store.policies, Apply(m, cfg, step).store.policies;
    forall k | k in after
      ensures k in before && after[k].spec.policyServer == before[k].spec.policyServer
    {
      Transitions.StepKeepsSpec(m, cfg, step, k);
    }
  }

  lemma {:induction false} RunShrinks(cfg: Config, trace: seq<Machine>, steps: seq<Step>, i: nat, j: nat)
    requires IsDisciplinedRun(cfg, trace, steps) && i <= j < |trace|
    requires forall x :: i <= x < j ==> !steps[x].CreatePolicy?
    ensures PoliciesShrink(trace[i].store.policies, trace[j].store.policies)
    decreases j - i
  {
    hide Invariant;
    hide Apply;
    hide Enabled;
    hide Disciplined;
    if i < j {
      RunShrinks(cfg, trace, steps, i, j - 1);
      Safety.InvariantOnRuns(cfg, trace, steps, j - 1);
      RunsAreHeld(trace[j - 1]);
      StepShrinks(trace[j - 1], cfg, steps[j - 1]);
    }
  }

  // -------------------------------------------------------------------------------- whole runs

  /** From `i` to `j` users leave the end of server `n` alone. */
  ghost predicate Spared(cfg: Config, n: string, trace: seq<Machine>, steps: seq<Step>, i: nat, j: nat) {
    && IsDisciplinedRun(cfg, trace, steps) && i <= j < |trace|
    && forall x :: i <= x < j ==> Spares(trace[x], cfg, n, steps[x])
  }

  /** How many steps of the deletion of `n` are taken from `i` to `j`. */
  ghost function Taken(n: string, trace: seq<Machine>, steps: seq<Step>, i: nat, j: nat): nat
    requires i <= j < |trace| && |trace| == |steps| + 1
    decreases j
  {
    if i == j then 0 else Taken(n, trace, steps, i, j - 1) + Count(DeletionStep(trace[j - 1], n, steps[j - 1]))
  }

  /** How many times a policy of `n` is taken up from `i` to `j`. */
  ghost function Begun(n: string, trace: seq<Machine>, steps: seq<Step>, i: nat, j: nat): nat
    requires i <= j < |trace| && |trace| == |steps| + 1
    decreases j
  {
    if i == j then 0 else Begun(n, trace, steps, i, j - 1) + Count(BeginsFor(trace[j - 1], n, steps[j - 1]))
  }

  lemma {:induction false} DeletionIsBounded(
    cfg: Config, n: string, trace: seq<Machine>, steps: seq<Step>, i: nat, j: nat)
    requires Spared(cfg, n, trace, steps, i, j) && Terminating(trace[i], n)
    ensures Terminating(trace[j], n)
    ensures Measure(trace[j], n) + Taken(n, trace, steps, i, j) <=
            Measure(trace[i], n) + 2 * Begun(n, trace, steps, i, j)
    decreases j
  {
    hide Invariant;
    hide Terminating;
    hide Measure;
    hide Apply;
    hide Enabled;
    hide Disciplined;
    hide Spares;
    hide DeletionStep;
    hide BeginsFor;
    if i < j {
      DeletionIsBounded(cfg, n, trace, steps, i, j - 1);
      Safety.InvariantOnRuns(cfg, trace, steps, j - 1);
      StepCosts(trace[j - 1], cfg, n, steps[j - 1]);
    }
  }

  lemma {:induction false} MarkedForGood(
    cfg: Config, n: string, trace: seq<Machine>, steps: seq<Step>, i: nat, j: nat)
    requires Spared(cfg, n, trace, steps, i, j) && Terminating(trace[i], n)
    requires LiveKeys(trace[i].store.policies, n) == {}
    ensures LiveKeys(trace[j].store.policies, n) == {} && Begun(n, trace, steps, i, j) == 0
    decreases j
  {
    hide Invariant;
    hide Terminating;
    hide Measure;
    hide LiveKeys;
    hide Apply;
    hide Enabled;
    hide Disciplined;
    hide Spares;
    hide BeginsFor;
    if i < j {
      MarkedForGood(cfg, n, trace, steps, i, j - 1);
      DeletionIsBounded(cfg, n, trace, steps, i, j - 1);
      Safety.InvariantOnRuns(cfg, trace, steps, j - 1);
      StepKeepsMarked(trace[j - 1], cfg, n, steps[j - 1]);
    }
  }

  lemma NotRootCa(m: Machine, n: string)
    requires Terminating(m, n)
    ensures n != "root-ca"
  {
  }

  ghost predicate Stuck(m: Machine, cfg: Config, n: string) {
    forall step :: DeletionStep(m, n, step) ==> !Enabled(m, cfg, step)
  }

  lemma StuckMeansGone(m: Machine, cfg: Config, n: string)
    requires Invariant(m) && Terminating(m, n) && Stuck(m, cfg, n)
    ensures Gone(m.store, n)
  {
    hide DeletionStep;
    hide Enabled;
    hide Invariant;
    hide Gone;
    if !Done(m, n) {
      var step := NextStep(m, cfg, n);
      assert false;
    }
    NotRootCa(m, n);
    DoneMeansGone(m, n);
  }

  lemma NothingRunsFor(m: Machine, n: string)
    requires Invariant(m) && Gone(m.store, n)
    ensures n !in m.serverRuns && n !in m.store.servers
    ensures forall k :: k in m.policyRuns ==> m.policyRuns[k].policy.spec.policyServer != n
    ensures forall k :: !Pipeline.BoundTo(m.store, k, n)
  {
    RunsAreHeld(m);
    hide Invariant;
    hide Pipeline.OwnsNothing;
    hide NameWithPrefix;
    forall k | k in m.policyRuns
      ensures m.policyRuns[k].policy.spec.policyServer != n
    {
      assert !Pipeline.BoundTo(m.store, k, n);
    }
  }

  lemma NothingToDelete(m: Machine, cfg: Config, n: string, step: Step)
    requires n !in m.serverRuns && n !in m.store.servers
    requires forall k :: k in m.policyRuns ==> m.policyRuns[k].policy.spec.policyServer != n
    requires forall k :: !Pipeline.BoundTo(m.store, k, n)
    requires Enabled(m, cfg, step)
    ensures !DeletionStep(m, n, step)
  {
    hide CanSync;
    hide Enumerates;
  }

  /** Nothing is left of server `n` exactly when no step of its deletion is left to take. */
  lemma StuckExactlyWhenGone(m: Machine, cfg: Config, n: string)
    requires Invariant(m) && Terminating(m, n)
    ensures Stuck(m, cfg, n) <==> Gone(m.store, n)
  {
    if Stuck(m, cfg, n) {
      StuckMeansGone(m, cfg, n);
    }
    if Gone(m.store, n) {
      NothingRunsFor(m, n);
      hide Invariant;
      hide Terminating;
      hide Gone;
      hide Pipeline.BoundTo;
      hide Enabled;
      hide DeletionStep;
      forall step | Enabled(m, cfg, step)
        ensures !DeletionStep(m, n, step)
      {
        NothingToDelete(m, cfg, n, step);
      }
    }
  }

  /**
   * Deletion ends, whatever else goes on.  In every disciplined run in which users leave it alone, the steps of the
   * deletion of `n` are no more than the work there was at the start, and two for each time one of its policies was taken
   * up anew; none is once all of them are marked, as the first teardown step whose calls succeed sees to.  No step is left
   * exactly when the server, its policies, its four resources and all webhooks that lead to it are gone.
   */
  lemma DeletionEnds(cfg: Config, n: string, trace: seq<Machine>, steps: seq<Step>, i: nat, j: nat)
    requires Spared(cfg, n, trace, steps, i, j) && Terminating(trace[i], n)
    ensures Taken(n, trace, steps, i, j) <= Measure(trace[i], n) + 2 * Begun(n, trace, steps, i, j)
    ensures LiveKeys(trace[i].store.policies, n) == {} ==> Begun(n, trace, steps, i, j) == 0
    ensures Stuck(trace[j], cfg, n) <==> Gone(trace[j].store, n)
  {
    hide Invariant;
    hide Terminating;
    hide Measure;
    hide LiveKeys;
    hide Spared;
    hide Taken;
    hide Begun;
    hide Stuck;
    hide Gone;
    SparedIsDisciplined(cfg, n, trace, steps, i, j);
    DeletionIsBounded(cfg, n, trace, steps, i, j);
    if LiveKeys(trace[i].store.policies, n) == {} {
      MarkedForGood(cfg, n, trace, steps, i, j);
    }
    Safety.InvariantOnRuns(cfg, trace, steps, j);
    StuckExactlyWhenGone(trace[j], cfg, n);
  }

  lemma SparedIsDisciplined(cfg: Config, n: string, trace: seq<Machine>, steps: seq<Step>, i: nat, j: nat)
    requires Spared(cfg, n, trace, steps, i, j)
    ensures IsDisciplinedRun(cfg, trace, steps) && i <= j < |trace|
  {
    hide IsDisciplinedRun;
  }

  /** Unless users create policies meanwhile, the names of the server's policies are then free of webhooks. */
  lemma NamesAreCleared(
    cfg: Config, n: string, trace: seq<Machine>, steps: seq<Step>, i: nat, j: nat, k: PolicyKey, kind: WebhookKind)
    requires IsDisciplinedRun(cfg, trace, steps) && i <= j < |trace|
    requires forall x :: i <= x < j ==> !steps[x].CreatePolicy?
    requires Pipeline.BoundTo(trace[i].store, k, n) && Gone(trace[j].store, n)
    ensures UniqueName(k) !in trace[j].store.Webhooks(kind)
  {
    hide Invariant;
    hide IsDisciplinedRun;
    hide UniqueName;
    hide Pipeline.OwnsNothing;
    hide NoneLeadsTo;
    RunShrinks(cfg, trace, steps, i, j);
    Safety.InvariantOnRuns(cfg, trace, steps, i);
    NamesAreDistinct(trace[i]);
    Safety.InvariantOnRuns(cfg, trace, steps, j);
    Safety.HooksAreBacked(trace[j], kind);
    var s := trace[j].store;
    forall x | x in s.policies
      ensures UniqueName(x) != UniqueName(k)
    {
      assert !Pipeline.BoundTo(s, x, n);
    }
  }
}
