/**
 * How current the configuration is: what a ConfigMap serves is what one run of its server read when it began.  A policy's
 * entry may therefore be that of an earlier spec, while the policy is active and routed.
 */
module Staleness {
  import opened Common
  import opened Naming
  import opened Model
  import opened Effects
  import opened Invariants
  import opened Protocol
  import ConfigMaps
  import Deletion
  import Deployments
  import Liveness
  import Pipeline
  import PolicyChanges
  import PolicyController
  import PolicyRunChanges
  import Progress
  import Safety
  import Secrets
  import Transitions

  // -------------------------------------------------------------- where a run's job comes from

  function JobRead(s: Store, n: string, listed: seq<PolicyKey>): Pipeline.Job
    requires n in s.servers
  {
    Pipeline.Job(n, s.servers[n].spec, Pipeline.LiveOnly(s.policies, listed))
  }

  predicate JobFrom(m: Machine, m': Machine, step: Step, n: string) {
    n in m'.serverRuns ==>
      || (step.BeginServer? && step.n == n && n in m.store.servers &&
          m'.serverRuns[n].job == JobRead(m.store, n, step.listed))
      || (n in m.serverRuns && m'.serverRuns[n].job == m.serverRuns[n].job)
  }

  lemma StepKeepsJob(m: Machine, cfg: Config, step: Step, n: string)
    requires Enabled(m, cfg, step)
    ensures JobFrom(m, Apply(m, cfg, step), step, n)
  {
  }

  // ------------------------------------------------------------- where a ConfigMap comes from

  /** The ConfigMap of `n` is as it was, or a stage of a run of `n` has just written what that run had read. */
  predicate ConfigMapFrom(m: Machine, m': Machine, step: Step, n: string) {
    n in m'.store.configMaps ==>
      || (n in m.store.configMaps && m'.store.configMaps[n] == m.store.configMaps[n])
      || (step.ServerStage? && step.n == n && n in m.serverRuns &&
          ConfigMaps.ServedPolicies(m'.store.configMaps[n]) ==
            Ok(ConfigMaps.PoliciesMap(m.serverRuns[n].job.policies)))
  }

  lemma SecretStageConfigMaps(s: Store, s': Store, name: string)
    requires Secrets.AddsSecret(s, s', name)
    ensures s'.configMaps == s.configMaps
  {
  }

  lemma DeploymentStageConfigMaps(s: Store, s': Store, n: string)
    requires DeploymentStageWrites(s, s', n)
    ensures s'.configMaps == s.configMaps
  {
    hide Fits;
    hide Deployments.TakesOver;
  }

  lemma OtherStagesKeepConfigMaps(
    i: nat, s: Store, s': Store, job: Pipeline.Job, root: Secret, root': Secret, ok: bool)
    requires StageWrites(i, s, s', job, root, root', ok) && i != CONFIG_MAP_RECONCILED
    ensures s'.configMaps == s.configMaps
  {
    hide NameWithPrefix;
    hide DeploymentStageWrites;
    if i == CA_ROOT_SECRET_RECONCILED {
      SecretStageConfigMaps(s, s', ROOT_SECRET);
    } else if i == CA_SECRET_RECONCILED {
      SecretStageConfigMaps(s, s', NameWithPrefix(job.name));
    } else if i == DEPLOYMENT_RECONCILED {
      DeploymentStageConfigMaps(s, s', job.name);
    } else {
    }
  }

  lemma ConfigMapStageServes(s: Store, s': Store, job: Pipeline.Job, ok: bool, n: string)
    requires ConfigMapStageWrites(s, s', job, ok) && n in s'.configMaps
    ensures || (n in s.configMaps && s'.configMaps[n] == s.configMaps[n])
            || (n == job.name && ConfigMaps.ServedPolicies(s'.configMaps[n]) ==
                                   Ok(ConfigMaps.PoliciesMap(job.policies)))
  {
    hide ConfigMaps.PoliciesMap;
    hide ConfigMaps.ServedPolicies;
    hide ConfigMaps.Decodes;
  }

  lemma StageWritesConfigMap(m: Machine, cfg: Config, x: string, freshCa: nat, faults: set<Call>, n: string)
    requires x in m.serverRuns && m.serverRuns[x].job.name == x && m.serverRuns[x].stage < STAGES
    ensures ConfigMapFrom(m, AfterServerStage(m, cfg, x, freshCa, faults), ServerStage(x, freshCa, faults), n)
  {
    hide StageWrites;
    hide ConfigMapStageWrites;
    hide ConfigMaps.PoliciesMap;
    hide ConfigMaps.ServedPolicies;
    var run := m.serverRuns[x];
    var (w, root') := Pipeline.RunStage(run.stage, m.store, cfg, run.job, run.root, freshCa, faults);
    StageEffect(run.stage, m.store, cfg, run.job, run.root, freshCa, faults);
    hide Pipeline.RunStage;
    if run.stage == CONFIG_MAP_RECONCILED {
      ConfigMapStageIs(run.stage, m.store, w.store, run.job, run.root, root', w.error.None?);
      if n in w.store.configMaps {
        ConfigMapStageServes(m.store, w.store, run.job, w.error.None?, n);
      }
    } else {
      OtherStagesKeepConfigMaps(run.stage, m.store, w.store, run.job, run.root, root', w.error.None?);
    }
  }

  lemma ConfigMapStageIs(i: nat, s: Store, s': Store, job: Pipeline.Job, root: Secret, root': Secret, ok: bool)
    requires StageWrites(i, s, s', job, root, root', ok) && i == CONFIG_MAP_RECONCILED
    ensures ConfigMapStageWrites(s, s', job, ok)
  {
    hide ConfigMapStageWrites;
  }

  lemma TeardownWritesNoConfigMap(s: Store, x: string, listed: seq<PolicyKey>, faults: set<Call>, n: string)
    requires x in s.servers && Enumerates(listed, Pipeline.BoundKeys(s, x))
    ensures var s' := AfterTearDownServer(s, x, listed, faults);
            n in s'.configMaps ==> n in s.configMaps && s'.configMaps[n] == s.configMaps[n]
  {
    TeardownEffect(s, x, listed, faults);
    hide Pipeline.ReconcileDeletion;
    hide NameWithPrefix;
    hide Pipeline.OwnsNothing;
    hide Marks;
  }

  lemma PolicyStepKeepsConfigMaps(m: Machine, cfg: Config, k: PolicyKey, faults: set<Call>)
    ensures k in m.policyRuns ==> AfterPublishPolicy(m, cfg, k, faults).store.configMaps == m.store.configMaps
    ensures k in m.policyRuns && k in m.store.policies ==>
              AfterEndPolicy(m, k, faults).store.configMaps == m.store.configMaps
    ensures k in m.store.policies && m.store.policies[k].deleting ==>
              AfterFinalizePolicy(m.store, cfg, k, faults).configMaps == m.store.configMaps
  {
    hide UniqueName;
    if k in m.policyRuns {
      PolicyRunChanges.PublishKeepsPolicies(m.store, cfg, k, m.policyRuns[k], faults);
      if k in m.store.policies {
        PolicyRunChanges.FinishKeepsSpecs(m.store, k, m.policyRuns[k], faults);
      }
    }
    if k in m.store.policies && m.store.policies[k].deleting {
      PolicyRunChanges.FinalizeWrites(m.store, cfg, k, faults);
    }
    hide PolicyController.Publish;
    hide PolicyController.Finish;
    hide PolicyController.ReconcilePolicyDeletion;
    hide PolicyRunChanges.HookRemoved;
    hide PolicyChanges.Finalizes;
  }

  lemma StepWritesConfigMap(m: Machine, cfg: Config, step: Step, n: string)
    requires Enabled(m, cfg, step)
    requires forall x :: x in m.serverRuns ==> m.serverRuns[x].job.name == x
    requires forall k :: k in m.policyRuns ==> k in m.store.policies
    ensures ConfigMapFrom(m, Apply(m, cfg, step), step, n)
  {
    hide Enumerates;
    hide ConfigMaps.ServedPolicies;
    hide ConfigMaps.PoliciesMap;
    if step.ServerStage? {
      hide AfterServerStage;
      hide ConfigMapFrom;
      StageWritesConfigMap(m, cfg, step.n, step.freshCa, step.faults, n);
    } else if step.TearDownServer? {
      hide AfterTearDownServer;
      TeardownWritesNoConfigMap(m.store, step.n, step.listed, step.faults, n);
    } else if step.PublishPolicy? || step.EndPolicy? || step.FinalizePolicy? {
      hide AfterPublishPolicy;
      hide AfterEndPolicy;
      hide AfterFinalizePolicy;
      PolicyStepKeepsConfigMaps(m, cfg, step.k, step.faults);
    } else {
      hide CanSync;
    }
  }

  // ------------------------------------------------------------------------------ whole runs

  /** The job of the run of `n` under way at `i` was read at `j`. */
  lemma {:induction false} RunBegan(cfg: Config, trace: seq<Machine>, steps: seq<Step>, i: nat, n: string)
    returns (j: nat)
    requires IsRun(cfg, trace, steps) && i < |trace| && n in trace[i].serverRuns
    ensures j < i && steps[j].BeginServer? && steps[j].n == n && n in trace[j].store.servers
    ensures trace[i].serverRuns[n].job == JobRead(trace[j].store, n, steps[j].listed)
  {
    hide Apply;
    hide Enabled;
    hide JobRead;
    assert i > 0;
    StepKeepsJob(trace[i - 1], cfg, steps[i - 1], n);
    if steps[i - 1].BeginServer? && steps[i - 1].n == n && n in trace[i - 1].store.servers &&
       trace[i].serverRuns[n].job == JobRead(trace[i - 1].store, n, steps[i - 1].listed) {
      j := i - 1;
    } else {
      j := RunBegan(cfg, trace, steps, i - 1, n);
    }
  }

  /** At `i` the ConfigMap of `n` serves just what the run that began at `j` had read. */
  ghost predicate ServesSnapshot(trace: seq<Machine>, steps: seq<Step>, i: nat, j: nat, n: string) {
    && j < i < |trace| && |trace| == |steps| + 1 && steps[j].BeginServer? && steps[j].n == n
    && n in trace[i].store.configMaps
    && ConfigMaps.ServedPolicies(trace[i].store.configMaps[n]) ==
         Ok(ConfigMaps.PoliciesMap(Pipeline.LiveOnly(trace[j].store.policies, steps[j].listed)))
  }

  /** Whatever a ConfigMap serves is the snapshot of one run: there is no mixture, and nothing else gets in. */
  lemma {:induction false} ConfigMapIsSnapshot(cfg: Config, trace: seq<Machine>, steps: seq<Step>, i: nat, n: string)
    returns (j: nat)
    requires IsDisciplinedRun(cfg, trace, steps) && i < |trace| && n in trace[i].store.configMaps
    ensures ServesSnapshot(trace, steps, i, j, n)
  {
    hide Apply;
    hide Enabled;
    hide Disciplined;
    hide Invariant;
    hide ConfigMaps.ServedPolicies;
    hide ConfigMaps.PoliciesMap;
    assert i > 0;
    var m, m', step := trace[i - 1], trace[i], steps[i - 1];
    Safety.InvariantOnRuns(cfg, trace, steps, i - 1);
    Deletion.RunsAreHeld(m);
    StepWritesConfigMap(m, cfg, step, n);
    if n in m.store.configMaps && m'.store.configMaps[n] == m.store.configMaps[n] {
      j := ConfigMapIsSnapshot(cfg, trace, steps, i - 1, n);
    } else {
      j := RunBegan(cfg, trace, steps, i - 1, n);
    }
  }

  /** The entry under the policy's name is the one of its present spec. */
  predicate EntryIsCurrent(s: Store, n: string, k: PolicyKey)
    requires k in s.policies && n in s.configMaps
  {
    var served := ConfigMaps.ServedPolicies(s.configMaps[n]);
    && served.Ok? && UniqueName(k) in served.value
    && served.value[UniqueName(k)] == ConfigMaps.EntryOf(BoundPolicy(k, s.policies[k].spec))
  }

  /** The parts of a spec that go into the entry. */
  predicate SameEntry(a: PolicySpec, b: PolicySpec) {
    a.wasmModule == b.wasmModule && a.mode == b.mode && a.mutating == b.mutating && a.settings == b.settings
  }

  /** Against a snapshot: the entry is current exactly when the policy was live and bound then, with these parts as now. */
  lemma SnapshotIsCurrentExactly(s0: Store, s: Store, n: string, listed: seq<PolicyKey>, k: PolicyKey)
    requires NamesDistinct(s0.policies) && Enumerates(listed, Pipeline.BoundKeys(s0, n))
    requires k in s.policies && n in s.configMaps
    requires ConfigMaps.ServedPolicies(s.configMaps[n]) ==
             Ok(ConfigMaps.PoliciesMap(Pipeline.LiveOnly(s0.policies, listed)))
    ensures EntryIsCurrent(s, n, k) <==>
            Pipeline.LiveAndBound(s0, k, n) && SameEntry(s0.policies[k].spec, s.policies[k].spec)
  {
    hide UniqueName;
    hide NamesDistinct;
    hide ConfigMaps.ServedPolicies;
    var read := Pipeline.LiveOnly(s0.policies, listed);
    Pipeline.ListedPolicies(s0, n, listed);
    hide Enumerates;
    hide Pipeline.LiveOnly;
    if Pipeline.LiveAndBound(s0, k, n) {
      Progress.SnapshotServes(s0, n, listed, k);
    } else if UniqueName(k) in ConfigMaps.PoliciesMap(read) {
      var x := ConfigMaps.PoliciesMapMembers(read, UniqueName(k));
      assert read[x] in read;
    }
    hide ConfigMaps.PoliciesMap;
  }

  /**
   * When an entry is current.  With `j` the beginning of a run whose snapshot the ConfigMap serves at `i`: the entry under
   * the policy's name is that of its present spec exactly when the policy was live and bound at `j`, with module, mode,
   * kind and settings as they are now.
   */
  lemma EntryIsCurrentExactly(
    cfg: Config, trace: seq<Machine>, steps: seq<Step>, i: nat, j: nat, n: string, k: PolicyKey)
    requires IsDisciplinedRun(cfg, trace, steps) && ServesSnapshot(trace, steps, i, j, n)
    requires k in trace[i].store.policies
    ensures EntryIsCurrent(trace[i].store, n, k) <==>
            && Pipeline.LiveAndBound(trace[j].store, k, n)
            && SameEntry(trace[j].store.policies[k].spec, trace[i].store.policies[k].spec)
  {
    hide Invariant;
    hide EntryIsCurrent;
    hide SameEntry;
    hide Disciplined;
    Safety.InvariantOnRuns(cfg, trace, steps, j);
    Deletion.NamesAreDistinct(trace[j]);
    ListedIsBound(trace[j], cfg, steps[j]);
    hide Apply;
    hide Enabled;
    SnapshotIsCurrentExactly(trace[j].store, trace[i].store, n, steps[j].listed, k);
  }

  lemma ListedIsBound(m: Machine, cfg: Config, step: Step)
    requires Enabled(m, cfg, step) && step.BeginServer?
    ensures Enumerates(step.listed, Pipeline.BoundKeys(m.store, step.n))
  {
    hide Enumerates;
  }

  // ---------------------------------------------------------- no update since the snapshot

  lemma {:induction false} UntouchedKeepsSpec(
    cfg: Config, trace: seq<Machine>, steps: seq<Step>, j: nat, i: nat, k: PolicyKey)
    requires IsDisciplinedRun(cfg, trace, steps) && j <= i < |trace|
    requires forall x :: j <= x < i ==> !((steps[x].CreatePolicy? || steps[x].UpdatePolicy?) && steps[x].k == k)
    ensures Transitions.SpecKept(trace[j].store.policies, trace[i].store.policies, k)
    decreases i - j
  {
    hide Invariant;
    hide Apply;
    hide Enabled;
    hide Disciplined;
    if j < i {
      UntouchedKeepsSpec(cfg, trace, steps, j, i - 1, k);
      Safety.InvariantOnRuns(cfg, trace, steps, i - 1);
      Deletion.RunsAreHeld(trace[i - 1]);
      Transitions.StepKeepsSpec(trace[i - 1], cfg, steps[i - 1], k);
    }
  }

  /** Neither created nor updated since the run began, a live policy of the server has a current entry. */
  lemma UntouchedSinceIsCurrent(
    cfg: Config, trace: seq<Machine>, steps: seq<Step>, i: nat, j: nat, n: string, k: PolicyKey)
    requires IsDisciplinedRun(cfg, trace, steps) && ServesSnapshot(trace, steps, i, j, n)
    requires Pipeline.LiveAndBound(trace[i].store, k, n)
    requires forall x :: j <= x < i ==> !((steps[x].CreatePolicy? || steps[x].UpdatePolicy?) && steps[x].k == k)
    ensures EntryIsCurrent(trace[i].store, n, k)
  {
    hide IsDisciplinedRun;
    hide EntryIsCurrent;
    UntouchedKeepsSpec(cfg, trace, steps, j, i, k);
    EntryIsCurrentExactly(cfg, trace, steps, i, j, n, k);
  }

  // ------------------------------------------------------------------- and it may be stale

  /** An update of the spec alone: admitted, and within the rules. */
  predicate MayReplace(before: PolicySpec, after: PolicySpec) {
    && after.policyServer == before.policyServer && after.mutating == before.mutating
    && !(before.mode == "protect" && after.mode == "monitor")
  }

  lemma SpecReplaced(cfg: Config, m: Machine, k: PolicyKey, spec: PolicySpec) returns (m': Machine)
    requires Safety.Reachable(cfg, m) && IsLive(m.store.policies, k) && m.store.policies[k].spec.policyServer != ""
    requires MayReplace(m.store.policies[k].spec, spec)
    ensures Safety.Reachable(cfg, m')
    ensures m'.store == m.store.(policies := m'.store.policies) && IsLive(m'.store.policies, k)
    ensures m'.store.policies[k].spec == spec && m'.store.policies[k].status == m.store.policies[k].status
  {
    hide Safety.Reachable;
    var step := Step.UpdatePolicy(k, spec, m.store.policies[k].finalizers);
    m' := Apply(m, cfg, step);
    Liveness.ReachableStep(cfg, m, step);
  }

  /**
   * A stale entry is reachable: once the first policy is served, any change of its module, mode or settings leaves it
   * active and routed, all conditions true, while the ConfigMap serves the entry of the spec it had before.
   */
  lemma StaleEntryIsReachable(
    cfg: Config, n: string, serverSpec: ServerSpec, k: PolicyKey, spec: PolicySpec, spec': PolicySpec)
    returns (m': Machine)
    requires n != "" && n != "root-ca" && spec.policyServer == n && serverSpec.replicas > 0
    requires MayReplace(spec, spec') && !SameEntry(spec, spec')
    ensures Safety.Reachable(cfg, m') && IsLive(m'.store.policies, k) && m'.store.policies[k].spec == spec'
    ensures Safety.HasRoute(m'.store, k) && m'.store.policies[k].status.state == Active
    ensures m'.store.policies[k].status.conditions == PolicyConditions(Some(true), Some(true), Some(true))
    ensures n in m'.store.configMaps && !EntryIsCurrent(m'.store, n, k)
  {
    hide UniqueName;
    hide NameWithPrefix;
    hide Safety.Reachable;
    hide PolicyController.IsUniquelyReachable;
    var m, listed := Liveness.FirstPolicyGetsServed(cfg, n, serverSpec, k, spec);
    assert Pipeline.BoundTo(m.store, k, n);
    m' := SpecReplaced(cfg, m, k, spec');
  }
}
