/**
 * Deleting a policy server ends: whatever order the controller's steps are taken in, and even with runs of both
 * reconcilers still under way, after boundedly many of them the server, its policies, their webhooks and the four
 * resources it owns are gone.
 */
module Deletion {
  import opened Common
  import opened Naming
  import opened Model
  import opened Effects
  import opened Protocol
  import opened Invariants
  import Admission
  import ConfigMaps
  import Deployments
  import Pipeline
  import PolicyChanges
  import PolicyController
  import PolicyRunChanges
  import Secrets
  import Steps

  // -------------------------------------------------------------------------- the protocol

  /** The server is under deletion, or gone with everything bound to it under deletion too; nobody else holds on. */
  ghost predicate Terminating(m: Machine, n: string) {
    var s := m.store;
    && n != "" && n != "root-ca"
    && (n in s.servers ==> s.servers[n].deleting && s.servers[n].finalizers == {Kubewarden})
    && (n !in s.servers ==> forall k :: k in s.policies && s.policies[k].spec.policyServer == n ==>
                                        s.policies[k].deleting)
    && (forall k :: k in s.policies && s.policies[k].spec.policyServer == n ==>
                    s.policies[k].finalizers <= {Kubewarden})
  }

  /** A step of the controller towards the end of server `n`; its API calls succeed, those of older runs may fail. */
  ghost predicate DeletionStep(m: Machine, n: string, step: Step) {
    match step
    case TearDownServer(x, _, faults) => x == n && faults == {}
    case FinalizePolicy(k, faults) => Pipeline.BoundTo(m.store, k, n) && faults == {}
    case ServerStage(x, _, _) => x == n
    case EndServer(x, _) => x == n
    case PublishPolicy(k, _) => k in m.policyRuns && m.policyRuns[k].policy.spec.policyServer == n
    case EndPolicy(k, _) => k in m.policyRuns && m.policyRuns[k].policy.spec.policyServer == n
    case _ => false
  }

  // --------------------------------------------------------------------------- the measure

  function LiveKeys(policies: map<PolicyKey, Policy>, n: string): set<PolicyKey> {
    set k | k in policies && policies[k].spec.policyServer == n && !policies[k].deleting
  }

  function DeletingKeys(policies: map<PolicyKey, Policy>, n: string): set<PolicyKey> {
    set k | k in policies && policies[k].spec.policyServer == n && policies[k].deleting
  }

  function RunKeys(runs: map<PolicyKey, PolicyController.PolicyRun>, n: string): set<PolicyKey> {
    set k | k in runs && runs[k].policy.spec.policyServer == n
  }

  /** Runs of `n`'s policies that have a webhook to write still. */
  function TodoKeys(runs: map<PolicyKey, PolicyController.PolicyRun>, n: string): set<PolicyKey> {
    set k | k in runs && runs[k].policy.spec.policyServer == n && runs[k].todo.Some?
  }

  /** Upper bound on the steps a run of the server has ahead of it. */
  function StepsLeft(runs: map<string, ServerRun>, n: string): nat {
    if n !in runs then 0
    else if runs[n].failed || runs[n].stage > STAGES then 1
    else STAGES - runs[n].stage + 2
  }

  function Count(b: bool): nat {
    if b then 1 else 0
  }

  function Owned(s: Store, n: string): nat {
    Count(n in s.deployments) + Count(NameWithPrefix(n) in s.secrets) + Count(n in s.services) + Count(n in s.configMaps)
  }

  /** What is left to do: a live policy costs two steps, an older run of the server may still add to what it owns. */
  function Measure(m: Machine, n: string): nat {
    2 * StepsLeft(m.serverRuns, n) + 2 * |LiveKeys(m.store.policies, n)| + |DeletingKeys(m.store.policies, n)|
    + |RunKeys(m.policyRuns, n)| + |TodoKeys(m.policyRuns, n)| + Owned(m.store, n) + Count(n in m.store.servers)
  }

  lemma SubsetSize<T>(a: set<T>, b: set<T>)
    requires a <= b
    ensures |a| <= |b|
    ensures a != b ==> |a| < |b|
  {
    assert b == a + (b - a);
    if a != b {
      var x :| x in b - a;
    }
  }

  // ----------------------------------------------------------------------- the teardown

  lemma {:induction false} DeleteEachMarksAll(policies: map<PolicyKey, Policy>, keys: seq<BoundPolicy>, p: BoundPolicy)
    requires p in keys
    ensures var after := Pipeline.DeleteEach(policies, keys, {}); p.key in after ==> after[p.key].deleting
  {
    var last := |keys| - 1;
    if p != keys[last] {
      assert p in keys[..last];
      DeleteEachMarksAll(policies, keys[..last], p);
    }
  }

  lemma MarkingLeavesNoneLive(s: Store, n: string, live: seq<BoundPolicy>)
    requires forall k :: k in LiveKeys(s.policies, n) ==> BoundPolicy(k, s.policies[k].spec) in live
    ensures LiveKeys(Pipeline.DeleteEach(s.policies, live, {}), n) == {}
  {
    DeleteEachMarks(s.policies, live, {});
    var after := Pipeline.DeleteEach(s.policies, live, {});
    hide Pipeline.DeleteEach;
    forall k | k in LiveKeys(s.policies, n)
      ensures k in after ==> after[k].deleting
    {
      DeleteEachMarksAll(s.policies, live, BoundPolicy(k, s.policies[k].spec));
    }
  }

  /** With a live policy left, all of them are marked and nothing else happens. */
  lemma TeardownMarks(s: Store, n: string, listed: seq<PolicyKey>)
    requires n in s.servers && Enumerates(listed, Pipeline.BoundKeys(s, n)) && LiveKeys(s.policies, n) != {}
    ensures var s' := Pipeline.ReconcileDeletion(s, n, listed, {}).0;
            && s' == s.(policies := s'.policies)
            && Marks(s.policies, s'.policies)
            && LiveKeys(s'.policies, n) == {}
  {
    var live := Pipeline.LiveOnly(s.policies, listed);
    Pipeline.ListedPolicies(s, n, listed);
    forall k | k in LiveKeys(s.policies, n)
      ensures BoundPolicy(k, s.policies[k].spec) in live
    {
      assert Pipeline.LiveAndBound(s, k, n);
    }
    var k :| k in LiveKeys(s.policies, n);
    assert live != [];
    hide Pipeline.DeleteEach;
    hide Pipeline.LiveOnly;
    hide Pipeline.DeleteOwned;
    hide Enumerates;
    hide Marks;
    DeleteEachMarks(s.policies, live, {});
    MarkingLeavesNoneLive(s, n, live);
    hide LiveKeys;
  }

  /** Without one, everything the server owns goes, and the server, which only the controller's finalizer held. */
  lemma TeardownEnds(s: Store, n: string, listed: seq<PolicyKey>)
    requires n in s.servers && Enumerates(listed, Pipeline.BoundKeys(s, n)) && LiveKeys(s.policies, n) == {}
    requires s.servers[n].deleting && s.servers[n].finalizers <= {Kubewarden}
    ensures var s' := Pipeline.ReconcileDeletion(s, n, listed, {}).0;
            && s' == s.(servers := Remove(s.servers, n), deployments := s'.deployments, secrets := s'.secrets,
                        services := s'.services, configMaps := s'.configMaps)
            && Pipeline.OwnsNothing(s', n)
  {
    Pipeline.ListedPolicies(s, n, listed);
    forall k | k in s.policies
      ensures !Pipeline.LiveAndBound(s, k, n)
    {
      assert k !in LiveKeys(s.policies, n);
    }
    assert Pipeline.LiveOnly(s.policies, listed) == [];
    hide Pipeline.LiveOnly;
    Pipeline.DeleteOwnedDeletes(s, n, {});
    hide Pipeline.DeleteOwned;
    hide NameWithPrefix;
    assert s.servers[n].finalizers - {Kubewarden} == {};
  }

  lemma MarkingDecreases(m: Machine, n: string, listed: seq<PolicyKey>)
    requires Terminating(m, n) && n in m.store.servers && Enumerates(listed, Pipeline.BoundKeys(m.store, n))
    requires LiveKeys(m.store.policies, n) != {}
    ensures var m' := m.(store := AfterTearDownServer(m.store, n, listed, {}));
            Measure(m', n) < Measure(m, n) && Terminating(m', n)
  {
    var s, s' := m.store, AfterTearDownServer(m.store, n, listed, {});
    hide NameWithPrefix;
    TeardownMarks(s, n, listed);
    hide Pipeline.ReconcileDeletion;
    var l, d, d' := LiveKeys(s.policies, n), DeletingKeys(s.policies, n), DeletingKeys(s'.policies, n);
    SubsetSize(d', l + d);
    assert |l + d| <= |l| + |d|;
  }

  lemma EndingDecreases(m: Machine, n: string, listed: seq<PolicyKey>)
    requires Terminating(m, n) && n in m.store.servers && Enumerates(listed, Pipeline.BoundKeys(m.store, n))
    requires LiveKeys(m.store.policies, n) == {}
    ensures var m' := m.(store := AfterTearDownServer(m.store, n, listed, {}));
            Measure(m', n) < Measure(m, n) && Terminating(m', n)
  {
    var s := m.store;
    hide NameWithPrefix;
    TeardownEnds(s, n, listed);
    hide Pipeline.ReconcileDeletion;
    forall k | k in s.policies && s.policies[k].spec.policyServer == n
      ensures s.policies[k].deleting
    {
      assert k !in LiveKeys(s.policies, n);
    }
  }

  // ----------------------------------------------------------------------- the other steps

  /** Nobody else holds the policy, so it goes at once. */
  lemma FinalizeRemoves(s: Store, cfg: Config, k: PolicyKey)
    requires k in s.policies && s.policies[k].deleting && s.policies[k].finalizers <= {Kubewarden}
    requires s.policies[k].spec.policyServer != ""
    ensures var s' := AfterFinalizePolicy(s, cfg, k, {});
            s' == s.(policies := Remove(s.policies, k), mutating := s'.mutating, validating := s'.validating)
  {
    hide UniqueName;
    var p := s.policies[k];
    assert p.finalizers - {Kubewarden} == {};
    assert Admission.AdmitPolicyUpdate(cfg, p, p.spec, {}) == Some(p.(finalizers := {}));
    var kind, u := KindOf(p.spec.mutating), UniqueName(k);
    PolicyRunChanges.DeleteWebhookRemoves(s, kind, u, {});
    assert PolicyController.DeleteItsWebhook(s, kind, u, {}).error.None?;
    hide PolicyController.DeleteItsWebhook;
    hide Admission.AdmitPolicyUpdate;
  }

  lemma FinalizeDecreases(m: Machine, cfg: Config, n: string, k: PolicyKey)
    requires Terminating(m, n) && Pipeline.BoundTo(m.store, k, n) && m.store.policies[k].deleting
    ensures var m' := m.(store := AfterFinalizePolicy(m.store, cfg, k, {}));
            Measure(m', n) < Measure(m, n) && Terminating(m', n)
  {
    hide NameWithPrefix;
    hide UniqueName;
    var s, s' := m.store, AfterFinalizePolicy(m.store, cfg, k, {});
    FinalizeRemoves(s, cfg, k);
    hide AfterFinalizePolicy;
    assert LiveKeys(s'.policies, n) == LiveKeys(s.policies, n);
    assert DeletingKeys(s'.policies, n) == DeletingKeys(s.policies, n) - {k};
    assert k in DeletingKeys(s.policies, n);
  }

  lemma SecretStageOwns(s: Store, s': Store, name: string, n: string)
    requires Secrets.AddsSecret(s, s', name)
    ensures Owned(s', n) <= Owned(s, n) + 1
  {
    hide NameWithPrefix;
  }

  lemma ConfigMapStageOwns(s: Store, s': Store, n: string)
    requires ConfigMaps.WritesConfigMap(s, s', n)
    ensures Owned(s', n) <= Owned(s, n) + 1
  {
    hide NameWithPrefix;
  }

  lemma DeploymentStageOwns(s: Store, s': Store, n: string)
    requires DeploymentStageWrites(s, s', n)
    ensures Owned(s', n) <= Owned(s, n) + 1
  {
    hide NameWithPrefix;
    hide Deployments.TakesOver;
    hide Fits;
    if s' != s {
      var d :| Fits(d, n, s.configMaps[n].rv) && Deployments.WritesDeployment(s, s', n, d);
    }
  }

  /** A stage adds at most one resource. */
  lemma StageOwns(i: nat, s: Store, s': Store, job: Pipeline.Job, root: Secret, root': Secret, ok: bool)
    requires StageWrites(i, s, s', job, root, root', ok)
    ensures Owned(s', job.name) <= Owned(s, job.name) + 1
  {
    hide NameWithPrefix;
    if i == CA_ROOT_SECRET_RECONCILED {
      SecretStageOwns(s, s', ROOT_SECRET, job.name);
    } else if i == CA_SECRET_RECONCILED {
      SecretStageOwns(s, s', NameWithPrefix(job.name), job.name);
    } else if i == CONFIG_MAP_RECONCILED {
      ConfigMapStageOwns(s, s', job.name);
    } else if i == DEPLOYMENT_RECONCILED {
      DeploymentStageOwns(s, s', job.name);
    } else {
    }
  }

  lemma StageDecreases(m: Machine, cfg: Config, n: string, freshCa: nat, faults: set<Call>)
    requires Terminating(m, n) && n in m.serverRuns && m.serverRuns[n].job.name == n
    requires m.serverRuns[n].stage < STAGES && !m.serverRuns[n].failed
    ensures var m' := AfterServerStage(m, cfg, n, freshCa, faults);
            Measure(m', n) < Measure(m, n) && Terminating(m', n)
  {
    hide StageWrites;
    hide NameWithPrefix;
    hide Owned;
    var run, m' := m.serverRuns[n], AfterServerStage(m, cfg, n, freshCa, faults);
    var (w, root') := Pipeline.RunStage(run.stage, m.store, cfg, run.job, run.root, freshCa, faults);
    StageEffect(run.stage, m.store, cfg, run.job, run.root, freshCa, faults);
    hide Pipeline.RunStage;
    StageOwns(run.stage, m.store, m'.store, run.job, run.root, root', w.error.None?);
    StageKeepsObjects(run.stage, m.store, m'.store, run.job, run.root, root', w.error.None?);
  }

  lemma EndServerDecreases(m: Machine, n: string, fail: bool)
    requires Terminating(m, n) && n in m.serverRuns
    ensures var m' := AfterEndServer(m, n, fail);
            Measure(m', n) < Measure(m, n) && Terminating(m', n)
  {
    hide NameWithPrefix;
  }

  lemma PublishedRunCounts(
    runs: map<PolicyKey, PolicyController.PolicyRun>, k: PolicyKey, run: PolicyController.PolicyRun, n: string)
    requires k in runs && runs[k].policy.spec.policyServer == n && runs[k].todo.Some?
    requires run.policy.spec.policyServer == n && run.todo.None?
    ensures |RunKeys(runs[k := run], n)| == |RunKeys(runs, n)|
    ensures |TodoKeys(runs[k := run], n)| < |TodoKeys(runs, n)|
  {
    assert RunKeys(runs[k := run], n) == RunKeys(runs, n);
    assert TodoKeys(runs[k := run], n) == TodoKeys(runs, n) - {k};
    assert k in TodoKeys(runs, n);
  }

  lemma PublishDecreases(m: Machine, cfg: Config, n: string, k: PolicyKey, faults: set<Call>)
    requires Terminating(m, n) && k in m.policyRuns && m.policyRuns[k].policy.spec.policyServer == n
    requires m.policyRuns[k].todo.Some?
    ensures var m' := AfterPublishPolicy(m, cfg, k, faults);
            Measure(m', n) < Measure(m, n) && Terminating(m', n)
  {
    hide UniqueName;
    hide NameWithPrefix;
    hide RunKeys;
    hide TodoKeys;
    var m' := AfterPublishPolicy(m, cfg, k, faults);
    PolicyRunChanges.PublishWrites(m.store, cfg, k, m.policyRuns[k], faults);
    hide PolicyController.Publish;
    PublishedRunCounts(m.policyRuns, k, m'.policyRuns[k], n);
  }

  lemma StatusKeepsKeys(
    policies: map<PolicyKey, Policy>, policies': map<PolicyKey, Policy>, k: PolicyKey, status: PolicyStatus, n: string)
    requires PolicyChanges.WritesStatus(policies, policies', k, status)
    ensures LiveKeys(policies', n) == LiveKeys(policies, n) && DeletingKeys(policies', n) == DeletingKeys(policies, n)
  {
  }

  lemma EndedRunCounts(runs: map<PolicyKey, PolicyController.PolicyRun>, k: PolicyKey, n: string)
    requires k in runs && runs[k].policy.spec.policyServer == n
    ensures |RunKeys(Remove(runs, k), n)| < |RunKeys(runs, n)|
    ensures |TodoKeys(Remove(runs, k), n)| <= |TodoKeys(runs, n)|
  {
    assert RunKeys(Remove(runs, k), n) == RunKeys(runs, n) - {k};
    SubsetSize(TodoKeys(Remove(runs, k), n), TodoKeys(runs, n));
  }

  lemma EndPolicyDecreases(m: Machine, n: string, k: PolicyKey, faults: set<Call>)
    requires Terminating(m, n) && k in m.policyRuns && m.policyRuns[k].policy.spec.policyServer == n
    requires k in m.store.policies
    ensures var m' := AfterEndPolicy(m, k, faults);
            Measure(m', n) < Measure(m, n) && Terminating(m', n)
  {
    hide NameWithPrefix;
    var s, run, m' := m.store, m.policyRuns[k], AfterEndPolicy(m, k, faults);
    PolicyRunChanges.FinishWrites(s, k, run, faults);
    hide PolicyController.Finish;
    hide PolicyController.ObservedStatus;
    EndedRunCounts(m.policyRuns, k, n);
    if m'.store != s {
      StatusKeepsKeys(s.policies, m'.store.policies, k, PolicyController.ObservedStatus(s, k, run.policy, faults), n);
    }
    hide LiveKeys;
    hide DeletingKeys;
    hide RunKeys;
    hide TodoKeys;
  }

  // --------------------------------------------------------------------- one step of many

  lemma RunsAreHeld(m: Machine)
    requires Invariant(m)
    ensures ServerRunsHeld(m.serverRuns, m.store.servers) && PolicyRunsHeld(m.policyRuns, m.store.policies)
  {
    hide ServerRunsHeld;
    hide PolicyRunsHeld;
  }

  /** Every step of the deletion brings it closer to its end. */
  lemma DeletionStepDecreases(m: Machine, cfg: Config, n: string, step: Step)
    requires Invariant(m) && Terminating(m, n) && Enabled(m, cfg, step) && DeletionStep(m, n, step)
    ensures var m' := Apply(m, cfg, step);
            Invariant(m') && Terminating(m', n) && Measure(m', n) < Measure(m, n)
  {
    hide Invariant;
    hide Terminating;
    hide Measure;
    hide AfterServerStage;
    hide AfterEndServer;
    hide AfterTearDownServer;
    hide AfterPublishPolicy;
    hide AfterEndPolicy;
    hide AfterFinalizePolicy;
    RunsAreHeld(m);
    match step
    case TearDownServer(x, listed, _) =>
      Steps.TearDownServerKeeps(m, x, listed, {});
      if LiveKeys(m.store.policies, n) != {} {
        MarkingDecreases(m, n, listed);
      } else {
        EndingDecreases(m, n, listed);
      }
    case FinalizePolicy(k, _) =>
      Steps.FinalizePolicyKeeps(m, cfg, k, {});
      FinalizeDecreases(m, cfg, n, k);
    case ServerStage(x, freshCa, faults) =>
      Steps.ServerStageKeeps(m, cfg, x, freshCa, faults);
      StageDecreases(m, cfg, n, freshCa, faults);
    case EndServer(x, fail) =>
      Steps.EndServerKeeps(m, x, fail);
      EndServerDecreases(m, n, fail);
    case PublishPolicy(k, faults) =>
      Steps.PublishPolicyKeeps(m, cfg, k, faults);
      PublishDecreases(m, cfg, n, k, faults);
    case EndPolicy(k, faults) =>
      Steps.EndPolicyKeeps(m, k, faults);
      EndPolicyDecreases(m, n, k, faults);
  }

  // --------------------------------------------------------------------------- the end

  /** Nothing is left to delete. */
  ghost predicate Done(m: Machine, n: string) {
    n !in m.store.servers && forall k :: !Pipeline.BoundTo(m.store, k, n)
  }

  /** Until everything is gone, some step is enabled. */
  lemma NextStep(m: Machine, cfg: Config, n: string) returns (step: Step)
    requires Invariant(m) && Terminating(m, n) && !Done(m, n)
    ensures DeletionStep(m, n, step) && Enabled(m, cfg, step)
  {
    hide Enabled;
    hide DeletionStep;
    RunsAreHeld(m);
    hide Invariant;
    if n in m.serverRuns {
      step := NextServerStep(m, cfg, n);
    } else if n in m.store.servers {
      var listed := SomeOrder(Pipeline.BoundKeys(m.store, n));
      TeardownIsEnabled(m, cfg, n, listed);
      step := TearDownServer(n, listed, {});
    } else {
      var k :| Pipeline.BoundTo(m.store, k, n);
      step := NextPolicyStep(m, cfg, n, k);
    }
  }

  lemma NextServerStep(m: Machine, cfg: Config, n: string) returns (step: Step)
    requires ServerRunsHeld(m.serverRuns, m.store.servers) && n in m.serverRuns
    ensures DeletionStep(m, n, step) && Enabled(m, cfg, step)
  {
    step := if m.serverRuns[n].failed || m.serverRuns[n].stage == STAGES then EndServer(n, false)
            else ServerStage(n, 0, {});
  }

  lemma TeardownIsEnabled(m: Machine, cfg: Config, n: string, listed: seq<PolicyKey>)
    requires n in m.store.servers && m.store.servers[n].deleting && n !in m.serverRuns
    requires Enumerates(listed, Pipeline.BoundKeys(m.store, n))
    ensures DeletionStep(m, n, TearDownServer(n, listed, {})) && Enabled(m, cfg, TearDownServer(n, listed, {}))
  {
  }

  lemma NextPolicyStep(m: Machine, cfg: Config, n: string, k: PolicyKey) returns (step: Step)
    requires PolicyRunsHeld(m.policyRuns, m.store.policies)
    requires Pipeline.BoundTo(m.store, k, n) && m.store.policies[k].deleting
    ensures DeletionStep(m, n, step) && Enabled(m, cfg, step)
  {
    step := if k !in m.policyRuns then FinalizePolicy(k, {})
            else if m.policyRuns[k].todo.Some? then PublishPolicy(k, {})
            else EndPolicy(k, {});
  }

  /** Nothing of the server is left: no object of its own, no policy, and no webhook that leads to it. */
  ghost predicate Gone(s: Store, n: string) {
    && n !in s.servers && Pipeline.OwnsNothing(s, n) && (forall k :: !Pipeline.BoundTo(s, k, n))
    && NoneLeadsTo(s.mutating, n) && NoneLeadsTo(s.validating, n)
  }

  ghost predicate NoneLeadsTo(hooks: map<string, WebhookConfiguration>, n: string) {
    forall u, w :: u in hooks && w in hooks[u].webhooks ==> w.serviceName != NameWithPrefix(n)
  }

  /** Once the server and its policies are gone, so is what they owned. */
  lemma DoneMeansGone(m: Machine, n: string)
    requires Invariant(m) && Done(m, n) && n != "root-ca"
    ensures Gone(m.store, n)
  {
    hide UniqueName;
    hide NameWithPrefix;
    OwnedIsGone(m, n);
    assert forall k :: k in m.store.policies ==> !Pipeline.BoundTo(m.store, k, n);
    HooksLeadElsewhere(m.store.mutating, true, m.store.policies, n);
    HooksLeadElsewhere(m.store.validating, false, m.store.policies, n);
  }

  lemma OwnedIsGone(m: Machine, n: string)
    requires Invariant(m) && n !in m.store.servers && n != "root-ca"
    ensures Pipeline.OwnsNothing(m.store, n)
    ensures Backed(m.store.mutating, true, m.store.policies) && Backed(m.store.validating, false, m.store.policies)
  {
    hide NameWithPrefix;
    hide Backed;
  }

  /** Webhooks lead to the servers of the policies behind them. */
  lemma HooksLeadElsewhere(
    hooks: map<string, WebhookConfiguration>, mutating: bool, policies: map<PolicyKey, Policy>, n: string)
    requires Backed(hooks, mutating, policies)
    requires forall k :: k in policies ==> policies[k].spec.policyServer != n
    ensures NoneLeadsTo(hooks, n)
  {
    hide UniqueName;
    forall u, w | u in hooks && w in hooks[u].webhooks
      ensures w.serviceName != NameWithPrefix(n)
    {
      var k :| Backs(k, u, hooks[u], mutating, policies);
      ServerNames(policies[k].spec.policyServer, n);
    }
  }

  lemma NamesAreDistinct(m: Machine)
    requires Invariant(m)
    ensures NamesDistinct(m.store.policies)
  {
    hide NamesDistinct;
  }
}
