/**
 * Whether a policy may change requests is said in two places: its entry in the ConfigMap allows it, and its webhook is a
 * mutating one.  The two agree unless the policy was created again, as the other kind, under an entry of its earlier life.
 */
module Kinds {
  import opened Common
  import opened Naming
  import opened Model
  import opened Invariants
  import opened Paths
  import opened Protocol
  import Admission
  import ConfigMaps
  import Deletion
  import Liveness
  import Pipeline
  import PolicyController
  import PolicyRunChanges
  import Progress
  import Races
  import Safety
  import Staleness
  import Transitions

  // ------------------------------------------------------------------------ what the webhook says

  /** A routed live policy is of the kind its webhook is of. */
  lemma RouteTellsKind(m: Machine, k: PolicyKey)
    requires Invariant(m) && IsLive(m.store.policies, k) && Safety.HasRoute(m.store, k)
    ensures UniqueName(k) in m.store.mutating <==> m.store.policies[k].spec.mutating
  {
    hide UniqueName;
    Deletion.NamesAreDistinct(m);
    Safety.HooksAreBacked(m, Mutating);
    Safety.HooksAreBacked(m, Validating);
    hide Invariant;
    var s := m.store;
    if UniqueName(k) in s.mutating {
      var x :| Backs(x, UniqueName(k), s.mutating[UniqueName(k)], true, s.policies);
    } else {
      var x :| Backs(x, UniqueName(k), s.validating[UniqueName(k)], false, s.policies);
    }
  }

  // ---------------------------------------------------------------------------- what the entry says

  /** The policy of that name that is bound to `n`, if any, and of that kind. */
  ghost predicate NamedThen(s: Store, n: string, u: string, mutating: bool) {
    exists k :: Pipeline.LiveAndBound(s, k, n) && UniqueName(k) == u && s.policies[k].spec.mutating == mutating
  }

  /** A snapshot's entry allows to mutate exactly when the policy of that name was a mutating one. */
  lemma EntryTellsKind(s: Store, n: string, listed: seq<PolicyKey>, u: string)
    requires NamesDistinct(s.policies) && Enumerates(listed, Pipeline.BoundKeys(s, n))
    requires u in ConfigMaps.PoliciesMap(Pipeline.LiveOnly(s.policies, listed))
    ensures var allowed := ConfigMaps.PoliciesMap(Pipeline.LiveOnly(s.policies, listed))[u].allowedToMutate;
            forall mutating :: NamedThen(s, n, u, mutating) <==> mutating == allowed
  {
    hide UniqueName;
    var read := Pipeline.LiveOnly(s.policies, listed);
    Pipeline.ListedPolicies(s, n, listed);
    hide Pipeline.LiveOnly;
    hide Enumerates;
    var x := ConfigMaps.PoliciesMapMembers(read, u);
    hide ConfigMaps.PoliciesMap;
    assert read[x] in read;
    assert Pipeline.LiveAndBound(s, read[x].key, n);
  }

  /** In a state of a run: whether the entry of a routed policy allows it to mutate. */
  predicate EntryAllows(s: Store, n: string, k: PolicyKey)
    requires n in s.configMaps && ConfigMaps.Serves(s.configMaps[n], UniqueName(k))
  {
    ConfigMaps.ServedPolicies(s.configMaps[n]).value[UniqueName(k)].allowedToMutate
  }

  /**
   * Entry and webhook of a routed live policy agree on whether it may change requests exactly when the policy that had its
   * name when the run behind the ConfigMap began was of the kind the policy is of now.
   */
  lemma KindsAgreeExactly(cfg: Config, trace: seq<Machine>, steps: seq<Step>, i: nat, j: nat, n: string, k: PolicyKey)
    requires IsDisciplinedRun(cfg, trace, steps) && Staleness.ServesSnapshot(trace, steps, i, j, n)
    requires Pipeline.LiveAndBound(trace[i].store, k, n) && Safety.HasRoute(trace[i].store, k)
    ensures ConfigMaps.Serves(trace[i].store.configMaps[n], UniqueName(k))
    ensures (EntryAllows(trace[i].store, n, k) <==> UniqueName(k) in trace[i].store.mutating) <==>
            NamedThen(trace[j].store, n, UniqueName(k), trace[i].store.policies[k].spec.mutating)
  {
    hide UniqueName;
    hide Apply;
    hide Enabled;
    hide Disciplined;
    hide Invariant;
    hide NamedThen;
    hide NamesDistinct;
    hide Pipeline.LiveOnly;
    hide ConfigMaps.PoliciesMap;
    hide ConfigMaps.ServedPolicies;
    Safety.InvariantOnRuns(cfg, trace, steps, i);
    RouteTellsKind(trace[i], k);
    Safety.RouteIsKnown(trace[i], k);
    Safety.InvariantOnRuns(cfg, trace, steps, j);
    Deletion.NamesAreDistinct(trace[j]);
    Staleness.ListedIsBound(trace[j], cfg, steps[j]);
    EntryTellsKind(trace[j].store, n, steps[j].listed, UniqueName(k));
  }

  // ------------------------------------------------------------------ without being created again

  /** The policy is not new, is of its former kind and server, and if it was marked for deletion it is still. */
  predicate KindKept(before: map<PolicyKey, Policy>, after: map<PolicyKey, Policy>, k: PolicyKey) {
    k in after ==>
      && k in before && after[k].spec.mutating == before[k].spec.mutating
      && after[k].spec.policyServer == before[k].spec.policyServer
      && (before[k].deleting ==> after[k].deleting)
  }

  lemma UpdateKeepsKind(s: Store, cfg: Config, k: PolicyKey, spec: PolicySpec, finalizers: set<Finalizer>)
    requires k in s.policies && Admission.AdmitPolicyUpdate(cfg, s.policies[k], spec, finalizers).Some?
    requires spec.mutating == s.policies[k].spec.mutating
    ensures KindKept(s.policies, AfterUpdatePolicy(s, cfg, k, spec, finalizers).policies, k)
  {
  }

  /** Only creation gives a policy a kind. */
  lemma StepKeepsKind(m: Machine, cfg: Config, step: Step, k: PolicyKey)
    requires Enabled(m, cfg, step) && Disciplined(m, cfg, step) && !(step.CreatePolicy? && step.k == k)
    requires forall x :: x in m.policyRuns ==> x in m.store.policies
    ensures KindKept(m.store.policies, Apply(m, cfg, step).store.policies, k)
  {
    if step.UpdatePolicy? && step.k == k {
      hide KindKept;
      hide AfterUpdatePolicy;
      UpdateKeepsKind(m.store, cfg, k, step.spec, step.finalizers);
    } else {
      hide Apply;
      hide Enabled;
      hide Disciplined;
      Transitions.StepKeepsSpec(m, cfg, step, k);
    }
  }

  lemma {:induction false} RunKeepsKind(
    cfg: Config, trace: seq<Machine>, steps: seq<Step>, j: nat, i: nat, k: PolicyKey)
    requires IsDisciplinedRun(cfg, trace, steps) && j <= i < |trace|
    requires forall x :: j <= x < i ==> !(steps[x].CreatePolicy? && steps[x].k == k)
    ensures KindKept(trace[j].store.policies, trace[i].store.policies, k)
    decreases i - j
  {
    hide Invariant;
    hide Apply;
    hide Enabled;
    hide Disciplined;
    if j < i {
      RunKeepsKind(cfg, trace, steps, j, i - 1, k);
      Safety.InvariantOnRuns(cfg, trace, steps, i - 1);
      Deletion.RunsAreHeld(trace[i - 1]);
      StepKeepsKind(trace[i - 1], cfg, steps[i - 1], k);
    }
  }

  /** A policy that was not created since that run began may change requests exactly when it is sent them to be changed. */
  lemma KindsAgree(cfg: Config, trace: seq<Machine>, steps: seq<Step>, i: nat, j: nat, n: string, k: PolicyKey)
    requires IsDisciplinedRun(cfg, trace, steps) && Staleness.ServesSnapshot(trace, steps, i, j, n)
    requires Pipeline.LiveAndBound(trace[i].store, k, n) && Safety.HasRoute(trace[i].store, k)
    requires forall x :: j <= x < i ==> !(steps[x].CreatePolicy? && steps[x].k == k)
    ensures ConfigMaps.Serves(trace[i].store.configMaps[n], UniqueName(k))
    ensures EntryAllows(trace[i].store, n, k) <==> UniqueName(k) in trace[i].store.mutating
  {
    hide UniqueName;
    hide IsDisciplinedRun;
    hide Safety.HasRoute;
    hide ConfigMaps.Serves;
    hide ConfigMaps.ServedPolicies;
    RunKeepsKind(cfg, trace, steps, j, i, k);
    KindsAgreeExactly(cfg, trace, steps, i, j, n, k);
    assert Pipeline.LiveAndBound(trace[j].store, k, n);
  }

  // ------------------------------------------------------------------------- created again

  lemma NameStaysFree(m: Machine, m1: Machine, k: PolicyKey)
    requires Invariant(m) && k in m.store.policies && m1.store.policies == Remove(m.store.policies, k)
    ensures NameIsFree(m1.store, k)
  {
    hide UniqueName;
    Deletion.NamesAreDistinct(m);
  }

  /** The policy goes, and is created again as the other kind, which nothing forbids. */
  lemma CreatedAsOtherKind(m: Machine, cfg: Config, k: PolicyKey, spec: PolicySpec) returns (m': Machine)
    requires Safety.Reachable(cfg, m) && k in m.store.policies && m.store.policies[k].finalizers == {Kubewarden}
    requires m.store.policies[k].spec.policyServer == spec.policyServer != ""
    requires k !in m.policyRuns && spec.policyServer !in m.serverRuns
    ensures Safety.Reachable(cfg, m') && m' == m.(store := m'.store)
    ensures PolicyRunChanges.OnlyPolicies(m.store, m'.store)
    ensures IsLive(m'.store.policies, k) && m'.store.policies[k].spec == spec
  {
    hide NameIsFree;
    hide Safety.Reachable;
    hide Invariant;
    Safety.ReachableInvariant(cfg, m);
    var m0 := Marked(m, cfg, k);
    var m1 := Finalized(m0, cfg, k);
    assert Remove(m0.store.policies, k) == Remove(m.store.policies, k);
    NameStaysFree(m, m1, k);
    m' := Created(m1, cfg, k, spec);
  }

  lemma Marked(m: Machine, cfg: Config, k: PolicyKey) returns (m': Machine)
    requires Safety.Reachable(cfg, m) && k in m.store.policies && m.store.policies[k].finalizers == {Kubewarden}
    ensures Safety.Reachable(cfg, m')
    ensures m' == m.(store := m.store.(policies := m.store.policies[k := m.store.policies[k].(deleting := true)]))
  {
    hide Safety.Reachable;
    m' := m.(store := AfterDeletePolicy(m.store, k));
    assert m'.store == m.store.(policies := m.store.policies[k := m.store.policies[k].(deleting := true)]);
    hide AfterDeletePolicy;
    Liveness.ReachableStep(cfg, m, DeletePolicy(k));
  }

  lemma Finalized(m: Machine, cfg: Config, k: PolicyKey) returns (m': Machine)
    requires Safety.Reachable(cfg, m) && k in m.store.policies && m.store.policies[k].deleting && k !in m.policyRuns
    requires m.store.policies[k].finalizers == {Kubewarden} && m.store.policies[k].spec.policyServer != ""
    ensures Safety.Reachable(cfg, m') && m' == m.(store := m'.store)
    ensures PolicyRunChanges.OnlyPolicies(m.store, m'.store) && m'.store.policies == Remove(m.store.policies, k)
  {
    hide UniqueName;
    hide Safety.Reachable;
    m' := m.(store := AfterFinalizePolicy(m.store, cfg, k, {}));
    Deletion.FinalizeRemoves(m.store, cfg, k);
    hide AfterFinalizePolicy;
    assert Enabled(m, cfg, FinalizePolicy(k, {})) && Apply(m, cfg, FinalizePolicy(k, {})) == m';
    Liveness.ReachableStep(cfg, m, FinalizePolicy(k, {}));
  }

  lemma Created(m: Machine, cfg: Config, k: PolicyKey, spec: PolicySpec) returns (m': Machine)
    requires Safety.Reachable(cfg, m) && k !in m.store.policies && NameIsFree(m.store, k)
    requires spec.policyServer != "" && spec.policyServer !in m.serverRuns
    ensures Safety.Reachable(cfg, m') && m' == m.(store := m'.store)
    ensures m'.store == m.store.(policies := m'.store.policies)
    ensures IsLive(m'.store.policies, k) && m'.store.policies[k].spec == spec
  {
    hide NameIsFree;
    hide Safety.Reachable;
    m' := Apply(m, cfg, CreatePolicy(k, spec, {}));
    Liveness.ReachableStep(cfg, m, CreatePolicy(k, spec, {}));
  }

  /**
   * So the two can part within the rules: whatever the server, with at least one replica, and the policy, a disciplined run
   * from the empty cluster deletes the policy once it is served, creates it again as the other kind, and gets it routed at
   * once, while its server is still told the former kind.
   */
  lemma KindsCanPart(cfg: Config, n: string, serverSpec: ServerSpec, k: PolicyKey, spec: PolicySpec)
    returns (m': Machine)
    requires n != "" && n != "root-ca" && spec.policyServer == n && serverSpec.replicas > 0
    ensures Safety.Reachable(cfg, m') && Pipeline.LiveAndBound(m'.store, k, n) && Safety.HasRoute(m'.store, k)
    ensures n in m'.store.configMaps && ConfigMaps.Serves(m'.store.configMaps[n], UniqueName(k))
    ensures EntryAllows(m'.store, n, k) != (UniqueName(k) in m'.store.mutating)
  {
    hide UniqueName;
    hide NameWithPrefix;
    hide Leads;
    hide Safety.Reachable;
    hide PolicyController.IsUniquelyReachable;
    hide ConfigMaps.ServedPolicies;
    var m, listed := Liveness.FirstPolicyGetsServed(cfg, n, serverSpec, k, spec);
    hide Progress.Serving;
    assert Pipeline.BoundTo(m.store, k, n);
    var m1 := CreatedAsOtherKind(m, cfg, k, spec.(mutating := !spec.mutating));
    Liveness.GateUnmoved(m.store, m1.store, n, UniqueName(k), listed);
    m' := Races.PolicyIsRouted(m1, cfg, n, k, listed);
    Liveness.ReachableByOwnSteps(cfg, m1, [BeginPolicy(k, listed, {})] + [PublishPolicy(k, {})], m');
    Safety.ReachableInvariant(cfg, m');
    RouteTellsKind(m', k);
    hide Invariant;
    assert EntryAllows(m'.store, n, k) == spec.mutating;
  }
}
