/**
 * The controller gets there: from every reachable state in which a live policy and its live server are not being worked
 * on, steps of the controller and of the rollout lead to the policy being active, with the webhook it should have.
 */
module Liveness {
  import opened Common
  import opened Naming
  import opened Model
  import opened Invariants
  import opened Paths
  import opened Protocol
  import Admission
  import ConfigMaps
  import Deletion
  import Pipeline
  import PolicyController
  import PolicyRunChanges
  import Progress
  import Rollout
  import Safety
  import Transitions

  /** Steps that no user takes. */
  ghost predicate OnlyOwn(steps: seq<Step>) {
    forall step :: step in steps ==> !IsUserStep(step)
  }

  // ------------------------------------------------------------------ reachable by its own steps

  lemma ReachableStep(cfg: Config, m: Machine, step: Step)
    requires Safety.Reachable(cfg, m) && Enabled(m, cfg, step) && Disciplined(m, cfg, step)
    ensures Safety.Reachable(cfg, Apply(m, cfg, step))
  {
    hide Apply;
    hide Enabled;
    hide Disciplined;
    var trace, steps :| IsDisciplinedRun(cfg, trace, steps) && trace[|steps|] == m;
    var m' := Apply(m, cfg, step);
    assert IsDisciplinedRun(cfg, trace + [m'], steps + [step]);
    assert (trace + [m'])[|steps + [step]|] == m';
  }

  lemma OwnStepIsDisciplined(cfg: Config, m: Machine, step: Step)
    requires Enabled(m, cfg, step) && !IsUserStep(step)
    ensures Disciplined(m, cfg, step)
  {
  }

  /** Only users can break the rules: what the controller and the cluster do by themselves stays reachable. */
  lemma {:induction false} ReachableByOwnSteps(cfg: Config, m: Machine, steps: seq<Step>, m': Machine)
    requires Safety.Reachable(cfg, m) && Leads(cfg, m, steps, m') && OnlyOwn(steps)
    ensures Safety.Reachable(cfg, m')
    decreases |steps|
  {
    hide Apply;
    hide Enabled;
    hide Disciplined;
    hide Safety.Reachable;
    if steps != [] {
      OwnStepIsDisciplined(cfg, m, steps[0]);
      ReachableStep(cfg, m, steps[0]);
      ReachableByOwnSteps(cfg, Apply(m, cfg, steps[0]), steps[1..], m');
    }
  }

  // -------------------------------------------------------------------- the server's part

  lemma {:induction false} StagesLead(cfg: Config, m: Machine, n: string) returns (steps: seq<Step>)
    requires n in m.serverRuns && m.serverRuns[n].stage <= STAGES && !m.serverRuns[n].failed
    ensures var m' := Progress.Uninterrupted(m, cfg, n, 0, {});
            && Leads(cfg, m, steps, m') && OnlyOwn(steps)
            && n in m'.serverRuns && (m'.serverRuns[n].failed || m'.serverRuns[n].stage == STAGES)
            && m'.policyRuns == m.policyRuns
            && m'.store.policies == m.store.policies && m'.store.servers == m.store.servers
    decreases STAGES - m.serverRuns[n].stage
  {
    hide Pipeline.RunStage;
    hide Apply;
    hide Enabled;
    if m.serverRuns[n].stage == STAGES {
      steps := [];
    } else {
      var m1 := AfterServerStage(m, cfg, n, 0, {});
      Transitions.StageFrame(m, cfg, n, 0, {});
      ServerStageLeads(cfg, m, n);
      if m1.serverRuns[n].failed {
        steps := [ServerStage(n, 0, {})];
      } else {
        var rest := StagesLead(cfg, m1, n);
        steps := [ServerStage(n, 0, {})] + rest;
        Then(cfg, m, [ServerStage(n, 0, {})], m1, rest, Progress.Uninterrupted(m, cfg, n, 0, {}));
      }
    }
  }

  /** One run of the server's reconciler, from reading to the status, is a whole successful reconciliation. */
  lemma ServerGetsReconciled(cfg: Config, m: Machine, n: string) returns (steps: seq<Step>, m': Machine)
    requires Safety.Reachable(cfg, m)
    requires n in m.store.servers && !m.store.servers[n].deleting && n !in m.serverRuns
    ensures Leads(cfg, m, steps, m') && OnlyOwn(steps)
    ensures Progress.ReconciledTo(m.store, m'.store, cfg, n)
    ensures m'.policyRuns == m.policyRuns && n !in m'.serverRuns
  {
    hide Leads;
    hide Safety.Reachable;
    hide Pipeline.LiveOnly;
    hide Pipeline.RunFrom;
    hide Progress.Uninterrupted;
    var s := m.store;
    var listed := SomeOrder(Pipeline.BoundKeys(s, n));
    var job := Pipeline.Job(n, s.servers[n].spec, Pipeline.LiveOnly(s.policies, listed));
    var conditions := s.servers[n].conditions;
    BeginServerLeads(cfg, m, n, listed);
    var m1 := AfterBeginServer(m, n, listed);
    var stages := StagesLead(cfg, m1, n);
    var m2 := Progress.Uninterrupted(m1, cfg, n, 0, {});
    Progress.StagesMakeTheRun(m1, cfg, n, 0, {});
    Safety.ReconcileNeverStuck(cfg, m, conditions, job, 0);
    EndServerLeads(cfg, m2, n);
    m' := AfterEndServer(m2, n, false);
    Then(cfg, m, [BeginServer(n, listed)], m1, stages, m2);
    Then(cfg, m, [BeginServer(n, listed)] + stages, m2, [EndServer(n, false)], m');
    steps := [BeginServer(n, listed)] + stages + [EndServer(n, false)];
    assert Progress.JobSucceeds(s, m'.store, cfg, n, conditions, listed, 0, {});
  }

  // -------------------------------------------------------------------- the policy's part

  /** Taken one after the other, the steps of a policy run are the whole reconciliation. */
  lemma PolicyGetsReconciled(cfg: Config, m: Machine, k: PolicyKey, listed: seq<nat>)
    returns (steps: seq<Step>, m': Machine)
    requires IsLive(m.store.policies, k) && k !in m.policyRuns
    requires var n := m.store.policies[k].spec.policyServer;
             n in m.store.deployments ==>
               Enumerates(listed, PolicyController.ReplicaSetsOf(m.store, m.store.deployments[n].serverLabel))
    ensures Leads(cfg, m, steps, m') && OnlyOwn(steps)
    ensures m' == m.(store := PolicyController.ReconcilePolicy(m.store, cfg, k, listed, {}).0)
  {
    hide Leads;
    hide PolicyController.Prepare;
    hide PolicyController.Finish;
    BeginPolicyLeads(cfg, m, k, listed);
    var m1 := AfterBeginPolicy(m, k, listed, {});
    if m1.policyRuns[k].todo.Some? {
      PublishPolicyLeads(cfg, m1, k);
      PolicyRunChanges.PublishWrites(m.store, cfg, k, m1.policyRuns[k], {});
      hide PolicyController.Publish;
      var m2 := AfterPublishPolicy(m1, cfg, k, {});
      EndPolicyLeads(cfg, m2, k);
      m' := AfterEndPolicy(m2, k, {});
      Then(cfg, m, [BeginPolicy(k, listed, {})], m1, [PublishPolicy(k, {})], m2);
      Then(cfg, m, [BeginPolicy(k, listed, {})] + [PublishPolicy(k, {})], m2, [EndPolicy(k, {})], m');
      steps := [BeginPolicy(k, listed, {})] + [PublishPolicy(k, {})] + [EndPolicy(k, {})];
    } else {
      EndPolicyLeads(cfg, m1, k);
      m' := AfterEndPolicy(m1, k, {});
      Then(cfg, m, [BeginPolicy(k, listed, {})], m1, [EndPolicy(k, {})], m');
      steps := [BeginPolicy(k, listed, {})] + [EndPolicy(k, {})];
    }
  }

  /** The gate looks at nothing that changes with policies and webhooks alone. */
  lemma GateUnmoved(s: Store, s': Store, n: string, u: string, listed: seq<nat>)
    requires PolicyRunChanges.OnlyPolicies(s, s') && n in s.deployments
    ensures PolicyController.ReplicaSetsOf(s', s.deployments[n].serverLabel) ==
            PolicyController.ReplicaSetsOf(s, s.deployments[n].serverLabel)
    ensures PolicyController.IsUniquelyReachable(s', n, s'.deployments[n], u, listed, {}) ==
            PolicyController.IsUniquelyReachable(s, n, s.deployments[n], u, listed, {})
  {
    hide ConfigMaps.Serves;
    hide PolicyController.LatestHash;
  }

  // ------------------------------------------------------------ what is under way comes to its end

  /** Of the policies at most the status of `k` has changed. */
  predicate OnlyStatus(before: map<PolicyKey, Policy>, after: map<PolicyKey, Policy>, k: PolicyKey) {
    k in before && k in after && after == before[k := before[k].(status := after[k].status)]
  }

  lemma ServerRunCanEnd(cfg: Config, m: Machine, n: string) returns (steps: seq<Step>, m': Machine)
    requires Safety.Reachable(cfg, m) && n in m.store.servers
    ensures Leads(cfg, m, steps, m') && OnlyOwn(steps) && n !in m'.serverRuns && m'.policyRuns == m.policyRuns
    ensures m'.store.policies == m.store.policies && Progress.OnlyConditions(m.store.servers, m'.store.servers, n)
  {
    hide Leads;
    hide Safety.Reachable;
    hide Progress.Uninterrupted;
    if n !in m.serverRuns {
      assert m.store.servers == m.store.servers[n := m.store.servers[n]];
      steps, m' := NoSteps(cfg, m);
    } else {
      RunIsWithinStages(cfg, m, n);
      var stages, m1 := RestOfRun(cfg, m, n);
      EndServerLeads(cfg, m1, n);
      m' := AfterEndServer(m1, n, false);
      Then(cfg, m, stages, m1, [EndServer(n, false)], m');
      steps := stages + [EndServer(n, false)];
    }
  }

  lemma NoSteps(cfg: Config, m: Machine) returns (steps: seq<Step>, m': Machine)
    ensures m' == m && steps == [] && Leads(cfg, m, steps, m') && OnlyOwn(steps)
  {
    steps, m' := [], m;
  }

  lemma RunIsWithinStages(cfg: Config, m: Machine, n: string)
    requires Safety.Reachable(cfg, m) && n in m.serverRuns
    ensures m.serverRuns[n].stage <= STAGES
  {
    hide Invariant;
    Safety.ReachableInvariant(cfg, m);
    Deletion.RunsAreHeld(m);
  }

  lemma RestOfRun(cfg: Config, m: Machine, n: string) returns (steps: seq<Step>, m': Machine)
    requires n in m.serverRuns && m.serverRuns[n].stage <= STAGES
    ensures Leads(cfg, m, steps, m') && OnlyOwn(steps)
    ensures n in m'.serverRuns && (m'.serverRuns[n].failed || m'.serverRuns[n].stage == STAGES)
    ensures m'.policyRuns == m.policyRuns
    ensures m'.store.policies == m.store.policies && m'.store.servers == m.store.servers
  {
    hide Leads;
    if m.serverRuns[n].failed {
      steps, m' := NoSteps(cfg, m);
    } else {
      steps := StagesLead(cfg, m, n);
      m' := Progress.Uninterrupted(m, cfg, n, 0, {});
    }
    hide Progress.Uninterrupted;
  }

  lemma StatusCanBeWritten(cfg: Config, m: Machine, k: PolicyKey) returns (steps: seq<Step>, m': Machine)
    requires k in m.store.policies && k in m.policyRuns && m.policyRuns[k].todo.None?
    ensures Leads(cfg, m, steps, m') && OnlyOwn(steps) && k !in m'.policyRuns
    ensures m'.serverRuns == m.serverRuns && m'.store.servers == m.store.servers
    ensures OnlyStatus(m.store.policies, m'.store.policies, k)
  {
    EndPolicyLeads(cfg, m, k);
    PolicyRunChanges.FinishKeepsSpecs(m.store, k, m.policyRuns[k], {});
    hide Leads;
    hide PolicyController.Finish;
    steps, m' := [EndPolicy(k, {})], AfterEndPolicy(m, k, {});
  }

  lemma PolicyRunCanEnd(cfg: Config, m: Machine, k: PolicyKey) returns (steps: seq<Step>, m': Machine)
    requires k in m.store.policies
    ensures Leads(cfg, m, steps, m') && OnlyOwn(steps) && k !in m'.policyRuns
    ensures m'.serverRuns == m.serverRuns && m'.store.servers == m.store.servers
    ensures OnlyStatus(m.store.policies, m'.store.policies, k)
  {
    hide Leads;
    hide PolicyController.Publish;
    if k !in m.policyRuns {
      assert m.store.policies == m.store.policies[k := m.store.policies[k]];
      steps, m' := NoSteps(cfg, m);
    } else if m.policyRuns[k].todo.None? {
      steps, m' := StatusCanBeWritten(cfg, m, k);
    } else {
      PublishPolicyLeads(cfg, m, k);
      PolicyRunChanges.PublishKeepsPolicies(m.store, cfg, k, m.policyRuns[k], {});
      PublishIsOver(m.store, cfg, k, m.policyRuns[k]);
      var m1 := AfterPublishPolicy(m, cfg, k, {});
      var rest;
      rest, m' := StatusCanBeWritten(cfg, m1, k);
      Then(cfg, m, [PublishPolicy(k, {})], m1, rest, m');
      steps := [PublishPolicy(k, {})] + rest;
    }
  }

  lemma PublishIsOver(s: Store, cfg: Config, k: PolicyKey, run: PolicyController.PolicyRun)
    requires run.todo.Some?
    ensures PolicyController.Publish(s, cfg, k, run, {}).1.todo.None?
  {
    PolicyRunChanges.PublishWrites(s, cfg, k, run, {});
    hide PolicyController.Publish;
  }

  /** Whatever is under way for the server and the policy can come to its end. */
  lemma BothCanRest(cfg: Config, m: Machine, n: string, k: PolicyKey) returns (steps: seq<Step>, m': Machine)
    requires Safety.Reachable(cfg, m) && n in m.store.servers && k in m.store.policies
    ensures Leads(cfg, m, steps, m') && OnlyOwn(steps) && Safety.Reachable(cfg, m')
    ensures n !in m'.serverRuns && k !in m'.policyRuns
    ensures Progress.OnlyConditions(m.store.servers, m'.store.servers, n)
    ensures OnlyStatus(m.store.policies, m'.store.policies, k)
  {
    hide Leads;
    hide Safety.Reachable;
    var steps1, m1 := ServerRunCanEnd(cfg, m, n);
    var steps2;
    steps2, m' := PolicyRunCanEnd(cfg, m1, k);
    Then(cfg, m, steps1, m1, steps2, m');
    steps := steps1 + steps2;
    ReachableByOwnSteps(cfg, m, steps, m');
  }

  // ------------------------------------------------------------------------------- together

  lemma RolloutIsOwn(steps: seq<Step>)
    requires Rollout.OnlyRollout(steps)
    ensures OnlyOwn(steps)
  {
  }

  /** After a successful reconciliation the server's rollout can finish. */
  lemma ServerGetsRolledOut(cfg: Config, s: Store, m: Machine, n: string, k: PolicyKey)
    returns (steps: seq<Step>, m': Machine)
    requires Safety.Reachable(cfg, m) && Progress.ReconciledTo(s, m.store, cfg, n)
    requires NamesDistinct(s.policies) && Pipeline.LiveAndBound(s, k, n)
    ensures Leads(cfg, m, steps, m') && OnlyOwn(steps) && Progress.RolledOut(m.store, m'.store, n)
    ensures m' == m.(store := m'.store) && m'.store.policies == s.policies
    ensures NameWithPrefix(n) in m'.store.secrets && Progress.OnlyConditions(s.servers, m'.store.servers, n)
  {
    hide Leads;
    hide Invariant;
    hide Safety.Reachable;
    hide Progress.ReconciledTo;
    hide UniqueName;
    hide NameWithPrefix;
    Progress.ReconciledServes(s, m.store, cfg, n, k);
    Safety.ReachableInvariant(cfg, m);
    steps, m' := Rollout.RolloutCanComplete(cfg, m, n);
    RolloutIsOwn(steps);
  }

  /** A server in good order whose pods all serve the policy as it is; neither is being worked on. */
  ghost predicate InOrder(m: Machine, n: string, k: PolicyKey, listed: seq<nat>) {
    var s := m.store;
    && n in s.servers && !s.servers[n].deleting && n !in m.serverRuns && k !in m.policyRuns
    && Rooted(s, n) && Progress.ReadyToServe(s, n, k)
    && Enumerates(listed, PolicyController.ReplicaSetsOf(s, s.deployments[n].serverLabel))
    && PolicyController.IsUniquelyReachable(s, n, s.deployments[n], UniqueName(k), listed, {})
  }

  predicate Rooted(s: Store, n: string) {
    ROOT_SECRET in s.secrets && NameWithPrefix(n) in s.secrets
  }

  /** Reconciling the policy leaves its server as it is. */
  lemma OrderKept(m: Machine, m': Machine, n: string, k: PolicyKey, listed: seq<nat>)
    requires InOrder(m, n, k, listed) && PolicyRunChanges.OnlyPolicies(m.store, m'.store)
    requires k in m'.store.policies && m'.store.policies[k].spec == m.store.policies[k].spec
    requires m'.serverRuns == m.serverRuns && k !in m'.policyRuns
    ensures InOrder(m', n, k, listed)
  {
    hide UniqueName;
    hide NameWithPrefix;
    GateUnmoved(m.store, m'.store, n, UniqueName(k), listed);
    hide PolicyController.IsUniquelyReachable;
  }

  /**
   * From every reachable state, whatever is under way, steps that no user takes lead to a reachable state where a given
   * live policy of a live server with at least one replica is active, every condition true, with the webhook it should
   * have, and the server serves it in good order.
   */
  lemma PolicyCanBecomeActive(cfg: Config, m: Machine, n: string, k: PolicyKey)
    returns (steps: seq<Step>, m': Machine, listed: seq<nat>)
    requires Safety.Reachable(cfg, m)
    requires n != "" && n in m.store.servers && !m.store.servers[n].deleting
    requires IsLive(m.store.policies, k) && m.store.policies[k].spec.policyServer == n
    requires m.store.servers[n].spec.replicas > 0
    ensures Leads(cfg, m, steps, m') && OnlyOwn(steps) && Safety.Reachable(cfg, m')
    ensures ROOT_SECRET in m'.store.secrets && Progress.Serving(m'.store, cfg, k, n, m'.store.secrets[ROOT_SECRET])
    ensures InOrder(m', n, k, listed) && OnlyStatus(m.store.policies, m'.store.policies, k)
  {
    hide Leads;
    hide Safety.Reachable;
    hide Progress.Serving;
    hide InOrder;
    var steps1, m1 := BothCanRest(cfg, m, n, k);
    var steps2;
    steps2, m', listed := IdlePolicyCanBecomeActive(cfg, m1, n, k);
    Then(cfg, m, steps1, m1, steps2, m');
    steps := steps1 + steps2;
  }

  lemma IdlePolicyCanBecomeActive(cfg: Config, m: Machine, n: string, k: PolicyKey)
    returns (steps: seq<Step>, m': Machine, listed: seq<nat>)
    requires Safety.Reachable(cfg, m)
    requires n != "" && n in m.store.servers && !m.store.servers[n].deleting && n !in m.serverRuns
    requires IsLive(m.store.policies, k) && m.store.policies[k].spec.policyServer == n && k !in m.policyRuns
    requires m.store.servers[n].spec.replicas > 0
    ensures Leads(cfg, m, steps, m') && OnlyOwn(steps) && Safety.Reachable(cfg, m')
    ensures ROOT_SECRET in m'.store.secrets && Progress.Serving(m'.store, cfg, k, n, m'.store.secrets[ROOT_SECRET])
    ensures InOrder(m', n, k, listed) && OnlyStatus(m.store.policies, m'.store.policies, k)
  {
    hide Leads;
    hide Invariant;
    hide Safety.Reachable;
    hide Progress.ReconciledTo;
    hide Progress.RolledOut;
    hide Progress.Serving;
    hide Progress.ReadyToServe;
    hide PolicyController.ReconcilePolicy;
    hide PolicyController.IsUniquelyReachable;
    hide UniqueName;
    hide NameWithPrefix;
    Safety.ReachableInvariant(cfg, m);
    Deletion.NamesAreDistinct(m);
    var steps1, m1 := ServerGetsReconciled(cfg, m, n);
    ReachableByOwnSteps(cfg, m, steps1, m1);
    var steps2, m2 := ServerGetsRolledOut(cfg, m.store, m1, n, k);
    ReachableByOwnSteps(cfg, m1, steps2, m2);
    RolledOutHasDeployment(m1.store, m2.store, n);
    listed := SomeOrder(PolicyController.ReplicaSetsOf(m2.store, m2.store.deployments[n].serverLabel));
    Progress.PolicyBecomesActive(cfg, m.store, m1.store, m2, n, k, listed);
    var steps3;
    steps3, m' := PolicyGetsReconciled(cfg, m2, k, listed);
    PolicyRunChanges.PolicyCallWrites(m2.store, cfg, k, listed, {});
    OrderKept(m2, m', n, k, listed);
    ReachableByOwnSteps(cfg, m2, steps3, m');
    steps := steps1 + steps2 + steps3;
    Then(cfg, m, steps1, m1, steps2, m2);
    Then(cfg, m, steps1 + steps2, m2, steps3, m');
  }

  lemma RolledOutHasDeployment(s1: Store, s2: Store, n: string)
    requires Progress.RolledOut(s1, s2, n)
    ensures n in s2.deployments
  {
  }

  /** A server in good order with one policy, which all its pods serve; nothing is under way. */
  ghost predicate AtRest(m: Machine, cfg: Config, n: string, k: PolicyKey, listed: seq<nat>) {
    var s := m.store;
    && n != "" && InOrder(m, n, k, listed)
    && !s.policies[k].deleting && s.policies[k].finalizers == {Kubewarden}
    && (forall x :: Pipeline.BoundTo(s, x, n) <==> x == k)
    && ConfigMaps.Decodes(s.configMaps[n])
  }

  /**
   * Starting from an empty cluster: a server that asks for at least one replica and a policy bound to it are created, the
   * policy gets served, and everything comes to rest.
   */
  lemma FirstPolicyGetsServed(
    cfg: Config, n: string, serverSpec: ServerSpec, k: PolicyKey, spec: PolicySpec)
    returns (m': Machine, listed: seq<nat>)
    requires n != "" && n != "root-ca" && spec.policyServer == n && serverSpec.replicas > 0
    ensures Safety.Reachable(cfg, m') && Safety.HasRoute(m'.store, k)
    ensures ROOT_SECRET in m'.store.secrets && Progress.Serving(m'.store, cfg, k, n, m'.store.secrets[ROOT_SECRET])
    ensures AtRest(m', cfg, n, k, listed) && m'.store.policies[k].spec == spec
  {
    hide UniqueName;
    hide NameWithPrefix;
    hide Leads;
    hide Safety.Reachable;
    var m := ServerAndPolicyCreated(cfg, n, serverSpec, k, spec);
    var steps;
    steps, m', listed := PolicyCanBecomeActive(cfg, m, n, k);
    hide PolicyController.IsUniquelyReachable;
    ServingIsRouted(m'.store, cfg, k, n);
    hide Progress.Serving;
    ConfigMapsDecode(cfg, m', n);
  }

  lemma ConfigMapsDecode(cfg: Config, m: Machine, n: string)
    requires Safety.Reachable(cfg, m) && n in m.store.configMaps
    ensures ConfigMaps.Decodes(m.store.configMaps[n])
  {
    hide Safety.Reachable;
    hide Invariant;
    Safety.ReachableInvariant(cfg, m);
    Safety.VersionsAreGood(m);
  }

  lemma InitiallyReachable(cfg: Config)
    ensures Safety.Reachable(cfg, INITIAL)
  {
    assert IsDisciplinedRun(cfg, [INITIAL], []);
  }

  lemma ServerAndPolicyCreated(cfg: Config, n: string, serverSpec: ServerSpec, k: PolicyKey, spec: PolicySpec)
    returns (m: Machine)
    requires n != "" && n != "root-ca" && spec.policyServer == n
    ensures Safety.Reachable(cfg, m)
    ensures n in m.store.servers && !m.store.servers[n].deleting && n !in m.serverRuns
    ensures m.store.servers[n].spec == serverSpec && k !in m.policyRuns
    ensures exists p :: m.store.policies == map[k := p] && !p.deleting && p.spec == spec && p.finalizers == {Kubewarden}
  {
    hide UniqueName;
    hide Safety.Reachable;
    InitiallyReachable(cfg);
    var m1 := CreatedServer(cfg, INITIAL, n, serverSpec);
    m := CreatedPolicy(cfg, m1, k, spec);
    assert m.store.policies == map[k := Admission.AdmitPolicyCreate(cfg, spec, {})];
  }

  lemma CreatedServer(cfg: Config, m: Machine, n: string, spec: ServerSpec) returns (m': Machine)
    requires Safety.Reachable(cfg, m) && n !in m.store.servers && n != "root-ca"
    ensures Safety.Reachable(cfg, m') && m' == m.(store := AfterCreateServer(m.store, n, spec, {}))
  {
    hide Safety.Reachable;
    m' := Apply(m, cfg, CreateServer(n, spec, {}));
    ReachableStep(cfg, m, CreateServer(n, spec, {}));
  }

  lemma CreatedPolicy(cfg: Config, m: Machine, k: PolicyKey, spec: PolicySpec) returns (m': Machine)
    requires Safety.Reachable(cfg, m) && m.store.policies == map[] && m.serverRuns == map[]
    ensures Safety.Reachable(cfg, m') && m' == m.(store := AfterCreatePolicy(m.store, cfg, k, spec, {}))
  {
    hide Safety.Reachable;
    m' := Apply(m, cfg, CreatePolicy(k, spec, {}));
    ReachableStep(cfg, m, CreatePolicy(k, spec, {}));
  }

  lemma ServingIsRouted(s: Store, cfg: Config, k: PolicyKey, n: string)
    requires ROOT_SECRET in s.secrets && Progress.Serving(s, cfg, k, n, s.secrets[ROOT_SECRET])
    ensures Safety.HasRoute(s, k)
  {
    hide UniqueName;
    if s.policies[k].spec.mutating {
    } else {
    }
  }
}
