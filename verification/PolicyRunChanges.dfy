/** How the invariants survive the policy reconcilers: the gate, the webhook, the status and the end of a policy. */
module PolicyRunChanges {
  import opened Common
  import opened Naming
  import opened Model
  import opened Effects
  import opened Protocol
  import opened Invariants
  import Api
  import Admission
  import ConfigMaps
  import PolicyController
  import PolicyChanges
  import Secrets
  import Webhooks

  type Policies = map<PolicyKey, Policy>
  type Hooks = map<string, WebhookConfiguration>
  type PolicyRuns = map<PolicyKey, PolicyController.PolicyRun>

  // ---------------------------------------------------------------------------- the gate

  /** Behind the gate the ConfigMap has the policy, and so has every pod: each has loaded just that ConfigMap. */
  lemma GateImpliesKnown(
    s: Store, n: string, u: string, listed: seq<nat>, faults: set<Call>)
    requires VersionsHold(s.rv, s.configMaps, s.deployments, s.replicaSets, s.pods)
    requires n in s.deployments
    requires PolicyController.IsUniquelyReachable(s, n, s.deployments[n], u, listed, faults)
    ensures Configured(u, n, s.configMaps) && KnownToPods(u, n, s.pods)
  {
    var d, version := s.deployments[n], s.configMaps[n].rv;
    PolicyController.LatestHashFound(s.replicaSets, listed, d, version);
    var hash := PolicyController.LatestHash(s.replicaSets, listed, d, version).value;
    hide PolicyController.LatestHash;
    assert GoodDeployment(d, n, s.rv, s.configMaps);
    assert GoodReplicaSet(s.replicaSets[hash], hash, s.rv, s.configMaps);
    forall p | p in s.pods && s.pods[p].server == n && s.pods[p].loaded.Some?
      ensures u in s.pods[p].loaded.value.policies
    {
      assert GoodPod(s.pods[p], s.rv, s.configMaps, s.replicaSets);
    }
  }

  /** What a policy carries out of the reads before its webhook is written. */
  lemma PreparedRun(s: Store, k: PolicyKey, listed: seq<nat>, faults: set<Call>)
    requires k in s.policies
    requires VersionsHold(s.rv, s.configMaps, s.deployments, s.replicaSets, s.pods)
    ensures var run := PolicyController.Prepare(s, k, s.policies[k], listed, faults);
            && run.policy == s.policies[k].(status := run.policy.status)
            && (run.todo.Some? ==>
                  && ROOT_SECRET in s.secrets && run.todo.value.root == s.secrets[ROOT_SECRET]
                  && run.todo.value.serviceName == NameWithPrefix(s.policies[k].spec.policyServer)
                  && Configured(UniqueName(k), s.policies[k].spec.policyServer, s.configMaps)
                  && KnownToPods(UniqueName(k), s.policies[k].spec.policyServer, s.pods))
  {
    hide UniqueName;
    hide VersionsHold;
    hide PolicyController.IsUniquelyReachable;
    hide Configured;
    hide KnownToPods;
    var n := s.policies[k].spec.policyServer;
    if n in s.deployments &&
       PolicyController.IsUniquelyReachable(s, n, s.deployments[n], UniqueName(k), listed, faults) {
      GateImpliesKnown(s, n, UniqueName(k), listed, faults);
    }
  }

  lemma PreparedStatus(s: Store, k: PolicyKey, listed: seq<nat>, faults: set<Call>)
    requires IsLive(s.policies, k) && GoodStatus(k, s.policies[k], s.mutating, s.validating)
    ensures var run := PolicyController.Prepare(s, k, s.policies[k], listed, faults);
            && GoodStatus(k, run.policy, s.mutating, s.validating)
            && run.policy.status.conditions.active == Some(false)
            && (s.policies[k].status.state == Active ==> run.policy.status.state in {Active, Scheduled})
            && (run.todo.Some? ==> run.policy.status.conditions.reachable == Some(true) &&
                                   run.policy.spec.policyServer != "")
  {
    hide UniqueName;
    hide PolicyController.IsUniquelyReachable;
  }

  lemma BeginKeepsRouting(
    policies: Policies, mutating: Hooks, validating: Hooks, runs: PolicyRuns, configMaps: map<string, ConfigMap>,
    pods: map<nat, Pod>, k: PolicyKey, run: PolicyController.PolicyRun)
    requires RoutingHolds(policies, mutating, validating, runs, configMaps, pods) && k in policies
    requires run.todo.Some? ==>
               && Configured(UniqueName(k), policies[k].spec.policyServer, configMaps)
               && KnownToPods(UniqueName(k), policies[k].spec.policyServer, pods)
    ensures RoutingHolds(policies, mutating, validating, runs[k := run], configMaps, pods)
  {
    hide UniqueName;
    hide Configured;
    hide KnownToPods;
  }

  lemma BeginKeepsRuns(
    policies: Policies, mutating: Hooks, validating: Hooks, runs: PolicyRuns, serverRuns: map<string, ServerRun>,
    secrets: map<string, Secret>, k: PolicyKey, run: PolicyController.PolicyRun)
    requires PolicyRunsHeld(runs, policies) && RunsTrusted(serverRuns, runs, secrets)
    requires RunStatusHolds(policies, runs, mutating, validating)
    requires HoldsPolicy(policies, k) && run.policy == policies[k].(status := run.policy.status)
    requires run.todo.Some? ==> ROOT_SECRET in secrets && run.todo.value.root == secrets[ROOT_SECRET]
    requires run.todo.Some? ==> run.todo.value.serviceName == NameWithPrefix(policies[k].spec.policyServer)
    requires GoodStatus(k, run.policy, mutating, validating)
    requires policies[k].status.state == Active ==> run.policy.status.state in {Active, Scheduled}
    requires run.todo.Some? ==> run.policy.status.conditions.reachable == Some(true) && run.policy.spec.policyServer != ""
    ensures PolicyRunsHeld(runs[k := run], policies) && RunsTrusted(serverRuns, runs[k := run], secrets)
    ensures RunStatusHolds(policies, runs[k := run], mutating, validating)
  {
    hide UniqueName;
    hide GoodStatus;
  }

  // ------------------------------------------------------------------------- publication

  /** The configuration `u` of one kind now holds `hooks`; nothing else changes but the counter. */
  lemma PublishWrites(s: Store, cfg: Config, k: PolicyKey, run: PolicyController.PolicyRun, faults: set<Call>)
    requires run.todo.Some?
    ensures var (s', run') := PolicyController.Publish(s, cfg, k, run, faults);
            var kind := KindOf(run.policy.spec.mutating);
            && Webhooks.WritesWebhook(s, s', kind, UniqueName(k),
                                      PolicyController.DesiredWebhooks(cfg, k, run.policy.spec, run.todo.value))
            && run'.todo.None?
            && run'.policy == run.policy.(status := run'.policy.status)
            && (run'.policy == run.policy ||
                (UniqueName(k) in s'.Webhooks(kind) && run'.policy.status.state == Active &&
                 run'.policy.status.conditions.reachable == run.policy.status.conditions.reachable))
  {
    hide UniqueName;
    hide PolicyController.DesiredWebhooks;
    hide Webhooks.SyncWebhook;
    hide Webhooks.WritesWebhook;
    Webhooks.SyncWebhookResult(s, KindOf(run.policy.spec.mutating), UniqueName(k),
                               PolicyController.DesiredWebhooks(cfg, k, run.policy.spec, run.todo.value), faults);
  }

  /** `after` is `before` with at most the configuration `u` written. */
  predicate HookPut(before: Hooks, after: Hooks, u: string) {
    after == before || (u in after && after == before[u := after[u]])
  }

  lemma HookPutKeepsBacked(
    before: Hooks, after: Hooks, k: PolicyKey, mutating: bool, policies: Policies)
    requires HookPut(before, after, UniqueName(k)) && Backed(before, mutating, policies)
    requires after != before ==> Backs(k, UniqueName(k), after[UniqueName(k)], mutating, policies)
    ensures Backed(after, mutating, policies)
  {
    hide UniqueName;
    hide Backs;
  }

  /** The policy counted as routed already. */
  lemma HookPutKeepsRouting(
    policies: Policies, k: PolicyKey, mutating: Hooks, mutating': Hooks, validating: Hooks, validating': Hooks,
    runs: PolicyRuns, runs': PolicyRuns, configMaps: map<string, ConfigMap>, pods: map<nat, Pod>)
    requires HookPut(mutating, mutating', UniqueName(k)) && HookPut(validating, validating', UniqueName(k))
    requires NamesDistinct(policies) && k in policies && k in runs && runs[k].todo.Some?
    requires k in runs' && runs' == runs[k := runs'[k]]
    requires RoutingHolds(policies, mutating, validating, runs, configMaps, pods)
    ensures RoutingHolds(policies, mutating', validating', runs', configMaps, pods)
  {
    hide UniqueName;
    hide Configured;
    hide KnownToPods;
    forall x | x in policies && Routed(x, mutating', validating', runs')
      ensures Routed(x, mutating, validating, runs)
    {
    }
  }

  lemma HookPutKeepsTrusted(before: Hooks, after: Hooks, u: string, secrets: map<string, Secret>)
    requires HookPut(before, after, u) && HooksTrusted(before, secrets)
    requires after != before ==> forall w :: w in after[u].webhooks ==> TrustsRoot(w, secrets)
    ensures HooksTrusted(after, secrets)
  {
    hide TrustsRoot;
  }

  lemma DesiredIsTrusted(
    cfg: Config, k: PolicyKey, spec: PolicySpec, todo: PolicyController.Publication, secrets: map<string, Secret>)
    requires SecretsTrusted(secrets) && ROOT_SECRET in secrets && todo.root == secrets[ROOT_SECRET]
    ensures forall w :: w in PolicyController.DesiredWebhooks(cfg, k, spec, todo) ==> TrustsRoot(w, secrets)
  {
    hide UniqueName;
    hide NameWithPrefix;
    hide Secrets.SignedBy;
  }

  lemma MoreHooksKeepGoodStatus(
    k: PolicyKey, p: Policy, mutating: Hooks, mutating': Hooks, validating: Hooks, validating': Hooks)
    requires mutating.Keys <= mutating'.Keys && validating.Keys <= validating'.Keys
    requires GoodStatus(k, p, mutating, validating)
    ensures GoodStatus(k, p, mutating', validating')
  {
    hide UniqueName;
    if p.spec.mutating {
    } else {
    }
  }

  lemma MoreHooksKeepStatus(
    policies: Policies, mutating: Hooks, mutating': Hooks, validating: Hooks, validating': Hooks, runs: PolicyRuns)
    requires mutating.Keys <= mutating'.Keys && validating.Keys <= validating'.Keys
    requires StatusHolds(policies, mutating, validating) && RunStatusHolds(policies, runs, mutating, validating)
    ensures StatusHolds(policies, mutating', validating') && RunStatusHolds(policies, runs, mutating', validating')
  {
    hide GoodStatus;
    forall k | IsLive(policies, k)
      ensures GoodStatus(k, policies[k], mutating', validating')
      ensures k in runs ==> GoodStatus(k, runs[k].policy, mutating', validating')
    {
      MoreHooksKeepGoodStatus(k, policies[k], mutating, mutating', validating, validating');
      if k in runs {
        MoreHooksKeepGoodStatus(k, runs[k].policy, mutating, mutating', validating, validating');
      }
    }
  }

  /** The run either keeps its policy or has found the webhook in place and marked it active. */
  lemma PublishedKeepsRunStatus(
    policies: Policies, k: PolicyKey, mutating: Hooks, validating: Hooks, runs: PolicyRuns, runs': PolicyRuns)
    requires k in runs && runs[k].todo.Some? && k in runs' && runs' == runs[k := runs'[k]] && runs'[k].todo.None?
    requires runs'[k].policy == runs[k].policy.(status := runs'[k].policy.status)
    requires || runs'[k].policy == runs[k].policy
             || (HasWebhook(UniqueName(k), runs[k].policy.spec.mutating, mutating, validating) &&
                 runs'[k].policy.status.state == Active &&
                 runs'[k].policy.status.conditions.reachable == runs[k].policy.status.conditions.reachable)
    requires RunStatusHolds(policies, runs, mutating, validating)
    ensures RunStatusHolds(policies, runs', mutating, validating)
  {
    hide UniqueName;
    hide HasWebhook;
  }

  // ----------------------------------------------------------------------- runs that end

  ghost predicate RunsEnd(before: PolicyRuns, after: PolicyRuns) {
    forall k :: k in after ==> k in before && after[k] == before[k]
  }

  lemma RunsEndKeeps(
    before: PolicyRuns, after: PolicyRuns, policies: Policies, mutating: Hooks, validating: Hooks,
    configMaps: map<string, ConfigMap>, pods: map<nat, Pod>)
    requires RunsEnd(before, after) && PolicyRunsHeld(before, policies)
    requires RoutingHolds(policies, mutating, validating, before, configMaps, pods)
    requires RunStatusHolds(policies, before, mutating, validating)
    ensures PolicyRunsHeld(after, policies)
    ensures RoutingHolds(policies, mutating, validating, after, configMaps, pods)
    ensures RunStatusHolds(policies, after, mutating, validating)
  {
    hide UniqueName;
    hide Configured;
    hide KnownToPods;
    hide GoodStatus;
  }

  lemma RunsEndKeepsTrusted(
    before: PolicyRuns, after: PolicyRuns, serverRuns: map<string, ServerRun>, secrets: map<string, Secret>)
    requires RunsEnd(before, after) && RunsTrusted(serverRuns, before, secrets)
    ensures RunsTrusted(serverRuns, after, secrets)
  {
  }

  /** The status written back: what the run decided, with mode and configuration condition as observed. */
  lemma FinishWrites(s: Store, k: PolicyKey, run: PolicyController.PolicyRun, faults: set<Call>)
    requires k in s.policies
    ensures var s' := PolicyController.Finish(s, k, run, faults).0;
            s' == s || (s' == s.(policies := s'.policies) &&
                        PolicyChanges.WritesStatus(
                          s.policies, s'.policies, k, PolicyController.ObservedStatus(s, k, run.policy, faults)))
  {
    hide PolicyController.ObservedStatus;
  }

  lemma ObservedKeepsDecision(s: Store, k: PolicyKey, p: Policy, faults: set<Call>)
    ensures var status := PolicyController.ObservedStatus(s, k, p, faults);
            && status.state == p.status.state && status.conditions.active == p.status.conditions.active
            && status.conditions.reachable == p.status.conditions.reachable
  {
    hide UniqueName;
    hide ConfigMaps.Serves;
    hide ConfigMaps.ServedPolicies;
  }

  /** All but policies and webhooks is as before. */
  predicate OnlyPolicies(s: Store, s': Store) {
    s' == s.(rv := s'.rv, policies := s'.policies, mutating := s'.mutating, validating := s'.validating)
  }

  lemma PublishKeepsPolicies(s: Store, cfg: Config, k: PolicyKey, run: PolicyController.PolicyRun, faults: set<Call>)
    ensures var s' := PolicyController.Publish(s, cfg, k, run, faults).0;
            OnlyPolicies(s, s') && s'.policies == s.policies
  {
    hide UniqueName;
    hide Webhooks.WritesWebhook;
    if run.todo.Some? {
      hide PolicyController.Publish;
      PublishWrites(s, cfg, k, run, faults);
      WebhookWriteKeepsPolicies(s, PolicyController.Publish(s, cfg, k, run, faults).0, KindOf(run.policy.spec.mutating),
                                UniqueName(k), PolicyController.DesiredWebhooks(cfg, k, run.policy.spec, run.todo.value));
    }
  }

  lemma WebhookWriteKeepsPolicies(s: Store, s': Store, kind: WebhookKind, u: string, hooks: seq<Webhook>)
    requires Webhooks.WritesWebhook(s, s', kind, u, hooks)
    ensures OnlyPolicies(s, s') && s'.policies == s.policies
  {
  }

  lemma FinishKeepsSpecs(s: Store, k: PolicyKey, run: PolicyController.PolicyRun, faults: set<Call>)
    requires k in s.policies
    ensures var s' := PolicyController.Finish(s, k, run, faults).0;
            && OnlyPolicies(s, s') && k in s'.policies
            && s'.policies == s.policies[k := s.policies[k].(status := s'.policies[k].status)]
  {
    hide PolicyController.ObservedStatus;
  }

  /** A whole reconciliation of a live policy writes its webhook and its status, and nothing else. */
  lemma PolicyCallWrites(s: Store, cfg: Config, k: PolicyKey, listed: seq<nat>, faults: set<Call>)
    requires IsLive(s.policies, k)
    ensures var s' := PolicyController.ReconcilePolicy(s, cfg, k, listed, faults).0;
            && OnlyPolicies(s, s') && k in s'.policies
            && s'.policies == s.policies[k := s.policies[k].(status := s'.policies[k].status)]
  {
    hide PolicyController.Prepare;
    hide PolicyController.Publish;
    hide PolicyController.Finish;
    var prepared := PolicyController.Prepare(s, k, s.policies[k], listed, faults);
    var (s1, run) := PolicyController.Publish(s, cfg, k, prepared, faults);
    PublishKeepsPolicies(s, cfg, k, prepared, faults);
    FinishKeepsSpecs(s1, k, run, faults);
  }

  // -------------------------------------------------------------------- a deleted policy

  lemma PutPolicyFinalizes(policies: Policies, k: PolicyKey, p: Policy)
    requires k in policies && policies[k].deleting && p == policies[k].(finalizers := p.finalizers)
    requires p.finalizers <= policies[k].finalizers
    ensures PolicyChanges.Finalizes(policies, Api.PutPolicy(policies, k, p), k)
  {
    var after := Api.PutPolicy(policies, k, p);
    forall x | x != k
      ensures x in policies <==> x in after
      ensures x in policies ==> after[x] == policies[x]
    {
    }
  }

  /** The webhooks of one kind lose at most the configuration `u`. */
  predicate HookRemoved(s: Store, s': Store, kind: WebhookKind, u: string) {
    && (s'.Webhooks(kind) == s.Webhooks(kind) || s'.Webhooks(kind) == Remove(s.Webhooks(kind), u))
    && (kind.Mutating? ==> s'.validating == s.validating)
    && (kind.Validating? ==> s'.mutating == s.mutating)
  }

  lemma DeleteWebhookRemoves(s: Store, kind: WebhookKind, u: string, faults: set<Call>)
    ensures var w := PolicyController.DeleteItsWebhook(s, kind, u, faults);
            && w.store == s.(mutating := w.store.mutating, validating := w.store.validating)
            && HookRemoved(s, w.store, kind, u)
            && (w.error.None? ==> u !in w.store.Webhooks(kind))
  {
    if GetWebhook in faults || u !in s.Webhooks(kind) || DeleteWebhook in faults {
    } else if kind.Mutating? {
    } else {
    }
  }

  lemma HookStaysRemoved(s: Store, s1: Store, s2: Store, kind: WebhookKind, u: string)
    requires s1 == s.(mutating := s1.mutating, validating := s1.validating) && HookRemoved(s, s1, kind, u)
    requires s2 == s1.(policies := s2.policies)
    ensures HookRemoved(s, s2, kind, u) && s2.Webhooks(kind) == s1.Webhooks(kind)
    ensures s2 == s.(policies := s2.policies, mutating := s2.mutating, validating := s2.validating)
  {
  }

  lemma UpdateFinalizes(s: Store, cfg: Config, k: PolicyKey, finalizers: set<Finalizer>, fail: bool)
    requires k in s.policies && s.policies[k].deleting && finalizers <= s.policies[k].finalizers
    ensures var w := Api.UpdatePolicy(s, cfg, k, s.policies[k].spec, finalizers, fail);
            && w.store == s.(policies := w.store.policies)
            && (w.store.policies == s.policies || PolicyChanges.Finalizes(s.policies, w.store.policies, k))
  {
    if !fail {
      var admitted := Admission.AdmitPolicyUpdate(cfg, s.policies[k], s.policies[k].spec, finalizers);
      if admitted.Some? {
        PutPolicyFinalizes(s.policies, k, admitted.value);
      }
    }
  }

  /** At most its own webhook of its kind goes, and itself or its finalizer only together with that. */
  lemma FinalizeWrites(s: Store, cfg: Config, k: PolicyKey, faults: set<Call>)
    requires k in s.policies && s.policies[k].deleting
    ensures var s' := PolicyController.ReconcilePolicyDeletion(s, cfg, k, faults).0;
            var kind := KindOf(s.policies[k].spec.mutating);
            && s' == s.(policies := s'.policies, mutating := s'.mutating, validating := s'.validating)
            && HookRemoved(s, s', kind, UniqueName(k))
            && (s'.policies == s.policies ||
                (UniqueName(k) !in s'.Webhooks(kind) && PolicyChanges.Finalizes(s.policies, s'.policies, k)))
  {
    hide UniqueName;
    hide HookRemoved;
    hide PolicyChanges.Finalizes;
    hide PolicyController.DeleteItsWebhook;
    hide Api.UpdatePolicy;
    var p := s.policies[k];
    var kind, u := KindOf(p.spec.mutating), UniqueName(k);
    var w := PolicyController.DeleteItsWebhook(s, kind, u, faults);
    DeleteWebhookRemoves(s, kind, u, faults);
    if w.error.Some? {
      NoHookRemoved(s, kind, u);
    } else {
      var updated := Api.UpdatePolicy(
        w.store, cfg, k, p.spec, p.finalizers - {Kubewarden}, Call.UpdatePolicy in faults);
      UpdateFinalizes(w.store, cfg, k, p.finalizers - {Kubewarden}, Call.UpdatePolicy in faults);
      HookStaysRemoved(s, w.store, updated.store, kind, u);
    }
  }

  lemma NoHookRemoved(s: Store, kind: WebhookKind, u: string)
    ensures HookRemoved(s, s, kind, u)
  {
  }

  lemma RemovedHookKeepsTrusted(hooks: Hooks, u: string, secrets: map<string, Secret>)
    requires HooksTrusted(hooks, secrets)
    ensures HooksTrusted(Remove(hooks, u), secrets)
  {
    hide TrustsRoot;
  }
}
