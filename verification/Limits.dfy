/** Where the guarantees end: what single calls do when users break the rules, and exactly when they do it. */
module Limits {
  import opened Common
  import opened Naming
  import opened Model
  import opened Invariants
  import opened Protocol
  import Admission
  import Api
  import ConfigMaps
  import Liveness
  import Pipeline
  import PolicyController
  import PolicyRunChanges
  import Progress
  import Safety
  import Webhooks

  // ---------------------------------------------------------------- `mutating` may change

  /** With every call succeeding, the webhook of the present kind is gone and the other kind is untouched. */
  lemma DeletionRemoves(s: Store, cfg: Config, k: PolicyKey)
    requires k in s.policies && s.policies[k].deleting
    ensures var s' := PolicyController.ReconcilePolicyDeletion(s, cfg, k, {}).0;
            && (s.policies[k].spec.mutating ==>
                  s'.mutating == Remove(s.mutating, UniqueName(k)) && s'.validating == s.validating)
            && (!s.policies[k].spec.mutating ==>
                  s'.validating == Remove(s.validating, UniqueName(k)) && s'.mutating == s.mutating)
  {
    var kind, u := KindOf(s.policies[k].spec.mutating), UniqueName(k);
    DeleteWebhookEffect(s, kind, u);
    var w := PolicyController.DeleteItsWebhook(s, kind, u, {});
    UpdateKeepsWebhooks(w.store, cfg, k, s.policies[k].spec, s.policies[k].finalizers - {Kubewarden});
    hide PolicyController.DeleteItsWebhook;
    hide Api.UpdatePolicy;
    hide UniqueName;
  }

  lemma UpdateKeepsWebhooks(s: Store, cfg: Config, k: PolicyKey, spec: PolicySpec, finalizers: set<Finalizer>)
    ensures var w := Api.UpdatePolicy(s, cfg, k, spec, finalizers, false);
            w.store.mutating == s.mutating && w.store.validating == s.validating
  {
  }

  lemma DeleteWebhookEffect(s: Store, kind: WebhookKind, u: string)
    ensures var w := PolicyController.DeleteItsWebhook(s, kind, u, {});
            && w.error.None? && w.store.policies == s.policies
            && w.store.mutating == (if kind.Mutating? then Remove(s.mutating, u) else s.mutating)
            && w.store.validating == (if kind.Mutating? then s.validating else Remove(s.validating, u))
  {
    if u !in s.Webhooks(kind) {
      Api.RemoveAbsent(s.Webhooks(kind), u);
    } else if kind.Mutating? {
    } else {
    }
  }

  /**
   * Deleting a policy clears its name of webhooks exactly when there was none of the other kind: deletion looks at the
   * present kind only.
   */
  lemma DeletionClearsTheNameExactly(s: Store, cfg: Config, k: PolicyKey)
    requires k in s.policies && s.policies[k].deleting
    ensures var s' := PolicyController.ReconcilePolicyDeletion(s, cfg, k, {}).0;
            UniqueName(k) !in s'.mutating && UniqueName(k) !in s'.validating <==>
            UniqueName(k) !in s.Webhooks(KindOf(!s.policies[k].spec.mutating))
  {
    hide UniqueName;
    DeletionRemoves(s, cfg, k);
    hide PolicyController.ReconcilePolicyDeletion;
  }

  /** And validation lets `mutating` change: so an update followed by a deletion leaves the policy's webhook behind. */
  lemma FlippedKindLeavesOrphan(s: Store, cfg: Config, k: PolicyKey)
    requires k in s.policies && !s.policies[k].deleting && s.policies[k].finalizers == {Kubewarden}
    requires s.policies[k].spec.policyServer != ""
    requires UniqueName(k) in s.Webhooks(KindOf(s.policies[k].spec.mutating))
    ensures var p := s.policies[k];
            var flipped := Admission.AdmitPolicyUpdate(cfg, p, p.spec.(mutating := !p.spec.mutating), p.finalizers);
            && flipped.Some?
            && var deleted := s.policies[k := flipped.value.(deleting := true)];
               var s' := PolicyController.ReconcilePolicyDeletion(s.(policies := deleted), cfg, k, {}).0;
               k !in s'.policies && UniqueName(k) in s'.Webhooks(KindOf(p.spec.mutating))
  {
    hide UniqueName;
    var p := s.policies[k];
    var flipped := Admission.AdmitPolicyUpdate(cfg, p, p.spec.(mutating := !p.spec.mutating), p.finalizers).value;
    assert flipped.finalizers - {Kubewarden} == {};
    if p.spec.mutating {
    } else {
    }
  }

  // ---------------------------------------------------------------- unique names may collide

  /** Deleting one policy takes away another one's webhook exactly when they share unique name and kind. */
  lemma DeletionHitsNamesakes(s: Store, cfg: Config, a: PolicyKey, b: PolicyKey)
    requires a in s.policies && b in s.policies && s.policies[a].deleting
    requires UniqueName(b) in s.Webhooks(KindOf(s.policies[b].spec.mutating))
    ensures var s' := PolicyController.ReconcilePolicyDeletion(s, cfg, a, {}).0;
            UniqueName(b) !in s'.Webhooks(KindOf(s.policies[b].spec.mutating)) <==>
            UniqueName(a) == UniqueName(b) && s.policies[a].spec.mutating == s.policies[b].spec.mutating
  {
    hide UniqueName;
    DeletionRemoves(s, cfg, a);
    hide PolicyController.ReconcilePolicyDeletion;
  }

  // ------------------------------------------------------------------ a server "root-ca"

  /** Tearing a server down keeps the root secret, unless the server's name makes the root its own serving secret. */
  lemma TeardownKeepsRootExactly(s: Store, n: string)
    requires ROOT_SECRET in s.secrets
    ensures ROOT_SECRET in Pipeline.DeleteOwned(s, n, {}).secrets <==> n != "root-ca"
  {
    Pipeline.DeleteOwnedDeletes(s, n, {});
    hide Pipeline.DeleteOwned;
    ServerNames(n, n);
    hide NameWithPrefix;
  }

  // ------------------------------------------- the server may go before its policies do

  /**
   * A teardown whose calls succeed finishes exactly when no live policy is bound: policies that are still terminating do
   * not hold the server back.
   */
  lemma TeardownWaitsForLivePoliciesOnly(s: Store, n: string, listed: seq<PolicyKey>)
    requires n in s.servers && Enumerates(listed, Pipeline.BoundKeys(s, n))
    ensures Pipeline.ReconcileDeletion(s, n, listed, {}).1 == Pipeline.Finished <==>
            forall k :: k in s.policies ==> !Pipeline.LiveAndBound(s, k, n)
  {
    Pipeline.ListedPolicies(s, n, listed);
    hide Enumerates;
    hide Pipeline.LiveOnly;
    TeardownFinishes(s, n, listed);
    hide Pipeline.ReconcileDeletion;
  }

  lemma TeardownFinishes(s: Store, n: string, listed: seq<PolicyKey>)
    requires n in s.servers
    ensures Pipeline.ReconcileDeletion(s, n, listed, {}).1 == Pipeline.Finished <==>
            Pipeline.LiveOnly(s.policies, listed) == []
  {
    hide Pipeline.LiveOnly;
    hide Pipeline.DeleteEach;
    var s1 := s.(policies := Pipeline.DeleteEach(s.policies, Pipeline.LiveOnly(s.policies, listed), {}));
    Pipeline.DeleteOwnedDeletes(s1, n, {});
    hide Pipeline.DeleteOwned;
  }

  // --------------------------------------------- active, but the condition PolicyActive is false

  /** The webhook cannot be written: creating fails, or it is there and cannot be read, or differs and cannot be patched. */
  predicate WebhookWriteFails(s: Store, kind: WebhookKind, u: string, hooks: seq<Webhook>, faults: set<Call>) {
    || CreateWebhook in faults
    || (u in s.Webhooks(kind) &&
        (GetWebhook in faults || (s.Webhooks(kind)[u].webhooks != hooks && PatchWebhook in faults)))
  }

  /** Something keeps the reconciler from confirming the policy's webhook, short of a missing server. */
  predicate Unconfirmed(s: Store, cfg: Config, k: PolicyKey, p: Policy, listed: seq<nat>, faults: set<Call>) {
    var n := p.spec.policyServer;
    || GetDeployment in faults || n !in s.deployments
    || !PolicyController.IsUniquelyReachable(s, n, s.deployments[n], UniqueName(k), listed, faults)
    || GetRootSecret in faults || ROOT_SECRET !in s.secrets
    || WebhookWriteFails(
         s, KindOf(p.spec.mutating), UniqueName(k),
         [Webhooks.DesiredWebhook(cfg, k, p.spec, s.secrets[ROOT_SECRET], NameWithPrefix(n))], faults)
  }

  /** State and condition part: the policy is "active" and its condition PolicyActive is false. */
  predicate Parted(status: PolicyStatus) {
    status.state == Active && status.conditions.active == Some(false)
  }

  lemma SyncWebhookFailsExactly(s: Store, kind: WebhookKind, u: string, hooks: seq<Webhook>, faults: set<Call>)
    ensures Webhooks.SyncWebhook(s, kind, u, hooks, faults).error.Some? <==> WebhookWriteFails(s, kind, u, hooks, faults)
  {
  }

  /** What a run makes of the policy in memory, exactly. */
  lemma RunPartsExactly(s: Store, cfg: Config, k: PolicyKey, p: Policy, listed: seq<nat>, faults: set<Call>)
    ensures var run := PolicyController.Publish(s, cfg, k, PolicyController.Prepare(s, k, p, listed, faults), faults).1;
            Parted(run.policy.status) <==>
              && p.status.state == Active && p.spec.policyServer != ""
              && GetPolicyServer !in faults && p.spec.policyServer in s.servers
              && Unconfirmed(s, cfg, k, p, listed, faults)
  {
    hide UniqueName;
    hide NameWithPrefix;
    hide PolicyController.IsUniquelyReachable;
    hide Webhooks.DesiredWebhook;
    if ROOT_SECRET in s.secrets {
      SyncWebhookFailsExactly(
        s, KindOf(p.spec.mutating), UniqueName(k),
        [Webhooks.DesiredWebhook(cfg, k, p.spec, s.secrets[ROOT_SECRET], NameWithPrefix(p.spec.policyServer))], faults);
    }
    hide Webhooks.SyncWebhook;
    hide WebhookWriteFails;
  }

  /**
   * After a reconciliation of a live policy its stored state is "active" with the condition PolicyActive false exactly
   * when it was active, its server is there, and something kept the reconciler from confirming the webhook: state and
   * condition agree in one direction only.  When the status write fails, the stored status stays as it was.
   */
  lemma ActiveWithoutConditionExactly(s: Store, cfg: Config, k: PolicyKey, listed: seq<nat>, faults: set<Call>)
    requires k in s.policies && !s.policies[k].deleting
    ensures var p := s.policies[k]; var s' := PolicyController.ReconcilePolicy(s, cfg, k, listed, faults).0;
            && k in s'.policies
            && if UpdateStatus in faults then s'.policies[k] == p
               else Parted(s'.policies[k].status) <==>
                 && p.status.state == Active && p.spec.policyServer != ""
                 && GetPolicyServer !in faults && p.spec.policyServer in s.servers
                 && Unconfirmed(s, cfg, k, p, listed, faults)
  {
    hide UniqueName;
    hide Unconfirmed;
    hide PolicyController.Prepare;
    RunPartsExactly(s, cfg, k, s.policies[k], listed, faults);
    var prepared := PolicyController.Prepare(s, k, s.policies[k], listed, faults);
    var (s1, run) := PolicyController.Publish(s, cfg, k, prepared, faults);
    PolicyRunChanges.PublishKeepsPolicies(s, cfg, k, prepared, faults);
    hide PolicyController.Publish;
    PolicyRunChanges.ObservedKeepsDecision(s1, k, run.policy, faults);
    hide PolicyController.ObservedStatus;
  }

  /** One pod that is not ready shuts the gate. */
  lemma UnreadyPodShutsGate(
    s: Store, n: string, d: Deployment, u: string, listed: seq<nat>, faults: set<Call>, p: nat)
    requires p in s.pods && s.pods[p].server == d.serverLabel && !PolicyController.IsPodReady(s.pods[p].conditions)
    ensures !PolicyController.IsUniquelyReachable(s, n, d, u, listed, faults)
  {
    hide ConfigMaps.Serves;
  }

  /** The server's pods are ready; one of them stops being so. */
  lemma PodFails(cfg: Config, m: Machine, n: string, k: PolicyKey, listed: seq<nat>) returns (m': Machine)
    requires Safety.Reachable(cfg, m) && Liveness.InOrder(m, n, k, listed)
    ensures Safety.Reachable(cfg, m') && m' == m.(store := m.store.(pods := m'.store.pods))
    ensures !PolicyController.IsUniquelyReachable(m'.store, n, m'.store.deployments[n], UniqueName(k), listed, {})
  {
    hide UniqueName;
    hide NameWithPrefix;
    hide Safety.Reachable;
    hide ConfigMaps.ServedPolicies;
    var s := m.store;
    var p :| p in s.pods && s.pods[p].server == s.deployments[n].serverLabel;
    m' := Apply(m, cfg, SetPodConditions(p, []));
    Liveness.ReachableStep(cfg, m, SetPodConditions(p, []));
    UnreadyPodShutsGate(m'.store, n, s.deployments[n], UniqueName(k), listed, {}, p);
  }

  /** It does happen: with a single policy, one pod that stops being ready is enough, all calls succeeding. */
  lemma PartedIsReachable(cfg: Config, n: string, serverSpec: ServerSpec, k: PolicyKey, spec: PolicySpec)
    returns (m': Machine)
    requires n != "" && n != "root-ca" && spec.policyServer == n && serverSpec.replicas > 0
    ensures Safety.Reachable(cfg, m') && IsLive(m'.store.policies, k) && Parted(m'.store.policies[k].status)
  {
    hide UniqueName;
    hide NameWithPrefix;
    hide Safety.Reachable;
    hide PolicyController.IsUniquelyReachable;
    var m, listed := Liveness.FirstPolicyGetsServed(cfg, n, serverSpec, k, spec);
    assert m.store.policies[k].status.state == Active;
    hide Progress.Serving;
    var m1 := PodFails(cfg, m, n, k, listed);
    var steps;
    assert Pipeline.BoundTo(m.store, k, n);
    steps, m' := Liveness.PolicyGetsReconciled(cfg, m1, k, listed);
    Liveness.ReachableByOwnSteps(cfg, m1, steps, m');
    hide PolicyController.ReconcilePolicy;
    PolicyRunChanges.PolicyCallWrites(m1.store, cfg, k, listed, {});
    ActiveWithoutConditionExactly(m1.store, cfg, k, listed, {});
  }

  // ------------------------------------------------------------ list errors pass unnoticed

  /** The outcomes of the two list calls: each failed, or gave the keys bound to `n` of its own kind, in some order. */
  ghost predicate ListOutcomes(
    s: Store, n: string, clusterWide: Result<seq<PolicyKey>>, namespaced: Result<seq<PolicyKey>>)
  {
    && (clusterWide.Ok? ==> forall k :: k in clusterWide.value <==> Pipeline.BoundTo(s, k, n) && k.ClusterWide?)
    && (namespaced.Ok? ==> forall k :: k in namespaced.value <==> Pipeline.BoundTo(s, k, n) && k.Namespaced?)
  }

  /** The list call that would have found the policy failed. */
  predicate ItsListFailed(
    k: PolicyKey, clusterWide: Result<seq<PolicyKey>>, namespaced: Result<seq<PolicyKey>>)
  {
    if k.ClusterWide? then clusterWide.Err? else namespaced.Err?
  }

  /** What is found is exactly the live bound policies whose list did not fail. */
  lemma FoundExactly(
    s: Store, n: string, clusterWide: Result<seq<PolicyKey>>, namespaced: Result<seq<PolicyKey>>)
    requires ListOutcomes(s, n, clusterWide, namespaced)
    ensures var found := Pipeline.LiveOnly(s.policies, Pipeline.Found(clusterWide) + Pipeline.Found(namespaced));
            forall p :: p in found <==> Pipeline.LiveAndBound(s, p.key, n) && p.spec == s.policies[p.key].spec &&
                                        !ItsListFailed(p.key, clusterWide, namespaced)
  {
    Pipeline.LiveOnlyElements(s.policies, Pipeline.Found(clusterWide) + Pipeline.Found(namespaced));
    hide Pipeline.LiveOnly;
    forall k: PolicyKey
      ensures k in Pipeline.Found(clusterWide) + Pipeline.Found(namespaced) <==>
              Pipeline.BoundTo(s, k, n) && !ItsListFailed(k, clusterWide, namespaced)
    {
    }
  }

  /**
   * Only a list that fails with NotFound is reported.  After any other outcome the reconciler goes on, and it has all live
   * policies of the server exactly when none is of a kind whose list failed.
   */
  lemma FailedListsLosePoliciesExactly(
    s: Store, n: string, clusterWide: Result<seq<PolicyKey>>, namespaced: Result<seq<PolicyKey>>)
    requires ListOutcomes(s, n, clusterWide, namespaced)
    ensures var r := Pipeline.ObtainedPolicies(s.policies, clusterWide, namespaced);
            if clusterWide == Err(NotFound) || namespaced == Err(NotFound) then r == Err(NotFound)
            else
              && r.Ok?
              && ((forall k :: Pipeline.LiveAndBound(s, k, n) ==> BoundPolicy(k, s.policies[k].spec) in r.value) <==>
                    && (clusterWide.Err? ==> forall k :: Pipeline.LiveAndBound(s, k, n) ==> !k.ClusterWide?)
                    && (namespaced.Err? ==> forall k :: Pipeline.LiveAndBound(s, k, n) ==> !k.Namespaced?))
  {
    FoundExactly(s, n, clusterWide, namespaced);
    hide Pipeline.LiveOnly;
    var r := Pipeline.ObtainedPolicies(s.policies, clusterWide, namespaced);
    if r.Ok? {
      forall k | Pipeline.LiveAndBound(s, k, n)
        ensures BoundPolicy(k, s.policies[k].spec) in r.value <==> !ItsListFailed(k, clusterWide, namespaced)
      {
      }
    }
  }

  /** Its entry in the ConfigMap goes with the next write: the names in the run's snapshot are all that stays configured. */
  lemma LostPolicyIsNotNamed(
    s: Store, n: string, clusterWide: Result<seq<PolicyKey>>, namespaced: Result<seq<PolicyKey>>, k: PolicyKey)
    requires ListOutcomes(s, n, clusterWide, namespaced) && Pipeline.LiveAndBound(s, k, n)
    requires forall a, b :: a in s.policies && b in s.policies && UniqueName(a) == UniqueName(b) ==> a == b
    requires clusterWide != Err(NotFound) && namespaced != Err(NotFound)
    ensures UniqueName(k) in ConfigMaps.Names(Pipeline.ObtainedPolicies(s.policies, clusterWide, namespaced).value) <==>
            !ItsListFailed(k, clusterWide, namespaced)
  {
    hide UniqueName;
    FoundExactly(s, n, clusterWide, namespaced);
    hide Pipeline.LiveOnly;
    var found := Pipeline.ObtainedPolicies(s.policies, clusterWide, namespaced).value;
    assert BoundPolicy(k, s.policies[k].spec) in found <==> !ItsListFailed(k, clusterWide, namespaced);
  }

  /**
   * A teardown after failed lists whose other calls succeed takes the finalizer off exactly when every live policy of the
   * server is of a kind whose list failed: with one list down it may leave live policies behind.
   */
  lemma FailedListsLetServerGoExactly(
    s: Store, n: string, clusterWide: Result<seq<PolicyKey>>, namespaced: Result<seq<PolicyKey>>)
    requires ListOutcomes(s, n, clusterWide, namespaced)
    requires n in s.servers && s.servers[n].deleting && Kubewarden in s.servers[n].finalizers
    ensures var listed := Pipeline.Found(clusterWide) + Pipeline.Found(namespaced);
            var s' := Pipeline.ReconcileDeletion(s, n, listed, {}).0;
            (n in s'.servers ==> Kubewarden !in s'.servers[n].finalizers) <==>
            forall k :: Pipeline.LiveAndBound(s, k, n) ==> ItsListFailed(k, clusterWide, namespaced)
  {
    FoundExactly(s, n, clusterWide, namespaced);
    var listed := Pipeline.Found(clusterWide) + Pipeline.Found(namespaced);
    var live := Pipeline.LiveOnly(s.policies, listed);
    hide Pipeline.LiveOnly;
    if live == [] {
      forall k | Pipeline.LiveAndBound(s, k, n)
        ensures ItsListFailed(k, clusterWide, namespaced)
      {
        assert BoundPolicy(k, s.policies[k].spec) !in live;
      }
    } else {
      assert live[0] in live;
    }
    TeardownServers(s, n, listed);
  }

  lemma TeardownServers(s: Store, n: string, listed: seq<PolicyKey>)
    requires n in s.servers && s.servers[n].deleting
    ensures var s' := Pipeline.ReconcileDeletion(s, n, listed, {}).0;
            if Pipeline.LiveOnly(s.policies, listed) != [] then s'.servers == s.servers
            else n in s'.servers ==> Kubewarden !in s'.servers[n].finalizers
  {
    var live := Pipeline.LiveOnly(s.policies, listed);
    hide Pipeline.LiveOnly;
    hide Pipeline.DeleteEach;
    if live == [] {
      var s1 := s.(policies := Pipeline.DeleteEach(s.policies, live, {}));
      Pipeline.DeleteOwnedDeletes(s1, n, {});
    }
    hide Pipeline.DeleteOwned;
    hide NameWithPrefix;
  }
}
