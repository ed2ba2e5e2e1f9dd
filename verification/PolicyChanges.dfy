/** How the invariants survive changes to the stored policies. */
module PolicyChanges {
  import opened Common
  import opened Naming
  import opened Model
  import opened Effects
  import opened Protocol
  import opened Invariants
  import Admission
  import ConfigMaps
  import PolicyController

  type Policies = map<PolicyKey, Policy>
  type Hooks = map<string, WebhookConfiguration>
  type PolicyRuns = map<PolicyKey, PolicyController.PolicyRun>

  // ----------------------------------------------------------------- a new policy

  ghost predicate Adds(before: Policies, after: Policies, k: PolicyKey) {
    && k !in before && k in after && after == before[k := after[k]]
    && !after[k].deleting && Kubewarden in after[k].finalizers && after[k].status == NEW_STATUS
    && forall k' :: k' in before ==> UniqueName(k') != UniqueName(k)
  }

  lemma AddKeepsHeld(before: Policies, after: Policies, k: PolicyKey, runs: PolicyRuns)
    requires Adds(before, after, k) && LivePoliciesHeld(before) && PolicyRunsHeld(runs, before)
    ensures LivePoliciesHeld(after) && PolicyRunsHeld(runs, after)
  {
    hide UniqueName;
    forall x | HoldsPolicy(before, x)
      ensures HoldsPolicy(after, x) && after[x] == before[x]
    {
    }
  }

  lemma AddKeepsBacked(before: Policies, after: Policies, k: PolicyKey, hooks: Hooks, mutating: bool)
    requires Adds(before, after, k) && NamesDistinct(before) && Backed(hooks, mutating, before)
    ensures NamesDistinct(after) && Backed(hooks, mutating, after)
  {
    hide UniqueName;
    forall u | u in hooks
      ensures exists x :: Backs(x, u, hooks[u], mutating, after)
    {
      var x :| Backs(x, u, hooks[u], mutating, before);
      assert Backs(x, u, hooks[u], mutating, after);
    }
  }

  /** Nothing is routed to the new policy: a webhook of its name would have a policy behind it already. */
  lemma AddKeepsRouting(
    before: Policies, after: Policies, k: PolicyKey, mutating: Hooks, validating: Hooks, runs: PolicyRuns,
    configMaps: map<string, ConfigMap>, pods: map<nat, Pod>)
    requires Adds(before, after, k) && PolicyRunsHeld(runs, before)
    requires Backed(mutating, true, before) && Backed(validating, false, before)
    requires RoutingHolds(before, mutating, validating, runs, configMaps, pods)
    ensures !Routed(k, mutating, validating, runs)
    ensures RoutingHolds(after, mutating, validating, runs, configMaps, pods)
  {
    hide UniqueName;
    hide Configured;
    hide KnownToPods;
  }

  lemma AddKeepsSnapshots(
    before: Policies, after: Policies, k: PolicyKey, configMaps: map<string, ConfigMap>, runs: map<string, ServerRun>)
    requires Adds(before, after, k) && SnapshotsHold(before, configMaps, runs)
    requires var n := after[k].spec.policyServer;
             Configured(UniqueName(k), n, configMaps) && YetToWriteConfigMap(runs, n) ==>
               UniqueName(k) in ConfigMaps.Names(runs[n].job.policies)
    ensures SnapshotsHold(after, configMaps, runs)
  {
    hide UniqueName;
    hide Configured;
    hide ConfigMaps.Names;
  }

  lemma AddKeepsStatus(
    before: Policies, after: Policies, k: PolicyKey, runs: PolicyRuns, mutating: Hooks, validating: Hooks)
    requires Adds(before, after, k) && PolicyRunsHeld(runs, before)
    requires StatusHolds(before, mutating, validating) && RunStatusHolds(before, runs, mutating, validating)
    ensures StatusHolds(after, mutating, validating) && RunStatusHolds(after, runs, mutating, validating)
  {
    hide UniqueName;
    forall x | IsLive(after, x) && x != k
      ensures IsLive(before, x) && after[x] == before[x]
    {
    }
  }

  // ------------------------------------------- updates and deletion marks, of any number

  /** Policies keep what matters of their spec, their status, their hold and their deletion mark; only unheld ones go. */
  ghost predicate Evolves(before: Policies, after: Policies) {
    && (forall k :: k in after ==>
          && k in before
          && after[k].spec.mutating == before[k].spec.mutating
          && after[k].spec.policyServer == before[k].spec.policyServer
          && after[k].status == before[k].status
          && (before[k].deleting ==> after[k].deleting))
    && (forall k :: HoldsPolicy(before, k) ==> HoldsPolicy(after, k))
    && LivePoliciesHeld(after)
  }

  lemma EvolvesKeepsHeld(before: Policies, after: Policies, runs: PolicyRuns)
    requires Evolves(before, after) && PolicyRunsHeld(runs, before)
    ensures LivePoliciesHeld(after) && PolicyRunsHeld(runs, after)
  {
  }

  lemma EvolvesKeepsBacked(before: Policies, after: Policies, hooks: Hooks, mutating: bool)
    requires Evolves(before, after) && NamesDistinct(before) && Backed(hooks, mutating, before)
    ensures NamesDistinct(after) && Backed(hooks, mutating, after)
  {
    hide UniqueName;
    forall u | u in hooks
      ensures exists x :: Backs(x, u, hooks[u], mutating, after)
    {
      var x :| Backs(x, u, hooks[u], mutating, before);
      assert Backs(x, u, hooks[u], mutating, after);
    }
  }

  lemma EvolvesKeepsRouting(
    before: Policies, after: Policies, mutating: Hooks, validating: Hooks, runs: PolicyRuns,
    configMaps: map<string, ConfigMap>, pods: map<nat, Pod>)
    requires Evolves(before, after) && RoutingHolds(before, mutating, validating, runs, configMaps, pods)
    ensures RoutingHolds(after, mutating, validating, runs, configMaps, pods)
  {
    hide UniqueName;
    hide Configured;
    hide KnownToPods;
    hide Routed;
    forall k | IsLive(after, k)
      ensures IsLive(before, k)
    {
    }
  }

  lemma EvolvesKeepsSnapshots(
    before: Policies, after: Policies, configMaps: map<string, ConfigMap>, runs: map<string, ServerRun>)
    requires Evolves(before, after) && SnapshotsHold(before, configMaps, runs)
    ensures SnapshotsHold(after, configMaps, runs)
  {
    hide UniqueName;
    hide Configured;
    hide ConfigMaps.Names;
    forall k | IsLive(after, k)
      ensures IsLive(before, k)
    {
    }
  }

  lemma EvolvesKeepsStatus(before: Policies, after: Policies, runs: PolicyRuns, mutating: Hooks, validating: Hooks)
    requires Evolves(before, after)
    requires StatusHolds(before, mutating, validating) && RunStatusHolds(before, runs, mutating, validating)
    ensures StatusHolds(after, mutating, validating) && RunStatusHolds(after, runs, mutating, validating)
  {
    hide UniqueName;
    forall k | IsLive(after, k)
      ensures IsLive(before, k)
    {
    }
  }

  /** An accepted update by a user who keeps `mutating`, and leaves the finalizers of a deleted policy alone. */
  lemma UpdateEvolves(s: Store, cfg: Config, k: PolicyKey, spec: PolicySpec, finalizers: set<Finalizer>)
    requires k in s.policies && Admission.AdmitPolicyUpdate(cfg, s.policies[k], spec, finalizers).Some?
    requires spec.mutating == s.policies[k].spec.mutating
    requires s.policies[k].deleting && Kubewarden in s.policies[k].finalizers ==> Kubewarden in finalizers
    requires LivePoliciesHeld(s.policies)
    ensures Evolves(s.policies, AfterUpdatePolicy(s, cfg, k, spec, finalizers).policies)
  {
    var before, after := s.policies, AfterUpdatePolicy(s, cfg, k, spec, finalizers).policies;
    forall x | x != k
      ensures x in before <==> x in after
      ensures x in before ==> after[x] == before[x]
    {
    }
  }

  lemma DeleteEvolves(s: Store, k: PolicyKey)
    requires k in s.policies && LivePoliciesHeld(s.policies)
    ensures Evolves(s.policies, AfterDeletePolicy(s, k).policies)
  {
    var before, after := s.policies, AfterDeletePolicy(s, k).policies;
    forall x | x != k
      ensures x in before <==> x in after
      ensures x in before ==> after[x] == before[x]
    {
    }
  }

  lemma MarksEvolves(before: Policies, after: Policies)
    requires Marks(before, after) && LivePoliciesHeld(before)
    ensures Evolves(before, after)
  {
  }

  // ------------------------------------------------------------------- status writes

  ghost predicate WritesStatus(before: Policies, after: Policies, k: PolicyKey, status: PolicyStatus) {
    k in before && after == before[k := before[k].(status := status)]
  }

  lemma StatusWriteKeepsHeld(before: Policies, after: Policies, k: PolicyKey, status: PolicyStatus, runs: PolicyRuns)
    requires WritesStatus(before, after, k, status) && LivePoliciesHeld(before) && PolicyRunsHeld(runs, before)
    ensures LivePoliciesHeld(after) && PolicyRunsHeld(runs, after)
  {
    forall x | x in before
      ensures x in after && HoldsPolicy(before, x) == HoldsPolicy(after, x) && IsLive(before, x) == IsLive(after, x)
      ensures after[x].spec == before[x].spec
    {
    }
  }

  lemma StatusWriteKeepsBacked(
    before: Policies, after: Policies, k: PolicyKey, status: PolicyStatus, hooks: Hooks, mutating: bool)
    requires WritesStatus(before, after, k, status) && NamesDistinct(before) && Backed(hooks, mutating, before)
    ensures NamesDistinct(after) && Backed(hooks, mutating, after)
  {
    hide UniqueName;
    forall u | u in hooks
      ensures exists x :: Backs(x, u, hooks[u], mutating, after)
    {
      var x :| Backs(x, u, hooks[u], mutating, before);
      assert Backs(x, u, hooks[u], mutating, after);
    }
  }

  lemma StatusWriteKeepsRouting(
    before: Policies, after: Policies, k: PolicyKey, status: PolicyStatus, mutating: Hooks, validating: Hooks,
    runs: PolicyRuns, configMaps: map<string, ConfigMap>, pods: map<nat, Pod>, serverRuns: map<string, ServerRun>)
    requires WritesStatus(before, after, k, status)
    requires RoutingHolds(before, mutating, validating, runs, configMaps, pods)
    requires SnapshotsHold(before, configMaps, serverRuns)
    ensures RoutingHolds(after, mutating, validating, runs, configMaps, pods)
    ensures SnapshotsHold(after, configMaps, serverRuns)
  {
    hide UniqueName;
    hide Configured;
    hide KnownToPods;
    hide Routed;
    hide ConfigMaps.Names;
    forall x | IsLive(after, x)
      ensures IsLive(before, x) && after[x].spec == before[x].spec
    {
    }
  }

  lemma StatusWriteKeepsStatus(
    before: Policies, after: Policies, k: PolicyKey, p: Policy, runs: PolicyRuns, mutating: Hooks, validating: Hooks)
    requires WritesStatus(before, after, k, p.status) && k !in runs
    requires IsLive(before, k) ==> GoodStatus(k, before[k].(status := p.status), mutating, validating)
    requires StatusHolds(before, mutating, validating) && RunStatusHolds(before, runs, mutating, validating)
    ensures StatusHolds(after, mutating, validating) && RunStatusHolds(after, runs, mutating, validating)
  {
    hide UniqueName;
    forall x | IsLive(after, x) && x != k
      ensures IsLive(before, x) && after[x] == before[x]
    {
    }
  }

  // ----------------------------------------------------- the end of a deleted policy

  /** `k` loses its finalizer, or goes; its webhook is gone already. */
  ghost predicate Finalizes(before: Policies, after: Policies, k: PolicyKey) {
    && k in before && before[k].deleting
    && (forall x :: x != k ==> (x in before <==> x in after) && (x in before ==> after[x] == before[x]))
    && (k in after ==> after[k] == before[k].(finalizers := after[k].finalizers) &&
                       after[k].finalizers <= before[k].finalizers)
  }

  lemma FinalizeKeepsHeld(before: Policies, after: Policies, k: PolicyKey, runs: PolicyRuns)
    requires Finalizes(before, after, k) && LivePoliciesHeld(before) && PolicyRunsHeld(runs, before) && k !in runs
    ensures LivePoliciesHeld(after) && PolicyRunsHeld(runs, after)
  {
    forall x | x != k
      ensures HoldsPolicy(before, x) == HoldsPolicy(after, x) && IsLive(before, x) == IsLive(after, x)
    {
    }
  }

  /** `hooks'` is `hooks` without `u`, if that was the webhook of the finalized policy. */
  lemma FinalizeKeepsBacked(
    before: Policies, after: Policies, k: PolicyKey, hooks: Hooks, hooks': Hooks, mutating: bool)
    requires Finalizes(before, after, k) && NamesDistinct(before) && Backed(hooks, mutating, before)
    requires hooks' == if before[k].spec.mutating == mutating then Remove(hooks, UniqueName(k)) else hooks
    ensures NamesDistinct(after) && Backed(hooks', mutating, after)
  {
    hide UniqueName;
    forall u | u in hooks'
      ensures exists x :: Backs(x, u, hooks[u], mutating, after)
    {
      var x :| Backs(x, u, hooks[u], mutating, before);
      assert Backs(x, u, hooks[u], mutating, after);
    }
  }

  lemma FinalizeKeepsRouting(
    before: Policies, after: Policies, k: PolicyKey, mutating: Hooks, validating: Hooks, mutating': Hooks,
    validating': Hooks, runs: PolicyRuns, configMaps: map<string, ConfigMap>, pods: map<nat, Pod>,
    serverRuns: map<string, ServerRun>)
    requires Finalizes(before, after, k)
    requires mutating'.Keys <= mutating.Keys && validating'.Keys <= validating.Keys
    requires RoutingHolds(before, mutating, validating, runs, configMaps, pods)
    requires SnapshotsHold(before, configMaps, serverRuns)
    ensures RoutingHolds(after, mutating', validating', runs, configMaps, pods)
    ensures SnapshotsHold(after, configMaps, serverRuns)
  {
    hide UniqueName;
    hide Configured;
    hide KnownToPods;
    hide ConfigMaps.Names;
    forall x | IsLive(after, x)
      ensures IsLive(before, x) && after[x] == before[x]
    {
    }
    forall x | Routed(x, mutating', validating', runs)
      ensures Routed(x, mutating, validating, runs)
    {
    }
  }

  lemma FinalizeKeepsStatus(
    before: Policies, after: Policies, k: PolicyKey, mutating: Hooks, validating: Hooks, mutating': Hooks,
    validating': Hooks, runs: PolicyRuns)
    requires Finalizes(before, after, k) && NamesDistinct(before)
    requires mutating' == mutating || mutating' == Remove(mutating, UniqueName(k))
    requires validating' == validating || validating' == Remove(validating, UniqueName(k))
    requires PolicyRunsHeld(runs, before)
    requires StatusHolds(before, mutating, validating) && RunStatusHolds(before, runs, mutating, validating)
    ensures StatusHolds(after, mutating', validating') && RunStatusHolds(after, runs, mutating', validating')
  {
    hide UniqueName;
    forall x | IsLive(after, x)
      ensures IsLive(before, x) && after[x] == before[x] && UniqueName(x) != UniqueName(k)
    {
    }
    forall x, isMutating: bool | IsLive(after, x) && HasWebhook(UniqueName(x), isMutating, mutating, validating)
      ensures HasWebhook(UniqueName(x), isMutating, mutating', validating')
    {
    }
  }
}
