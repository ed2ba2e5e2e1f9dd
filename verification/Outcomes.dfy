/** What requests are answered, and the status they leave: told from what was stored before and is stored afterwards. */
module Outcomes {
  import opened Common
  import opened Naming
  import opened Model
  import opened Invariants
  import opened Protocol
  import Api
  import ConfigMaps
  import Limits
  import Pipeline
  import PolicyController
  import PolicyRunChanges
  import Progress
  import Webhooks

  // ------------------------------------------------------------------- a live policy server

  /**
   * The reading, the five stages and the status write of the machine, taken one after the other, leave what one request
   * for a live server leaves: the store after the pipeline, with the pipeline's conditions in the server's status.
   */
  lemma StepsMakeTheRequest(m: Machine, cfg: Config, n: string, listed: seq<PolicyKey>, freshCa: nat, faults: set<Call>)
    requires n in m.store.servers && n !in m.serverRuns
    ensures var server := m.store.servers[n];
            var job := Pipeline.Job(n, server.spec, Pipeline.LiveOnly(m.store.policies, listed));
            var q := Pipeline.Reconcile(m.store, server.conditions, cfg, job, freshCa, faults);
            var m1 := Progress.Uninterrupted(AfterBeginServer(m, n, listed), cfg, n, freshCa, faults);
            && n in m1.serverRuns
            && AfterEndServer(m1, n, UpdateStatus in faults).store ==
                 Api.UpdateServerStatus(q.store, n, q.conditions, UpdateStatus in faults).store
            && (m1.serverRuns[n].failed <==> !Pipeline.AllDone(q.conditions))
  {
    hide Pipeline.RunFrom;
    hide Pipeline.LiveOnly;
    hide Progress.Uninterrupted;
    hide Pipeline.AllDone;
    var m0 := AfterBeginServer(m, n, listed);
    Progress.StagesMakeTheRun(m0, cfg, n, freshCa, faults);
    Pipeline.SucceedsExactlyWhenAllDone(
      m.store, m.store.servers[n].conditions, cfg, m0.serverRuns[n].job, freshCa, faults);
  }

  // -------------------------------------------------------------- a policy server in deletion

  lemma {:induction false} DeleteEachExactly(
    policies: map<PolicyKey, Policy>, keys: seq<BoundPolicy>, faults: set<Call>, k: PolicyKey)
    ensures var after := Pipeline.DeleteEach(policies, keys, faults);
            if (exists p :: p in keys && p.key == k) && DeleteBoundPolicy(k) !in faults then
              k in after ==> after[k].deleting
            else
              (k in after <==> k in policies) && (k in policies ==> after[k] == policies[k])
  {
    if keys != [] {
      var front := keys[..|keys| - 1];
      DeleteEachExactly(policies, front, faults, k);
      assert keys == front + [keys[|keys| - 1]];
    }
  }

  /** A live policy of the server stays live exactly when the call to delete it fails. */
  lemma BoundPolicyStaysLive(s: Store, n: string, listed: seq<PolicyKey>, faults: set<Call>, k: PolicyKey)
    requires Enumerates(listed, Pipeline.BoundKeys(s, n)) && Pipeline.LiveAndBound(s, k, n)
    ensures var after := Pipeline.DeleteEach(s.policies, Pipeline.LiveOnly(s.policies, listed), faults);
            IsLive(after, k) <==> DeleteBoundPolicy(k) in faults
  {
    var live := Pipeline.LiveOnly(s.policies, listed);
    Pipeline.ListedPolicies(s, n, listed);
    hide Pipeline.LiveOnly;
    assert BoundPolicy(k, s.policies[k].spec) in live;
    DeleteEachExactly(s.policies, live, faults, k);
    hide Pipeline.DeleteEach;
  }

  ghost predicate SomeLive(s: Store, n: string) {
    exists k :: Pipeline.LiveAndBound(s, k, n)
  }

  lemma TeardownDeletes(s: Store, n: string, listed: seq<PolicyKey>, faults: set<Call>)
    requires n in s.servers && Enumerates(listed, Pipeline.BoundKeys(s, n))
    ensures var live := Pipeline.LiveOnly(s.policies, listed);
            var after := Pipeline.DeleteEach(s.policies, live, faults);
            && (live != [] <==> SomeLive(s, n))
            && (Pipeline.SomeDeletionFails(live, faults) <==>
                exists k :: Pipeline.LiveAndBound(s, k, n) && IsLive(after, k))
  {
    var live := Pipeline.LiveOnly(s.policies, listed);
    Pipeline.ListedPolicies(s, n, listed);
    forall k | Pipeline.LiveAndBound(s, k, n)
      ensures BoundPolicy(k, s.policies[k].spec) in live
      ensures IsLive(Pipeline.DeleteEach(s.policies, live, faults), k) <==> DeleteBoundPolicy(k) in faults
    {
      BoundPolicyStaysLive(s, n, listed, faults, k);
    }
    hide Pipeline.LiveOnly;
    hide Pipeline.DeleteEach;
    hide Enumerates;
    if Pipeline.SomeDeletionFails(live, faults) {
      var p :| p in live && DeleteBoundPolicy(p.key) in faults;
      assert Pipeline.LiveAndBound(s, p.key, n);
    }
  }

  /**
   * What a teardown answers.  It asks to be called again exactly when there were live policies and it marked them all; it
   * is done exactly when there were none and no call failed, a conflict on the last one apart, and then nothing the server
   * owned is left and, unless there was that conflict, the controller has let go of it.
   */
  lemma TeardownAnswers(s: Store, n: string, listed: seq<PolicyKey>, faults: set<Call>)
    requires n in s.servers && s.servers[n].deleting && Enumerates(listed, Pipeline.BoundKeys(s, n))
    ensures var (s', answer) := Pipeline.ReconcileDeletion(s, n, listed, faults);
            && (answer == Pipeline.Requeue <==>
                  SomeLive(s, n) && forall k :: Pipeline.LiveAndBound(s, k, n) ==> !IsLive(s'.policies, k))
            && (answer == Pipeline.Finished <==>
                  && !SomeLive(s, n)
                  && DeleteDeployment !in faults && DeleteSecret !in faults
                  && DeleteService !in faults && DeleteConfigMap !in faults
                  && (PolicyServerConflict in faults || UpdatePolicyServer !in faults))
            && (answer == Pipeline.Finished ==>
                  && Pipeline.OwnsNothing(s', n)
                  && (n in s'.servers && PolicyServerConflict !in faults ==> Kubewarden !in s'.servers[n].finalizers))
  {
    TeardownDeletes(s, n, listed, faults);
    hide Enumerates;
    hide SomeLive;
    hide NameWithPrefix;
    hide Pipeline.LiveOnly;
    hide Pipeline.DeleteEach;
    hide Pipeline.SomeDeletionFails;
    var s1 := s.(policies := Pipeline.DeleteEach(s.policies, Pipeline.LiveOnly(s.policies, listed), faults));
    Pipeline.DeleteOwnedDeletes(s1, n, faults);
    hide Pipeline.DeleteOwned;
  }

  // ---------------------------------------------------------------------------- a live policy

  /** The server is named, there and can be read. */
  predicate ServerFound(s: Store, n: string, faults: set<Call>) {
    n != "" && GetPolicyServer !in faults && n in s.servers
  }

  /** Its deployment too, so that the gate is asked. */
  predicate GateAsked(s: Store, n: string, faults: set<Call>) {
    ServerFound(s, n, faults) && GetDeployment !in faults && n in s.deployments
  }

  predicate GateOpen(s: Store, n: string, k: PolicyKey, listed: seq<nat>, faults: set<Call>) {
    GateAsked(s, n, faults) &&
    PolicyController.IsUniquelyReachable(s, n, s.deployments[n], UniqueName(k), listed, faults)
  }

  /** What a run decides about the policy, before its status is written. */
  lemma RunDecides(s: Store, cfg: Config, k: PolicyKey, p: Policy, listed: seq<nat>, faults: set<Call>)
    ensures var run := PolicyController.Publish(s, cfg, k, PolicyController.Prepare(s, k, p, listed, faults), faults).1;
            var n, st := p.spec.policyServer, run.policy.status;
            && run.policy.spec == p.spec
            && (st.state == Unscheduled <==> n == "")
            && (st.state == Scheduled <==> n != "" && !ServerFound(s, n, faults))
            && (ServerFound(s, n, faults) ==>
                  st.state == if st.conditions.active == Some(true) || p.status.state == Active then Active else Pending)
            && (st.conditions.reachable ==
                  if GateAsked(s, n, faults) then Some(GateOpen(s, n, k, listed, faults))
                  else p.status.conditions.reachable)
            && st.conditions.configured == p.status.conditions.configured && st.mode == p.status.mode
  {
    hide UniqueName;
    hide NameWithPrefix;
    hide PolicyController.IsUniquelyReachable;
    hide PolicyController.DesiredWebhooks;
    hide Webhooks.SyncWebhook;
  }

  /** Whether the policy is confirmed as active, and the answer. */
  lemma RunAnswers(s: Store, cfg: Config, k: PolicyKey, p: Policy, listed: seq<nat>, faults: set<Call>)
    ensures var run := PolicyController.Publish(s, cfg, k, PolicyController.Prepare(s, k, p, listed, faults), faults).1;
            var n, st := p.spec.policyServer, run.policy.status;
            && st.conditions.active ==
                 Some(ServerFound(s, n, faults) && !Limits.Unconfirmed(s, cfg, k, p, listed, faults))
            && (run.answer == Pipeline.Finished <==>
                  st.state in {Unscheduled, Scheduled} || st.conditions.active == Some(true))
            && (run.answer == Pipeline.Requeue <==>
                  ServerFound(s, n, faults) && GetDeployment !in faults && !GateOpen(s, n, k, listed, faults))
  {
    hide UniqueName;
    hide NameWithPrefix;
    hide PolicyController.IsUniquelyReachable;
    hide Webhooks.DesiredWebhook;
    if ROOT_SECRET in s.secrets {
      Limits.SyncWebhookFailsExactly(
        s, KindOf(p.spec.mutating), UniqueName(k),
        [Webhooks.DesiredWebhook(cfg, k, p.spec, s.secrets[ROOT_SECRET], NameWithPrefix(p.spec.policyServer))], faults);
    }
    hide Webhooks.SyncWebhook;
    hide Limits.WebhookWriteFails;
  }

  /** Mode and configuration condition are told from the server's objects, where both can be read. */
  lemma ObservedExactly(s: Store, k: PolicyKey, p: Policy, faults: set<Call>)
    ensures var n, st := p.spec.policyServer, PolicyController.ObservedStatus(s, k, p, faults);
            && st.state == p.status.state
            && st.conditions.active == p.status.conditions.active
            && st.conditions.reachable == p.status.conditions.reachable
            && if GetDeployment in faults || GetConfigMap in faults || n !in s.deployments || n !in s.configMaps then
                 st.mode == p.status.mode && st.conditions.configured == p.status.conditions.configured
               else
                 && st.conditions.configured == Some(s.deployments[n].configVersion == Some(s.configMaps[n].rv))
                 && (if ConfigMaps.Serves(s.configMaps[n], UniqueName(k))
                     then st.mode == ConfigMaps.ServedPolicies(s.configMaps[n]).value[UniqueName(k)].policyMode
                     else st.mode == "unknown")
  {
    hide UniqueName;
    hide ConfigMaps.ServedPolicies;
  }

  /**
   * The status a reconciliation of a live policy stores, from what was there before.  State and condition PolicyActive:
   * "unscheduled" without a server, "scheduled" with one that is not found; else "active" if it was or is confirmed now,
   * and "pending" otherwise.  The condition PolicyUniquelyReachable is the gate's answer, if it was asked; mode and
   * configuration condition are the ConfigMap's and the deployment's word, if both can be read.
   */
  lemma StoredStatusExactly(s: Store, cfg: Config, k: PolicyKey, listed: seq<nat>, faults: set<Call>)
    requires IsLive(s.policies, k) && UpdateStatus !in faults
    ensures var p := s.policies[k]; var n := p.spec.policyServer;
            var s' := PolicyController.ReconcilePolicy(s, cfg, k, listed, faults).0;
            k in s'.policies && var st := s'.policies[k].status;
            && (st.state == Unscheduled <==> n == "")
            && (st.state == Scheduled <==> n != "" && !ServerFound(s, n, faults))
            && (ServerFound(s, n, faults) ==>
                  st.state == if st.conditions.active == Some(true) || p.status.state == Active then Active else Pending)
            && st.conditions.active ==
                 Some(ServerFound(s, n, faults) && !Limits.Unconfirmed(s, cfg, k, p, listed, faults))
            && (st.conditions.reachable ==
                  if GateAsked(s, n, faults) then Some(GateOpen(s, n, k, listed, faults))
                  else p.status.conditions.reachable)
            && if GetDeployment in faults || GetConfigMap in faults || n !in s.deployments || n !in s.configMaps then
                 st.mode == p.status.mode && st.conditions.configured == p.status.conditions.configured
               else
                 && st.conditions.configured == Some(s.deployments[n].configVersion == Some(s.configMaps[n].rv))
                 && (if ConfigMaps.Serves(s.configMaps[n], UniqueName(k))
                     then st.mode == ConfigMaps.ServedPolicies(s.configMaps[n]).value[UniqueName(k)].policyMode
                     else st.mode == "unknown")
  {
    hide UniqueName;
    hide Limits.Unconfirmed;
    hide GateAsked;
    hide GateOpen;
    hide PolicyController.Prepare;
    hide ConfigMaps.Serves;
    hide ConfigMaps.ServedPolicies;
    var p := s.policies[k];
    var prepared := PolicyController.Prepare(s, k, p, listed, faults);
    var (s1, run) := PolicyController.Publish(s, cfg, k, prepared, faults);
    RunDecides(s, cfg, k, p, listed, faults);
    RunAnswers(s, cfg, k, p, listed, faults);
    PolicyRunChanges.PublishKeepsPolicies(s, cfg, k, prepared, faults);
    hide PolicyController.Publish;
    ObservedExactly(s1, k, run.policy, faults);
    hide PolicyController.ObservedStatus;
  }

  /**
   * What the reconciliation of a live policy answers.  It is done exactly when the status was written and says that there is
   * no server to wait for, or that the policy is active: a policy that is left pending, or active but not confirmed, is
   * taken up again.  It is put off exactly when there is no deployment yet or the gate is shut; anything else is an error.
   */
  lemma PolicyAnswers(s: Store, cfg: Config, k: PolicyKey, listed: seq<nat>, faults: set<Call>)
    requires IsLive(s.policies, k)
    ensures var n := s.policies[k].spec.policyServer;
            var (s', answer) := PolicyController.ReconcilePolicy(s, cfg, k, listed, faults);
            && k in s'.policies
            && (answer == Pipeline.Finished <==>
                  && UpdateStatus !in faults
                  && (s'.policies[k].status.state in {Unscheduled, Scheduled} ||
                      s'.policies[k].status.conditions.active == Some(true)))
            && (answer == Pipeline.Requeue <==>
                  && UpdateStatus !in faults
                  && ServerFound(s, n, faults) && GetDeployment !in faults && !GateOpen(s, n, k, listed, faults))
  {
    hide UniqueName;
    hide Limits.Unconfirmed;
    hide GateOpen;
    hide PolicyController.Prepare;
    var p := s.policies[k];
    var prepared := PolicyController.Prepare(s, k, p, listed, faults);
    var (s1, run) := PolicyController.Publish(s, cfg, k, prepared, faults);
    RunAnswers(s, cfg, k, p, listed, faults);
    PolicyRunChanges.PublishKeepsPolicies(s, cfg, k, prepared, faults);
    hide PolicyController.Publish;
    ObservedExactly(s1, k, run.policy, faults);
    hide PolicyController.ObservedStatus;
  }

  // ------------------------------------------------------------------------ a deleted policy

  /**
   * A deleted policy's last call is done exactly when it let go of the policy, and then no webhook of its present kind is
   * left; otherwise the policy is as it was.
   */
  lemma DeletionAnswers(s: Store, cfg: Config, k: PolicyKey, faults: set<Call>)
    requires k in s.policies && s.policies[k].deleting && Kubewarden in s.policies[k].finalizers
    ensures var (s', answer) := PolicyController.ReconcilePolicyDeletion(s, cfg, k, faults);
            && (answer == Pipeline.Finished <==> !HoldsPolicy(s'.policies, k))
            && (answer == Pipeline.Finished ==> UniqueName(k) !in s'.Webhooks(KindOf(s.policies[k].spec.mutating)))
            && (answer != Pipeline.Finished ==> answer == Pipeline.Error && s'.policies == s.policies)
  {
    hide UniqueName;
    var p := s.policies[k];
    var kind := KindOf(p.spec.mutating);
    PolicyRunChanges.DeleteWebhookRemoves(s, kind, UniqueName(k), faults);
    var w := PolicyController.DeleteItsWebhook(s, kind, UniqueName(k), faults);
    hide PolicyController.DeleteItsWebhook;
    hide PolicyRunChanges.HookRemoved;
    if w.error.None? {
      UpdateLetsGo(w.store, cfg, k, Call.UpdatePolicy in faults);
    } else {
      FailedDeleteWritesNothing(s, kind, UniqueName(k), faults);
    }
    hide Api.UpdatePolicy;
  }

  lemma UpdateLetsGo(s: Store, cfg: Config, k: PolicyKey, fail: bool)
    requires k in s.policies && s.policies[k].deleting && Kubewarden in s.policies[k].finalizers
    ensures var w := Api.UpdatePolicy(s, cfg, k, s.policies[k].spec, s.policies[k].finalizers - {Kubewarden}, fail);
            && w.store == s.(policies := w.store.policies)
            && (w.error.None? <==> !HoldsPolicy(w.store.policies, k))
            && (w.error.Some? ==> w.store == s)
  {
  }

  lemma FailedDeleteWritesNothing(s: Store, kind: WebhookKind, u: string, faults: set<Call>)
    ensures var w := PolicyController.DeleteItsWebhook(s, kind, u, faults); w.error.Some? ==> w.store == s
  {
  }
}
