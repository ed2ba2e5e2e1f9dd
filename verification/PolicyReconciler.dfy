/** The policy reconcilers as they run: a policy in memory whose status is updated in place, and calls to the cluster. */
module PolicyReconciler {
  import opened Common
  import opened Naming
  import opened Model
  import opened ClusterState
  import Admission
  import Api
  import ConfigMaps
  import Pipeline
  import PolicyController
  import Webhooks

  /** A policy, cluster-wide or namespaced, in the controller's memory. */
  class PolicyObject {
    const key: PolicyKey
    var deleting: bool
    var finalizers: set<Finalizer>
    var spec: PolicySpec
    var status: PolicyStatus

    function Value(): Policy
      reads this
    {
      Policy(deleting, finalizers, spec, status)
    }

    /** As read from the cluster. */
    constructor (k: PolicyKey, stored: Policy)
      ensures key == k && Value() == stored
    {
      key := k;
      deleting, finalizers, spec, status := stored.deleting, stored.finalizers, stored.spec, stored.status;
    }

    /** Supplies the default server and keeps the controller's finalizer on live policies. */
    method Default(cfg: Config)
      modifies this`spec, this`finalizers
      ensures Value() == Admission.DefaultPolicy(cfg, old(Value()))
      ensures !deleting ==> Kubewarden in finalizers
    {
      if spec.policyServer == "" {
        spec := spec.(policyServer := cfg.defaultPolicyServer);
      }
      if !deleting {
        finalizers := finalizers + {Kubewarden};
      }
    }

    method RemoveFinalizer()
      modifies this`finalizers
      ensures finalizers == old(finalizers) - {Kubewarden}
    {
      finalizers := finalizers - {Kubewarden};
    }

    method SetStatus(state: PolicyState)
      modifies this`status
      ensures status == old(status).(state := state)
    {
      status := status.(state := state);
    }

    method SetPolicyModeStatus(mode: string)
      modifies this`status
      ensures status == old(status).(mode := mode)
    {
      status := status.(mode := mode);
    }

    method SetPolicyActiveCondition(active: bool)
      modifies this`status
      ensures status == old(status).(conditions := old(status).conditions.(active := Some(active)))
    {
      status := status.(conditions := status.conditions.(active := Some(active)));
    }

    method SetUniquelyReachableCondition(reachable: bool)
      modifies this`status
      ensures status == old(status).(conditions := old(status).conditions.(reachable := Some(reachable)))
    {
      status := status.(conditions := status.conditions.(reachable := Some(reachable)));
    }

    /** Up to date exactly when the deployment carries the ConfigMap's present version in its annotation. */
    method SetPolicyConfigurationCondition(cm: ConfigMap, d: Deployment)
      modifies this`status
      ensures status == old(status).(conditions := old(status).conditions.(
                          configured := Some(d.configVersion == Some(cm.rv))))
    {
      var configured := false;
      if d.configVersion.Some? {
        if d.configVersion.value == cm.rv {
          configured := true;
        } else {
          configured := false;
        }
      }
      status := status.(conditions := status.conditions.(configured := Some(configured)));
    }

    method SetPolicyAsActive()
      modifies this`status
      ensures Value() == PolicyController.WithStatus(
                           old(Value()), Active, true, old(status).conditions.reachable)
    {
      SetStatus(Active);
      SetPolicyActiveCondition(true);
    }
  }

  // ------------------------------------------------------------------------ webhooks

  method ReconcileWebhookConfiguration(
    c: Cluster, cfg: Config, kind: WebhookKind, policy: PolicyObject, root: Secret, serviceName: string,
    faults: set<Call>)
    returns (error: Option<Failure>)
    modifies c
    ensures Api.Write(c.Snapshot(), error) == Webhooks.SyncWebhook(
              old(c.Snapshot()), kind, UniqueName(policy.key),
              [Webhooks.DesiredWebhook(cfg, policy.key, policy.spec, root, serviceName)], faults)
  {
    hide Webhooks.Represents;
    hide UniqueName;
    var u := UniqueName(policy.key);
    var webhook := Webhooks.BuildWebhook(cfg, policy.key, policy.spec, root, serviceName);
    hide Webhooks.DesiredWebhook;
    error := c.CreateWebhook(kind, u, [webhook], CreateWebhook in faults);
    if error == Some(AlreadyExists) {
      error := UpdateWebhook(c, kind, u, [webhook], faults);
    }
  }

  method UpdateWebhook(c: Cluster, kind: WebhookKind, u: string, hooks: seq<Webhook>, faults: set<Call>)
    returns (error: Option<Failure>)
    requires u in c.Snapshot().Webhooks(kind) && CreateWebhook !in faults
    modifies c
    ensures Api.Write(c.Snapshot(), error) == Webhooks.SyncWebhook(old(c.Snapshot()), kind, u, hooks, faults)
  {
    if GetWebhook in faults {
      return Some(Other);
    }
    if c.Snapshot().Webhooks(kind)[u].webhooks != hooks {
      error := c.PatchWebhook(kind, u, hooks, PatchWebhook in faults);
    } else {
      error := None;
    }
  }

  /** Deletes the policy's webhook of that kind; a webhook that is not there is no error. */
  method ReconcileDeletedWebhook(c: Cluster, kind: WebhookKind, u: string, faults: set<Call>)
    returns (error: Option<Failure>)
    modifies c
    ensures Api.Write(c.Snapshot(), error) == PolicyController.DeleteItsWebhook(old(c.Snapshot()), kind, u, faults)
  {
    if GetWebhook in faults {
      return Some(Other);
    }
    if u !in c.Snapshot().Webhooks(kind) {
      return None;
    }
    error := c.DeleteWebhook(kind, u, DeleteWebhook in faults);
    if error == Some(NotFound) {
      error := None;
    }
  }

  // ---------------------------------------------------------------------------- the gate

  method IsPolicyUniquelyReachable(
    c: Cluster, n: string, d: Deployment, u: string, replicaSets: seq<nat>, pods: seq<nat>, faults: set<Call>)
    returns (reachable: bool)
    requires forall h :: h in replicaSets ==> h in c.replicaSets
    requires forall p :: p in pods <==> p in c.pods && c.pods[p].server == d.serverLabel
    ensures reachable == PolicyController.IsUniquelyReachable(c.Snapshot(), n, d, u, replicaSets, faults)
  {
    if GetConfigMap in faults || n !in c.configMaps {
      return false;
    }
    var cm := c.configMaps[n];
    if !ConfigMaps.Serves(cm, u) {
      return false;
    }
    if ListReplicaSets in faults {
      return false;
    }
    var podTemplateHash := PolicyController.FindLatestHash(c.replicaSets, replicaSets, d, cm.rv);
    if podTemplateHash.None? {
      return false;
    }
    if ListPods in faults {
      return false;
    }
    if |pods| == 0 {
      return false;
    }
    assert pods[0] in pods;
    for i := 0 to |pods|
      invariant forall j :: 0 <= j < i ==> c.pods[pods[j]].hash == podTemplateHash.value
      invariant forall j :: 0 <= j < i ==> PolicyController.IsPodReady(c.pods[pods[j]].conditions)
    {
      assert pods[i] in pods;
      var ready := PolicyController.PodReady(c.pods[pods[i]].conditions);
      if c.pods[pods[i]].hash != podTemplateHash.value || !ready {
        return false;
      }
    }
    return true;
  }

  // ---------------------------------------------------------------------- a live policy

  /** Decides the policy's state and conditions in memory, and writes its webhook once the gate is open. */
  method ReconcilePolicy(
    c: Cluster, cfg: Config, policy: PolicyObject, replicaSets: seq<nat>, pods: seq<nat>, faults: set<Call>)
    returns (answer: Pipeline.Answer)
    requires forall h :: h in replicaSets ==> h in c.replicaSets
    requires policy.spec.policyServer in c.deployments ==>
               forall p :: p in pods <==>
                 p in c.pods && c.pods[p].server == c.deployments[policy.spec.policyServer].serverLabel
    modifies c, policy`status
    ensures var run := PolicyController.Prepare(old(c.Snapshot()), policy.key, old(policy.Value()), replicaSets, faults);
            (c.Snapshot(), PolicyController.Halt(policy.Value(), answer)) ==
              PolicyController.Publish(old(c.Snapshot()), cfg, policy.key, run, faults)
  {
    hide UniqueName;
    hide NameWithPrefix;
    hide PolicyController.IsUniquelyReachable;
    hide Webhooks.SyncWebhook;
    hide Webhooks.DesiredWebhook;
    policy.SetPolicyActiveCondition(false);
    var n := policy.spec.policyServer;
    if n == "" {
      policy.SetStatus(Unscheduled);
      return Pipeline.Finished;
    }
    if GetPolicyServer in faults || n !in c.servers {
      policy.SetStatus(Scheduled);
      return Pipeline.Finished;
    }
    if policy.status.state != Active {
      policy.SetStatus(Pending);
    }
    if GetDeployment in faults {
      return Pipeline.Error;
    }
    if n !in c.deployments {
      return Pipeline.Requeue;
    }
    var reachable := IsPolicyUniquelyReachable(
      c, n, c.deployments[n], UniqueName(policy.key), replicaSets, pods, faults);
    policy.SetUniquelyReachableCondition(reachable);
    if !reachable {
      return Pipeline.Requeue;
    }
    if GetRootSecret in faults || ROOT_SECRET !in c.secrets {
      return Pipeline.Error;
    }
    var error := ReconcileWebhookConfiguration(
      c, cfg, KindOf(policy.spec.mutating), policy, c.secrets[ROOT_SECRET], NameWithPrefix(n), faults);
    if error.Some? {
      return Pipeline.Error;
    }
    policy.SetPolicyAsActive();
    return Pipeline.Finished;
  }

  /** Mode and configuration condition as the server's ConfigMap and deployment have them, if both can be read. */
  method SetPolicyStatus(c: Cluster, policy: PolicyObject, faults: set<Call>)
    modifies policy`status
    ensures policy.status ==
            PolicyController.ObservedStatus(c.Snapshot(), policy.key, old(policy.Value()), faults)
  {
    hide UniqueName;
    var n := policy.spec.policyServer;
    if GetDeployment in faults || n !in c.deployments {
      return;
    }
    if GetConfigMap in faults || n !in c.configMaps {
      return;
    }
    var policyMap := ConfigMaps.ServedPolicies(c.configMaps[n]);
    if policyMap.Ok? {
      if UniqueName(policy.key) in policyMap.value {
        policy.SetPolicyModeStatus(policyMap.value[UniqueName(policy.key)].policyMode);
      } else {
        policy.SetPolicyModeStatus("unknown");
      }
    } else {
      policy.SetPolicyModeStatus("unknown");
    }
    policy.SetPolicyConfigurationCondition(c.configMaps[n], c.deployments[n]);
  }

  // ------------------------------------------------------------------- a deleted policy

  method ReconcilePolicyDeletion(c: Cluster, cfg: Config, policy: PolicyObject, faults: set<Call>)
    returns (answer: Pipeline.Answer)
    requires policy.key in c.policies && policy.Value() == c.policies[policy.key]
    modifies c, policy
    ensures (c.Snapshot(), answer) ==
            PolicyController.ReconcilePolicyDeletion(old(c.Snapshot()), cfg, policy.key, faults)
  {
    hide UniqueName;
    var error := ReconcileDeletedWebhook(c, KindOf(policy.spec.mutating), UniqueName(policy.key), faults);
    if error.Some? {
      return Pipeline.Error;
    }
    policy.RemoveFinalizer();
    error := c.UpdatePolicy(cfg, policy.key, policy.spec, policy.finalizers, Call.UpdatePolicy in faults);
    return if error.Some? then Pipeline.Error else Pipeline.Finished;
  }

  // ---------------------------------------------------------------------- the controller

  /** One request of the work queue, for a policy as just read. */
  method StartReconciling(
    c: Cluster, cfg: Config, policy: PolicyObject, replicaSets: seq<nat>, pods: seq<nat>, faults: set<Call>)
    returns (answer: Pipeline.Answer)
    requires policy.key in c.policies && policy.Value() == c.policies[policy.key]
    requires forall h :: h in replicaSets ==> h in c.replicaSets
    requires policy.spec.policyServer in c.deployments ==>
               forall p :: p in pods <==>
                 p in c.pods && c.pods[p].server == c.deployments[policy.spec.policyServer].serverLabel
    modifies c, policy
    ensures (c.Snapshot(), answer) ==
            PolicyController.ReconcilePolicy(old(c.Snapshot()), cfg, policy.key, replicaSets, faults)
  {
    hide PolicyController.Prepare;
    hide PolicyController.Publish;
    hide PolicyController.ObservedStatus;
    if policy.deleting {
      answer := ReconcilePolicyDeletion(c, cfg, policy, faults);
      return;
    }
    answer := ReconcilePolicy(c, cfg, policy, replicaSets, pods, faults);
    SetPolicyStatus(c, policy, faults);
    var error := c.UpdatePolicyStatus(policy.key, policy.status, UpdateStatus in faults);
    if error.Some? {
      answer := Pipeline.Error;
    }
  }
}
