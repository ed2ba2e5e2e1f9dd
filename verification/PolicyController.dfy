/** What one reconciliation of a policy does: the rollout gate, the webhook, the status, and deletion. */
module PolicyController {
  import opened Common
  import opened Naming
  import opened Model
  import opened Api
  import ConfigMaps
  import Pipeline
  import Webhooks

  // ------------------------------------------------------------- the rollout gate

  /** The first condition of that kind decides. */
  function IsPodReady(conditions: seq<PodCondition>): bool {
    if conditions == [] then false
    else if conditions[0].kind == "Ready" then conditions[0].status == "True"
    else IsPodReady(conditions[1..])
  }

  method PodReady(conditions: seq<PodCondition>) returns (ready: bool)
    ensures ready == IsPodReady(conditions)
    ensures ready <==> exists i :: 0 <= i < |conditions| && conditions[i] == PodCondition("Ready", "True") &&
                                   forall j :: 0 <= j < i ==> conditions[j].kind != "Ready"
  {
    for i := 0 to |conditions|
      invariant IsPodReady(conditions) == IsPodReady(conditions[i..])
      invariant forall j :: 0 <= j < i ==> conditions[j].kind != "Ready"
    {
      if conditions[i].kind == "Ready" {
        return conditions[i].status == "True";
      }
      assert conditions[i..][1..] == conditions[i + 1..];
    }
    return false;
  }

  /** The replica set that carries the deployment's revision and the ConfigMap's version. */
  predicate IsLatestReplicaSet(r: ReplicaSet, d: Deployment, version: nat) {
    r.revision == d.revision && r.configVersion == Some(version)
  }

  function ReplicaSetsOf(s: Store, server: string): set<nat> {
    set h | h in s.replicaSets && s.replicaSets[h].server == server
  }

  /** The pod-template hash of the first listed replica set that is the latest. */
  function LatestHash(
    replicaSets: map<nat, ReplicaSet>, listed: seq<nat>, d: Deployment, version: nat): Option<nat>
  {
    if listed == [] then None
    else if listed[0] in replicaSets && IsLatestReplicaSet(replicaSets[listed[0]], d, version) then Some(listed[0])
    else LatestHash(replicaSets, listed[1..], d, version)
  }

  method FindLatestHash(replicaSets: map<nat, ReplicaSet>, listed: seq<nat>, d: Deployment, version: nat)
    returns (hash: Option<nat>)
    requires forall h :: h in listed ==> h in replicaSets
    ensures hash == LatestHash(replicaSets, listed, d, version)
  {
    hash := None;
    for i := 0 to |listed|
      invariant hash == None
      invariant LatestHash(replicaSets, listed, d, version) == LatestHash(replicaSets, listed[i..], d, version)
    {
      if IsLatestReplicaSet(replicaSets[listed[i]], d, version) {
        hash := Some(listed[i]);
        return;
      }
      assert listed[i..][1..] == listed[i + 1..];
    }
  }

  lemma {:induction false} LatestHashFound(
    replicaSets: map<nat, ReplicaSet>, listed: seq<nat>, d: Deployment, version: nat)
    ensures var r := LatestHash(replicaSets, listed, d, version);
            && (r.Some? ==> r.value in listed && r.value in replicaSets &&
                            IsLatestReplicaSet(replicaSets[r.value], d, version))
            && (r.None? ==> forall h :: h in listed && h in replicaSets ==>
                                        !IsLatestReplicaSet(replicaSets[h], d, version))
  {
    if listed != [] {
      LatestHashFound(replicaSets, listed[1..], d, version);
      assert listed == [listed[0]] + listed[1..];
    }
  }

  /** Some pod is there, and every pod of the server comes from `hash` and is ready. */
  predicate AllPodsReady(s: Store, server: string, hash: nat) {
    && (exists p :: p in s.pods && s.pods[p].server == server)
    && (forall p :: p in s.pods && s.pods[p].server == server ==>
          s.pods[p].hash == hash && IsPodReady(s.pods[p].conditions))
  }

  /** `listed` is the order in which the API server returns the replica sets. */
  predicate IsUniquelyReachable(s: Store, n: string, d: Deployment, u: string, listed: seq<nat>, faults: set<Call>) {
    && GetConfigMap !in faults && n in s.configMaps
    && ConfigMaps.Serves(s.configMaps[n], u)
    && ListReplicaSets !in faults
    && LatestHash(s.replicaSets, listed, d, s.configMaps[n].rv).Some?
    && ListPods !in faults
    && AllPodsReady(s, d.serverLabel, LatestHash(s.replicaSets, listed, d, s.configMaps[n].rv).value)
  }

  // --------------------------------------------------- reconciling a live policy

  /** What is left to do once the gate is passed: the root secret to trust and the service to route to. */
  datatype Publication = Publication(root: Secret, serviceName: string)

  /** The policy in memory during one reconcile call, and what comes next. */
  datatype PolicyRun = PolicyRun(policy: Policy, todo: Option<Publication>, answer: Pipeline.Answer)

  function WithStatus(p: Policy, state: PolicyState, active: bool, reachable: Option<bool>): Policy {
    p.(status := p.status.(state := state,
                           conditions := p.status.conditions.(active := Some(active), reachable := reachable)))
  }

  function Halt(p: Policy, answer: Pipeline.Answer): PolicyRun {
    PolicyRun(p, None, answer)
  }

  /** Everything up to the webhook: reads only. */
  function Prepare(s: Store, k: PolicyKey, p: Policy, listed: seq<nat>, faults: set<Call>): PolicyRun {
    var n := p.spec.policyServer;
    var reachable := p.status.conditions.reachable;
    if n == "" then Halt(WithStatus(p, Unscheduled, false, reachable), Pipeline.Finished)
    else if GetPolicyServer in faults || n !in s.servers then
      Halt(WithStatus(p, Scheduled, false, reachable), Pipeline.Finished)
    else
      var state := if p.status.state == Active then Active else Pending;
      if GetDeployment in faults then Halt(WithStatus(p, state, false, reachable), Pipeline.Error)
      else if n !in s.deployments then Halt(WithStatus(p, state, false, reachable), Pipeline.Requeue)
      else if !IsUniquelyReachable(s, n, s.deployments[n], UniqueName(k), listed, faults) then
        Halt(WithStatus(p, state, false, Some(false)), Pipeline.Requeue)
      else if GetRootSecret in faults || ROOT_SECRET !in s.secrets then
        Halt(WithStatus(p, state, false, Some(true)), Pipeline.Error)
      else
        PolicyRun(WithStatus(p, state, false, Some(true)),
                  Some(Publication(s.secrets[ROOT_SECRET], NameWithPrefix(n))), Pipeline.Finished)
  }

  function DesiredWebhooks(cfg: Config, k: PolicyKey, spec: PolicySpec, todo: Publication): seq<Webhook> {
    [Webhooks.DesiredWebhook(cfg, k, spec, todo.root, todo.serviceName)]
  }

  /** Writes the webhook and, on success, marks the policy in memory as active. */
  function Publish(s: Store, cfg: Config, k: PolicyKey, run: PolicyRun, faults: set<Call>): (Store, PolicyRun) {
    if run.todo.None? then (s, run)
    else
      var p := run.policy;
      var w := Webhooks.SyncWebhook(
        s, KindOf(p.spec.mutating), UniqueName(k), DesiredWebhooks(cfg, k, p.spec, run.todo.value), faults);
      if w.error.Some? then (w.store, Halt(p, Pipeline.Error))
      else (w.store, Halt(WithStatus(p, Active, true, p.status.conditions.reachable), Pipeline.Finished))
  }

  /** Mode and configuration condition as read from the server's deployment and ConfigMap, if both can be read. */
  function ObservedStatus(s: Store, k: PolicyKey, p: Policy, faults: set<Call>): PolicyStatus {
    var n := p.spec.policyServer;
    if GetDeployment in faults || n !in s.deployments || GetConfigMap in faults || n !in s.configMaps then p.status
    else
      var cm := s.configMaps[n];
      var mode := if !ConfigMaps.Serves(cm, UniqueName(k)) then "unknown"
                  else ConfigMaps.ServedPolicies(cm).value[UniqueName(k)].policyMode;
      p.status.(mode := mode,
                conditions := p.status.conditions.(configured := Some(s.deployments[n].configVersion == Some(cm.rv))))
  }

  /** Writes the status back; a failed write loses it and turns the answer into an error. */
  function Finish(s: Store, k: PolicyKey, run: PolicyRun, faults: set<Call>): (Store, Pipeline.Answer) {
    var w := Api.UpdatePolicyStatus(s, k, ObservedStatus(s, k, run.policy, faults), UpdateStatus in faults);
    (w.store, if w.error.Some? then Pipeline.Error else run.answer)
  }

  // ------------------------------------------------ reconciling a deleted policy

  /** Deletes the webhook configuration, if it is there. */
  function DeleteItsWebhook(s: Store, kind: WebhookKind, u: string, faults: set<Call>): Write {
    if GetWebhook in faults then Failed(s, Other)
    else if u in s.Webhooks(kind) then Api.DeleteWebhook(s, kind, u, DeleteWebhook in faults)
    else Done(s)
  }

  /** Removes the webhook of the policy's current kind, and only then the finalizer. */
  function ReconcilePolicyDeletion(s: Store, cfg: Config, k: PolicyKey, faults: set<Call>): (Store, Pipeline.Answer)
    requires k in s.policies
  {
    var p := s.policies[k];
    var w := DeleteItsWebhook(s, KindOf(p.spec.mutating), UniqueName(k), faults);
    if w.error.Some? then (s, Pipeline.Error)
    else
      var updated := Api.UpdatePolicy(
        w.store, cfg, k, p.spec, p.finalizers - {Kubewarden}, Call.UpdatePolicy in faults);
      (updated.store, if updated.error.Some? then Pipeline.Error else Pipeline.Finished)
  }

  // -------------------------------------- one whole call, when nothing comes between

  function ReconcilePolicy(
    s: Store, cfg: Config, k: PolicyKey, listed: seq<nat>, faults: set<Call>): (Store, Pipeline.Answer)
    requires k in s.policies
  {
    if s.policies[k].deleting then ReconcilePolicyDeletion(s, cfg, k, faults)
    else
      var (s1, run) := Publish(s, cfg, k, Prepare(s, k, s.policies[k], listed, faults), faults);
      Finish(s1, k, run, faults)
  }
}
