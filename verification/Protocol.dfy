/**
 * The controller and the cluster it drives, as one state machine.  Both reconcilers are split: a server run reads the
 * server and its policies, then makes one step per stage, then writes its status; a policy run reads through the gate,
 * then writes the webhook, then its status.  Users, the deployment controller, pods and crashes come in between.
 */
module Protocol {
  import opened Common
  import opened Naming
  import opened Model
  import Api
  import Admission
  import ConfigMaps
  import Pipeline
  import PolicyController

  /** A reconcile call of a live server under way; `stage` is the next stage to run. */
  datatype ServerRun = ServerRun(
    job: Pipeline.Job, stage: nat, root: Secret, conditions: map<ServerCondition, bool>, failed: bool)

  /** At most one run per server and per policy: the work queue never hands out one key twice. */
  datatype Machine = Machine(
    store: Store, serverRuns: map<string, ServerRun>, policyRuns: map<PolicyKey, PolicyController.PolicyRun>)

  const INITIAL := Machine(EMPTY_STORE, map[], map[])

  datatype Step =
    // users
    | CreatePolicy(k: PolicyKey, spec: PolicySpec, finalizers: set<Finalizer>)
    | UpdatePolicy(k: PolicyKey, spec: PolicySpec, finalizers: set<Finalizer>)
    | DeletePolicy(k: PolicyKey)
    | CreateServer(n: string, serverSpec: ServerSpec, finalizers: set<Finalizer>)
    | UpdateServer(n: string, serverSpec: ServerSpec, finalizers: set<Finalizer>)
    | DeleteServer(n: string)
    | RestartRollout(n: string, template: Template)
    // deployment controller, replica sets and pods
    | SyncReplicaSet(n: string, hash: nat, revision: nat)
    | SyncRevision(n: string, hash: nat)
    | DeleteReplicaSet(hash: nat)
    | CreatePod(hash: nat)
    | LoadPod(pod: nat)
    | SetPodConditions(pod: nat, conditions: seq<PodCondition>)
    | DeletePod(pod: nat)
    // the policy server reconciler
    | BeginServer(n: string, listed: seq<PolicyKey>)
    | ServerStage(n: string, freshCa: nat, faults: set<Call>)
    | EndServer(n: string, fail: bool)
    | TearDownServer(n: string, listed: seq<PolicyKey>, faults: set<Call>)
    // the policy reconcilers
    | BeginPolicy(k: PolicyKey, replicaSets: seq<nat>, faults: set<Call>)
    | PublishPolicy(k: PolicyKey, faults: set<Call>)
    | EndPolicy(k: PolicyKey, faults: set<Call>)
    | FinalizePolicy(k: PolicyKey, faults: set<Call>)
    // the controller process restarts and forgets what it was doing
    | Crash

  predicate IsUserStep(step: Step) {
    step.CreatePolicy? || step.UpdatePolicy? || step.DeletePolicy? || step.CreateServer? ||
    step.UpdateServer? || step.DeleteServer? || step.RestartRollout?
  }

  predicate IsRolloutStep(step: Step) {
    step.SyncReplicaSet? || step.SyncRevision? || step.DeleteReplicaSet? || step.CreatePod? ||
    step.LoadPod? || step.SetPodConditions? || step.DeletePod?
  }

  predicate IsControllerStep(step: Step) {
    step.BeginServer? || step.ServerStage? || step.EndServer? || step.TearDownServer? ||
    step.BeginPolicy? || step.PublishPolicy? || step.EndPolicy? || step.FinalizePolicy? || step.Crash?
  }

  /** A replica set that the deployment controller made from the deployment's current template. */
  predicate MadeFrom(r: ReplicaSet, d: Deployment) {
    r.owner == d.uid && r.template == d.template
  }

  /** Reuses the replica set of the current template if there is one; its revision tops its siblings'. */
  ghost predicate CanSync(s: Store, d: Deployment, hash: nat, revision: nat) {
    && (if hash in s.replicaSets then MadeFrom(s.replicaSets[hash], d)
        else hash == s.rv + 1 && forall h :: h in s.replicaSets ==> !MadeFrom(s.replicaSets[h], d))
    && forall h :: h in s.replicaSets && h != hash && s.replicaSets[h].owner == d.uid && s.replicaSets[h].revision.Some?
         ==> s.replicaSets[h].revision.value < revision
  }

  ghost predicate Enabled(m: Machine, cfg: Config, step: Step) {
    var s := m.store;
    match step
    case CreatePolicy(k, _, _) => k !in s.policies
    case UpdatePolicy(k, spec, finalizers) =>
      k in s.policies && Admission.AdmitPolicyUpdate(cfg, s.policies[k], spec, finalizers).Some?
    case DeletePolicy(k) => k in s.policies
    case CreateServer(n, _, _) => n !in s.servers
    case UpdateServer(n, _, _) => n in s.servers
    case DeleteServer(n) => n in s.servers
    case RestartRollout(n, template) =>
      n in s.deployments && template == s.deployments[n].template.(annotations := template.annotations)
    case SyncReplicaSet(n, hash, revision) => n in s.deployments && CanSync(s, s.deployments[n], hash, revision)
    case SyncRevision(n, hash) =>
      n in s.deployments && hash in s.replicaSets && MadeFrom(s.replicaSets[hash], s.deployments[n])
    case DeleteReplicaSet(hash) => hash in s.replicaSets
    case CreatePod(hash) => hash in s.replicaSets
    case LoadPod(pod) =>
      pod in s.pods && s.pods[pod].server in s.configMaps &&
      ConfigMaps.ServedPolicies(s.configMaps[s.pods[pod].server]).Ok?
    case SetPodConditions(pod, conditions) =>
      pod in s.pods && (PolicyController.IsPodReady(conditions) ==> s.pods[pod].loaded.Some?)
    case DeletePod(pod) => pod in s.pods
    case BeginServer(n, listed) =>
      n in s.servers && !s.servers[n].deleting && n !in m.serverRuns && Enumerates(listed, Pipeline.BoundKeys(s, n))
    case ServerStage(n, _, _) => n in m.serverRuns && m.serverRuns[n].stage < STAGES && !m.serverRuns[n].failed
    case EndServer(n, _) => n in m.serverRuns && (m.serverRuns[n].stage == STAGES || m.serverRuns[n].failed)
    case TearDownServer(n, listed, _) =>
      n in s.servers && s.servers[n].deleting && n !in m.serverRuns && Enumerates(listed, Pipeline.BoundKeys(s, n))
    case BeginPolicy(k, listed, _) =>
      k in s.policies && !s.policies[k].deleting && k !in m.policyRuns &&
      (s.policies[k].spec.policyServer in s.deployments ==>
         Enumerates(listed, PolicyController.ReplicaSetsOf(
                              s, s.deployments[s.policies[k].spec.policyServer].serverLabel)))
    case PublishPolicy(k, _) => k in m.policyRuns && m.policyRuns[k].todo.Some?
    case EndPolicy(k, _) => k in m.policyRuns && m.policyRuns[k].todo.None?
    case FinalizePolicy(k, _) => k in s.policies && s.policies[k].deleting && k !in m.policyRuns
    case Crash => true
  }

  // ------------------------------------------------------------ what users do

  function AfterCreatePolicy(
    s: Store, cfg: Config, k: PolicyKey, spec: PolicySpec, finalizers: set<Finalizer>): Store {
    s.(policies := s.policies[k := Admission.AdmitPolicyCreate(cfg, spec, finalizers)])
  }

  function AfterUpdatePolicy(
    s: Store, cfg: Config, k: PolicyKey, spec: PolicySpec, finalizers: set<Finalizer>): Store
    requires k in s.policies && Admission.AdmitPolicyUpdate(cfg, s.policies[k], spec, finalizers).Some?
  {
    s.(policies := Api.PutPolicy(
         s.policies, k, Admission.AdmitPolicyUpdate(cfg, s.policies[k], spec, finalizers).value))
  }

  function AfterDeletePolicy(s: Store, k: PolicyKey): Store {
    Api.DeletePolicy(s, k, false).store
  }

  function AfterCreateServer(s: Store, n: string, spec: ServerSpec, finalizers: set<Finalizer>): Store {
    s.(servers := s.servers[n := Admission.DefaultServer(PolicyServer(false, finalizers, spec, map[]))])
  }

  function AfterUpdateServer(s: Store, n: string, spec: ServerSpec, finalizers: set<Finalizer>): Store
    requires n in s.servers
  {
    s.(servers := Api.PutServer(
         s.servers, n, Admission.DefaultServer(s.servers[n].(spec := spec, finalizers := finalizers))))
  }

  function AfterDeleteServer(s: Store, n: string): Store {
    Api.DeleteServer(s, n, false).store
  }

  function AfterRestartRollout(s: Store, n: string, template: Template): Store
    requires n in s.deployments
  {
    s.(rv := s.rv + 1,
       deployments := s.deployments[n := s.deployments[n].(rv := s.rv + 1, template := template)])
  }

  // ------------------------- what the deployment controller, replica sets and pods do

  function AfterSyncReplicaSet(s: Store, n: string, hash: nat, revision: nat): Store
    requires n in s.deployments
  {
    var d := s.deployments[n];
    s.(rv := s.rv + 1,
       replicaSets := s.replicaSets[hash := ReplicaSet(
         d.template.serverLabel, d.uid, d.configVersion, Some(revision), d.template)])
  }

  function AfterSyncRevision(s: Store, n: string, hash: nat): Store
    requires n in s.deployments && hash in s.replicaSets
  {
    s.(rv := s.rv + 1,
       deployments := s.deployments[n := s.deployments[n].(
         rv := s.rv + 1, revision := s.replicaSets[hash].revision)])
  }

  function AfterDeleteReplicaSet(s: Store, hash: nat): Store {
    s.(replicaSets := Remove(s.replicaSets, hash))
  }

  function AfterCreatePod(s: Store, hash: nat): Store
    requires hash in s.replicaSets
  {
    var r := s.replicaSets[hash];
    s.(rv := s.rv + 1, pods := s.pods[s.rv + 1 := Pod(r.server, hash, r.template.configVersion, [], None)])
  }

  /** A policy server process starts, or restarts, and reads the ConfigMap as it is now. */
  function AfterLoadPod(s: Store, pod: nat): Store
    requires pod in s.pods && s.pods[pod].server in s.configMaps
    requires ConfigMaps.ServedPolicies(s.configMaps[s.pods[pod].server]).Ok?
  {
    var cm := s.configMaps[s.pods[pod].server];
    s.(pods := s.pods[pod := s.pods[pod].(
         conditions := [], loaded := Some(Loaded(cm.rv, ConfigMaps.ServedPolicies(cm).value)))])
  }

  function AfterSetPodConditions(s: Store, pod: nat, conditions: seq<PodCondition>): Store
    requires pod in s.pods
  {
    s.(pods := s.pods[pod := s.pods[pod].(conditions := conditions)])
  }

  function AfterDeletePod(s: Store, pod: nat): Store {
    s.(pods := Remove(s.pods, pod))
  }

  // ---------------------------------------------------- what the controller does

  function AfterBeginServer(m: Machine, n: string, listed: seq<PolicyKey>): Machine
    requires n in m.store.servers
  {
    var job := Pipeline.Job(n, m.store.servers[n].spec, Pipeline.LiveOnly(m.store.policies, listed));
    m.(serverRuns := m.serverRuns[n := ServerRun(job, 0, Secret(map[]), m.store.servers[n].conditions, false)])
  }

  function AfterServerStage(m: Machine, cfg: Config, n: string, freshCa: nat, faults: set<Call>): Machine
    requires n in m.serverRuns && m.serverRuns[n].stage < STAGES
  {
    var run := m.serverRuns[n];
    var (w, root) := Pipeline.RunStage(run.stage, m.store, cfg, run.job, run.root, freshCa, faults);
    Machine(w.store, m.serverRuns[n := AfterStage(run, root, w.error.None?)], m.policyRuns)
  }

  function AfterEndServer(m: Machine, n: string, fail: bool): Machine
    requires n in m.serverRuns
  {
    Machine(Api.UpdateServerStatus(m.store, n, m.serverRuns[n].conditions, fail).store,
            Remove(m.serverRuns, n), m.policyRuns)
  }

  function AfterTearDownServer(s: Store, n: string, listed: seq<PolicyKey>, faults: set<Call>): Store
    requires n in s.servers
  {
    Pipeline.ReconcileDeletion(s, n, listed, faults).0
  }

  function AfterBeginPolicy(m: Machine, k: PolicyKey, listed: seq<nat>, faults: set<Call>): Machine
    requires k in m.store.policies
  {
    m.(policyRuns :=
         m.policyRuns[k := PolicyController.Prepare(m.store, k, m.store.policies[k], listed, faults)])
  }

  function AfterPublishPolicy(m: Machine, cfg: Config, k: PolicyKey, faults: set<Call>): Machine
    requires k in m.policyRuns
  {
    var (s', run) := PolicyController.Publish(m.store, cfg, k, m.policyRuns[k], faults);
    Machine(s', m.serverRuns, m.policyRuns[k := run])
  }

  function AfterEndPolicy(m: Machine, k: PolicyKey, faults: set<Call>): Machine
    requires k in m.policyRuns
  {
    Machine(PolicyController.Finish(m.store, k, m.policyRuns[k], faults).0, m.serverRuns, Remove(m.policyRuns, k))
  }

  function AfterFinalizePolicy(s: Store, cfg: Config, k: PolicyKey, faults: set<Call>): Store
    requires k in s.policies
  {
    PolicyController.ReconcilePolicyDeletion(s, cfg, k, faults).0
  }

  function Apply(m: Machine, cfg: Config, step: Step): Machine
    requires Enabled(m, cfg, step)
  {
    var s := m.store;
    match step
    case CreatePolicy(k, spec, finalizers) => m.(store := AfterCreatePolicy(s, cfg, k, spec, finalizers))
    case UpdatePolicy(k, spec, finalizers) => m.(store := AfterUpdatePolicy(s, cfg, k, spec, finalizers))
    case DeletePolicy(k) => m.(store := AfterDeletePolicy(s, k))
    case CreateServer(n, spec, finalizers) => m.(store := AfterCreateServer(s, n, spec, finalizers))
    case UpdateServer(n, spec, finalizers) => m.(store := AfterUpdateServer(s, n, spec, finalizers))
    case DeleteServer(n) => m.(store := AfterDeleteServer(s, n))
    case RestartRollout(n, template) => m.(store := AfterRestartRollout(s, n, template))
    case SyncReplicaSet(n, hash, revision) => m.(store := AfterSyncReplicaSet(s, n, hash, revision))
    case SyncRevision(n, hash) => m.(store := AfterSyncRevision(s, n, hash))
    case DeleteReplicaSet(hash) => m.(store := AfterDeleteReplicaSet(s, hash))
    case CreatePod(hash) => m.(store := AfterCreatePod(s, hash))
    case LoadPod(pod) => m.(store := AfterLoadPod(s, pod))
    case SetPodConditions(pod, conditions) => m.(store := AfterSetPodConditions(s, pod, conditions))
    case DeletePod(pod) => m.(store := AfterDeletePod(s, pod))
    case BeginServer(n, listed) => AfterBeginServer(m, n, listed)
    case ServerStage(n, freshCa, faults) => AfterServerStage(m, cfg, n, freshCa, faults)
    case EndServer(n, fail) => AfterEndServer(m, n, fail)
    case TearDownServer(n, listed, faults) => m.(store := AfterTearDownServer(s, n, listed, faults))
    case BeginPolicy(k, listed, faults) => AfterBeginPolicy(m, k, listed, faults)
    case PublishPolicy(k, faults) => AfterPublishPolicy(m, cfg, k, faults)
    case EndPolicy(k, faults) => AfterEndPolicy(m, k, faults)
    case FinalizePolicy(k, faults) => m.(store := AfterFinalizePolicy(s, cfg, k, faults))
    case Crash => Machine(s, map[], map[])
  }

  function AfterStage(run: ServerRun, root: Secret, ok: bool): ServerRun
    requires run.stage < STAGES
  {
    run.(stage := if ok then run.stage + 1 else run.stage, root := root,
         conditions := run.conditions[run.stage := ok], failed := !ok)
  }

  // ------------------------------------------------------------ pods as asked for

  function PodsOf(pods: map<nat, Pod>, n: string): set<nat> {
    set p | p in pods && pods[p].server == n
  }

  /**
   * Pods start only from a replica set of the server's present deployment, and never more than it asks for.  What holds
   * of every run needs no such rule: there a pod may start from any replica set at any time.
   */
  predicate AsAskedFor(s: Store, step: Step) {
    step.CreatePod? && step.hash in s.replicaSets ==>
      var r := s.replicaSets[step.hash];
      && r.server in s.deployments && r.owner == s.deployments[r.server].uid
      && |PodsOf(s.pods, r.server)| < s.deployments[r.server].replicas
  }

  // ---------------------------------------------------------------- assumptions

  /** The unique name a new policy would take is free. */
  ghost predicate NameIsFree(s: Store, k: PolicyKey) {
    forall k' :: k' in s.policies ==> UniqueName(k') != UniqueName(k)
  }

  /** A run of the server that has read its policies is yet to write the ConfigMap. */
  predicate YetToWriteConfigMap(runs: map<string, ServerRun>, n: string) {
    n in runs && runs[n].stage <= CONFIG_MAP_RECONCILED
  }

  /**
   * The name is not created again while a run is about to write a ConfigMap without it over one that still has it from
   * the policy's earlier life.
   */
  predicate NotUnderStaleRun(m: Machine, n: string, u: string) {
    && YetToWriteConfigMap(m.serverRuns, n) && n in m.store.configMaps && ConfigMaps.Serves(m.store.configMaps[n], u)
    ==> u in ConfigMaps.Names(m.serverRuns[n].job.policies)
  }

  /**
   * What users must keep to: no two policies share a unique name; `mutating` stays fixed; finalizers of objects under
   * deletion are left to the controller; no server is called "root-ca"; and no name is reused under a stale run.
   */
  ghost predicate Disciplined(m: Machine, cfg: Config, step: Step)
    requires Enabled(m, cfg, step)
  {
    var s := m.store;
    match step
    case CreatePolicy(k, spec, finalizers) =>
      NameIsFree(s, k) &&
      NotUnderStaleRun(m, Admission.AdmitPolicyCreate(cfg, spec, finalizers).spec.policyServer, UniqueName(k))
    case UpdatePolicy(k, spec, finalizers) =>
      && spec.mutating == s.policies[k].spec.mutating
      && (s.policies[k].deleting && Kubewarden in s.policies[k].finalizers ==> Kubewarden in finalizers)
    case CreateServer(n, _, _) => n != "root-ca"
    case UpdateServer(n, _, finalizers) =>
      s.servers[n].deleting && Kubewarden in s.servers[n].finalizers ==> Kubewarden in finalizers
    case _ => true
  }

  /** A run of the machine: `trace[i + 1]` is what `steps[i]` makes of `trace[i]`. */
  ghost predicate IsRun(cfg: Config, trace: seq<Machine>, steps: seq<Step>) {
    && |trace| == |steps| + 1 && trace[0] == INITIAL
    && forall i :: 0 <= i < |steps| ==> Enabled(trace[i], cfg, steps[i]) && Apply(trace[i], cfg, steps[i]) == trace[i + 1]
  }

  ghost predicate IsDisciplinedRun(cfg: Config, trace: seq<Machine>, steps: seq<Step>) {
    && IsRun(cfg, trace, steps)
    && forall i :: 0 <= i < |steps| ==> Disciplined(trace[i], cfg, steps[i])
  }
}
