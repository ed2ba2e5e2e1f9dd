/**
 * What holds in every state of a disciplined run.  Each invariant names the parts of the state it speaks about, so a step
 * that leaves those parts alone keeps it without further proof.
 */
module Invariants {
  import opened Common
  import opened Naming
  import opened Model
  import opened Effects
  import opened Protocol
  import ConfigMaps
  import Deployments
  import Secrets
  import PolicyController

  // ------------------------------------------- finalizers hold what is depended on

  /** The policy exists and the controller's finalizer is on it. */
  predicate HoldsPolicy(policies: map<PolicyKey, Policy>, k: PolicyKey) {
    k in policies && Kubewarden in policies[k].finalizers
  }

  predicate HoldsServer(servers: map<string, PolicyServer>, n: string) {
    n in servers && Kubewarden in servers[n].finalizers
  }

  predicate IsLive(policies: map<PolicyKey, Policy>, k: PolicyKey) {
    k in policies && !policies[k].deleting
  }

  ghost predicate LivePoliciesHeld(policies: map<PolicyKey, Policy>) {
    forall k :: IsLive(policies, k) ==> HoldsPolicy(policies, k)
  }

  ghost predicate LiveServersHeld(servers: map<string, PolicyServer>) {
    && "root-ca" !in servers
    && forall n :: n in servers && !servers[n].deleting ==> HoldsServer(servers, n)
  }

  ghost predicate ServerRunsHeld(runs: map<string, ServerRun>, servers: map<string, PolicyServer>) {
    forall n :: n in runs ==> HoldsServer(servers, n) && runs[n].job.name == n && runs[n].stage <= STAGES
  }

  ghost predicate PolicyRunsHeld(
    runs: map<PolicyKey, PolicyController.PolicyRun>, policies: map<PolicyKey, Policy>) {
    forall k :: k in runs ==>
      && HoldsPolicy(policies, k)
      && runs[k].policy.spec.mutating == policies[k].spec.mutating
      && runs[k].policy.spec.policyServer == policies[k].spec.policyServer
      && (runs[k].todo.Some? ==> runs[k].todo.value.serviceName == NameWithPrefix(policies[k].spec.policyServer))
  }

  /** Deployment, ConfigMap, Service and serving secret exist only while their server is held. */
  ghost predicate OwnedHeld(
    servers: map<string, PolicyServer>, deployments: set<string>, configMaps: set<string>, services: set<string>,
    secrets: set<string>)
  {
    && (forall n :: n in deployments ==> HoldsServer(servers, n))
    && (forall n :: n in configMaps ==> HoldsServer(servers, n))
    && (forall n :: n in services ==> HoldsServer(servers, n))
    && (forall n :: n != "root-ca" && NameWithPrefix(n) in secrets ==> HoldsServer(servers, n))
  }

  // -------------------------------------------------------------- no orphan webhooks

  ghost predicate NamesDistinct(policies: map<PolicyKey, Policy>) {
    forall a, b :: a in policies && b in policies && UniqueName(a) == UniqueName(b) ==> a == b
  }

  /** The webhooks send their requests to the policy's own path at the Service of its own server. */
  predicate Addressed(c: WebhookConfiguration, k: PolicyKey, n: string) {
    forall w :: w in c.webhooks ==> w.serviceName == NameWithPrefix(n) && w.path == "/validate/" + UniqueName(k)
  }

  /** `k` is held, of that name and kind, and the webhook configuration is its own. */
  predicate Backs(k: PolicyKey, u: string, c: WebhookConfiguration, mutating: bool, policies: map<PolicyKey, Policy>) {
    && HoldsPolicy(policies, k) && UniqueName(k) == u && policies[k].spec.mutating == mutating
    && Addressed(c, k, policies[k].spec.policyServer)
  }

  /** Every webhook configuration has a policy of its name and kind whose finalizer is still there. */
  ghost predicate Backed(hooks: map<string, WebhookConfiguration>, mutating: bool, policies: map<PolicyKey, Policy>) {
    forall u :: u in hooks ==> exists k :: Backs(k, u, hooks[u], mutating, policies)
  }

  // -------------------------------------------------------------- resource versions

  /** A version seen for server `n`: handed out already, and no newer than the ConfigMap, if that exists. */
  predicate Seen(v: nat, n: string, rv: nat, configMaps: map<string, ConfigMap>) {
    v <= rv && (n in configMaps ==> v <= configMaps[n].rv)
  }

  predicate GoodDeployment(d: Deployment, n: string, rv: nat, configMaps: map<string, ConfigMap>) {
    && d.configVersion == Some(d.template.configVersion) && Seen(d.template.configVersion, n, rv, configMaps)
    && d.serverLabel == n && d.template.serverLabel == n && d.uid <= rv
    && Deployments.ImageOf(d.template.containers, NameWithPrefix(n)).Some?
  }

  predicate GoodReplicaSet(r: ReplicaSet, hash: nat, rv: nat, configMaps: map<string, ConfigMap>) {
    && r.configVersion == Some(r.template.configVersion) && Seen(r.template.configVersion, r.server, rv, configMaps)
    && r.template.serverLabel == r.server && hash <= rv && r.owner <= rv
  }

  /** A pod loaded at its own version or a later one, and at the current version it loaded what is there now. */
  predicate GoodPod(
    p: Pod, rv: nat, configMaps: map<string, ConfigMap>, replicaSets: map<nat, ReplicaSet>) {
    && p.hash <= rv && Seen(p.configVersion, p.server, rv, configMaps)
    && (PolicyController.IsPodReady(p.conditions) ==> p.loaded.Some?)
    && (p.hash in replicaSets ==> p.configVersion == replicaSets[p.hash].template.configVersion)
    && (p.loaded.Some? ==>
          && p.configVersion <= p.loaded.value.version
          && Seen(p.loaded.value.version, p.server, rv, configMaps)
          && (p.server in configMaps && p.loaded.value.version == configMaps[p.server].rv ==>
                ConfigMaps.ServedPolicies(configMaps[p.server]) == Ok(p.loaded.value.policies)))
  }

  ghost predicate VersionsHold(
    rv: nat, configMaps: map<string, ConfigMap>, deployments: map<string, Deployment>,
    replicaSets: map<nat, ReplicaSet>, pods: map<nat, Pod>)
  {
    && (forall n :: n in configMaps ==> configMaps[n].rv <= rv && ConfigMaps.Decodes(configMaps[n]))
    && (forall n :: n in deployments ==> GoodDeployment(deployments[n], n, rv, configMaps))
    && (forall h :: h in replicaSets ==> GoodReplicaSet(replicaSets[h], h, rv, configMaps))
    && (forall p :: p in pods ==> p <= rv && GoodPod(pods[p], rv, configMaps, replicaSets))
  }

  // ------------------------------------------------------------------------- routing

  /** A webhook sends requests to the policy, or a run is about to make one. */
  predicate Routed(
    k: PolicyKey, mutating: map<string, WebhookConfiguration>, validating: map<string, WebhookConfiguration>,
    runs: map<PolicyKey, PolicyController.PolicyRun>)
  {
    UniqueName(k) in mutating || UniqueName(k) in validating || (k in runs && runs[k].todo.Some?)
  }

  predicate Configured(u: string, n: string, configMaps: map<string, ConfigMap>) {
    n in configMaps && ConfigMaps.Serves(configMaps[n], u)
  }

  /** Every pod of server `n`, of any revision, ready or not, that has read a configuration knows the policy `u`. */
  ghost predicate KnownToPods(u: string, n: string, pods: map<nat, Pod>) {
    forall p :: p in pods && pods[p].server == n && pods[p].loaded.Some? ==> u in pods[p].loaded.value.policies
  }

  ghost predicate RoutingHolds(
    policies: map<PolicyKey, Policy>, mutating: map<string, WebhookConfiguration>,
    validating: map<string, WebhookConfiguration>, runs: map<PolicyKey, PolicyController.PolicyRun>,
    configMaps: map<string, ConfigMap>, pods: map<nat, Pod>)
  {
    forall k :: IsLive(policies, k) && Routed(k, mutating, validating, runs) ==>
      && Configured(UniqueName(k), policies[k].spec.policyServer, configMaps)
      && KnownToPods(UniqueName(k), policies[k].spec.policyServer, pods)
  }

  /** A run about to write the ConfigMap will keep every live policy that is in it. */
  ghost predicate SnapshotsHold(
    policies: map<PolicyKey, Policy>, configMaps: map<string, ConfigMap>, runs: map<string, ServerRun>)
  {
    forall k :: IsLive(policies, k) && Configured(UniqueName(k), policies[k].spec.policyServer, configMaps) &&
                YetToWriteConfigMap(runs, policies[k].spec.policyServer) ==>
      UniqueName(k) in ConfigMaps.Names(runs[policies[k].spec.policyServer].job.policies)
  }

  // --------------------------------------------------------------------------- trust

  predicate TrustsRoot(hook: Webhook, secrets: map<string, Secret>) {
    ROOT_SECRET in secrets && IsRoot(secrets[ROOT_SECRET]) && hook.caBundle == Some(CaPem(CaOf(secrets[ROOT_SECRET])))
  }

  ghost predicate SecretsTrusted(secrets: map<string, Secret>) {
    && (ROOT_SECRET in secrets ==> IsRoot(secrets[ROOT_SECRET]))
    && forall n :: n != "root-ca" && NameWithPrefix(n) in secrets ==>
         ROOT_SECRET in secrets && IsRoot(secrets[ROOT_SECRET]) &&
         Secrets.SignedBy(secrets[NameWithPrefix(n)], CaOf(secrets[ROOT_SECRET]))
  }

  ghost predicate HooksTrusted(hooks: map<string, WebhookConfiguration>, secrets: map<string, Secret>) {
    forall u, w :: u in hooks && w in hooks[u].webhooks ==> TrustsRoot(w, secrets)
  }

  /** The root secret that runs carry in memory is the stored one. */
  ghost predicate RunsTrusted(
    serverRuns: map<string, ServerRun>, policyRuns: map<PolicyKey, PolicyController.PolicyRun>,
    secrets: map<string, Secret>)
  {
    && (forall n :: n in serverRuns && serverRuns[n].stage > CA_ROOT_SECRET_RECONCILED ==>
          ROOT_SECRET in secrets && serverRuns[n].root == secrets[ROOT_SECRET])
    && (forall k :: k in policyRuns && policyRuns[k].todo.Some? ==>
          ROOT_SECRET in secrets && policyRuns[k].todo.value.root == secrets[ROOT_SECRET])
  }

  // ------------------------------------------------------------ the latest replica set

  predicate SameGeneration(a: ReplicaSet, b: ReplicaSet) {
    a.server == b.server && a.configVersion == b.configVersion && a.revision == b.revision
  }

  /** Replica sets of one server never share both configuration version and revision. */
  ghost predicate LatestHolds(deployments: map<string, Deployment>, replicaSets: map<nat, ReplicaSet>) {
    && (forall a, b :: a in replicaSets && b in replicaSets && SameGeneration(replicaSets[a], replicaSets[b]) ==> a == b)
    && (forall h :: h in replicaSets ==> replicaSets[h].revision.Some?)
    && (forall h :: h in replicaSets && replicaSets[h].server in deployments &&
                    replicaSets[h].owner != deployments[replicaSets[h].server].uid ==>
          replicaSets[h].template.configVersion < deployments[replicaSets[h].server].template.configVersion)
  }

  /** The server is live, or a run that began when it was is not over. */
  predicate MayDeploy(n: string, servers: map<string, PolicyServer>, runs: map<string, ServerRun>) {
    (n in servers && !servers[n].deleting) || n in runs
  }

  /** Before a deployment is created anew, all replica sets left from earlier ones are older than the ConfigMap. */
  ghost predicate LeftoversOld(
    servers: map<string, PolicyServer>, runs: map<string, ServerRun>, configMaps: map<string, ConfigMap>,
    deployments: map<string, Deployment>, replicaSets: map<nat, ReplicaSet>)
  {
    forall h :: h in replicaSets && replicaSets[h].server in configMaps && replicaSets[h].server !in deployments &&
                MayDeploy(replicaSets[h].server, servers, runs) ==>
      replicaSets[h].template.configVersion < configMaps[replicaSets[h].server].rv
  }

  // -------------------------------------------------------------------------- status

  predicate HasWebhook(
    u: string, isMutating: bool, mutating: map<string, WebhookConfiguration>,
    validating: map<string, WebhookConfiguration>)
  {
    u in (if isMutating then mutating else validating)
  }

  /** Active means routed; the condition PolicyActive means active and uniquely reachable as well. */
  predicate GoodStatus(
    k: PolicyKey, p: Policy, mutating: map<string, WebhookConfiguration>,
    validating: map<string, WebhookConfiguration>)
  {
    && (p.status.state == Active ==>
          p.spec.policyServer != "" && HasWebhook(UniqueName(k), p.spec.mutating, mutating, validating))
    && (p.status.conditions.active == Some(true) ==>
          p.status.state == Active && p.status.conditions.reachable == Some(true))
  }

  ghost predicate StatusHolds(
    policies: map<PolicyKey, Policy>, mutating: map<string, WebhookConfiguration>,
    validating: map<string, WebhookConfiguration>)
  {
    forall k :: IsLive(policies, k) ==> GoodStatus(k, policies[k], mutating, validating)
  }

  /** A run's policy has a good status too, and never falls from active back to pending. */
  ghost predicate RunStatusHolds(
    policies: map<PolicyKey, Policy>, runs: map<PolicyKey, PolicyController.PolicyRun>,
    mutating: map<string, WebhookConfiguration>, validating: map<string, WebhookConfiguration>)
  {
    forall k :: k in runs && IsLive(policies, k) ==>
      && GoodStatus(k, runs[k].policy, mutating, validating)
      && (policies[k].status.state == Active ==> runs[k].policy.status.state in {Active, Scheduled})
      && (runs[k].todo.Some? ==>
            && runs[k].policy.status.conditions.reachable == Some(true)
            && runs[k].policy.spec.policyServer != "")
  }

  // ------------------------------------------------------------------------ together

  ghost predicate Held(m: Machine) {
    var s := m.store;
    && LivePoliciesHeld(s.policies) && LiveServersHeld(s.servers)
    && ServerRunsHeld(m.serverRuns, s.servers) && PolicyRunsHeld(m.policyRuns, s.policies)
    && OwnedHeld(s.servers, s.deployments.Keys, s.configMaps.Keys, s.services, s.secrets.Keys)
  }

  ghost predicate NoOrphans(m: Machine) {
    var s := m.store;
    NamesDistinct(s.policies) && Backed(s.mutating, true, s.policies) && Backed(s.validating, false, s.policies)
  }

  ghost predicate Versioned(m: Machine) {
    VersionsHold(m.store.rv, m.store.configMaps, m.store.deployments, m.store.replicaSets, m.store.pods)
  }

  ghost predicate RoutedSafely(m: Machine) {
    var s := m.store;
    && RoutingHolds(s.policies, s.mutating, s.validating, m.policyRuns, s.configMaps, s.pods)
    && SnapshotsHold(s.policies, s.configMaps, m.serverRuns)
  }

  ghost predicate Trusted(m: Machine) {
    var s := m.store;
    && SecretsTrusted(s.secrets) && HooksTrusted(s.mutating, s.secrets) && HooksTrusted(s.validating, s.secrets)
    && RunsTrusted(m.serverRuns, m.policyRuns, s.secrets)
  }

  ghost predicate LatestUnique(m: Machine) {
    var s := m.store;
    && LatestHolds(s.deployments, s.replicaSets)
    && LeftoversOld(s.servers, m.serverRuns, s.configMaps, s.deployments, s.replicaSets)
  }

  ghost predicate StatusTrue(m: Machine) {
    var s := m.store;
    StatusHolds(s.policies, s.mutating, s.validating) &&
    RunStatusHolds(s.policies, m.policyRuns, s.mutating, s.validating)
  }

  ghost predicate Invariant(m: Machine) {
    && Held(m) && NoOrphans(m) && Versioned(m) && RoutedSafely(m) && Trusted(m) && LatestUnique(m) && StatusTrue(m)
  }

  lemma InitiallyInvariant()
    ensures Invariant(INITIAL)
  {
  }
}
