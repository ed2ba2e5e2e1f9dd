/** Every kind of step of a disciplined run keeps the invariant. */
module Steps {
  import opened Common
  import opened Naming
  import opened Model
  import opened Effects
  import opened Protocol
  import opened Invariants
  import Admission
  import Api
  import ConfigMaps
  import Deployments
  import Pipeline
  import PolicyChanges
  import PolicyController
  import PolicyRunChanges
  import RolloutChanges
  import Secrets
  import ServerChanges
  import StageChanges
  import Webhooks

  // ----------------------------------------------------------------------------- users

  lemma EvolvedPolicies(m: Machine, policies': map<PolicyKey, Policy>)
    requires Invariant(m) && PolicyChanges.Evolves(m.store.policies, policies')
    ensures Invariant(m.(store := m.store.(policies := policies')))
  {
    hide UniqueName;
    hide NameWithPrefix;
    hide PolicyChanges.Evolves;
    var s := m.store;
    PolicyChanges.EvolvesKeepsHeld(s.policies, policies', m.policyRuns);
    PolicyChanges.EvolvesKeepsBacked(s.policies, policies', s.mutating, true);
    PolicyChanges.EvolvesKeepsBacked(s.policies, policies', s.validating, false);
    PolicyChanges.EvolvesKeepsRouting(
      s.policies, policies', s.mutating, s.validating, m.policyRuns, s.configMaps, s.pods);
    PolicyChanges.EvolvesKeepsSnapshots(s.policies, policies', s.configMaps, m.serverRuns);
    PolicyChanges.EvolvesKeepsStatus(s.policies, policies', m.policyRuns, s.mutating, s.validating);
  }

  lemma AddedPolicy(m: Machine, policies': map<PolicyKey, Policy>, k: PolicyKey)
    requires Invariant(m) && PolicyChanges.Adds(m.store.policies, policies', k)
    requires NotUnderStaleRun(m, policies'[k].spec.policyServer, UniqueName(k))
    ensures Invariant(m.(store := m.store.(policies := policies')))
  {
    hide UniqueName;
    hide NameWithPrefix;
    hide PolicyChanges.Adds;
    var s := m.store;
    PolicyChanges.AddKeepsHeld(s.policies, policies', k, m.policyRuns);
    PolicyChanges.AddKeepsBacked(s.policies, policies', k, s.mutating, true);
    PolicyChanges.AddKeepsBacked(s.policies, policies', k, s.validating, false);
    PolicyChanges.AddKeepsRouting(
      s.policies, policies', k, s.mutating, s.validating, m.policyRuns, s.configMaps, s.pods);
    PolicyChanges.AddKeepsSnapshots(s.policies, policies', k, s.configMaps, m.serverRuns);
    PolicyChanges.AddKeepsStatus(s.policies, policies', k, m.policyRuns, s.mutating, s.validating);
  }

  lemma CreatePolicyKeeps(m: Machine, cfg: Config, k: PolicyKey, spec: PolicySpec, finalizers: set<Finalizer>)
    requires Invariant(m) && k !in m.store.policies && NameIsFree(m.store, k)
    requires NotUnderStaleRun(m, Admission.AdmitPolicyCreate(cfg, spec, finalizers).spec.policyServer, UniqueName(k))
    ensures Invariant(m.(store := AfterCreatePolicy(m.store, cfg, k, spec, finalizers)))
  {
    hide UniqueName;
    hide Invariant;
    AddedPolicy(m, AfterCreatePolicy(m.store, cfg, k, spec, finalizers).policies, k);
  }

  lemma UpdatePolicyKeeps(m: Machine, cfg: Config, k: PolicyKey, spec: PolicySpec, finalizers: set<Finalizer>)
    requires Invariant(m) && k in m.store.policies
    requires Admission.AdmitPolicyUpdate(cfg, m.store.policies[k], spec, finalizers).Some?
    requires spec.mutating == m.store.policies[k].spec.mutating
    requires m.store.policies[k].deleting && Kubewarden in m.store.policies[k].finalizers ==> Kubewarden in finalizers
    ensures Invariant(m.(store := AfterUpdatePolicy(m.store, cfg, k, spec, finalizers)))
  {
    assert LivePoliciesHeld(m.store.policies);
    hide Invariant;
    PolicyChanges.UpdateEvolves(m.store, cfg, k, spec, finalizers);
    EvolvedPolicies(m, AfterUpdatePolicy(m.store, cfg, k, spec, finalizers).policies);
  }

  lemma DeletePolicyKeeps(m: Machine, k: PolicyKey)
    requires Invariant(m) && k in m.store.policies
    ensures Invariant(m.(store := AfterDeletePolicy(m.store, k)))
  {
    assert LivePoliciesHeld(m.store.policies);
    hide Invariant;
    PolicyChanges.DeleteEvolves(m.store, k);
    EvolvedPolicies(m, AfterDeletePolicy(m.store, k).policies);
  }

  lemma KeptServers(m: Machine, servers': map<string, PolicyServer>)
    requires Invariant(m) && ServerChanges.ServersKept(m.store.servers, servers')
    ensures Invariant(m.(store := m.store.(servers := servers')))
  {
    hide UniqueName;
    hide NameWithPrefix;
    hide HoldsServer;
    var s := m.store;
    ServerChanges.ServersKeptKeepsHeld(
      s.servers, servers', m.serverRuns, s.deployments.Keys, s.configMaps.Keys, s.services, s.secrets.Keys);
    ServerChanges.ServersKeptKeepsLeftovers(
      s.servers, servers', m.serverRuns, s.configMaps, s.deployments, s.replicaSets, s.services, s.secrets.Keys);
  }

  lemma CreateServerKeeps(m: Machine, n: string, spec: ServerSpec, finalizers: set<Finalizer>)
    requires Invariant(m) && n !in m.store.servers && n != "root-ca"
    ensures Invariant(m.(store := AfterCreateServer(m.store, n, spec, finalizers)))
  {
    assert LiveServersHeld(m.store.servers);
    hide Invariant;
    ServerChanges.CreateServerKeeps(m.store, n, spec, finalizers);
    KeptServers(m, AfterCreateServer(m.store, n, spec, finalizers).servers);
  }

  lemma UpdateServerKeeps(m: Machine, n: string, spec: ServerSpec, finalizers: set<Finalizer>)
    requires Invariant(m) && n in m.store.servers
    requires m.store.servers[n].deleting && Kubewarden in m.store.servers[n].finalizers ==> Kubewarden in finalizers
    ensures Invariant(m.(store := AfterUpdateServer(m.store, n, spec, finalizers)))
  {
    assert LiveServersHeld(m.store.servers);
    hide Invariant;
    ServerChanges.UpdateServerKeeps(m.store, n, spec, finalizers);
    KeptServers(m, AfterUpdateServer(m.store, n, spec, finalizers).servers);
  }

  lemma DeleteServerKeeps(m: Machine, n: string)
    requires Invariant(m) && n in m.store.servers
    ensures Invariant(m.(store := AfterDeleteServer(m.store, n)))
  {
    assert LiveServersHeld(m.store.servers);
    hide Invariant;
    ServerChanges.DeleteServerKeeps(m.store, n);
    KeptServers(m, AfterDeleteServer(m.store, n).servers);
  }

  // -------------------------------------------- the deployment controller, replica sets, pods

  lemma RestartRolloutKeeps(m: Machine, n: string, template: Template)
    requires Invariant(m) && n in m.store.deployments
    requires template == m.store.deployments[n].template.(annotations := template.annotations)
    ensures Invariant(m.(store := AfterRestartRollout(m.store, n, template)))
  {
    hide Invariant;
    PutDeploymentKeeps(m, n, m.store.deployments[n].(rv := m.store.rv + 1, template := template));
  }

  lemma SyncRevisionKeeps(m: Machine, n: string, hash: nat)
    requires Invariant(m) && n in m.store.deployments && hash in m.store.replicaSets
    ensures Invariant(m.(store := AfterSyncRevision(m.store, n, hash)))
  {
    hide Invariant;
    PutDeploymentKeeps(m, n, m.store.deployments[n].(
      rv := m.store.rv + 1, revision := m.store.replicaSets[hash].revision));
  }

  /** The same deployment, asking for the same configuration version. */
  lemma PutDeploymentKeeps(m: Machine, n: string, d: Deployment)
    requires Invariant(m) && n in m.store.deployments
    requires d.uid == m.store.deployments[n].uid && d.configVersion == m.store.deployments[n].configVersion
    requires d.serverLabel == m.store.deployments[n].serverLabel
    requires d.template.configVersion == m.store.deployments[n].template.configVersion
    requires d.template.serverLabel == m.store.deployments[n].template.serverLabel
    requires d.template.containers == m.store.deployments[n].template.containers
    ensures Invariant(m.(store := m.store.(rv := m.store.rv + 1, deployments := m.store.deployments[n := d])))
  {
    hide UniqueName;
    hide NameWithPrefix;
    hide HoldsServer;
    hide SameGeneration;
    hide GoodPod;
    hide GoodReplicaSet;
    var s := m.store;
    RolloutChanges.BumpKeepsVersions(s.rv, s.configMaps, s.deployments, s.replicaSets, s.pods);
    RolloutChanges.PutDeploymentKeepsVersions(s.rv + 1, s.configMaps, s.deployments, n, d, s.replicaSets, s.pods);
    RolloutChanges.PutDeploymentKeepsLatest(s.deployments, s.replicaSets, n, d);
    assert s.deployments[n := d].Keys == s.deployments.Keys;
  }

  lemma HashesSeen(s: Store)
    requires VersionsHold(s.rv, s.configMaps, s.deployments, s.replicaSets, s.pods)
    ensures forall p :: p in s.pods ==> s.pods[p].hash <= s.rv
    ensures forall h :: h in s.replicaSets ==> h <= s.rv
  {
    hide ConfigMaps.ServedPolicies;
    forall p | p in s.pods
      ensures s.pods[p].hash <= s.rv
    {
      assert GoodPod(s.pods[p], s.rv, s.configMaps, s.replicaSets);
    }
    forall h | h in s.replicaSets
      ensures h <= s.rv
    {
      assert GoodReplicaSet(s.replicaSets[h], h, s.rv, s.configMaps);
    }
  }

  lemma SyncedKeepsVersions(s: Store, n: string, hash: nat, revision: nat)
    requires VersionsHold(s.rv, s.configMaps, s.deployments, s.replicaSets, s.pods)
    requires n in s.deployments && CanSync(s, s.deployments[n], hash, revision)
    ensures var s' := AfterSyncReplicaSet(s, n, hash, revision);
            VersionsHold(s'.rv, s'.configMaps, s'.deployments, s'.replicaSets, s'.pods)
  {
    hide ConfigMaps.ServedPolicies;
    var d := s.deployments[n];
    var r := ReplicaSet(d.template.serverLabel, d.uid, d.configVersion, Some(revision), d.template);
    assert GoodDeployment(d, n, s.rv, s.configMaps);
    HashesSeen(s);
    hide VersionsHold;
    hide GoodPod;
    assert GoodReplicaSet(r, hash, s.rv + 1, s.configMaps);
    RolloutChanges.BumpKeepsVersions(s.rv, s.configMaps, s.deployments, s.replicaSets, s.pods);
    RolloutChanges.PutReplicaSetKeepsVersions(
      s.rv + 1, s.configMaps, s.deployments, s.replicaSets, hash, r, s.pods);
  }

  lemma SyncedKeepsLatest(s: Store, n: string, hash: nat, revision: nat)
    requires VersionsHold(s.rv, s.configMaps, s.deployments, s.replicaSets, s.pods)
    requires LatestHolds(s.deployments, s.replicaSets)
    requires n in s.deployments && CanSync(s, s.deployments[n], hash, revision)
    ensures var s' := AfterSyncReplicaSet(s, n, hash, revision); LatestHolds(s'.deployments, s'.replicaSets)
  {
    hide GoodPod;
    hide SameGeneration;
    var d := s.deployments[n];
    var r := ReplicaSet(d.template.serverLabel, d.uid, d.configVersion, Some(revision), d.template);
    assert GoodDeployment(d, n, s.rv, s.configMaps);
    forall h | h in s.replicaSets
      ensures s.replicaSets[h].configVersion == Some(s.replicaSets[h].template.configVersion)
    {
      assert GoodReplicaSet(s.replicaSets[h], h, s.rv, s.configMaps);
    }
    hide LatestHolds;
    RolloutChanges.SyncKeepsLatest(s.deployments, s.replicaSets, n, hash, r);
  }

  lemma SyncReplicaSetKeeps(m: Machine, n: string, hash: nat, revision: nat)
    requires Invariant(m) && n in m.store.deployments && CanSync(m.store, m.store.deployments[n], hash, revision)
    ensures Invariant(m.(store := AfterSyncReplicaSet(m.store, n, hash, revision)))
  {
    SyncedKeepsVersions(m.store, n, hash, revision);
    SyncedKeepsLatest(m.store, n, hash, revision);
    assert GoodDeployment(m.store.deployments[n], n, m.store.rv, m.store.configMaps);
    hide UniqueName;
    hide NameWithPrefix;
    hide HoldsServer;
    hide VersionsHold;
    hide LatestHolds;
    hide CanSync;
  }

  lemma DeleteReplicaSetKeeps(m: Machine, hash: nat)
    requires Invariant(m)
    ensures Invariant(m.(store := AfterDeleteReplicaSet(m.store, hash)))
  {
    hide UniqueName;
    hide NameWithPrefix;
    var s := m.store;
    RolloutChanges.RemoveReplicaSetKeepsVersions(s.rv, s.configMaps, s.deployments, s.replicaSets, hash, s.pods);
    RolloutChanges.RemoveReplicaSetKeepsLatest(s.deployments, s.replicaSets, hash);
  }

  /** A pod that is good, and has loaded nothing or what its server's ConfigMap holds. */
  lemma PutPodKeeps(m: Machine, rv': nat, id: nat, p: Pod)
    requires Invariant(m) && rv' in {m.store.rv, m.store.rv + 1} && id <= rv'
    requires GoodPod(p, rv', m.store.configMaps, m.store.replicaSets)
    requires p.loaded.Some? ==>
               || (id in m.store.pods && m.store.pods[id].server == p.server && m.store.pods[id].loaded == p.loaded)
               || (p.server in m.store.configMaps &&
                   ConfigMaps.ServedPolicies(m.store.configMaps[p.server]) == Ok(p.loaded.value.policies))
    ensures Invariant(m.(store := m.store.(rv := rv', pods := m.store.pods[id := p])))
  {
    hide UniqueName;
    hide NameWithPrefix;
    hide GoodPod;
    hide GoodReplicaSet;
    hide GoodDeployment;
    hide ConfigMaps.ServedPolicies;
    var s := m.store;
    RolloutChanges.BumpKeepsVersions(s.rv, s.configMaps, s.deployments, s.replicaSets, s.pods);
    RolloutChanges.PutPodKeepsVersions(rv', s.configMaps, s.deployments, s.replicaSets, s.pods, id, p);
    RolloutChanges.PutPodKeepsRouting(
      s.policies, s.mutating, s.validating, m.policyRuns, s.configMaps, s.pods, id, p);
  }

  lemma CreatePodKeeps(m: Machine, hash: nat)
    requires Invariant(m) && hash in m.store.replicaSets
    ensures Invariant(m.(store := AfterCreatePod(m.store, hash)))
  {
    hide Held;
    hide RoutedSafely;
    hide LatestUnique;
    hide StatusTrue;
    var s := m.store;
    var r := s.replicaSets[hash];
    assert GoodReplicaSet(r, hash, s.rv, s.configMaps);
    hide Invariant;
    hide ConfigMaps.ServedPolicies;
    PutPodKeeps(m, s.rv + 1, s.rv + 1, Pod(r.server, hash, r.template.configVersion, [], None));
  }

  lemma LoadPodKeeps(m: Machine, pod: nat)
    requires Invariant(m) && pod in m.store.pods && m.store.pods[pod].server in m.store.configMaps
    requires ConfigMaps.ServedPolicies(m.store.configMaps[m.store.pods[pod].server]).Ok?
    ensures Invariant(m.(store := AfterLoadPod(m.store, pod)))
  {
    hide Held;
    hide RoutedSafely;
    hide LatestUnique;
    hide StatusTrue;
    var s := m.store;
    assert pod <= s.rv && GoodPod(s.pods[pod], s.rv, s.configMaps, s.replicaSets);
    assert s.configMaps[s.pods[pod].server].rv <= s.rv;
    hide Invariant;
    hide ConfigMaps.ServedPolicies;
    PutPodKeeps(m, s.rv, pod, AfterLoadPod(s, pod).pods[pod]);
  }

  lemma SetPodConditionsKeeps(m: Machine, pod: nat, conditions: seq<PodCondition>)
    requires Invariant(m) && pod in m.store.pods
    requires PolicyController.IsPodReady(conditions) ==> m.store.pods[pod].loaded.Some?
    ensures Invariant(m.(store := AfterSetPodConditions(m.store, pod, conditions)))
  {
    hide Held;
    hide RoutedSafely;
    hide LatestUnique;
    hide StatusTrue;
    var s := m.store;
    assert GoodPod(s.pods[pod], s.rv, s.configMaps, s.replicaSets);
    hide Invariant;
    hide ConfigMaps.ServedPolicies;
    PutPodKeeps(m, s.rv, pod, s.pods[pod].(conditions := conditions));
  }

  lemma DeletePodKeeps(m: Machine, pod: nat)
    requires Invariant(m)
    ensures Invariant(m.(store := AfterDeletePod(m.store, pod)))
  {
    hide UniqueName;
    hide NameWithPrefix;
    var s := m.store;
    RolloutChanges.RemovePodKeepsVersions(s.rv, s.configMaps, s.deployments, s.replicaSets, s.pods, pod);
    RolloutChanges.RemovePodKeepsRouting(
      s.policies, s.mutating, s.validating, m.policyRuns, s.configMaps, s.pods, pod);
  }

  // ---------------------------------------------------------- the policy server reconciler

  /** A run that has just begun, with a snapshot of all live policies of its server. */
  lemma NewRun(m: Machine, n: string, run: ServerRun)
    requires Invariant(m) && n in m.store.servers && !m.store.servers[n].deleting
    requires run.job.name == n && run.stage == 0
    requires forall k :: IsLive(m.store.policies, k) && m.store.policies[k].spec.policyServer == n ==>
               UniqueName(k) in ConfigMaps.Names(run.job.policies)
    ensures Invariant(m.(serverRuns := m.serverRuns[n := run]))
  {
    hide UniqueName;
    hide NameWithPrefix;
    hide ConfigMaps.Names;
    hide NamesDistinct;
    hide Backed;
    hide VersionsHold;
    hide StatusHolds;
    hide RunStatusHolds;
    hide RoutingHolds;
    hide SnapshotsHold;
    hide OwnedHeld;
    hide LatestHolds;
    ServerChanges.NewRunKeepsSnapshots(m.serverRuns, n, run, m.store.policies, m.store.configMaps);
  }

  lemma BeginServerKeeps(m: Machine, n: string, listed: seq<PolicyKey>)
    requires Invariant(m) && n in m.store.servers && !m.store.servers[n].deleting
    requires Enumerates(listed, Pipeline.BoundKeys(m.store, n))
    ensures Invariant(AfterBeginServer(m, n, listed))
  {
    hide UniqueName;
    hide ConfigMaps.Names;
    hide Pipeline.LiveOnly;
    hide Invariant;
    var s := m.store;
    var run := AfterBeginServer(m, n, listed).serverRuns[n];
    forall k | IsLive(s.policies, k) && s.policies[k].spec.policyServer == n
      ensures UniqueName(k) in ConfigMaps.Names(run.job.policies)
    {
      ServerChanges.SnapshotIsComplete(s, n, listed, k);
    }
    NewRun(m, n, run);
  }

  lemma EndedRuns(m: Machine, serverRuns': map<string, ServerRun>)
    requires Invariant(m) && ServerChanges.RunsEnd(m.serverRuns, serverRuns')
    ensures Invariant(m.(serverRuns := serverRuns'))
  {
    hide UniqueName;
    hide NameWithPrefix;
    var s := m.store;
    ServerChanges.RunsEndKeepsHeld(m.serverRuns, serverRuns', s.servers);
    ServerChanges.RunsEndKeepsSnapshots(m.serverRuns, serverRuns', s.policies, s.configMaps);
    ServerChanges.RunsEndKeepsTrusted(m.serverRuns, serverRuns', m.policyRuns, s.secrets);
    ServerChanges.RunsEndKeepsLeftovers(
      m.serverRuns, serverRuns', s.servers, s.configMaps, s.deployments, s.replicaSets);
  }

  lemma EndServerKeeps(m: Machine, n: string, fail: bool)
    requires Invariant(m) && n in m.serverRuns
    ensures Invariant(AfterEndServer(m, n, fail))
  {
    var m' := AfterEndServer(m, n, fail);
    assert LiveServersHeld(m.store.servers);
    hide Invariant;
    ServerChanges.StatusUpdateKeeps(m.store, n, m.serverRuns[n].conditions, fail);
    KeptServers(m, m'.store.servers);
    EndedRuns(m.(store := m'.store), m'.serverRuns);
  }

  lemma MovedRun(m: Machine, n: string, run': ServerRun)
    requires Invariant(m) && n in m.serverRuns
    requires run'.job == m.serverRuns[n].job && m.serverRuns[n].stage <= run'.stage <= STAGES
    requires run'.stage > CA_ROOT_SECRET_RECONCILED ==>
               ROOT_SECRET in m.store.secrets && run'.root == m.store.secrets[ROOT_SECRET]
    ensures Invariant(m.(serverRuns := m.serverRuns[n := run']))
  {
    hide UniqueName;
    hide NameWithPrefix;
    var s, serverRuns' := m.store, m.serverRuns[n := run'];
    StageChanges.RunMovesKeepsHeld(m.serverRuns, serverRuns', n, s.servers);
    StageChanges.RunMovesKeepsTrusted(m.serverRuns, serverRuns', n, m.policyRuns, s.secrets);
    StageChanges.RunMovesKeepsSnapshots(m.serverRuns, serverRuns', n, s.policies, s.configMaps);
    StageChanges.RunMovesKeepsLeftovers(
      m.serverRuns, serverRuns', n, s.servers, s.configMaps, s.deployments, s.replicaSets);
  }

  /** A secret is added that keeps the trust among the secrets. */
  lemma ExtendedSecrets(m: Machine, n: string, name: string, secrets': map<string, Secret>)
    requires Invariant(m) && HoldsServer(m.store.servers, n) && name in {ROOT_SECRET, NameWithPrefix(n)}
    requires StageChanges.Extends(m.store.secrets, secrets', name) && SecretsTrusted(secrets')
    ensures Invariant(m.(store := m.store.(secrets := secrets')))
  {
    hide UniqueName;
    hide NameWithPrefix;
    hide HoldsServer;
    var s := m.store;
    StageChanges.GrownOwnedHeld(
      s.servers, n, s.deployments.Keys, s.configMaps.Keys, s.services, s.secrets.Keys,
      s.deployments.Keys, s.configMaps.Keys, s.services, secrets'.Keys);
    StageChanges.AddedSecretKeepsHooks(s.secrets, secrets', name, s.mutating);
    StageChanges.AddedSecretKeepsHooks(s.secrets, secrets', name, s.validating);
    StageChanges.AddedSecretKeepsRuns(s.secrets, secrets', name, m.serverRuns, m.policyRuns);
  }

  /** The ConfigMap of a held server is written by a run that is past it, and serves every live policy it served. */
  lemma WrittenConfigMap(m: Machine, n: string, rv': nat, configMaps': map<string, ConfigMap>)
    requires Invariant(m) && HoldsServer(m.store.servers, n) && !YetToWriteConfigMap(m.serverRuns, n)
    requires StageChanges.ConfigMapWritten(m.store.rv, m.store.configMaps, rv', configMaps', n)
    requires forall k :: IsLive(m.store.policies, k) && m.store.policies[k].spec.policyServer == n &&
                         Configured(UniqueName(k), n, m.store.configMaps)
               ==> Configured(UniqueName(k), n, configMaps')
    ensures Invariant(m.(store := m.store.(rv := rv', configMaps := configMaps')))
  {
    hide UniqueName;
    hide NameWithPrefix;
    hide HoldsServer;
    hide Configured;
    var s := m.store;
    StageChanges.GrownOwnedHeld(
      s.servers, n, s.deployments.Keys, s.configMaps.Keys, s.services, s.secrets.Keys,
      s.deployments.Keys, configMaps'.Keys, s.services, s.secrets.Keys);
    StageChanges.ConfigMapWriteKeepsVersions(
      s.rv, s.configMaps, rv', configMaps', n, s.deployments, s.replicaSets, s.pods);
    StageChanges.ConfigMapWriteKeepsRouting(
      s.configMaps, configMaps', n, s.policies, s.mutating, s.validating, m.policyRuns, s.pods);
    StageChanges.ConfigMapWriteKeepsSnapshots(s.configMaps, configMaps', n, s.policies, m.serverRuns);
    StageChanges.ConfigMapWriteKeepsLeftovers(
      s.rv, s.configMaps, rv', configMaps', n, s.deployments, s.replicaSets, s.pods, s.servers, m.serverRuns);
  }

  lemma WrittenDeployment(m: Machine, s': Store, n: string, d: Deployment)
    requires Invariant(m) && HoldsServer(m.store.servers, n) && n in m.serverRuns
    requires n in m.store.configMaps && Fits(d, n, m.store.configMaps[n].rv)
    requires Deployments.WritesDeployment(m.store, s', n, d) && s'.rv != m.store.rv
    ensures Invariant(m.(store := s'))
  {
    hide UniqueName;
    hide NameWithPrefix;
    hide HoldsServer;
    hide Fits;
    hide Deployments.TakesOver;
    hide VersionsHold;
    hide LatestHolds;
    hide LeftoversOld;
    var s := m.store;
    StageChanges.GrownOwnedHeld(
      s.servers, n, s.deployments.Keys, s.configMaps.Keys, s.services, s.secrets.Keys,
      s'.deployments.Keys, s.configMaps.Keys, s.services, s.secrets.Keys);
    StageChanges.DeploymentWriteKeepsVersions(s, s', n, d);
    StageChanges.DeploymentWriteKeepsLatest(s, s', n, d, m.serverRuns);
  }

  lemma GrownServices(m: Machine, n: string, services': set<string>)
    requires Invariant(m) && HoldsServer(m.store.servers, n) && services' <= m.store.services + {n}
    ensures Invariant(m.(store := m.store.(services := services')))
  {
    hide UniqueName;
    hide NameWithPrefix;
    hide HoldsServer;
    var s := m.store;
    StageChanges.GrownOwnedHeld(
      s.servers, n, s.deployments.Keys, s.configMaps.Keys, s.services, s.secrets.Keys,
      s.deployments.Keys, s.configMaps.Keys, services', s.secrets.Keys);
  }

  /** The machine after a stage: the store it wrote and the run moved on. */
  ghost predicate StageDone(m: Machine, m': Machine, n: string, root': Secret, ok: bool) {
    && n in m.serverRuns && m.serverRuns[n].stage < STAGES
    && m' == Machine(m'.store, m.serverRuns[n := AfterStage(m.serverRuns[n], root', ok)], m.policyRuns)
    && StageWrites(m.serverRuns[n].stage, m.store, m'.store, m.serverRuns[n].job, m.serverRuns[n].root, root', ok)
  }

  lemma RootStageKeeps(m: Machine, m': Machine, n: string, root': Secret, ok: bool)
    requires Invariant(m) && StageDone(m, m', n, root', ok) && m.serverRuns[n].stage == CA_ROOT_SECRET_RECONCILED
    ensures Invariant(m')
  {
    var s, s' := m.store, m'.store;
    assert HoldsServer(s.servers, n) && SecretsTrusted(s.secrets);
    hide Invariant;
    hide IsRoot;
    StageChanges.RootAddedKeepsTrust(s.secrets, s'.secrets);
    ExtendedSecrets(m, n, ROOT_SECRET, s'.secrets);
    MovedRun(m.(store := s'), n, m'.serverRuns[n]);
  }

  lemma ServingStageKeeps(m: Machine, m': Machine, n: string, root': Secret, ok: bool)
    requires Invariant(m) && StageDone(m, m', n, root', ok) && m.serverRuns[n].stage == CA_SECRET_RECONCILED
    ensures Invariant(m')
  {
    hide NameWithPrefix;
    hide Secrets.SignedBy;
    hide IsRoot;
    var s, s' := m.store, m'.store;
    assert HoldsServer(s.servers, n) && SecretsTrusted(s.secrets) && "root-ca" !in s.servers;
    assert m.serverRuns[n].job.name == n;
    assert ROOT_SECRET in s.secrets && m.serverRuns[n].root == s.secrets[ROOT_SECRET];
    hide Invariant;
    StageChanges.ServingAddedKeepsTrust(s.secrets, s'.secrets, n);
    ExtendedSecrets(m, n, NameWithPrefix(n), s'.secrets);
    MovedRun(m.(store := s'), n, m'.serverRuns[n]);
  }

  lemma ConfigMapStageKeeps(m: Machine, m': Machine, n: string, root': Secret, ok: bool)
    requires Invariant(m) && StageDone(m, m', n, root', ok) && m.serverRuns[n].stage == CONFIG_MAP_RECONCILED
    ensures Invariant(m')
  {
    hide UniqueName;
    var s, s', job := m.store, m'.store, m.serverRuns[n].job;
    assert HoldsServer(s.servers, n) && job.name == n;
    assert ROOT_SECRET in s.secrets && m.serverRuns[n].root == s.secrets[ROOT_SECRET];
    assert SnapshotsHold(s.policies, s.configMaps, m.serverRuns);
    hide Invariant;
    MovedRun(m, n, m'.serverRuns[n]);
    if s'.rv != s.rv {
      ConfigMaps.PoliciesMapKeys(job.policies);
      hide ConfigMaps.PoliciesMap;
      WrittenConfigMap(m.(serverRuns := m'.serverRuns), n, s'.rv, s'.configMaps);
    } else {
      assert s' == s;
    }
  }

  lemma DeploymentStageKeeps(m: Machine, m': Machine, n: string, root': Secret, ok: bool)
    requires Invariant(m) && StageDone(m, m', n, root', ok) && m.serverRuns[n].stage == DEPLOYMENT_RECONCILED
    ensures Invariant(m')
  {
    var s, s' := m.store, m'.store;
    assert HoldsServer(s.servers, n) && m.serverRuns[n].job.name == n;
    assert ROOT_SECRET in s.secrets && m.serverRuns[n].root == s.secrets[ROOT_SECRET];
    hide Invariant;
    hide Fits;
    hide Deployments.TakesOver;
    if s' != s {
      var d :| Fits(d, n, s.configMaps[n].rv) && Deployments.WritesDeployment(s, s', n, d);
      WrittenDeployment(m, s', n, d);
    }
    MovedRun(m.(store := s'), n, m'.serverRuns[n]);
  }

  lemma ServiceStageKeeps(m: Machine, m': Machine, n: string, root': Secret, ok: bool)
    requires Invariant(m) && StageDone(m, m', n, root', ok) && m.serverRuns[n].stage == SERVICE_RECONCILED
    ensures Invariant(m')
  {
    var s, s' := m.store, m'.store;
    assert HoldsServer(s.servers, n) && m.serverRuns[n].job.name == n;
    assert ROOT_SECRET in s.secrets && m.serverRuns[n].root == s.secrets[ROOT_SECRET];
    hide Invariant;
    GrownServices(m, n, s'.services);
    MovedRun(m.(store := s'), n, m'.serverRuns[n]);
  }

  lemma ServerStageKeeps(m: Machine, cfg: Config, n: string, freshCa: nat, faults: set<Call>)
    requires Invariant(m) && n in m.serverRuns && m.serverRuns[n].stage < STAGES
    ensures Invariant(AfterServerStage(m, cfg, n, freshCa, faults))
  {
    hide Invariant;
    hide StageWrites;
    hide Pipeline.RunStage;
    var run, m' := m.serverRuns[n], AfterServerStage(m, cfg, n, freshCa, faults);
    var (w, root') := Pipeline.RunStage(run.stage, m.store, cfg, run.job, run.root, freshCa, faults);
    StageEffect(run.stage, m.store, cfg, run.job, run.root, freshCa, faults);
    if run.stage == 0 {
      RootStageKeeps(m, m', n, root', w.error.None?);
    } else if run.stage == 1 {
      ServingStageKeeps(m, m', n, root', w.error.None?);
    } else if run.stage == 2 {
      ConfigMapStageKeeps(m, m', n, root', w.error.None?);
    } else if run.stage == 3 {
      DeploymentStageKeeps(m, m', n, root', w.error.None?);
    } else {
      ServiceStageKeeps(m, m', n, root', w.error.None?);
    }
  }

  // ------------------------------------------------------------------------- the teardown

  /** The secret, ConfigMap and deployment of a server under deletion go, and perhaps the server. */
  lemma TornDown(m: Machine, s': Store, n: string)
    requires Invariant(m) && n in m.store.servers && m.store.servers[n].deleting && n !in m.serverRuns
    requires Teardown(m.store, s', n) && s'.policies == m.store.policies
    requires forall k :: IsLive(s'.policies, k) ==> s'.policies[k].spec.policyServer != n
    ensures Invariant(m.(store := s'))
  {
    hide UniqueName;
    hide NameWithPrefix;
    hide GoodPod;
    hide GoodReplicaSet;
    hide GoodDeployment;
    hide SameGeneration;
    hide RunStatusHolds;
    hide StatusHolds;
    hide NamesDistinct;
    hide Backed;
    hide VersionsHold;
    hide SecretsTrusted;
    hide HooksTrusted;
    hide RunsTrusted;
    hide LatestHolds;
    hide SnapshotsHold;
    hide RoutingHolds;
    var s := m.store;
    StageChanges.TeardownKeepsServers(s, s', n, m.serverRuns);
    StageChanges.TeardownKeepsOwned(s, s', n);
    StageChanges.TeardownKeepsLeftovers(
      s.servers, s'.servers, m.serverRuns, s.configMaps, s'.configMaps, s.deployments, s'.deployments, s.replicaSets, n);
    StageChanges.RemovedDeploymentKeepsLatest(s.deployments, s.replicaSets, n);
    StageChanges.RemovedDeploymentKeepsVersions(s.rv, s.configMaps, s.deployments, n, s.replicaSets, s.pods);
    StageChanges.RemovedConfigMapKeepsVersions(s.rv, s.configMaps, n, s'.deployments, s.replicaSets, s.pods);
    StageChanges.RemovedConfigMapKeepsRouting(
      s.configMaps, n, s.policies, s.mutating, s.validating, m.policyRuns, s.pods, m.serverRuns);
    StageChanges.RemovedSecretKeepsTrust(s.secrets, n, s.mutating, s.validating, m.serverRuns, m.policyRuns);
  }

  lemma TearDownServerKeeps(m: Machine, n: string, listed: seq<PolicyKey>, faults: set<Call>)
    requires Invariant(m) && n in m.store.servers && m.store.servers[n].deleting && n !in m.serverRuns
    requires Enumerates(listed, Pipeline.BoundKeys(m.store, n))
    ensures Invariant(m.(store := AfterTearDownServer(m.store, n, listed, faults)))
  {
    var s, s' := m.store, AfterTearDownServer(m.store, n, listed, faults);
    TeardownEffect(s, n, listed, faults);
    assert LivePoliciesHeld(s.policies);
    hide Invariant;
    hide Pipeline.ReconcileDeletion;
    PolicyChanges.MarksEvolves(s.policies, s'.policies);
    EvolvedPolicies(m, s'.policies);
    if exists k :: Pipeline.LiveAndBound(s, k, n) {
    } else {
      forall k | IsLive(s'.policies, k)
        ensures s'.policies[k].spec.policyServer != n
      {
        assert !Pipeline.LiveAndBound(s, k, n);
      }
      TornDown(m.(store := s.(policies := s'.policies)), s', n);
    }
  }

  // ---------------------------------------------------------------- the policy reconcilers

  lemma LivePolicyIsGood(m: Machine, k: PolicyKey)
    requires Invariant(m) && IsLive(m.store.policies, k)
    ensures HoldsPolicy(m.store.policies, k)
    ensures GoodStatus(k, m.store.policies[k], m.store.mutating, m.store.validating)
  {
    hide GoodStatus;
  }

  lemma BeginPolicyKeeps(m: Machine, k: PolicyKey, listed: seq<nat>, faults: set<Call>)
    requires Invariant(m) && IsLive(m.store.policies, k)
    ensures Invariant(AfterBeginPolicy(m, k, listed, faults))
  {
    var s, run := m.store, AfterBeginPolicy(m, k, listed, faults).policyRuns[k];
    LivePolicyIsGood(m, k);
    hide UniqueName;
    hide NameWithPrefix;
    hide VersionsHold;
    hide Configured;
    hide KnownToPods;
    hide GoodStatus;
    hide PolicyController.Prepare;
    hide HoldsPolicy;
    hide LivePoliciesHeld;
    hide LiveServersHeld;
    hide ServerRunsHeld;
    hide PolicyRunsHeld;
    hide NamesDistinct;
    hide SecretsTrusted;
    hide HooksTrusted;
    hide OwnedHeld;
    hide Backed;
    hide RoutingHolds;
    hide SnapshotsHold;
    hide RunsTrusted;
    hide LatestHolds;
    hide LeftoversOld;
    hide StatusHolds;
    hide RunStatusHolds;
    PolicyRunChanges.PreparedRun(s, k, listed, faults);
    PolicyRunChanges.PreparedStatus(s, k, listed, faults);
    PolicyRunChanges.BeginKeepsRouting(
      s.policies, s.mutating, s.validating, m.policyRuns, s.configMaps, s.pods, k, run);
    PolicyRunChanges.BeginKeepsRuns(
      s.policies, s.mutating, s.validating, m.policyRuns, m.serverRuns, s.secrets, k, run);
  }

  lemma RunIsHeld(m: Machine, k: PolicyKey)
    requires Invariant(m) && k in m.policyRuns
    ensures HoldsPolicy(m.store.policies, k)
    ensures m.policyRuns[k].policy.spec.mutating == m.store.policies[k].spec.mutating
    ensures m.policyRuns[k].policy.spec.policyServer == m.store.policies[k].spec.policyServer
    ensures m.policyRuns[k].todo.Some? ==>
              && ROOT_SECRET in m.store.secrets && m.policyRuns[k].todo.value.root == m.store.secrets[ROOT_SECRET]
              && m.policyRuns[k].todo.value.serviceName == NameWithPrefix(m.store.policies[k].spec.policyServer)
  {
  }

  /** A run whose webhook is written, or could not be: the webhooks of its policy's kind may have a new one. */
  ghost predicate Published(m: Machine, m': Machine, k: PolicyKey, kind: WebhookKind) {
    var s, s' := m.store, m'.store;
    && k in m.policyRuns && m.policyRuns[k].todo.Some?
    && k in m'.policyRuns && m'.policyRuns[k].todo.None?
    && m'.policyRuns[k].policy == m.policyRuns[k].policy.(status := m'.policyRuns[k].policy.status)
    && m' == Machine(s', m.serverRuns, m.policyRuns[k := m'.policyRuns[k]])
    && s' == s.(rv := s'.rv, mutating := s'.mutating, validating := s'.validating)
    && (s'.rv == s.rv || s'.rv == s.rv + 1)
    && kind == KindOf(m.policyRuns[k].policy.spec.mutating)
    && PolicyRunChanges.HookPut(s.mutating, s'.mutating, UniqueName(k))
    && PolicyRunChanges.HookPut(s.validating, s'.validating, UniqueName(k))
    && (s'.mutating != s.mutating ==> kind.Mutating?)
    && (s'.validating != s.validating ==> kind.Validating?)
  }

  lemma PublishedRoutes(m: Machine, m': Machine, k: PolicyKey, kind: WebhookKind)
    requires Published(m, m', k, kind) && NoOrphans(m) && RoutedSafely(m)
    requires HoldsPolicy(m.store.policies, k)
    requires m.policyRuns[k].policy.spec.mutating == m.store.policies[k].spec.mutating
    requires var u, n := UniqueName(k), m.store.policies[k].spec.policyServer;
             && (m'.store.mutating != m.store.mutating ==> Addressed(m'.store.mutating[u], k, n))
             && (m'.store.validating != m.store.validating ==> Addressed(m'.store.validating[u], k, n))
    ensures NoOrphans(m') && RoutedSafely(m')
  {
    hide UniqueName;
    hide NamesDistinct;
    hide Backed;
    hide RoutingHolds;
    hide SnapshotsHold;
    var s, s' := m.store, m'.store;
    PolicyRunChanges.HookPutKeepsBacked(s.mutating, s'.mutating, k, true, s.policies);
    PolicyRunChanges.HookPutKeepsBacked(s.validating, s'.validating, k, false, s.policies);
    PolicyRunChanges.HookPutKeepsRouting(
      s.policies, k, s.mutating, s'.mutating, s.validating, s'.validating, m.policyRuns, m'.policyRuns,
      s.configMaps, s.pods);
  }

  lemma PublishedKeepsTrust(m: Machine, m': Machine, k: PolicyKey, kind: WebhookKind)
    requires Published(m, m', k, kind) && Trusted(m)
    requires m'.store.mutating != m.store.mutating ==>
               forall w :: w in m'.store.mutating[UniqueName(k)].webhooks ==> TrustsRoot(w, m.store.secrets)
    requires m'.store.validating != m.store.validating ==>
               forall w :: w in m'.store.validating[UniqueName(k)].webhooks ==> TrustsRoot(w, m.store.secrets)
    ensures Trusted(m')
  {
    hide UniqueName;
    hide TrustsRoot;
    hide SecretsTrusted;
    hide HooksTrusted;
    var s, s' := m.store, m'.store;
    PolicyRunChanges.HookPutKeepsTrusted(s.mutating, s'.mutating, UniqueName(k), s.secrets);
    PolicyRunChanges.HookPutKeepsTrusted(s.validating, s'.validating, UniqueName(k), s.secrets);
  }

  lemma PublishedFrame(m: Machine, m': Machine, k: PolicyKey, kind: WebhookKind)
    requires Published(m, m', k, kind) && Held(m) && Versioned(m) && LatestUnique(m)
    ensures Held(m') && Versioned(m') && LatestUnique(m')
  {
    hide UniqueName;
    hide NameWithPrefix;
    hide PolicyRunChanges.HookPut;
    hide LiveServersHeld;
    hide OwnedHeld;
    hide VersionsHold;
    hide LatestHolds;
    hide LeftoversOld;
    var s := m.store;
    RolloutChanges.BumpKeepsVersions(s.rv, s.configMaps, s.deployments, s.replicaSets, s.pods);
  }

  lemma PutHook(s: Store, s': Store, kind: WebhookKind, u: string, hooks: seq<Webhook>)
    requires Webhooks.WritesWebhook(s, s', kind, u, hooks)
    ensures s' == s.(rv := s'.rv, mutating := s'.mutating, validating := s'.validating)
    ensures s'.rv == s.rv || s'.rv == s.rv + 1
    ensures PolicyRunChanges.HookPut(s.mutating, s'.mutating, u)
    ensures PolicyRunChanges.HookPut(s.validating, s'.validating, u)
    ensures s'.mutating != s.mutating ==> kind.Mutating? && s'.mutating[u].webhooks == hooks
    ensures s'.validating != s.validating ==> kind.Validating? && s'.validating[u].webhooks == hooks
  {
    if kind.Mutating? {
    } else {
    }
  }

  lemma PublishPolicyKeeps(m: Machine, cfg: Config, k: PolicyKey, faults: set<Call>)
    requires Invariant(m) && k in m.policyRuns && m.policyRuns[k].todo.Some?
    ensures Invariant(AfterPublishPolicy(m, cfg, k, faults))
  {
    hide UniqueName;
    hide NameWithPrefix;
    var s, run, m' := m.store, m.policyRuns[k], AfterPublishPolicy(m, cfg, k, faults);
    PublishedRun(m, cfg, k, faults);
    RunIsHeld(m, k);
    hide AfterPublishPolicy;
    hide Published;
    hide Held;
    hide NoOrphans;
    hide Versioned;
    hide RoutedSafely;
    hide Trusted;
    hide LatestUnique;
    hide StatusTrue;
    var kind := KindOf(run.policy.spec.mutating);
    PublishedFrame(m, m', k, kind);
    PublishedRoutes(m, m', k, kind);
    PublishedKeepsTrust(m, m', k, kind);
    PublishedStatus(m, m', k, kind);
  }

  /** The webhooks trust the root and lead to the policy. */
  ghost predicate IsSound(m: Machine, k: PolicyKey, c: WebhookConfiguration) {
    && k in m.store.policies
    && (forall w :: w in c.webhooks ==> TrustsRoot(w, m.store.secrets))
    && Addressed(c, k, m.store.policies[k].spec.policyServer)
  }

  lemma PublishedRun(m: Machine, cfg: Config, k: PolicyKey, faults: set<Call>)
    requires Invariant(m) && k in m.policyRuns && m.policyRuns[k].todo.Some?
    ensures var m' := AfterPublishPolicy(m, cfg, k, faults);
            var run, run', u := m.policyRuns[k], m'.policyRuns[k], UniqueName(k);
            var kind := KindOf(run.policy.spec.mutating);
            && Published(m, m', k, kind)
            && (m'.store.mutating != m.store.mutating ==> IsSound(m, k, m'.store.mutating[u]))
            && (m'.store.validating != m.store.validating ==> IsSound(m, k, m'.store.validating[u]))
            && (run'.policy == run.policy ||
                (u in m'.store.Webhooks(kind) && run'.policy.status.state == Active &&
                 run'.policy.status.conditions.reachable == run.policy.status.conditions.reachable))
  {
    hide UniqueName;
    hide NameWithPrefix;
    hide Invariant;
    hide IsSound;
    var run, m' := m.policyRuns[k], AfterPublishPolicy(m, cfg, k, faults);
    PolicyRunChanges.PublishWrites(m.store, cfg, k, run, faults);
    hide PolicyController.Publish;
    PutHook(m.store, m'.store, KindOf(run.policy.spec.mutating), UniqueName(k),
            PolicyController.DesiredWebhooks(cfg, k, run.policy.spec, run.todo.value));
    DesiredIsSound(m, cfg, k);
  }

  lemma SecretsAreTrusted(m: Machine)
    requires Invariant(m)
    ensures SecretsTrusted(m.store.secrets)
  {
    hide SecretsTrusted;
  }

  lemma DesiredIsSound(m: Machine, cfg: Config, k: PolicyKey)
    requires Invariant(m) && k in m.policyRuns && m.policyRuns[k].todo.Some?
    ensures var run := m.policyRuns[k];
            forall c: WebhookConfiguration ::
              c.webhooks == PolicyController.DesiredWebhooks(cfg, k, run.policy.spec, run.todo.value) ==>
              IsSound(m, k, c)
  {
    RunIsHeld(m, k);
    SecretsAreTrusted(m);
    hide Invariant;
    hide SecretsTrusted;
    hide TrustsRoot;
    hide UniqueName;
    hide NameWithPrefix;
    PolicyRunChanges.DesiredIsTrusted(
      cfg, k, m.policyRuns[k].policy.spec, m.policyRuns[k].todo.value, m.store.secrets);
  }

  lemma PublishedStatus(m: Machine, m': Machine, k: PolicyKey, kind: WebhookKind)
    requires Published(m, m', k, kind) && StatusTrue(m)
    requires var run, run' := m.policyRuns[k], m'.policyRuns[k];
             run'.policy == run.policy ||
             (UniqueName(k) in m'.store.Webhooks(kind) && run'.policy.status.state == Active &&
              run'.policy.status.conditions.reachable == run.policy.status.conditions.reachable)
    ensures StatusTrue(m')
  {
    var s, s' := m.store, m'.store;
    hide UniqueName;
    hide StatusHolds;
    hide RunStatusHolds;
    PolicyRunChanges.MoreHooksKeepStatus(
      s.policies, s.mutating, s'.mutating, s.validating, s'.validating, m.policyRuns);
    PolicyRunChanges.PublishedKeepsRunStatus(s.policies, k, s'.mutating, s'.validating, m.policyRuns, m'.policyRuns);
  }

  lemma EndedPolicyRuns(m: Machine, runs': map<PolicyKey, PolicyController.PolicyRun>)
    requires Invariant(m) && PolicyRunChanges.RunsEnd(m.policyRuns, runs')
    ensures Invariant(m.(policyRuns := runs'))
  {
    hide UniqueName;
    hide NameWithPrefix;
    hide GoodStatus;
    var s := m.store;
    PolicyRunChanges.RunsEndKeeps(
      m.policyRuns, runs', s.policies, s.mutating, s.validating, s.configMaps, s.pods);
    PolicyRunChanges.RunsEndKeepsTrusted(m.policyRuns, runs', m.serverRuns, s.secrets);
  }

  lemma WrittenStatus(m: Machine, policies': map<PolicyKey, Policy>, k: PolicyKey, p: Policy)
    requires Invariant(m) && k !in m.policyRuns
    requires PolicyChanges.WritesStatus(m.store.policies, policies', k, p.status)
    requires IsLive(m.store.policies, k) ==>
               GoodStatus(k, m.store.policies[k].(status := p.status), m.store.mutating, m.store.validating)
    ensures Invariant(m.(store := m.store.(policies := policies')))
  {
    hide UniqueName;
    hide NameWithPrefix;
    hide PolicyChanges.WritesStatus;
    hide GoodStatus;
    var s := m.store;
    PolicyChanges.StatusWriteKeepsHeld(s.policies, policies', k, p.status, m.policyRuns);
    PolicyChanges.StatusWriteKeepsBacked(s.policies, policies', k, p.status, s.mutating, true);
    PolicyChanges.StatusWriteKeepsBacked(s.policies, policies', k, p.status, s.validating, false);
    PolicyChanges.StatusWriteKeepsRouting(
      s.policies, policies', k, p.status, s.mutating, s.validating, m.policyRuns, s.configMaps, s.pods, m.serverRuns);
    PolicyChanges.StatusWriteKeepsStatus(s.policies, policies', k, p, m.policyRuns, s.mutating, s.validating);
  }

  lemma ObservedStatusIsGood(m: Machine, k: PolicyKey, faults: set<Call>)
    requires Invariant(m) && k in m.policyRuns && IsLive(m.store.policies, k)
    ensures var status := PolicyController.ObservedStatus(m.store, k, m.policyRuns[k].policy, faults);
            GoodStatus(k, m.store.policies[k].(status := status), m.store.mutating, m.store.validating)
  {
    RunIsHeld(m, k);
    PolicyRunChanges.ObservedKeepsDecision(m.store, k, m.policyRuns[k].policy, faults);
    hide UniqueName;
    hide PolicyController.ObservedStatus;
    hide Held;
    hide NoOrphans;
    hide Versioned;
    hide RoutedSafely;
    hide Trusted;
    hide LatestUnique;
    assert GoodStatus(k, m.policyRuns[k].policy, m.store.mutating, m.store.validating);
  }

  lemma EndPolicyKeeps(m: Machine, k: PolicyKey, faults: set<Call>)
    requires Invariant(m) && k in m.policyRuns
    ensures Invariant(AfterEndPolicy(m, k, faults))
  {
    RunIsHeld(m, k);
    if IsLive(m.store.policies, k) {
      ObservedStatusIsGood(m, k, faults);
    }
    hide Invariant;
    hide GoodStatus;
    var s, run, m' := m.store, m.policyRuns[k], AfterEndPolicy(m, k, faults);
    PolicyRunChanges.FinishWrites(s, k, run, faults);
    hide PolicyController.Finish;
    hide PolicyController.ObservedStatus;
    EndedPolicyRuns(m, m'.policyRuns);
    if m'.store != s {
      var status := PolicyController.ObservedStatus(s, k, run.policy, faults);
      WrittenStatus(m.(policyRuns := m'.policyRuns), m'.store.policies, k, run.policy.(status := status));
    }
  }

  lemma CrashKeeps(m: Machine)
    requires Invariant(m)
    ensures Invariant(Machine(m.store, map[], map[]))
  {
    hide Invariant;
    EndedRuns(m, map[]);
    EndedPolicyRuns(m.(serverRuns := map[]), map[]);
  }

  // ---------------------------------------------------------------- the end of a policy

  /** The deleted policy `k` loses its webhook, and itself or its finalizer only after that. */
  ghost predicate Finalized(s: Store, s': Store, k: PolicyKey) {
    && k in s.policies && s.policies[k].deleting
    && s' == s.(policies := s'.policies, mutating := s'.mutating, validating := s'.validating)
    && PolicyRunChanges.HookRemoved(s, s', KindOf(s.policies[k].spec.mutating), UniqueName(k))
    && (s'.policies == s.policies ||
        (UniqueName(k) !in s'.Webhooks(KindOf(s.policies[k].spec.mutating)) &&
         PolicyChanges.Finalizes(s.policies, s'.policies, k)))
  }

  lemma FinalizedHooks(s: Store, s': Store, k: PolicyKey)
    requires Finalized(s, s', k)
    ensures s'.mutating == s.mutating || s'.mutating == Remove(s.mutating, UniqueName(k))
    ensures s'.validating == s.validating || s'.validating == Remove(s.validating, UniqueName(k))
    ensures s.policies[k].spec.mutating ==> s'.validating == s.validating
    ensures !s.policies[k].spec.mutating ==> s'.mutating == s.mutating
    ensures s'.policies != s.policies && s.policies[k].spec.mutating ==>
              s'.mutating == Remove(s.mutating, UniqueName(k))
    ensures s'.policies != s.policies && !s.policies[k].spec.mutating ==>
              s'.validating == Remove(s.validating, UniqueName(k))
    ensures PolicyChanges.Finalizes(s.policies, s'.policies, k)
  {
    hide UniqueName;
    var kind := KindOf(s.policies[k].spec.mutating);
    if UniqueName(k) !in s.Webhooks(kind) {
      Api.RemoveAbsent(s.Webhooks(kind), UniqueName(k));
    }
    if s.policies[k].spec.mutating {
    } else {
    }
  }

  lemma FinalizedKeepsNoOrphans(m: Machine, s': Store, k: PolicyKey)
    requires Finalized(m.store, s', k) && NoOrphans(m)
    ensures NoOrphans(m.(store := s'))
  {
    var s := m.store;
    FinalizedHooks(s, s', k);
    hide UniqueName;
    hide Finalized;
    hide PolicyChanges.Finalizes;
    hide HoldsPolicy;
    if s'.policies != s.policies {
      hide Backed;
      PolicyChanges.FinalizeKeepsBacked(s.policies, s'.policies, k, s.mutating, s'.mutating, true);
      PolicyChanges.FinalizeKeepsBacked(s.policies, s'.policies, k, s.validating, s'.validating, false);
    }
  }

  lemma FinalizedKeepsHeld(m: Machine, s': Store, k: PolicyKey)
    requires Finalized(m.store, s', k) && k !in m.policyRuns && Held(m)
    ensures Held(m.(store := s'))
  {
    hide UniqueName;
    hide NameWithPrefix;
    hide PolicyRunChanges.HookRemoved;
    hide PolicyChanges.Finalizes;
    hide OwnedHeld;
    hide LivePoliciesHeld;
    hide LiveServersHeld;
    hide ServerRunsHeld;
    hide PolicyRunsHeld;
    PolicyChanges.FinalizeKeepsHeld(m.store.policies, s'.policies, k, m.policyRuns);
  }

  lemma FinalizedKeepsRest(m: Machine, s': Store, k: PolicyKey)
    requires Finalized(m.store, s', k) && k !in m.policyRuns
    requires Held(m) && NamesDistinct(m.store.policies) && RoutedSafely(m) && StatusTrue(m)
    ensures Held(m.(store := s')) && RoutedSafely(m.(store := s')) && StatusTrue(m.(store := s'))
  {
    FinalizedKeepsHeld(m, s', k);
    hide Held;
    var s := m.store;
    FinalizedHooks(s, s', k);
    hide UniqueName;
    hide NameWithPrefix;
    hide PolicyRunChanges.HookRemoved;
    hide PolicyChanges.Finalizes;
    hide NamesDistinct;
    hide RoutingHolds;
    hide SnapshotsHold;
    hide StatusHolds;
    hide RunStatusHolds;
    PolicyChanges.FinalizeKeepsRouting(
      s.policies, s'.policies, k, s.mutating, s.validating, s'.mutating, s'.validating, m.policyRuns, s.configMaps,
      s.pods, m.serverRuns);
    PolicyChanges.FinalizeKeepsStatus(
      s.policies, s'.policies, k, s.mutating, s.validating, s'.mutating, s'.validating, m.policyRuns);
  }

  lemma FinalizedKeepsTrust(m: Machine, s': Store, k: PolicyKey)
    requires Finalized(m.store, s', k) && Trusted(m) && Versioned(m) && LatestUnique(m)
    ensures Trusted(m.(store := s')) && Versioned(m.(store := s')) && LatestUnique(m.(store := s'))
  {
    var s := m.store;
    FinalizedHooks(s, s', k);
    hide UniqueName;
    hide PolicyRunChanges.HookRemoved;
    hide PolicyChanges.Finalizes;
    hide SecretsTrusted;
    hide HooksTrusted;
    hide RunsTrusted;
    hide VersionsHold;
    hide LatestHolds;
    hide LeftoversOld;
    PolicyRunChanges.RemovedHookKeepsTrusted(s.mutating, UniqueName(k), s.secrets);
    PolicyRunChanges.RemovedHookKeepsTrusted(s.validating, UniqueName(k), s.secrets);
  }

  lemma FinalizePolicyKeeps(m: Machine, cfg: Config, k: PolicyKey, faults: set<Call>)
    requires Invariant(m) && k in m.store.policies && m.store.policies[k].deleting && k !in m.policyRuns
    ensures Invariant(m.(store := AfterFinalizePolicy(m.store, cfg, k, faults)))
  {
    var s' := AfterFinalizePolicy(m.store, cfg, k, faults);
    PolicyRunChanges.FinalizeWrites(m.store, cfg, k, faults);
    hide AfterFinalizePolicy;
    hide PolicyRunChanges.HookRemoved;
    hide PolicyChanges.Finalizes;
    hide UniqueName;
    hide Held;
    hide Versioned;
    hide RoutedSafely;
    hide Trusted;
    hide LatestUnique;
    hide StatusTrue;
    hide NamesDistinct;
    hide Backed;
    assert Finalized(m.store, s', k);
    hide Finalized;
    FinalizedKeepsNoOrphans(m, s', k);
    FinalizedKeepsRest(m, s', k);
    FinalizedKeepsTrust(m, s', k);
  }
}
