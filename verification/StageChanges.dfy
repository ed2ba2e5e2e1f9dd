/** How the invariants survive the stages of a policy server's reconciliation, and its teardown. */
module StageChanges {
  import opened Common
  import opened Naming
  import opened Model
  import opened Effects
  import opened Protocol
  import opened Invariants
  import ConfigMaps
  import Deployments
  import Pipeline
  import PolicyController
  import RolloutChanges
  import Secrets

  type Servers = map<string, PolicyServer>
  type ServerRuns = map<string, ServerRun>
  type SecretTable = map<string, Secret>
  type Hooks = map<string, WebhookConfiguration>
  type PolicyRuns = map<PolicyKey, PolicyController.PolicyRun>

  lemma ServerNamesDiffer()
    ensures forall a, b :: NameWithPrefix(a) == NameWithPrefix(b) ==> a == b
    ensures forall a :: NameWithPrefix(a) == ROOT_SECRET ==> a == "root-ca"
  {
    forall a, b
      ensures NameWithPrefix(a) == NameWithPrefix(b) ==> a == b
      ensures NameWithPrefix(a) == ROOT_SECRET ==> a == "root-ca"
    {
      ServerNames(a, b);
    }
  }

  // ------------------------------------------------------------------ the run itself

  /** The run of `n` moves on with the same job; the others stay as they are. */
  ghost predicate RunMoves(before: ServerRuns, after: ServerRuns, n: string) {
    && n in before && n in after && after == before[n := after[n]]
    && after[n].job == before[n].job && before[n].stage <= after[n].stage <= STAGES
  }

  lemma RunMovesKeepsHeld(before: ServerRuns, after: ServerRuns, n: string, servers: Servers)
    requires RunMoves(before, after, n) && ServerRunsHeld(before, servers)
    ensures ServerRunsHeld(after, servers)
  {
  }

  lemma RunMovesKeepsSnapshots(
    before: ServerRuns, after: ServerRuns, n: string, policies: map<PolicyKey, Policy>,
    configMaps: map<string, ConfigMap>)
    requires RunMoves(before, after, n) && SnapshotsHold(policies, configMaps, before)
    ensures SnapshotsHold(policies, configMaps, after)
  {
    hide UniqueName;
    hide Configured;
    hide ConfigMaps.Names;
  }

  lemma RunMovesKeepsLeftovers(
    before: ServerRuns, after: ServerRuns, n: string, servers: Servers, configMaps: map<string, ConfigMap>,
    deployments: map<string, Deployment>, replicaSets: map<nat, ReplicaSet>)
    requires RunMoves(before, after, n) && LeftoversOld(servers, before, configMaps, deployments, replicaSets)
    ensures LeftoversOld(servers, after, configMaps, deployments, replicaSets)
  {
  }

  lemma RunMovesKeepsTrusted(
    before: ServerRuns, after: ServerRuns, n: string, runs: PolicyRuns, secrets: SecretTable)
    requires RunMoves(before, after, n) && RunsTrusted(before, runs, secrets)
    requires after[n].stage > CA_ROOT_SECRET_RECONCILED ==>
               ROOT_SECRET in secrets && after[n].root == secrets[ROOT_SECRET]
    ensures RunsTrusted(after, runs, secrets)
  {
  }

  // ------------------------------------------------------------------------- secrets

  /** A new secret under that name; everything stored before stays. */
  predicate Extends(before: SecretTable, after: SecretTable, name: string) {
    after == before || (name !in before && name in after && after == before[name := after[name]])
  }

  /** The first root secret: nothing could trust another one. */
  lemma RootAddedKeepsTrust(before: SecretTable, after: SecretTable)
    requires Extends(before, after, ROOT_SECRET) && SecretsTrusted(before)
    requires ROOT_SECRET !in before && ROOT_SECRET in after ==> IsRoot(after[ROOT_SECRET])
    ensures SecretsTrusted(after)
  {
    ServerNamesDiffer();
    hide NameWithPrefix;
    hide IsRoot;
    hide Secrets.SignedBy;
    hide CaOf;
  }

  lemma ServingAddedKeepsTrust(before: SecretTable, after: SecretTable, n: string)
    requires Extends(before, after, NameWithPrefix(n)) && SecretsTrusted(before) && n != "root-ca"
    requires ROOT_SECRET in before && IsRoot(before[ROOT_SECRET])
    requires NameWithPrefix(n) !in before && NameWithPrefix(n) in after ==>
               Secrets.SignedBy(after[NameWithPrefix(n)], CaOf(before[ROOT_SECRET]))
    ensures SecretsTrusted(after)
  {
    ServerNamesDiffer();
    hide NameWithPrefix;
    hide IsRoot;
    hide Secrets.SignedBy;
  }

  lemma AddedSecretKeepsHooks(before: SecretTable, after: SecretTable, name: string, hooks: Hooks)
    requires Extends(before, after, name) && HooksTrusted(hooks, before)
    ensures HooksTrusted(hooks, after)
  {
    hide IsRoot;
    hide CaOf;
    forall u, w | u in hooks && w in hooks[u].webhooks
      ensures TrustsRoot(w, after)
    {
      assert TrustsRoot(w, before);
    }
  }

  lemma AddedSecretKeepsRuns(
    before: SecretTable, after: SecretTable, name: string, serverRuns: ServerRuns, runs: PolicyRuns)
    requires Extends(before, after, name) && RunsTrusted(serverRuns, runs, before)
    ensures RunsTrusted(serverRuns, runs, after)
  {
  }

  /** A secret removed along with its server, which is not the root. */
  lemma RemovedSecretKeepsTrust(
    secrets: SecretTable, n: string, mutating: Hooks, validating: Hooks, serverRuns: ServerRuns, runs: PolicyRuns)
    requires n != "root-ca" && SecretsTrusted(secrets) && HooksTrusted(mutating, secrets)
    requires HooksTrusted(validating, secrets) && RunsTrusted(serverRuns, runs, secrets)
    ensures SecretsTrusted(Remove(secrets, NameWithPrefix(n)))
    ensures HooksTrusted(mutating, Remove(secrets, NameWithPrefix(n)))
    ensures HooksTrusted(validating, Remove(secrets, NameWithPrefix(n)))
    ensures RunsTrusted(serverRuns, runs, Remove(secrets, NameWithPrefix(n)))
  {
    ServerNamesDiffer();
    hide NameWithPrefix;
    hide IsRoot;
    hide CaOf;
    hide Secrets.SignedBy;
    var after := Remove(secrets, NameWithPrefix(n));
    assert ROOT_SECRET in secrets <==> ROOT_SECRET in after;
    forall u, w | u in mutating && w in mutating[u].webhooks
      ensures TrustsRoot(w, after)
    {
      assert TrustsRoot(w, secrets);
    }
    forall u, w | u in validating && w in validating[u].webhooks
      ensures TrustsRoot(w, after)
    {
      assert TrustsRoot(w, secrets);
    }
  }

  // --------------------------------------------------------------------- what is owned

  /** Owned names grow by those of a held server only. */
  lemma GrownOwnedHeld(
    servers: Servers, n: string, deployments: set<string>, configMaps: set<string>, services: set<string>,
    secrets: set<string>, deployments': set<string>, configMaps': set<string>, services': set<string>,
    secrets': set<string>)
    requires HoldsServer(servers, n) && OwnedHeld(servers, deployments, configMaps, services, secrets)
    requires deployments' <= deployments + {n} && configMaps' <= configMaps + {n} && services' <= services + {n}
    requires secrets' <= secrets + {NameWithPrefix(n), ROOT_SECRET}
    ensures OwnedHeld(servers, deployments', configMaps', services', secrets')
  {
    ServerNamesDiffer();
    hide NameWithPrefix;
    hide HoldsServer;
  }

  // ------------------------------------------------------------------------ ConfigMaps

  type ConfigMapTable = map<string, ConfigMap>

  /** The ConfigMap of `n` is written and gets the next resource version. */
  ghost predicate ConfigMapWritten(rv: nat, before: ConfigMapTable, rv': nat, after: ConfigMapTable, n: string) {
    rv' == rv + 1 && n in after && after[n].rv == rv' && ConfigMaps.Decodes(after[n]) && after == before[n := after[n]]
  }

  lemma ConfigMapWriteKeepsVersions(
    rv: nat, before: ConfigMapTable, rv': nat, after: ConfigMapTable, n: string, ds: map<string, Deployment>,
    rss: map<nat, ReplicaSet>, pods: map<nat, Pod>)
    requires ConfigMapWritten(rv, before, rv', after, n) && VersionsHold(rv, before, ds, rss, pods)
    ensures VersionsHold(rv', after, ds, rss, pods)
  {
    hide ConfigMaps.ServedPolicies;
    forall x | x in ds
      ensures GoodDeployment(ds[x], x, rv', after)
    {
      assert GoodDeployment(ds[x], x, rv, before);
    }
    forall h | h in rss
      ensures GoodReplicaSet(rss[h], h, rv', after)
    {
      assert GoodReplicaSet(rss[h], h, rv, before);
    }
    forall p | p in pods
      ensures GoodPod(pods[p], rv', after, rss)
    {
      assert GoodPod(pods[p], rv, before, rss);
    }
  }

  /** The new ConfigMap serves every live policy that the old one served. */
  lemma ConfigMapWriteKeepsRouting(
    before: ConfigMapTable, after: ConfigMapTable, n: string, policies: map<PolicyKey, Policy>, mutating: Hooks,
    validating: Hooks, runs: PolicyRuns, pods: map<nat, Pod>)
    requires n in after && after == before[n := after[n]]
    requires RoutingHolds(policies, mutating, validating, runs, before, pods)
    requires forall k :: IsLive(policies, k) && policies[k].spec.policyServer == n && Configured(UniqueName(k), n, before)
               ==> Configured(UniqueName(k), n, after)
    ensures RoutingHolds(policies, mutating, validating, runs, after, pods)
  {
    hide UniqueName;
    hide KnownToPods;
    hide Routed;
    hide ConfigMaps.Serves;
    forall k | IsLive(policies, k) && Routed(k, mutating, validating, runs)
      ensures Configured(UniqueName(k), policies[k].spec.policyServer, after)
    {
      assert Configured(UniqueName(k), policies[k].spec.policyServer, before);
    }
  }

  /** The run whose ConfigMap is new is past writing it. */
  lemma ConfigMapWriteKeepsSnapshots(
    before: ConfigMapTable, after: ConfigMapTable, n: string, policies: map<PolicyKey, Policy>, serverRuns: ServerRuns)
    requires n in after && after == before[n := after[n]]
    requires SnapshotsHold(policies, before, serverRuns) && !YetToWriteConfigMap(serverRuns, n)
    ensures SnapshotsHold(policies, after, serverRuns)
  {
    hide UniqueName;
    hide ConfigMaps.Names;
    hide ConfigMaps.Serves;
    forall k | IsLive(policies, k) && policies[k].spec.policyServer != n
      ensures Configured(UniqueName(k), policies[k].spec.policyServer, after) ==
              Configured(UniqueName(k), policies[k].spec.policyServer, before)
    {
    }
  }

  /** All replica sets carry versions handed out before. */
  lemma ConfigMapWriteKeepsLeftovers(
    rv: nat, before: ConfigMapTable, rv': nat, after: ConfigMapTable, n: string, ds: map<string, Deployment>,
    rss: map<nat, ReplicaSet>, pods: map<nat, Pod>, servers: Servers, serverRuns: ServerRuns)
    requires ConfigMapWritten(rv, before, rv', after, n) && VersionsHold(rv, before, ds, rss, pods)
    requires LeftoversOld(servers, serverRuns, before, ds, rss)
    ensures LeftoversOld(servers, serverRuns, after, ds, rss)
  {
    hide GoodDeployment;
    hide GoodPod;
    hide MayDeploy;
  }

  // ------------------------------------------------------------------------ deployments

  /** The written deployment fits the server and the ConfigMap it was built for. */
  lemma WrittenDeploymentIsGood(s: Store, s': Store, n: string, d: Deployment)
    requires n in s.configMaps && Fits(d, n, s.configMaps[n].rv) && Deployments.WritesDeployment(s, s', n, d)
    requires s'.rv != s.rv && s.configMaps[n].rv <= s.rv
    requires n in s.deployments ==> GoodDeployment(s.deployments[n], n, s.rv, s.configMaps)
    ensures GoodDeployment(s'.deployments[n], n, s'.rv, s'.configMaps)
    ensures s'.deployments[n].template.configVersion == s.configMaps[n].rv
    ensures n in s.deployments ==> s'.deployments[n].uid == s.deployments[n].uid
    ensures n !in s.deployments ==> s'.deployments[n].uid == s'.rv
  {
  }

  /** A deployment created anew is newer than everything left of its predecessors. */
  lemma NewDeploymentKeepsLatest(
    ds: map<string, Deployment>, rss: map<nat, ReplicaSet>, n: string, d: Deployment)
    requires LatestHolds(ds, rss) && n !in ds
    requires forall h :: h in rss && rss[h].server == n ==> rss[h].template.configVersion < d.template.configVersion
    ensures LatestHolds(ds[n := d], rss)
  {
    hide SameGeneration;
  }

  lemma DeploymentWriteKeepsVersions(s: Store, s': Store, n: string, d: Deployment)
    requires n in s.configMaps && Fits(d, n, s.configMaps[n].rv) && Deployments.WritesDeployment(s, s', n, d)
    requires s'.rv != s.rv
    requires VersionsHold(s.rv, s.configMaps, s.deployments, s.replicaSets, s.pods)
    ensures VersionsHold(s'.rv, s'.configMaps, s'.deployments, s'.replicaSets, s'.pods)
  {
    WrittenDeploymentIsGood(s, s', n, d);
    RolloutChanges.BumpKeepsVersions(s.rv, s.configMaps, s.deployments, s.replicaSets, s.pods);
    RolloutChanges.PutDeploymentKeepsVersions(
      s'.rv, s.configMaps, s.deployments, n, s'.deployments[n], s.replicaSets, s.pods);
  }

  lemma DeploymentWriteKeepsLatest(s: Store, s': Store, n: string, d: Deployment, serverRuns: ServerRuns)
    requires n in s.configMaps && Fits(d, n, s.configMaps[n].rv) && Deployments.WritesDeployment(s, s', n, d)
    requires s'.rv != s.rv && n in serverRuns
    requires VersionsHold(s.rv, s.configMaps, s.deployments, s.replicaSets, s.pods)
    requires LatestHolds(s.deployments, s.replicaSets)
    requires LeftoversOld(s.servers, serverRuns, s.configMaps, s.deployments, s.replicaSets)
    ensures LatestHolds(s'.deployments, s'.replicaSets)
    ensures LeftoversOld(s'.servers, serverRuns, s'.configMaps, s'.deployments, s'.replicaSets)
  {
    WrittenDeploymentIsGood(s, s', n, d);
    hide SameGeneration;
    hide GoodPod;
    hide GoodReplicaSet;
    hide Deployments.TakesOver;
    hide Fits;
    if n in s.deployments {
      assert GoodDeployment(s.deployments[n], n, s.rv, s.configMaps);
      RolloutChanges.PutDeploymentKeepsLatest(s.deployments, s.replicaSets, n, s'.deployments[n]);
    } else {
      NewDeploymentKeepsLatest(s.deployments, s.replicaSets, n, s'.deployments[n]);
    }
  }

  // -------------------------------------------------------------------------- teardown

  lemma RemovedConfigMapKeepsVersions(
    rv: nat, cms: ConfigMapTable, n: string, ds: map<string, Deployment>, rss: map<nat, ReplicaSet>,
    pods: map<nat, Pod>)
    requires VersionsHold(rv, cms, ds, rss, pods)
    ensures VersionsHold(rv, Remove(cms, n), ds, rss, pods)
  {
    hide ConfigMaps.ServedPolicies;
    var after := Remove(cms, n);
    forall x | x in ds
      ensures GoodDeployment(ds[x], x, rv, after)
    {
      assert GoodDeployment(ds[x], x, rv, cms);
    }
    forall h | h in rss
      ensures GoodReplicaSet(rss[h], h, rv, after)
    {
      assert GoodReplicaSet(rss[h], h, rv, cms);
    }
    forall p | p in pods
      ensures GoodPod(pods[p], rv, after, rss)
    {
      assert GoodPod(pods[p], rv, cms, rss);
    }
  }

  lemma RemovedDeploymentKeepsVersions(
    rv: nat, cms: ConfigMapTable, ds: map<string, Deployment>, n: string, rss: map<nat, ReplicaSet>,
    pods: map<nat, Pod>)
    requires VersionsHold(rv, cms, ds, rss, pods)
    ensures VersionsHold(rv, cms, Remove(ds, n), rss, pods)
  {
    hide GoodDeployment;
    hide GoodReplicaSet;
    hide GoodPod;
  }

  /** No live policy is bound to the server whose ConfigMap goes. */
  lemma RemovedConfigMapKeepsRouting(
    cms: ConfigMapTable, n: string, policies: map<PolicyKey, Policy>, mutating: Hooks, validating: Hooks,
    runs: PolicyRuns, pods: map<nat, Pod>, serverRuns: ServerRuns)
    requires RoutingHolds(policies, mutating, validating, runs, cms, pods) && SnapshotsHold(policies, cms, serverRuns)
    requires forall k :: IsLive(policies, k) ==> policies[k].spec.policyServer != n
    ensures RoutingHolds(policies, mutating, validating, runs, Remove(cms, n), pods)
    ensures SnapshotsHold(policies, Remove(cms, n), serverRuns)
  {
    hide UniqueName;
    hide KnownToPods;
    hide Routed;
    hide ConfigMaps.Serves;
    hide ConfigMaps.Names;
    forall k | IsLive(policies, k)
      ensures Configured(UniqueName(k), policies[k].spec.policyServer, Remove(cms, n)) ==
              Configured(UniqueName(k), policies[k].spec.policyServer, cms)
    {
    }
  }

  lemma RemovedDeploymentKeepsLatest(ds: map<string, Deployment>, rss: map<nat, ReplicaSet>, n: string)
    requires LatestHolds(ds, rss)
    ensures LatestHolds(Remove(ds, n), rss)
  {
    hide SameGeneration;
  }

  /** A server under deletion without a run will never deploy again. */
  lemma TeardownKeepsLeftovers(
    before: Servers, after: Servers, serverRuns: ServerRuns, cms: ConfigMapTable, cms': ConfigMapTable,
    ds: map<string, Deployment>, ds': map<string, Deployment>, rss: map<nat, ReplicaSet>, n: string)
    requires LeftoversOld(before, serverRuns, cms, ds, rss)
    requires n in before && before[n].deleting && n !in serverRuns
    requires forall x :: x in after ==> x in before && after[x].deleting == before[x].deleting
    requires cms' == cms || cms' == Remove(cms, n)
    requires ds' == ds || ds' == Remove(ds, n)
    ensures LeftoversOld(after, serverRuns, cms', ds', rss)
  {
    forall h | h in rss && MayDeploy(rss[h].server, after, serverRuns)
      ensures rss[h].server != n && MayDeploy(rss[h].server, before, serverRuns)
    {
    }
  }

  /** Owned names shrink, and a server that owns none of them may lose its hold. */
  lemma ShrunkOwnedHeld(
    before: Servers, after: Servers, n: string, deployments: set<string>, configMaps: set<string>, services: set<string>,
    secrets: set<string>, deployments': set<string>, configMaps': set<string>, services': set<string>,
    secrets': set<string>)
    requires OwnedHeld(before, deployments, configMaps, services, secrets)
    requires deployments' <= deployments && configMaps' <= configMaps && services' <= services && secrets' <= secrets
    requires forall x :: x != n && HoldsServer(before, x) ==> HoldsServer(after, x)
    requires HoldsServer(before, n) && !HoldsServer(after, n) ==>
               n !in deployments' && n !in configMaps' && n !in services' && NameWithPrefix(n) !in secrets'
    ensures OwnedHeld(after, deployments', configMaps', services', secrets')
  {
    hide NameWithPrefix;
    hide HoldsServer;
  }

  /** The server lets go only when nothing of it is left. */
  lemma TeardownKeepsOwned(s: Store, s': Store, n: string)
    requires n in s.servers && Teardown(s, s', n) && s.servers[n].deleting
    requires OwnedHeld(s.servers, s.deployments.Keys, s.configMaps.Keys, s.services, s.secrets.Keys)
    ensures OwnedHeld(s'.servers, s'.deployments.Keys, s'.configMaps.Keys, s'.services, s'.secrets.Keys)
  {
    hide NameWithPrefix;
    hide Marks;
    hide OwnedHeld;
    ShrunkOwnedHeld(
      s.servers, s'.servers, n, s.deployments.Keys, s.configMaps.Keys, s.services, s.secrets.Keys,
      s'.deployments.Keys, s'.configMaps.Keys, s'.services, s'.secrets.Keys);
  }

  lemma TeardownKeepsServers(s: Store, s': Store, n: string, serverRuns: ServerRuns)
    requires n in s.servers && n !in serverRuns && Teardown(s, s', n) && s.servers[n].deleting
    requires LiveServersHeld(s.servers) && ServerRunsHeld(serverRuns, s.servers)
    ensures LiveServersHeld(s'.servers) && ServerRunsHeld(serverRuns, s'.servers)
    ensures forall x :: x in s'.servers ==> x in s.servers && s'.servers[x].deleting == s.servers[x].deleting
  {
    hide NameWithPrefix;
    hide Marks;
    hide Pipeline.OwnsNothing;
  }
}
