/** How the invariants survive the deployment controller, replica sets and pods. */
module RolloutChanges {
  import opened Common
  import opened Naming
  import opened Model
  import opened Effects
  import opened Protocol
  import opened Invariants
  import ConfigMaps
  import PolicyController

  type ConfigMapTable = map<string, ConfigMap>
  type Deployments = map<string, Deployment>
  type ReplicaSets = map<nat, ReplicaSet>
  type Pods = map<nat, Pod>

  // -------------------------------------------------------------- resource versions

  /** A higher counter alone changes nothing. */
  lemma BumpKeepsVersions(rv: nat, cms: ConfigMapTable, ds: Deployments, rss: ReplicaSets, pods: Pods)
    requires VersionsHold(rv, cms, ds, rss, pods)
    ensures VersionsHold(rv + 1, cms, ds, rss, pods)
  {
    hide ConfigMaps.ServedPolicies;
    forall n | n in ds
      ensures GoodDeployment(ds[n], n, rv + 1, cms)
    {
      assert GoodDeployment(ds[n], n, rv, cms);
    }
    forall h | h in rss
      ensures GoodReplicaSet(rss[h], h, rv + 1, cms)
    {
      assert GoodReplicaSet(rss[h], h, rv, cms);
    }
    forall p | p in pods
      ensures GoodPod(pods[p], rv + 1, cms, rss)
    {
      assert GoodPod(pods[p], rv, cms, rss);
    }
  }

  lemma PutDeploymentKeepsVersions(
    rv: nat, cms: ConfigMapTable, ds: Deployments, n: string, d: Deployment, rss: ReplicaSets, pods: Pods)
    requires VersionsHold(rv, cms, ds, rss, pods) && GoodDeployment(d, n, rv, cms)
    ensures VersionsHold(rv, cms, ds[n := d], rss, pods)
  {
    hide GoodDeployment;
    hide GoodReplicaSet;
    hide GoodPod;
  }

  /** A replica set under a fresh hash, or one with the same template as before. */
  lemma PutReplicaSetKeepsVersions(
    rv: nat, cms: ConfigMapTable, ds: Deployments, rss: ReplicaSets, h: nat, r: ReplicaSet, pods: Pods)
    requires VersionsHold(rv, cms, ds, rss, pods) && GoodReplicaSet(r, h, rv, cms)
    requires if h in rss then rss[h].template == r.template else forall p :: p in pods ==> pods[p].hash != h
    ensures VersionsHold(rv, cms, ds, rss[h := r], pods)
  {
    hide GoodDeployment;
    hide GoodReplicaSet;
    hide ConfigMaps.ServedPolicies;
    forall p | p in pods
      ensures GoodPod(pods[p], rv, cms, rss[h := r])
    {
      assert GoodPod(pods[p], rv, cms, rss);
    }
  }

  lemma RemoveReplicaSetKeepsVersions(
    rv: nat, cms: ConfigMapTable, ds: Deployments, rss: ReplicaSets, h: nat, pods: Pods)
    requires VersionsHold(rv, cms, ds, rss, pods)
    ensures VersionsHold(rv, cms, ds, Remove(rss, h), pods)
  {
    hide GoodDeployment;
    hide GoodReplicaSet;
    hide ConfigMaps.ServedPolicies;
    forall p | p in pods
      ensures GoodPod(pods[p], rv, cms, Remove(rss, h))
    {
      assert GoodPod(pods[p], rv, cms, rss);
    }
  }

  lemma PutPodKeepsVersions(
    rv: nat, cms: ConfigMapTable, ds: Deployments, rss: ReplicaSets, pods: Pods, id: nat, p: Pod)
    requires VersionsHold(rv, cms, ds, rss, pods) && GoodPod(p, rv, cms, rss) && id <= rv
    ensures VersionsHold(rv, cms, ds, rss, pods[id := p])
  {
    hide GoodDeployment;
    hide GoodReplicaSet;
    hide GoodPod;
  }

  lemma RemovePodKeepsVersions(rv: nat, cms: ConfigMapTable, ds: Deployments, rss: ReplicaSets, pods: Pods, id: nat)
    requires VersionsHold(rv, cms, ds, rss, pods)
    ensures VersionsHold(rv, cms, ds, rss, Remove(pods, id))
  {
    hide GoodDeployment;
    hide GoodReplicaSet;
    hide GoodPod;
  }

  // ------------------------------------------------------------------------- routing

  /** A pod that has loaded the server's present ConfigMap, or loaded nothing new, spoils no route. */
  lemma PutPodKeepsRouting(
    policies: map<PolicyKey, Policy>, mutating: map<string, WebhookConfiguration>,
    validating: map<string, WebhookConfiguration>, runs: map<PolicyKey, PolicyController.PolicyRun>,
    cms: ConfigMapTable, pods: Pods, id: nat, p: Pod)
    requires RoutingHolds(policies, mutating, validating, runs, cms, pods)
    requires p.loaded.Some? ==>
               || (id in pods && pods[id].server == p.server && pods[id].loaded == p.loaded)
               || (p.server in cms && ConfigMaps.ServedPolicies(cms[p.server]) == Ok(p.loaded.value.policies))
    ensures RoutingHolds(policies, mutating, validating, runs, cms, pods[id := p])
  {
    hide UniqueName;
    hide Routed;
    forall k | IsLive(policies, k) && Routed(k, mutating, validating, runs)
      ensures KnownToPods(UniqueName(k), policies[k].spec.policyServer, pods[id := p])
    {
      assert Configured(UniqueName(k), policies[k].spec.policyServer, cms);
    }
  }

  lemma RemovePodKeepsRouting(
    policies: map<PolicyKey, Policy>, mutating: map<string, WebhookConfiguration>,
    validating: map<string, WebhookConfiguration>, runs: map<PolicyKey, PolicyController.PolicyRun>,
    cms: ConfigMapTable, pods: Pods, id: nat)
    requires RoutingHolds(policies, mutating, validating, runs, cms, pods)
    ensures RoutingHolds(policies, mutating, validating, runs, cms, Remove(pods, id))
  {
    hide UniqueName;
    hide Routed;
    hide Configured;
    forall k | IsLive(policies, k) && Routed(k, mutating, validating, runs)
      ensures KnownToPods(UniqueName(k), policies[k].spec.policyServer, Remove(pods, id))
    {
      assert KnownToPods(UniqueName(k), policies[k].spec.policyServer, pods);
    }
  }

  // ------------------------------------------------------------ the latest replica set

  /** The deployment stays the same object and its version does not fall. */
  lemma PutDeploymentKeepsLatest(ds: Deployments, rss: ReplicaSets, n: string, d: Deployment)
    requires LatestHolds(ds, rss)
    requires n in ds && d.uid == ds[n].uid && d.template.configVersion >= ds[n].template.configVersion
    ensures LatestHolds(ds[n := d], rss)
  {
    hide SameGeneration;
  }

  /** The synced replica set: its revision tops those of the deployment's other replica sets. */
  lemma SyncKeepsLatest(ds: Deployments, rss: ReplicaSets, n: string, h: nat, r: ReplicaSet)
    requires LatestHolds(ds, rss) && n in ds && r.server == n && r.owner == ds[n].uid
    requires r.revision.Some? && r.template == ds[n].template && r.configVersion == Some(r.template.configVersion)
    requires forall x :: x in rss ==> rss[x].configVersion == Some(rss[x].template.configVersion)
    requires forall x :: x in rss && x != h && rss[x].owner == ds[n].uid && rss[x].revision.Some? ==>
               rss[x].revision.value < r.revision.value
    ensures LatestHolds(ds, rss[h := r])
  {
    forall x | x in rss && x != h
      ensures !SameGeneration(rss[x], r)
    {
    }
    var rss' := rss[h := r];
    forall a, b | a in rss' && b in rss' && SameGeneration(rss'[a], rss'[b])
      ensures a == b
    {
    }
  }

  lemma RemoveReplicaSetKeepsLatest(ds: Deployments, rss: ReplicaSets, h: nat)
    requires LatestHolds(ds, rss)
    ensures LatestHolds(ds, Remove(rss, h))
  {
    hide SameGeneration;
  }
}
