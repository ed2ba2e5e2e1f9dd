/** How the invariants survive changes to the stored policy servers and to the runs of their reconciler. */
module ServerChanges {
  import opened Common
  import opened Naming
  import opened Model
  import opened Effects
  import opened Protocol
  import opened Invariants
  import Api
  import ConfigMaps
  import Pipeline
  import PolicyController

  type Servers = map<string, PolicyServer>
  type ServerRuns = map<string, ServerRun>

  // ---------------------------------------------------------------- stored servers

  /** Held servers stay held, live ones are held, and none comes back to life. */
  ghost predicate ServersKept(before: Servers, after: Servers) {
    && LiveServersHeld(after)
    && (forall n :: HoldsServer(before, n) ==> HoldsServer(after, n))
    && (forall n :: n in before && n in after && before[n].deleting ==> after[n].deleting)
  }

  lemma ServersKeptKeepsHeld(
    before: Servers, after: Servers, runs: ServerRuns, deployments: set<string>, configMaps: set<string>,
    services: set<string>, secrets: set<string>)
    requires ServersKept(before, after)
    requires ServerRunsHeld(runs, before) && OwnedHeld(before, deployments, configMaps, services, secrets)
    ensures ServerRunsHeld(runs, after) && OwnedHeld(after, deployments, configMaps, services, secrets)
  {
    hide NameWithPrefix;
    hide HoldsServer;
  }

  /** A server created anew owns no ConfigMap yet. */
  lemma ServersKeptKeepsLeftovers(
    before: Servers, after: Servers, runs: ServerRuns, configMaps: map<string, ConfigMap>,
    deployments: map<string, Deployment>, replicaSets: map<nat, ReplicaSet>, services: set<string>, secrets: set<string>)
    requires ServersKept(before, after)
    requires OwnedHeld(before, deployments.Keys, configMaps.Keys, services, secrets)
    requires LeftoversOld(before, runs, configMaps, deployments, replicaSets)
    ensures LeftoversOld(after, runs, configMaps, deployments, replicaSets)
  {
    hide NameWithPrefix;
    forall n | n in configMaps && MayDeploy(n, after, runs)
      ensures MayDeploy(n, before, runs)
    {
      assert HoldsServer(before, n);
    }
  }

  lemma CreateServerKeeps(s: Store, n: string, spec: ServerSpec, finalizers: set<Finalizer>)
    requires n !in s.servers && n != "root-ca" && LiveServersHeld(s.servers)
    ensures ServersKept(s.servers, AfterCreateServer(s, n, spec, finalizers).servers)
  {
    var before, after := s.servers, AfterCreateServer(s, n, spec, finalizers).servers;
    forall x | HoldsServer(before, x)
      ensures HoldsServer(after, x)
    {
    }
  }

  /** An update that leaves the controller's finalizer on a server under deletion. */
  lemma UpdateServerKeeps(s: Store, n: string, spec: ServerSpec, finalizers: set<Finalizer>)
    requires n in s.servers && LiveServersHeld(s.servers)
    requires s.servers[n].deleting && Kubewarden in s.servers[n].finalizers ==> Kubewarden in finalizers
    ensures ServersKept(s.servers, AfterUpdateServer(s, n, spec, finalizers).servers)
  {
    var before, after := s.servers, AfterUpdateServer(s, n, spec, finalizers).servers;
    forall x | x != n
      ensures x in before <==> x in after
      ensures x in before ==> after[x] == before[x]
    {
    }
  }

  lemma DeleteServerKeeps(s: Store, n: string)
    requires n in s.servers && LiveServersHeld(s.servers)
    ensures ServersKept(s.servers, AfterDeleteServer(s, n).servers)
  {
    var before, after := s.servers, AfterDeleteServer(s, n).servers;
    forall x | x != n
      ensures x in before <==> x in after
      ensures x in before ==> after[x] == before[x]
    {
    }
  }

  lemma StatusUpdateKeeps(s: Store, n: string, conditions: map<ServerCondition, bool>, fail: bool)
    requires LiveServersHeld(s.servers)
    ensures ServersKept(s.servers, Api.UpdateServerStatus(s, n, conditions, fail).store.servers)
    ensures var s' := Api.UpdateServerStatus(s, n, conditions, fail).store; s' == s.(servers := s'.servers)
  {
    var before, after := s.servers, Api.UpdateServerStatus(s, n, conditions, fail).store.servers;
    forall x | HoldsServer(before, x)
      ensures HoldsServer(after, x)
    {
    }
  }

  // ------------------------------------------------------------------- runs under way

  /** Some runs are over, the others are as they were. */
  ghost predicate RunsEnd(before: ServerRuns, after: ServerRuns) {
    forall n :: n in after ==> n in before && after[n] == before[n]
  }

  lemma RunsEndKeepsHeld(before: ServerRuns, after: ServerRuns, servers: Servers)
    requires RunsEnd(before, after) && ServerRunsHeld(before, servers)
    ensures ServerRunsHeld(after, servers)
  {
  }

  lemma RunsEndKeepsSnapshots(
    before: ServerRuns, after: ServerRuns, policies: map<PolicyKey, Policy>, configMaps: map<string, ConfigMap>)
    requires RunsEnd(before, after) && SnapshotsHold(policies, configMaps, before)
    ensures SnapshotsHold(policies, configMaps, after)
  {
    hide UniqueName;
    hide Configured;
    hide ConfigMaps.Names;
  }

  lemma RunsEndKeepsTrusted(
    before: ServerRuns, after: ServerRuns, policyRuns: map<PolicyKey, PolicyController.PolicyRun>,
    secrets: map<string, Secret>)
    requires RunsEnd(before, after) && RunsTrusted(before, policyRuns, secrets)
    ensures RunsTrusted(after, policyRuns, secrets)
  {
  }

  lemma RunsEndKeepsLeftovers(
    before: ServerRuns, after: ServerRuns, servers: Servers, configMaps: map<string, ConfigMap>,
    deployments: map<string, Deployment>, replicaSets: map<nat, ReplicaSet>)
    requires RunsEnd(before, after) && LeftoversOld(servers, before, configMaps, deployments, replicaSets)
    ensures LeftoversOld(servers, after, configMaps, deployments, replicaSets)
  {
  }

  /** A run takes a snapshot in which every live policy of its server is. */
  lemma NewRunKeepsSnapshots(
    runs: ServerRuns, n: string, run: ServerRun, policies: map<PolicyKey, Policy>, configMaps: map<string, ConfigMap>)
    requires SnapshotsHold(policies, configMaps, runs)
    requires forall k :: IsLive(policies, k) && policies[k].spec.policyServer == n ==>
               UniqueName(k) in ConfigMaps.Names(run.job.policies)
    ensures SnapshotsHold(policies, configMaps, runs[n := run])
  {
    hide UniqueName;
    hide Configured;
    hide ConfigMaps.Names;
  }

  lemma SnapshotIsComplete(s: Store, n: string, listed: seq<PolicyKey>, k: PolicyKey)
    requires Enumerates(listed, Pipeline.BoundKeys(s, n))
    requires IsLive(s.policies, k) && s.policies[k].spec.policyServer == n
    ensures UniqueName(k) in ConfigMaps.Names(Pipeline.LiveOnly(s.policies, listed))
  {
    hide UniqueName;
    Pipeline.ListedPolicies(s, n, listed);
    var live := Pipeline.LiveOnly(s.policies, listed);
    assert Pipeline.LiveAndBound(s, k, n);
    assert BoundPolicy(k, s.policies[k].spec) in live;
  }
}
