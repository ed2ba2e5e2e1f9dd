/** A rollout can always be completed, by the deployment controller, the replica sets and the pods alone. */
module Rollout {
  import opened Common
  import opened Naming
  import opened Model
  import opened Paths
  import opened Protocol
  import opened Invariants
  import ConfigMaps
  import Progress
  import Steps

  ghost predicate OnlyRollout(steps: seq<Step>) {
    forall step :: step in steps ==> IsRolloutStep(step)
  }

  // ---------------------------------------------------------- the current replica set

  lemma {:induction false} RevisionBound(replicaSets: map<nat, ReplicaSet>, hashes: set<nat>) returns (bound: nat)
    requires hashes <= replicaSets.Keys
    ensures forall h :: h in hashes && replicaSets[h].revision.Some? ==> replicaSets[h].revision.value < bound
    decreases |hashes|
  {
    if hashes == {} {
      bound := 0;
    } else {
      var h :| h in hashes;
      bound := RevisionBound(replicaSets, hashes - {h});
      if replicaSets[h].revision.Some? && replicaSets[h].revision.value >= bound {
        bound := replicaSets[h].revision.value + 1;
      }
    }
  }

  /** The deployment's replica set: an existing one of its template, or a new one; and a revision above all others. */
  lemma NextReplicaSet(s: Store, d: Deployment) returns (h: nat, revision: nat)
    requires s.rv + 1 !in s.replicaSets
    ensures CanSync(s, d, h, revision)
  {
    revision := RevisionBound(s.replicaSets, s.replicaSets.Keys);
    if x :| x in s.replicaSets && MadeFrom(s.replicaSets[x], d) {
      h := x;
    } else {
      h := s.rv + 1;
    }
  }

  /** The deployment controller makes or reuses the replica set of the current template, and records its revision. */
  lemma SyncTwice(cfg: Config, m: Machine, n: string, h: nat, revision: nat) returns (steps: seq<Step>, m': Machine)
    requires n in m.store.deployments && CanSync(m.store, m.store.deployments[n], h, revision)
    ensures Leads(cfg, m, steps, m') && OnlyRollout(steps)
    ensures m' == m.(store := m.store.(rv := m'.store.rv, deployments := m'.store.deployments,
                                       replicaSets := m'.store.replicaSets))
    ensures m'.store.rv > m.store.rv
    ensures n in m'.store.deployments && h in m'.store.replicaSets
    ensures var d, d' := m.store.deployments[n], m'.store.deployments[n];
            d' == d.(rv := d'.rv, revision := d'.revision) &&
            m'.store.replicaSets[h] == ReplicaSet(d.template.serverLabel, d.uid, d.configVersion, d'.revision, d.template)
  {
    SyncLeads(cfg, m, n, h, revision);
    var m1 := m.(store := AfterSyncReplicaSet(m.store, n, h, revision));
    RecordLeads(cfg, m1, n, h);
    m' := m1.(store := AfterSyncRevision(m1.store, n, h));
    steps := [SyncReplicaSet(n, h, revision)] + [SyncRevision(n, h)];
    hide CanSync;
    hide Leads;
    Then(cfg, m, [SyncReplicaSet(n, h, revision)], m1, [SyncRevision(n, h)], m');
  }

  // --------------------------------------------------------------------------- the pods

  /** All pods of the server stop. */
  lemma {:induction false} ClearPods(cfg: Config, m: Machine, n: string) returns (steps: seq<Step>, m': Machine)
    ensures Leads(cfg, m, steps, m') && OnlyRollout(steps)
    ensures m' == m.(store := m.store.(pods := m'.store.pods)) && m'.store.pods.Keys <= m.store.pods.Keys
    ensures PodsOf(m'.store.pods, n) == {}
    decreases |PodsOf(m.store.pods, n)|
  {
    hide Apply;
    hide Enabled;
    if PodsOf(m.store.pods, n) == {} {
      steps, m' := [], m;
    } else {
      var p :| p in PodsOf(m.store.pods, n);
      var m1 := m.(store := AfterDeletePod(m.store, p));
      assert PodsOf(m1.store.pods, n) == PodsOf(m.store.pods, n) - {p};
      DeletePodLeads(cfg, m, p);
      var rest;
      rest, m' := ClearPods(cfg, m1, n);
      steps := [DeletePod(p)] + rest;
      Then(cfg, m, [DeletePod(p)], m1, rest, m');
    }
  }

  const READY := [PodCondition("Ready", "True")]

  ghost predicate PodsSeen(s: Store) {
    forall p :: p in s.pods ==> p <= s.rv
  }

  /** One more pod of replica set `h` starts, loads its server's ConfigMap and becomes ready. */
  lemma StartPod(cfg: Config, m: Machine, h: nat, n: string) returns (steps: seq<Step>, m': Machine)
    requires h in m.store.replicaSets && m.store.replicaSets[h].server == n && n in m.store.deployments
    requires m.store.replicaSets[h].owner == m.store.deployments[n].uid
    requires |PodsOf(m.store.pods, n)| < m.store.deployments[n].replicas && PodsSeen(m.store)
    requires n in m.store.configMaps && ConfigMaps.ServedPolicies(m.store.configMaps[n]).Ok?
    requires Progress.OnlyReadyFrom(m.store.pods, n, h)
    ensures Leads(cfg, m, steps, m') && OnlyRollout(steps)
    ensures m' == m.(store := m.store.(rv := m'.store.rv, pods := m'.store.pods)) && PodsSeen(m'.store)
    ensures Progress.OnlyReadyFrom(m'.store.pods, n, h)
    ensures |PodsOf(m'.store.pods, n)| == |PodsOf(m.store.pods, n)| + 1
  {
    hide ConfigMaps.ServedPolicies;
    hide Leads;
    var p := m.store.rv + 1;
    CreatePodLeads(cfg, m, h);
    var m1 := m.(store := AfterCreatePod(m.store, h));
    LoadPodLeads(cfg, m1, p);
    var m2 := m1.(store := AfterLoadPod(m1.store, p));
    SetPodConditionsLeads(cfg, m2, p, READY);
    m' := m2.(store := AfterSetPodConditions(m2.store, p, READY));
    Then(cfg, m, [CreatePod(h)], m1, [LoadPod(p)], m2);
    Then(cfg, m, [CreatePod(h)] + [LoadPod(p)], m2, [SetPodConditions(p, READY)], m');
    steps := [CreatePod(h)] + [LoadPod(p)] + [SetPodConditions(p, READY)];
    assert PodsOf(m'.store.pods, n) == PodsOf(m.store.pods, n) + {p};
  }

  /** So many more pods start. */
  lemma {:induction false} StartPods(cfg: Config, m: Machine, h: nat, n: string, more: nat)
    returns (steps: seq<Step>, m': Machine)
    requires h in m.store.replicaSets && m.store.replicaSets[h].server == n && n in m.store.deployments
    requires m.store.replicaSets[h].owner == m.store.deployments[n].uid
    requires more > 0 ==> |PodsOf(m.store.pods, n)| + more <= m.store.deployments[n].replicas
    requires PodsSeen(m.store)
    requires n in m.store.configMaps && ConfigMaps.ServedPolicies(m.store.configMaps[n]).Ok?
    requires Progress.OnlyReadyFrom(m.store.pods, n, h)
    ensures Leads(cfg, m, steps, m') && OnlyRollout(steps)
    ensures m' == m.(store := m.store.(rv := m'.store.rv, pods := m'.store.pods))
    ensures Progress.OnlyReadyFrom(m'.store.pods, n, h)
    ensures |PodsOf(m'.store.pods, n)| == |PodsOf(m.store.pods, n)| + more
    decreases more
  {
    hide Apply;
    hide Enabled;
    hide PodsOf;
    hide ConfigMaps.ServedPolicies;
    hide Progress.OnlyReadyFrom;
    if more == 0 {
      steps, m' := [], m;
    } else {
      var first, m1 := StartPod(cfg, m, h, n);
      var rest;
      rest, m' := StartPods(cfg, m1, h, n, more - 1);
      steps := first + rest;
      Then(cfg, m, first, m1, rest, m');
    }
  }

  /** From wherever the rollout stands, steps of its own complete it, with just the pods that are asked for. */
  lemma RolloutCanComplete(cfg: Config, m: Machine, n: string) returns (steps: seq<Step>, m': Machine)
    requires Invariant(m) && n in m.store.deployments
    requires n in m.store.configMaps && ConfigMaps.ServedPolicies(m.store.configMaps[n]).Ok?
    ensures Leads(cfg, m, steps, m') && OnlyRollout(steps) && m' == m.(store := m'.store)
    ensures Progress.RolledOut(m.store, m'.store, n)
  {
    hide Invariant;
    hide Leads;
    hide PodsOf;
    FreshIds(m, n);
    hide ConfigMaps.ServedPolicies;
    var s, d := m.store, m.store.deployments[n];
    var h, revision := NextReplicaSet(s, d);
    hide CanSync;
    var steps1, m1 := SyncTwice(cfg, m, n, h, revision);
    var steps2, m2 := ClearPods(cfg, m1, n);
    assert PodsSeen(m2.store);
    NoPodsAreReady(m2.store, n, h);
    var steps3;
    steps3, m' := StartPods(cfg, m2, h, n, Progress.Wanted(d));
    Then(cfg, m, steps1, m1, steps2, m2);
    Then(cfg, m, steps1 + steps2, m2, steps3, m');
    steps := steps1 + steps2 + steps3;
    hide Progress.OnlyReadyFrom;
    assert Progress.IsCurrent(m'.store.replicaSets[h], m'.store.deployments[n]);
  }

  lemma NoPodsAreReady(s: Store, n: string, h: nat)
    requires PodsOf(s.pods, n) == {}
    ensures Progress.OnlyReadyFrom(s.pods, n, h)
  {
    forall p | p in s.pods
      ensures s.pods[p].server != n
    {
      assert p !in PodsOf(s.pods, n);
    }
  }

  lemma FreshIds(m: Machine, n: string)
    requires Invariant(m) && n in m.store.deployments
    ensures m.store.rv + 1 !in m.store.replicaSets && PodsSeen(m.store)
    ensures m.store.deployments[n].serverLabel == n && m.store.deployments[n].template.serverLabel == n
  {
    Steps.HashesSeen(m.store);
    assert PodsSeen(m.store);
    assert GoodDeployment(m.store.deployments[n], n, m.store.rv, m.store.configMaps);
  }
}
