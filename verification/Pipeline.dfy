/** What one reconciliation of a policy server does: five stages for a live server, teardown for a deleted one. */
module Pipeline {
  import opened Common
  import opened Naming
  import opened Model
  import opened Api
  import ConfigMaps
  import Deployments
  import Secrets

  // ------------------------------------------------------ policies of a server

  predicate BoundTo(s: Store, k: PolicyKey, n: string) {
    k in s.policies && s.policies[k].spec.policyServer == n
  }

  predicate LiveAndBound(s: Store, k: PolicyKey, n: string) {
    BoundTo(s, k, n) && !s.policies[k].deleting
  }

  function BoundKeys(s: Store, n: string): set<PolicyKey> {
    set k | k in s.policies && s.policies[k].spec.policyServer == n
  }

  /** The policies of an API list that are not marked for deletion. */
  function LiveOnly(policies: map<PolicyKey, Policy>, listed: seq<PolicyKey>): seq<BoundPolicy> {
    if listed == [] then []
    else
      var k := listed[|listed| - 1];
      var front := LiveOnly(policies, listed[..|listed| - 1]);
      if k in policies && !policies[k].deleting then front + [BoundPolicy(k, policies[k].spec)] else front
  }

  lemma {:induction false} LiveOnlyElements(policies: map<PolicyKey, Policy>, listed: seq<PolicyKey>)
    ensures forall p :: p in LiveOnly(policies, listed) <==>
              p.key in listed && p.key in policies && !policies[p.key].deleting && p.spec == policies[p.key].spec
  {
    if listed != [] {
      LiveOnlyElements(policies, listed[..|listed| - 1]);
      assert listed == listed[..|listed| - 1] + [listed[|listed| - 1]];
    }
  }

  /** Two lists, one after the other. */
  lemma {:induction false} LiveOnlyAppends(
    policies: map<PolicyKey, Policy>, first: seq<PolicyKey>, second: seq<PolicyKey>)
    ensures LiveOnly(policies, first + second) == LiveOnly(policies, first) + LiveOnly(policies, second)
  {
    if second == [] {
      assert first + second == first;
    } else {
      var last := |second| - 1;
      LiveOnlyAppends(policies, first, second[..last]);
      assert (first + second)[..|first + second| - 1] == first + second[..last];
    }
  }

  /** Listing a server's policies and dropping the deleted ones finds exactly the live bound ones. */
  lemma ListedPolicies(s: Store, n: string, listed: seq<PolicyKey>)
    requires Enumerates(listed, BoundKeys(s, n))
    ensures forall p :: p in LiveOnly(s.policies, listed) <==>
              LiveAndBound(s, p.key, n) && p.spec == s.policies[p.key].spec
    ensures LiveOnly(s.policies, listed) == [] <==> forall k :: k in s.policies ==> !LiveAndBound(s, k, n)
  {
    LiveOnlyElements(s.policies, listed);
    var live := LiveOnly(s.policies, listed);
    forall k | LiveAndBound(s, k, n)
      ensures live != []
    {
      assert BoundPolicy(k, s.policies[k].spec) in live;
    }
    if live != [] {
      assert live[0] in live;
    }
  }

  /** What an API list found; a failed list leaves its result empty. */
  function Found(list: Result<seq<PolicyKey>>): seq<PolicyKey> {
    if list.Ok? then list.value else []
  }

  /** Both lists together, cluster-wide policies first.  Only the failure NotFound is reported. */
  function ObtainedPolicies(
    policies: map<PolicyKey, Policy>, clusterWide: Result<seq<PolicyKey>>, namespaced: Result<seq<PolicyKey>>)
    : Result<seq<BoundPolicy>>
  {
    if clusterWide == Err(NotFound) || namespaced == Err(NotFound) then Err(NotFound)
    else Ok(LiveOnly(policies, Found(clusterWide) + Found(namespaced)))
  }

  // --------------------------------------------------------------- the stages

  /** What one run works on: the server and the policies, as read when the run began. */
  datatype Job = Job(name: string, spec: ServerSpec, policies: seq<BoundPolicy>)

  /** How far a run has come: the cluster, the root secret in memory, the conditions, and the stage that failed. */
  datatype Progress = Progress(
    store: Store, root: Secret, conditions: map<ServerCondition, bool>, failedAt: Option<nat>)

  function ServiceStage(s: Store, n: string, faults: set<Call>): Write {
    var w := Api.CreateService(s, n, CreateService in faults);
    if w.error == Some(AlreadyExists) then Done(s) else w
  }

  function RunStage(
    i: nat, s: Store, cfg: Config, job: Job, root: Secret, freshCa: nat, faults: set<Call>): (Write, Secret)
    requires i < STAGES
  {
    if i == CA_ROOT_SECRET_RECONCILED then
      var out := Secrets.RootStage(s, freshCa, faults);
      (out.write, if out.secret.Some? then out.secret.value else root)
    else if i == CA_SECRET_RECONCILED then (Secrets.ServingStage(s, cfg, NameWithPrefix(job.name), root, faults), root)
    else if i == CONFIG_MAP_RECONCILED then (ConfigMaps.ConfigMapStage(s, job.name, job.spec, job.policies, faults), root)
    else if i == DEPLOYMENT_RECONCILED then (Deployments.DeploymentStage(s, cfg, job.name, job.spec, faults), root)
    else (ServiceStage(s, job.name, faults), root)
  }

  /** The stages for ConfigMap, deployment and Service leave the root in memory alone. */
  lemma OwnedStages(s: Store, cfg: Config, job: Job, root: Secret, freshCa: nat, faults: set<Call>)
    ensures RunStage(CONFIG_MAP_RECONCILED, s, cfg, job, root, freshCa, faults) ==
            (ConfigMaps.ConfigMapStage(s, job.name, job.spec, job.policies, faults), root)
    ensures RunStage(DEPLOYMENT_RECONCILED, s, cfg, job, root, freshCa, faults) ==
            (Deployments.DeploymentStage(s, cfg, job.name, job.spec, faults), root)
    ensures RunStage(SERVICE_RECONCILED, s, cfg, job, root, freshCa, faults) ==
            (ServiceStage(s, job.name, faults), root)
  {
  }

  function Advance(i: nat, p: Progress, cfg: Config, job: Job, freshCa: nat, faults: set<Call>): Progress
    requires i < STAGES
  {
    var (w, root) := RunStage(i, p.store, cfg, job, p.root, freshCa, faults);
    Progress(w.store, root, p.conditions[i := w.error.None?], if w.error.None? then None else Some(i))
  }

  /** Stages `i` and following, up to the first that fails. */
  function RunFrom(i: nat, p: Progress, cfg: Config, job: Job, freshCa: nat, faults: set<Call>): Progress
    requires i <= STAGES
    decreases STAGES - i
  {
    if i == STAGES || p.failedAt.Some? then p
    else RunFrom(i + 1, Advance(i, p, cfg, job, freshCa, faults), cfg, job, freshCa, faults)
  }

  function Start(s: Store, conditions: map<ServerCondition, bool>): Progress {
    Progress(s, Secret(map[]), conditions, None)
  }

  function Reconcile(
    s: Store, conditions: map<ServerCondition, bool>, cfg: Config, job: Job, freshCa: nat, faults: set<Call>): Progress
  {
    RunFrom(0, Start(s, conditions), cfg, job, freshCa, faults)
  }

  /** A stage's outcome decides: the run goes on with the next stage, or it is over. */
  lemma StageDecides(
    i: nat, s: Store, root: Secret, conditions: map<ServerCondition, bool>, cfg: Config, job: Job, freshCa: nat,
    faults: set<Call>, w: Write, root': Secret)
    requires i < STAGES && RunStage(i, s, cfg, job, root, freshCa, faults) == (w, root')
    ensures var q := RunFrom(i, Progress(s, root, conditions, None), cfg, job, freshCa, faults);
            if w.error.Some? then q == Progress(w.store, root', conditions[i := false], Some(i))
            else q == RunFrom(i + 1, Progress(w.store, root', conditions[i := true], None), cfg, job, freshCa, faults)
  {
    hide RunStage;
  }

  // ------------------------------------------------------------- a failed run

  lemma FailedStageWritesNothing(
    i: nat, s: Store, cfg: Config, job: Job, root: Secret, freshCa: nat, faults: set<Call>)
    requires i < STAGES
    ensures RunStage(i, s, cfg, job, root, freshCa, faults).0.error.Some? ==>
              RunStage(i, s, cfg, job, root, freshCa, faults).0.store == s
  {
    if i == 0 {
      Secrets.RootStageResult(s, freshCa, faults);
    } else if i == 1 {
      var serving := Secrets.FetchServing(s, cfg, NameWithPrefix(job.name), root, faults);
      if serving.Ok? {
        if CreateServingSecret in faults {
        } else if NameWithPrefix(job.name) in s.secrets {
        } else {
        }
      }
    } else if i == 2 {
      ConfigMaps.SyncConfigMapResult(
        s, job.name, ConfigMaps.PoliciesMap(job.policies), ConfigMaps.DesiredSources(job.spec), faults);
    } else if i == 3 {
      if ReadConfigMapVersion !in faults && job.name in s.configMaps {
        Deployments.SyncDeploymentResult(
          s, job.name, Deployments.BuiltDeployment(cfg, s.configMaps[job.name].rv, job.name, job.spec), faults);
      }
    } else {
      if CreateService in faults {
      } else if job.name in s.services {
      } else {
      }
    }
  }

  /** The progress after the first `k` stages, if they all succeed. */
  ghost function After(k: nat, p: Progress, cfg: Config, job: Job, freshCa: nat, faults: set<Call>): Progress
    requires k <= STAGES
  {
    if k == 0 then p else Advance(k - 1, After(k - 1, p, cfg, job, freshCa, faults), cfg, job, freshCa, faults)
  }

  /** Up to `k` all conditions are true, `k` is false if it is a stage, and the later ones are untouched. */
  ghost predicate ConditionsUpTo(k: nat, before: map<ServerCondition, bool>, after: map<ServerCondition, bool>)
    requires k <= STAGES
  {
    && (forall j: ServerCondition :: j < k ==> Lookup(after, j) == Some(true))
    && (k < STAGES ==> Lookup(after, k) == Some(false))
    && (forall j: ServerCondition :: k < j ==> Lookup(after, j) == Lookup(before, j))
  }

  /** The run stopped at `k`: that stage failed, if it is one, and the cluster is as the stages before it left it. */
  ghost predicate StoppedAt(k: nat, p: Progress, q: Progress, cfg: Config, job: Job, freshCa: nat, faults: set<Call>)
    requires k <= STAGES
  {
    && q.failedAt == (if k < STAGES then Some(k) else None)
    && ConditionsUpTo(k, p.conditions, q.conditions)
    && q.store == After(k, p, cfg, job, freshCa, faults).store
  }

  /** Stages before `i` are done and recorded; later conditions are untouched. */
  ghost predicate Recorded(i: nat, before: map<ServerCondition, bool>, now: map<ServerCondition, bool>) {
    && (forall j: ServerCondition :: j < i ==> Lookup(now, j) == Some(true))
    && (forall j: ServerCondition :: i <= j ==> Lookup(now, j) == Lookup(before, j))
  }

  lemma AdvanceRecords(
    i: nat, before: map<ServerCondition, bool>, p: Progress, cfg: Config, job: Job, freshCa: nat, faults: set<Call>)
    requires i < STAGES && Recorded(i, before, p.conditions)
    ensures var next := Advance(i, p, cfg, job, freshCa, faults);
            if next.failedAt.None? then Recorded(i + 1, before, next.conditions)
            else next.failedAt == Some(i) && ConditionsUpTo(i, before, next.conditions) && next.store == p.store
  {
    FailedStageWritesNothing(i, p.store, cfg, job, p.root, freshCa, faults);
    var next := Advance(i, p, cfg, job, freshCa, faults);
    forall j: ServerCondition | j != i
      ensures Lookup(next.conditions, j) == Lookup(p.conditions, j)
    {
    }
  }

  lemma {:induction false} RunFromStops(
    i: nat, start: Progress, p: Progress, cfg: Config, job: Job, freshCa: nat, faults: set<Call>) returns (k: nat)
    requires i <= STAGES && p == After(i, start, cfg, job, freshCa, faults) && p.failedAt.None?
    requires Recorded(i, start.conditions, p.conditions)
    ensures k <= STAGES && StoppedAt(k, start, RunFrom(i, p, cfg, job, freshCa, faults), cfg, job, freshCa, faults)
    decreases STAGES - i
  {
    hide RunStage;
    if i == STAGES {
      k := STAGES;
    } else {
      var next := Advance(i, p, cfg, job, freshCa, faults);
      AdvanceRecords(i, start.conditions, p, cfg, job, freshCa, faults);
      if next.failedAt.Some? {
        k := i;
        assert RunFrom(i + 1, next, cfg, job, freshCa, faults) == next;
      } else {
        assert next == After(i + 1, start, cfg, job, freshCa, faults);
        k := RunFromStops(i + 1, start, next, cfg, job, freshCa, faults);
      }
    }
  }

  /**
   * Every run stops at one stage: all conditions before it are true, its own is false, the later ones are as before the
   * call, and the cluster is as the successful stages left it.  Nothing else can have happened.
   */
  lemma ConditionPrefix(
    s: Store, conditions: map<ServerCondition, bool>, cfg: Config, job: Job, freshCa: nat, faults: set<Call>)
    ensures exists k: nat :: k <= STAGES &&
              StoppedAt(k, Start(s, conditions), Reconcile(s, conditions, cfg, job, freshCa, faults),
                        cfg, job, freshCa, faults)
  {
    var start := Start(s, conditions);
    var k := RunFromStops(0, start, start, cfg, job, freshCa, faults);
    assert StoppedAt(k, start, Reconcile(s, conditions, cfg, job, freshCa, faults), cfg, job, freshCa, faults);
  }

  /** Every stage is recorded as done. */
  ghost predicate AllDone(conditions: map<ServerCondition, bool>) {
    forall c: ServerCondition :: Lookup(conditions, c) == Some(true)
  }

  /** The conditions tell whether the run succeeded. */
  lemma SucceedsExactlyWhenAllDone(
    s: Store, conditions: map<ServerCondition, bool>, cfg: Config, job: Job, freshCa: nat, faults: set<Call>)
    ensures var q := Reconcile(s, conditions, cfg, job, freshCa, faults);
            q.failedAt.None? <==> AllDone(q.conditions)
  {
    ConditionPrefix(s, conditions, cfg, job, freshCa, faults);
    var q := Reconcile(s, conditions, cfg, job, freshCa, faults);
    hide Reconcile;
    hide After;
    var k: nat :| k <= STAGES && StoppedAt(k, Start(s, conditions), q, cfg, job, freshCa, faults);
    if k < STAGES {
      var c: ServerCondition := k;
      assert Lookup(q.conditions, c) == Some(false);
    } else {
      forall c: ServerCondition
        ensures Lookup(q.conditions, c) == Some(true)
      {
      }
    }
  }

  // --------------------------------------------------------- a successful run

  /** Everything the five stages are for is in place. */
  predicate Settled(s: Store, cfg: Config, job: Job) {
    SettledUpTo(STAGES, s, cfg, job)
  }

  /** The results of the first `i` stages are in place. */
  predicate SettledUpTo(i: nat, s: Store, cfg: Config, job: Job) {
    && (i > 0 ==> ROOT_SECRET in s.secrets)
    && (i > 1 ==> NameWithPrefix(job.name) in s.secrets)
    && (i > 2 ==> job.name in s.configMaps &&
                  ConfigMaps.UpToDate(s.configMaps[job.name].data, ConfigMaps.PoliciesMap(job.policies),
                                      ConfigMaps.DesiredSources(job.spec)))
    && (i > 3 ==> job.name in s.deployments &&
                  s.deployments[job.name].configVersion == Some(s.configMaps[job.name].rv) &&
                  Deployments.InStep(NameWithPrefix(job.name), s.deployments[job.name],
                                     Deployments.BuiltDeployment(cfg, s.configMaps[job.name].rv, job.name, job.spec)))
    && (i > 4 ==> job.name in s.services)
  }

  lemma SecretStageSettles(i: nat, s: Store, cfg: Config, job: Job, root: Secret, freshCa: nat, faults: set<Call>)
    requires i < 2 && SettledUpTo(i, s, cfg, job)
    requires RunStage(i, s, cfg, job, root, freshCa, faults).0.error.None?
    ensures SettledUpTo(i + 1, RunStage(i, s, cfg, job, root, freshCa, faults).0.store, cfg, job)
  {
    if i == 0 {
      Secrets.RootStageResult(s, freshCa, faults);
    } else {
      var serving := Secrets.FetchServing(s, cfg, NameWithPrefix(job.name), root, faults);
      Secrets.CreateSecretAdds(s, NameWithPrefix(job.name), serving.value, CreateServingSecret in faults);
    }
  }

  lemma ConfigMapStageSettles(s: Store, cfg: Config, job: Job, faults: set<Call>)
    requires SettledUpTo(2, s, cfg, job)
    requires ConfigMaps.ConfigMapStage(s, job.name, job.spec, job.policies, faults).error.None?
    ensures SettledUpTo(3, ConfigMaps.ConfigMapStage(s, job.name, job.spec, job.policies, faults).store, cfg, job)
  {
    var policies, sources := ConfigMaps.PoliciesMap(job.policies), ConfigMaps.DesiredSources(job.spec);
    ConfigMaps.SyncConfigMapResult(s, job.name, policies, sources, faults);
    ConfigMaps.SyncConfigMapWrites(s, job.name, policies, sources, faults);
  }

  lemma DeploymentStageSettles(s: Store, cfg: Config, job: Job, faults: set<Call>)
    requires SettledUpTo(3, s, cfg, job)
    requires Deployments.DeploymentStage(s, cfg, job.name, job.spec, faults).error.None?
    ensures SettledUpTo(4, Deployments.DeploymentStage(s, cfg, job.name, job.spec, faults).store, cfg, job)
  {
    var desired := Deployments.BuiltDeployment(cfg, s.configMaps[job.name].rv, job.name, job.spec);
    Deployments.SyncDeploymentResult(s, job.name, desired, faults);
    Deployments.SyncDeploymentWrites(s, job.name, desired, faults);
  }

  lemma ServiceStageSettles(s: Store, cfg: Config, job: Job, faults: set<Call>)
    requires SettledUpTo(4, s, cfg, job) && ServiceStage(s, job.name, faults).error.None?
    ensures SettledUpTo(5, ServiceStage(s, job.name, faults).store, cfg, job)
  {
    hide Deployments.InStep;
    hide Deployments.BuiltDeployment;
  }

  lemma StageSettles(i: nat, s: Store, cfg: Config, job: Job, root: Secret, freshCa: nat, faults: set<Call>)
    requires i < STAGES && SettledUpTo(i, s, cfg, job)
    requires RunStage(i, s, cfg, job, root, freshCa, faults).0.error.None?
    ensures SettledUpTo(i + 1, RunStage(i, s, cfg, job, root, freshCa, faults).0.store, cfg, job)
  {
    hide SettledUpTo;
    hide Secrets.RootStage;
    hide Secrets.ServingStage;
    hide ConfigMaps.ConfigMapStage;
    hide Deployments.DeploymentStage;
    hide ServiceStage;
    if i < 2 {
      SecretStageSettles(i, s, cfg, job, root, freshCa, faults);
    } else if i == 2 {
      ConfigMapStageSettles(s, cfg, job, faults);
    } else if i == 3 {
      DeploymentStageSettles(s, cfg, job, faults);
    } else {
      ServiceStageSettles(s, cfg, job, faults);
    }
  }

  lemma {:induction false} RunSettles(i: nat, p: Progress, cfg: Config, job: Job, freshCa: nat, faults: set<Call>)
    requires i <= STAGES && p.failedAt.None? && SettledUpTo(i, p.store, cfg, job)
    requires RunFrom(i, p, cfg, job, freshCa, faults).failedAt.None?
    ensures Settled(RunFrom(i, p, cfg, job, freshCa, faults).store, cfg, job)
    decreases STAGES - i
  {
    if i < STAGES {
      var next := Advance(i, p, cfg, job, freshCa, faults);
      if next.failedAt.None? {
        StageSettles(i, p.store, cfg, job, p.root, freshCa, faults);
        RunSettles(i + 1, next, cfg, job, freshCa, faults);
      }
    }
  }

  lemma SettledStageWritesNothing(
    i: nat, s: Store, cfg: Config, job: Job, root: Secret, freshCa: nat, faults: set<Call>)
    requires i < STAGES && Settled(s, cfg, job)
    ensures RunStage(i, s, cfg, job, root, freshCa, faults).0.store == s
  {
    if i == 0 {
    } else if i == 1 {
    } else if i == 2 {
      var policies, sources := ConfigMaps.PoliciesMap(job.policies), ConfigMaps.DesiredSources(job.spec);
      ConfigMaps.UpToDateIsStable(s.configMaps[job.name].data, policies, sources);
    } else if i == 3 {
      Deployments.InStepIsStable(
        s, job.name, Deployments.BuiltDeployment(cfg, s.configMaps[job.name].rv, job.name, job.spec), faults);
    } else {
    }
  }

  lemma {:induction false} SettledRunWritesNothing(
    i: nat, p: Progress, cfg: Config, job: Job, freshCa: nat, faults: set<Call>)
    requires i <= STAGES && Settled(p.store, cfg, job)
    ensures RunFrom(i, p, cfg, job, freshCa, faults).store == p.store
    decreases STAGES - i
  {
    if i < STAGES && p.failedAt.None? {
      SettledStageWritesNothing(i, p.store, cfg, job, p.root, freshCa, faults);
      SettledRunWritesNothing(i + 1, Advance(i, p, cfg, job, freshCa, faults), cfg, job, freshCa, faults);
    }
  }

  /**
   * A successful run settles the server, and after it another run with the same inputs changes nothing at all, not
   * even a resource version, whichever of its calls fail.
   */
  lemma ReconcileIdempotent(
    s: Store, conditions: map<ServerCondition, bool>, cfg: Config, job: Job, freshCa: nat, faults: set<Call>,
    freshCa': nat, faults': set<Call>)
    requires Reconcile(s, conditions, cfg, job, freshCa, faults).failedAt.None?
    ensures var q := Reconcile(s, conditions, cfg, job, freshCa, faults);
            && Settled(q.store, cfg, job)
            && Reconcile(q.store, q.conditions, cfg, job, freshCa', faults').store == q.store
  {
    RunSettles(0, Start(s, conditions), cfg, job, freshCa, faults);
    var q := Reconcile(s, conditions, cfg, job, freshCa, faults);
    SettledRunWritesNothing(0, Start(q.store, q.conditions), cfg, job, freshCa', faults');
  }

  // --------------------------------------------------------------- when it succeeds

  /** A serving certificate is there, or can be issued from the root there is, or from a new one. */
  predicate CanServe(s: Store, n: string) {
    NameWithPrefix(n) in s.secrets || ROOT_SECRET !in s.secrets || Secrets.ExtractCa(s.secrets[ROOT_SECRET]).Ok?
  }

  predicate CanConfigure(s: Store, n: string) {
    n in s.configMaps ==> ConfigMaps.Decodes(s.configMaps[n])
  }

  /** An existing deployment has a container of the server's name. */
  predicate CanDeploy(s: Store, n: string) {
    n in s.deployments ==> Deployments.ImageOf(s.deployments[n].template.containers, NameWithPrefix(n)).Some?
  }

  lemma SecretStagesSucceed(s: Store, cfg: Config, n: string, freshCa: nat)
    ensures var out := Secrets.RootStage(s, freshCa, {});
            && out.write.error.None? && out.secret.Some?
            && out.write.store == s.(secrets := out.write.store.secrets)
            && var w := Secrets.ServingStage(out.write.store, cfg, NameWithPrefix(n), out.secret.value, {});
               w.error.None? <==> CanServe(s, n) || NameWithPrefix(n) == ROOT_SECRET
  {
    hide NameWithPrefix;
  }

  lemma ConfigMapStageSucceeds(s: Store, n: string, policies: map<string, PolicyEntry>, sources: Sources)
    ensures ConfigMaps.SyncConfigMap(s, n, policies, sources, {}).error.None? <==> CanConfigure(s, n)
  {
  }

  lemma DeploymentStageSucceeds(s: Store, cfg: Config, n: string, spec: ServerSpec)
    requires n in s.configMaps
    ensures Deployments.DeploymentStage(s, cfg, n, spec, {}).error.None? <==> CanDeploy(s, n)
  {
    assert Deployments.ImageOf(
        Deployments.BuiltDeployment(cfg, s.configMaps[n].rv, n, spec).template.containers, NameWithPrefix(n)).Some?;
  }

  lemma ServiceStageSucceeds(s: Store, n: string)
    ensures ServiceStage(s, n, {}).error.None?
  {
  }

  lemma LaterStagesSucceed(s: Store, root: Secret, conditions: map<ServerCondition, bool>, cfg: Config, job: Job,
                           freshCa: nat)
    ensures RunFrom(2, Progress(s, root, conditions, None), cfg, job, freshCa, {}).failedAt.None? <==>
            CanConfigure(s, job.name) && CanDeploy(s, job.name)
  {
    hide RunFrom;
    hide CanConfigure;
    hide ConfigMaps.PoliciesMap;
    hide ConfigMaps.DesiredSources;
    var n, policies, sources := job.name, ConfigMaps.PoliciesMap(job.policies), ConfigMaps.DesiredSources(job.spec);
    var w2 := ConfigMaps.SyncConfigMap(s, n, policies, sources, {});
    ConfigMapStageSucceeds(s, n, policies, sources);
    ConfigMaps.SyncConfigMapWrites(s, n, policies, sources, {});
    ConfigMaps.SyncConfigMapResult(s, n, policies, sources, {});
    hide ConfigMaps.SyncConfigMap;
    StageDecides(2, s, root, conditions, cfg, job, freshCa, {}, w2, root);
    if w2.error.None? {
      var conditions2 := conditions[2 := true];
      var w3 := Deployments.DeploymentStage(w2.store, cfg, n, job.spec, {});
      DeploymentStageSucceeds(w2.store, cfg, n, job.spec);
      hide Deployments.DeploymentStage;
      StageDecides(3, w2.store, root, conditions2, cfg, job, freshCa, {}, w3, root);
      if w3.error.None? {
        var conditions3 := conditions2[3 := true];
        var w4 := ServiceStage(w3.store, n, {});
        ServiceStageSucceeds(w3.store, n);
        hide ServiceStage;
        StageDecides(4, w3.store, root, conditions3, cfg, job, freshCa, {}, w4, root);
        NothingLeft(Progress(w4.store, root, conditions3[4 := true], None), cfg, job, freshCa, {});
      }
    }
  }

  lemma NothingLeft(p: Progress, cfg: Config, job: Job, freshCa: nat, faults: set<Call>)
    ensures RunFrom(STAGES, p, cfg, job, freshCa, faults) == p
  {
  }

  /** With every call answered, a run succeeds exactly when nothing stored is in its way. */
  lemma ReconcileSucceedsExactly(
    s: Store, conditions: map<ServerCondition, bool>, cfg: Config, job: Job, freshCa: nat)
    requires job.name != "root-ca"
    ensures Reconcile(s, conditions, cfg, job, freshCa, {}).failedAt.None? <==>
            CanServe(s, job.name) && CanConfigure(s, job.name) && CanDeploy(s, job.name)
  {
    ServerNames(job.name, job.name);
    hide RunFrom;
    hide CanServe;
    hide CanConfigure;
    hide CanDeploy;
    hide NameWithPrefix;
    var out := Secrets.RootStage(s, freshCa, {});
    SecretStagesSucceed(s, cfg, job.name, freshCa);
    hide Secrets.RootStage;
    StageDecides(0, s, Secret(map[]), conditions, cfg, job, freshCa, {}, out.write, out.secret.value);
    var conditions1 := conditions[0 := true];
    var w := Secrets.ServingStage(out.write.store, cfg, NameWithPrefix(job.name), out.secret.value, {});
    StageDecides(1, out.write.store, out.secret.value, conditions1, cfg, job, freshCa, {}, w, out.secret.value);
    if w.error.None? {
      ServingStageKeepsTheRest(out.write.store, cfg, NameWithPrefix(job.name), out.secret.value);
      SameConfiguration(s, w.store, job.name);
      LaterStagesSucceed(w.store, out.secret.value, conditions1[1 := true], cfg, job, freshCa);
    }
  }

  lemma ServingStageKeepsTheRest(s: Store, cfg: Config, name: string, root: Secret)
    ensures var w := Secrets.ServingStage(s, cfg, name, root, {}); w.store == s.(secrets := w.store.secrets)
  {
  }

  lemma SameConfiguration(s: Store, s': Store, n: string)
    requires s'.configMaps == s.configMaps && s'.deployments == s.deployments
    ensures CanConfigure(s', n) == CanConfigure(s, n) && CanDeploy(s', n) == CanDeploy(s, n)
  {
  }

  // ------------------------------------------------------- a server in deletion

  /** What a reconcile call answers. */
  datatype Answer = Finished | Requeue | Error

  /** Deletes each listed policy; a failed call leaves its policy as it is. */
  function DeleteEach(
    policies: map<PolicyKey, Policy>, keys: seq<BoundPolicy>, faults: set<Call>): map<PolicyKey, Policy>
  {
    if keys == [] then policies
    else
      var k := keys[|keys| - 1].key;
      var front := DeleteEach(policies, keys[..|keys| - 1], faults);
      if k !in front || DeleteBoundPolicy(k) in faults then front
      else PutPolicy(front, k, front[k].(deleting := true))
  }

  predicate SomeDeletionFails(keys: seq<BoundPolicy>, faults: set<Call>) {
    exists p :: p in keys && DeleteBoundPolicy(p.key) in faults
  }

  /** Deployment, serving secret, Service and ConfigMap, each whether or not the others could be deleted. */
  function DeleteOwned(s: Store, n: string, faults: set<Call>): Store {
    var s1 := Api.DeleteDeployment(s, n, DeleteDeployment in faults).store;
    var s2 := Api.DeleteSecret(s1, NameWithPrefix(n), DeleteSecret in faults).store;
    var s3 := Api.DeleteService(s2, n, DeleteService in faults).store;
    Api.DeleteConfigMap(s3, n, DeleteConfigMap in faults).store
  }

  predicate OwnedDeletionFails(faults: set<Call>) {
    DeleteDeployment in faults || DeleteSecret in faults || DeleteService in faults || DeleteConfigMap in faults
  }

  /** The server's finalizer comes off only once no live policy is bound and all four resources are gone. */
  function ReconcileDeletion(s: Store, n: string, listed: seq<PolicyKey>, faults: set<Call>): (Store, Answer)
    requires n in s.servers
  {
    var live := LiveOnly(s.policies, listed);
    var s1 := s.(policies := DeleteEach(s.policies, live, faults));
    if SomeDeletionFails(live, faults) then (s1, Error)
    else if live != [] then (s1, Requeue)
    else
      var s2 := DeleteOwned(s1, n, faults);
      if OwnedDeletionFails(faults) then (s2, Error)
      else
        var fail := if PolicyServerConflict in faults then Some(Conflict)
                    else if UpdatePolicyServer in faults then Some(Other) else None;
        var w := Api.UpdateServer(s2, n, s.servers[n].finalizers - {Kubewarden}, fail);
        (w.store, if w.error.None? || w.error == Some(Conflict) then Finished else Error)
  }

  predicate OwnsNothing(s: Store, n: string) {
    n !in s.deployments && NameWithPrefix(n) !in s.secrets && n !in s.services && n !in s.configMaps
  }

  lemma DeleteOwnedDeletes(s: Store, n: string, faults: set<Call>)
    ensures DeleteOwned(s, n, faults) == s.(
              deployments := if DeleteDeployment in faults then s.deployments else Remove(s.deployments, n),
              secrets := if DeleteSecret in faults then s.secrets else Remove(s.secrets, NameWithPrefix(n)),
              services := if DeleteService in faults then s.services else s.services - {n},
              configMaps := if DeleteConfigMap in faults then s.configMaps else Remove(s.configMaps, n))
  {
    var s1 := Api.DeleteDeployment(s, n, DeleteDeployment in faults).store;
    Api.DeleteDeploymentEffect(s, n, DeleteDeployment in faults);
    var s2 := Api.DeleteSecret(s1, NameWithPrefix(n), DeleteSecret in faults).store;
    Api.DeleteSecretEffect(s1, NameWithPrefix(n), DeleteSecret in faults);
    var s3 := Api.DeleteService(s2, n, DeleteService in faults).store;
    Api.DeleteServiceEffect(s2, n, DeleteService in faults);
    Api.DeleteConfigMapEffect(s3, n, DeleteConfigMap in faults);
  }
}
