/** What each controller step may write, without how it computes it: all that the invariants need to know. */
module Effects {
  import opened Common
  import opened Naming
  import opened Model
  import Admission
  import Api
  import ConfigMaps
  import Deployments
  import Secrets
  import Pipeline

  /** A root secret, complete and consistent. */
  predicate IsRoot(secret: Secret) {
    RootCert in secret.data && secret.data[RootCert].CaCert? &&
    secret == Secrets.BuildRootSecret(secret.data[RootCert].ca)
  }

  function CaOf(secret: Secret): nat
    requires IsRoot(secret)
  {
    secret.data[RootCert].ca
  }

  ghost predicate RootStageWrites(s: Store, s': Store, root': Secret, ok: bool) {
    && Secrets.AddsSecret(s, s', ROOT_SECRET)
    && (ok ==> ROOT_SECRET in s'.secrets && root' == s'.secrets[ROOT_SECRET])
    && (ROOT_SECRET !in s.secrets && ROOT_SECRET in s'.secrets ==> IsRoot(s'.secrets[ROOT_SECRET]))
  }

  ghost predicate ServingStageWrites(s: Store, s': Store, name: string, root: Secret) {
    && Secrets.AddsSecret(s, s', name)
    && (name !in s.secrets && name in s'.secrets && IsRoot(root) ==>
          Secrets.SignedBy(s'.secrets[name], CaOf(root)))
  }

  ghost predicate ConfigMapStageWrites(s: Store, s': Store, job: Pipeline.Job, ok: bool) {
    && ConfigMaps.WritesConfigMap(s, s', job.name)
    && (!ok ==> s' == s)
    && (ok ==> job.name in s'.configMaps &&
               ConfigMaps.ServedPolicies(s'.configMaps[job.name]) == Ok(ConfigMaps.PoliciesMap(job.policies)) &&
               ConfigMaps.Decodes(s'.configMaps[job.name]))
  }

  /** A deployment of server `n` for that configuration version, in annotation and template alike. */
  predicate Fits(d: Deployment, n: string, version: nat) {
    && d.configVersion == Some(version) && d.template.configVersion == version
    && d.serverLabel == n && d.template.serverLabel == n
    && Deployments.ImageOf(d.template.containers, NameWithPrefix(n)).Some?
  }

  ghost predicate DeploymentStageWrites(s: Store, s': Store, n: string) {
    s' == s || (n in s.configMaps &&
                exists d :: Fits(d, n, s.configMaps[n].rv) && Deployments.WritesDeployment(s, s', n, d))
  }

  ghost predicate ServiceStageWrites(s: Store, s': Store, n: string) {
    s' == s.(services := s'.services) && s.services <= s'.services <= s.services + {n}
  }

  ghost predicate StageWrites(
    i: nat, s: Store, s': Store, job: Pipeline.Job, root: Secret, root': Secret, ok: bool)
  {
    && (i != CA_ROOT_SECRET_RECONCILED ==> root' == root)
    && if i == CA_ROOT_SECRET_RECONCILED then RootStageWrites(s, s', root', ok)
       else if i == CA_SECRET_RECONCILED then ServingStageWrites(s, s', NameWithPrefix(job.name), root)
       else if i == CONFIG_MAP_RECONCILED then ConfigMapStageWrites(s, s', job, ok)
       else if i == DEPLOYMENT_RECONCILED then DeploymentStageWrites(s, s', job.name)
       else ServiceStageWrites(s, s', job.name)
  }

  lemma RootStageEffect(s: Store, freshCa: nat, root: Secret, faults: set<Call>)
    ensures var out := Secrets.RootStage(s, freshCa, faults);
            RootStageWrites(
              s, out.write.store, if out.secret.Some? then out.secret.value else root, out.write.error.None?)
  {
    Secrets.RootStageResult(s, freshCa, faults);
    var fetched := Secrets.FetchRoot(s, freshCa, faults);
    if fetched.Ok? {
      Secrets.CreateSecretAdds(s, ROOT_SECRET, fetched.value, CreateRootSecret in faults);
    }
  }

  lemma ServingStageEffect(s: Store, cfg: Config, name: string, root: Secret, faults: set<Call>)
    ensures ServingStageWrites(s, Secrets.ServingStage(s, cfg, name, root, faults).store, name, root)
  {
    var fetched := Secrets.FetchServing(s, cfg, name, root, faults);
    if fetched.Ok? {
      Secrets.CreateSecretAdds(s, name, fetched.value, CreateServingSecret in faults);
    }
    if IsRoot(root) {
      Secrets.ServingStageResult(s, cfg, name, CaOf(root), faults);
    }
  }

  lemma ConfigMapStageEffect(s: Store, job: Pipeline.Job, faults: set<Call>)
    ensures var w := ConfigMaps.ConfigMapStage(s, job.name, job.spec, job.policies, faults);
            ConfigMapStageWrites(s, w.store, job, w.error.None?)
  {
    var policies, sources := ConfigMaps.PoliciesMap(job.policies), ConfigMaps.DesiredSources(job.spec);
    hide ConfigMaps.PoliciesMap;
    hide ConfigMaps.DesiredSources;
    hide ConfigMaps.WritesConfigMap;
    ConfigMaps.SyncConfigMapWrites(s, job.name, policies, sources, faults);
    ConfigMaps.SyncConfigMapResult(s, job.name, policies, sources, faults);
  }

  lemma DeploymentStageEffect(s: Store, cfg: Config, n: string, spec: ServerSpec, faults: set<Call>)
    ensures DeploymentStageWrites(s, Deployments.DeploymentStage(s, cfg, n, spec, faults).store, n)
  {
    if ReadConfigMapVersion in faults {
    } else if n !in s.configMaps {
    } else if spec.imagePullSecret != "" && CheckPullSecret in faults {
    } else {
      var d := Deployments.BuiltDeployment(cfg, s.configMaps[n].rv, n, spec);
      Deployments.SyncDeploymentWrites(s, n, d, faults);
      assert Fits(d, n, s.configMaps[n].rv);
    }
  }

  lemma StageEffect(i: nat, s: Store, cfg: Config, job: Pipeline.Job, root: Secret, freshCa: nat, faults: set<Call>)
    requires i < STAGES
    ensures var (w, root') := Pipeline.RunStage(i, s, cfg, job, root, freshCa, faults);
            StageWrites(i, s, w.store, job, root, root', w.error.None?)
  {
    hide RootStageWrites;
    hide ServingStageWrites;
    hide ConfigMapStageWrites;
    hide DeploymentStageWrites;
    hide Secrets.RootStage;
    hide Secrets.ServingStage;
    hide ConfigMaps.ConfigMapStage;
    hide Deployments.DeploymentStage;
    if i == 0 {
      RootStageEffect(s, freshCa, root, faults);
    } else if i == 1 {
      ServingStageEffect(s, cfg, NameWithPrefix(job.name), root, faults);
    } else if i == 2 {
      ConfigMapStageEffect(s, job, faults);
    } else if i == 3 {
      DeploymentStageEffect(s, cfg, job.name, job.spec, faults);
    } else if CreateService in faults {
    } else if job.name in s.services {
    } else {
    }
  }

  /** Policies, policy servers, webhooks and pods are the same in both stores; deployments and secrets where asked for. */
  predicate SameObjects(s: Store, s': Store, deployments: bool, secrets: bool) {
    && s'.policies == s.policies && s'.servers == s.servers
    && s'.mutating == s.mutating && s'.validating == s.validating && s'.pods == s.pods
    && (deployments ==> s'.deployments == s.deployments)
    && (secrets ==> s'.secrets == s.secrets)
  }

  lemma SecretStageKeepsObjects(s: Store, s': Store, name: string)
    requires Secrets.AddsSecret(s, s', name)
    ensures SameObjects(s, s', true, false)
  {
  }

  lemma ConfigMapStageKeepsObjects(s: Store, s': Store, n: string)
    requires ConfigMaps.WritesConfigMap(s, s', n)
    ensures SameObjects(s, s', true, true)
  {
  }

  lemma DeploymentStageKeepsObjects(s: Store, s': Store, n: string)
    requires DeploymentStageWrites(s, s', n)
    ensures SameObjects(s, s', false, true)
  {
    hide Deployments.TakesOver;
    hide Fits;
  }

  lemma ServiceStageKeepsObjects(s: Store, services': set<string>)
    ensures SameObjects(s, s.(services := services'), true, true)
  {
  }

  /** No stage touches them: only the fourth writes deployments, and only the first two write secrets. */
  lemma StageKeepsObjects(i: nat, s: Store, s': Store, job: Pipeline.Job, root: Secret, root': Secret, ok: bool)
    requires StageWrites(i, s, s', job, root, root', ok)
    ensures SameObjects(s, s', i != DEPLOYMENT_RECONCILED, i > CA_SECRET_RECONCILED)
  {
    hide NameWithPrefix;
    hide SameObjects;
    if i == CA_ROOT_SECRET_RECONCILED {
      SecretStageKeepsObjects(s, s', ROOT_SECRET);
    } else if i == CA_SECRET_RECONCILED {
      SecretStageKeepsObjects(s, s', NameWithPrefix(job.name));
    } else if i == CONFIG_MAP_RECONCILED {
      ConfigMapStageKeepsObjects(s, s', job.name);
    } else if i == DEPLOYMENT_RECONCILED {
      DeploymentStageKeepsObjects(s, s', job.name);
    } else {
      ServiceStageKeepsObjects(s, s'.services);
    }
  }

  lemma {:induction false} RunKeepsPolicies(
    i: nat, p: Pipeline.Progress, cfg: Config, job: Pipeline.Job, freshCa: nat, faults: set<Call>)
    requires i <= STAGES
    ensures Pipeline.RunFrom(i, p, cfg, job, freshCa, faults).store.policies == p.store.policies
    ensures Pipeline.RunFrom(i, p, cfg, job, freshCa, faults).store.servers == p.store.servers
    decreases STAGES - i
  {
    if i < STAGES && p.failedAt.None? {
      hide Pipeline.RunStage;
      hide StageWrites;
      var (w, root') := Pipeline.RunStage(i, p.store, cfg, job, p.root, freshCa, faults);
      StageEffect(i, p.store, cfg, job, p.root, freshCa, faults);
      StageKeepsObjects(i, p.store, w.store, job, p.root, root', w.error.None?);
      RunKeepsPolicies(i + 1, Pipeline.Advance(i, p, cfg, job, freshCa, faults), cfg, job, freshCa, faults);
    }
  }

  lemma RunKeepsStart(
    s: Store, conditions: map<ServerCondition, bool>, cfg: Config, job: Pipeline.Job, freshCa: nat, faults: set<Call>)
    ensures var q := Pipeline.Reconcile(s, conditions, cfg, job, freshCa, faults);
            q.store.policies == s.policies && q.store.servers == s.servers
  {
    RunKeepsPolicies(0, Pipeline.Start(s, conditions), cfg, job, freshCa, faults);
  }

  // -------------------------------------------------------------- the teardown

  /** Marking policies for deletion; those without finalizers go at once. */
  ghost predicate Marks(before: map<PolicyKey, Policy>, after: map<PolicyKey, Policy>) {
    && after.Keys <= before.Keys
    && (forall k :: k in after ==> after[k] == before[k] || after[k] == before[k].(deleting := true))
    && (forall k :: k in before && k !in after ==> before[k].finalizers == {})
  }

  lemma {:induction false} DeleteEachMarks(
    policies: map<PolicyKey, Policy>, keys: seq<BoundPolicy>, faults: set<Call>)
    ensures Marks(policies, Pipeline.DeleteEach(policies, keys, faults))
  {
    if keys != [] {
      DeleteEachMarks(policies, keys[..|keys| - 1], faults);
    }
  }

  /** Nothing owned by `n` is left, or everything is as it was apart from what was deleted of `n`'s. */
  ghost predicate Teardown(s: Store, s': Store, n: string)
    requires n in s.servers
  {
    && s' == s.(policies := s'.policies, servers := s'.servers, deployments := s'.deployments, secrets := s'.secrets,
                services := s'.services, configMaps := s'.configMaps)
    && Marks(s.policies, s'.policies)
    && s'.deployments in {s.deployments, Remove(s.deployments, n)}
    && s'.secrets in {s.secrets, Remove(s.secrets, NameWithPrefix(n))}
    && s'.services in {s.services, s.services - {n}}
    && s'.configMaps in {s.configMaps, Remove(s.configMaps, n)}
    && (s'.servers != s.servers ==>
          && Pipeline.OwnsNothing(s', n)
          && s'.servers ==
               Api.PutServer(s.servers, n, Admission.DefaultServer(
                                             s.servers[n].(finalizers := s.servers[n].finalizers - {Kubewarden}))))
  }

  /** Owned resources and the server are touched only when no live policy is bound to it. */
  ghost predicate TeardownWaits(s: Store, s': Store, n: string) {
    (exists k :: Pipeline.LiveAndBound(s, k, n)) ==> s' == s.(policies := s'.policies)
  }

  lemma TeardownEffect(s: Store, n: string, listed: seq<PolicyKey>, faults: set<Call>)
    requires n in s.servers && Enumerates(listed, Pipeline.BoundKeys(s, n))
    ensures var s' := Pipeline.ReconcileDeletion(s, n, listed, faults).0;
            Teardown(s, s', n) && TeardownWaits(s, s', n)
  {
    var live := Pipeline.LiveOnly(s.policies, listed);
    var s1 := s.(policies := Pipeline.DeleteEach(s.policies, live, faults));
    DeleteEachMarks(s.policies, live, faults);
    Pipeline.ListedPolicies(s, n, listed);
    hide Pipeline.DeleteEach;
    hide Pipeline.LiveOnly;
    hide Pipeline.DeleteOwned;
    if Pipeline.SomeDeletionFails(live, faults) {
    } else if live != [] {
    } else {
      Pipeline.DeleteOwnedDeletes(s1, n, faults);
      if Pipeline.OwnedDeletionFails(faults) {
      } else if PolicyServerConflict in faults {
      } else if UpdatePolicyServer in faults {
      } else {
      }
    }
  }
}
