/**
 * The API server: what each call does to the stored objects.  `fail` says that the call fails for a reason of its
 * own, in which case nothing is written.  Patches are JSON merge patches (RFC 7386, section 2): an empty difference
 * writes nothing and keeps the resource version.
 */
module Api {
  import opened Common
  import opened Naming
  import opened Model
  import Admission

  /** The store after a call and, when the call failed, why. */
  datatype Write = Write(store: Store, error: Option<Failure>)

  function Done(s: Store): Write {
    Write(s, None)
  }

  function Failed(s: Store, e: Failure): Write {
    Write(s, Some(e))
  }

  // ------------------------------------------------------- owned resources

  function CreateConfigMap(
    s: Store, n: string, serverLabel: Option<string>, data: map<ConfigKey, Text>, fail: bool): Write {
    if fail then Failed(s, Other)
    else if n in s.configMaps then Failed(s, AlreadyExists)
    else Done(s.(configMaps := s.configMaps[n := ConfigMap(s.rv + 1, serverLabel, data)], rv := s.rv + 1))
  }

  function PatchConfigMap(s: Store, n: string, data: map<ConfigKey, Text>, fail: bool): Write {
    if fail then Failed(s, Other)
    else if n !in s.configMaps then Failed(s, NotFound)
    else if s.configMaps[n].data == data then Done(s)
    else Done(s.(configMaps := s.configMaps[n := s.configMaps[n].(rv := s.rv + 1, data := data)], rv := s.rv + 1))
  }

  function DeleteConfigMap(s: Store, n: string, fail: bool): Write {
    if fail then Failed(s, Other)
    else if n !in s.configMaps then Failed(s, NotFound)
    else Done(s.(configMaps := Remove(s.configMaps, n)))
  }

  function CreateDeployment(s: Store, n: string, d: Deployment, fail: bool): Write {
    if fail then Failed(s, Other)
    else if n in s.deployments then Failed(s, AlreadyExists)
    else Done(s.(deployments := s.deployments[n := d.(uid := s.rv + 1, rv := s.rv + 1)], rv := s.rv + 1))
  }

  /** Replaces the deployment by `d` unless they agree on everything but the resource version. */
  function PatchDeployment(s: Store, n: string, d: Deployment, fail: bool): Write {
    if fail then Failed(s, Other)
    else if n !in s.deployments then Failed(s, NotFound)
    else if d.(rv := s.deployments[n].rv) == s.deployments[n] then Done(s)
    else Done(s.(deployments := s.deployments[n := d.(rv := s.rv + 1)], rv := s.rv + 1))
  }

  function DeleteDeployment(s: Store, n: string, fail: bool): Write {
    if fail then Failed(s, Other)
    else if n !in s.deployments then Failed(s, NotFound)
    else Done(s.(deployments := Remove(s.deployments, n)))
  }

  function CreateSecret(s: Store, name: string, secret: Secret, fail: bool): Write {
    if fail then Failed(s, Other)
    else if name in s.secrets then Failed(s, AlreadyExists)
    else Done(s.(secrets := s.secrets[name := secret]))
  }

  function DeleteSecret(s: Store, name: string, fail: bool): Write {
    if fail then Failed(s, Other)
    else if name !in s.secrets then Failed(s, NotFound)
    else Done(s.(secrets := Remove(s.secrets, name)))
  }

  function CreateService(s: Store, n: string, fail: bool): Write {
    if fail then Failed(s, Other)
    else if n in s.services then Failed(s, AlreadyExists)
    else Done(s.(services := s.services + {n}))
  }

  function DeleteService(s: Store, n: string, fail: bool): Write {
    if fail then Failed(s, Other)
    else if n !in s.services then Failed(s, NotFound)
    else Done(s.(services := s.services - {n}))
  }

  // --------------------------------------------------------------- webhooks

  function CreateWebhook(s: Store, kind: WebhookKind, u: string, hooks: seq<Webhook>, fail: bool): Write {
    if fail then Failed(s, Other)
    else if u in s.Webhooks(kind) then Failed(s, AlreadyExists)
    else Done(PutWebhook(s, kind, u, hooks))
  }

  function PatchWebhook(s: Store, kind: WebhookKind, u: string, hooks: seq<Webhook>, fail: bool): Write {
    if fail then Failed(s, Other)
    else if u !in s.Webhooks(kind) then Failed(s, NotFound)
    else if s.Webhooks(kind)[u].webhooks == hooks then Done(s)
    else Done(PutWebhook(s, kind, u, hooks))
  }

  function PutWebhook(s: Store, kind: WebhookKind, u: string, hooks: seq<Webhook>): Store {
    s.(rv := s.rv + 1).WithWebhooks(kind, s.Webhooks(kind)[u := WebhookConfiguration(s.rv + 1, hooks)])
  }

  function DeleteWebhook(s: Store, kind: WebhookKind, u: string, fail: bool): Write {
    if fail then Failed(s, Other)
    else if u !in s.Webhooks(kind) then Failed(s, NotFound)
    else Done(s.WithWebhooks(kind, Remove(s.Webhooks(kind), u)))
  }

  // ------------------------------------------------ policies and policy servers

  /** A delete call marks an object that has finalizers and removes one that has none. */
  function DeletePolicy(s: Store, k: PolicyKey, fail: bool): Write {
    if fail then Failed(s, Other)
    else if k !in s.policies then Failed(s, NotFound)
    else Done(s.(policies := PutPolicy(s.policies, k, s.policies[k].(deleting := true))))
  }

  /** Stores `p`, unless it is marked for deletion and no finalizer holds it back. */
  function PutPolicy(policies: map<PolicyKey, Policy>, k: PolicyKey, p: Policy): map<PolicyKey, Policy> {
    if p.deleting && p.finalizers == {} then Remove(policies, k) else policies[k := p]
  }

  /** Replaces spec and finalizers, through defaulting and validation. */
  function UpdatePolicy(
    s: Store, cfg: Config, k: PolicyKey, spec: PolicySpec, finalizers: set<Finalizer>, fail: bool): Write {
    if fail then Failed(s, Other)
    else if k !in s.policies then Failed(s, NotFound)
    else
      var admitted := Admission.AdmitPolicyUpdate(cfg, s.policies[k], spec, finalizers);
      if admitted.None? then Failed(s, Other)
      else Done(s.(policies := PutPolicy(s.policies, k, admitted.value)))
  }

  /** Writes the status subresource: spec, finalizers and deletion mark stay as stored. */
  function UpdatePolicyStatus(s: Store, k: PolicyKey, status: PolicyStatus, fail: bool): Write {
    if fail then Failed(s, Other)
    else if k !in s.policies then Failed(s, NotFound)
    else Done(s.(policies := s.policies[k := s.policies[k].(status := status)]))
  }

  function DeleteServer(s: Store, n: string, fail: bool): Write {
    if fail then Failed(s, Other)
    else if n !in s.servers then Failed(s, NotFound)
    else Done(s.(servers := PutServer(s.servers, n, s.servers[n].(deleting := true))))
  }

  function PutServer(servers: map<string, PolicyServer>, n: string, p: PolicyServer): map<string, PolicyServer> {
    if p.deleting && p.finalizers == {} then Remove(servers, n) else servers[n := p]
  }

  /** Replaces the finalizers, through defaulting. */
  function UpdateServer(s: Store, n: string, finalizers: set<Finalizer>, fail: Option<Failure>): Write {
    if fail.Some? then Failed(s, fail.value)
    else if n !in s.servers then Failed(s, NotFound)
    else
      var p := Admission.DefaultServer(s.servers[n].(finalizers := finalizers));
      Done(s.(servers := PutServer(s.servers, n, p)))
  }

  function UpdateServerStatus(
    s: Store, n: string, conditions: map<ServerCondition, bool>, fail: bool): Write {
    if fail then Failed(s, Other)
    else if n !in s.servers then Failed(s, NotFound)
    else Done(s.(servers := s.servers[n := s.servers[n].(conditions := conditions)]))
  }

  // ------------------------------------- deleting: the object is gone unless the call failed

  lemma RemoveAbsent<K, V>(m: map<K, V>, k: K)
    requires k !in m
    ensures Remove(m, k) == m
  {
  }

  function DeleteError(fail: bool, present: bool): Option<Failure> {
    if fail then Some(Other) else if present then None else Some(NotFound)
  }

  lemma DeleteDeploymentEffect(s: Store, n: string, fail: bool)
    ensures DeleteDeployment(s, n, fail).error == DeleteError(fail, n in s.deployments)
    ensures DeleteDeployment(s, n, fail).store ==
            s.(deployments := if fail then s.deployments else Remove(s.deployments, n))
  {
    if n !in s.deployments {
      RemoveAbsent(s.deployments, n);
    }
  }

  lemma DeleteSecretEffect(s: Store, name: string, fail: bool)
    ensures DeleteSecret(s, name, fail).error == DeleteError(fail, name in s.secrets)
    ensures DeleteSecret(s, name, fail).store == s.(secrets := if fail then s.secrets else Remove(s.secrets, name))
  {
    if name !in s.secrets {
      RemoveAbsent(s.secrets, name);
    }
  }

  lemma DeleteServiceEffect(s: Store, n: string, fail: bool)
    ensures DeleteService(s, n, fail).error == DeleteError(fail, n in s.services)
    ensures DeleteService(s, n, fail).store == s.(services := if fail then s.services else s.services - {n})
  {
  }

  lemma DeleteConfigMapEffect(s: Store, n: string, fail: bool)
    ensures DeleteConfigMap(s, n, fail).error == DeleteError(fail, n in s.configMaps)
    ensures DeleteConfigMap(s, n, fail).store ==
            s.(configMaps := if fail then s.configMaps else Remove(s.configMaps, n))
  {
    if n !in s.configMaps {
      RemoveAbsent(s.configMaps, n);
    }
  }
}
