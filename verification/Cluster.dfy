/**
 * The cluster as the controller's code works on it: stored objects in maps that API calls update in place.  Every call
 * is proved against what `Api` says it does.
 */
module ClusterState {
  import opened Common
  import opened Naming
  import opened Model
  import Admission
  import Api

  class Cluster {
    var rv: nat
    var policies: map<PolicyKey, Policy>
    var servers: map<string, PolicyServer>
    var configMaps: map<string, ConfigMap>
    var deployments: map<string, Deployment>
    var replicaSets: map<nat, ReplicaSet>
    var pods: map<nat, Pod>
    var secrets: map<string, Secret>
    var services: set<string>
    var mutating: map<string, WebhookConfiguration>
    var validating: map<string, WebhookConfiguration>

    /** Everything stored, as a value. */
    function Snapshot(): Store
      reads this
    {
      Store(rv, policies, servers, configMaps, deployments, replicaSets, pods, secrets, services, mutating, validating)
    }

    constructor ()
      ensures Snapshot() == EMPTY_STORE
    {
      rv, policies, servers, configMaps, deployments := 0, map[], map[], map[], map[];
      replicaSets, pods, secrets, services, mutating, validating := map[], map[], map[], {}, map[], map[];
    }

    // ----------------------------------------------------------- owned resources

    method CreateConfigMap(n: string, serverLabel: Option<string>, data: map<ConfigKey, Text>, fail: bool)
      returns (error: Option<Failure>)
      modifies this`rv, this`configMaps
      ensures Api.Write(Snapshot(), error) == Api.CreateConfigMap(old(Snapshot()), n, serverLabel, data, fail)
    {
      if fail {
        return Some(Other);
      } else if n in configMaps {
        return Some(AlreadyExists);
      }
      rv := rv + 1;
      configMaps := configMaps[n := ConfigMap(rv, serverLabel, data)];
      return None;
    }

    method PatchConfigMap(n: string, data: map<ConfigKey, Text>, fail: bool) returns (error: Option<Failure>)
      modifies this`rv, this`configMaps
      ensures Api.Write(Snapshot(), error) == Api.PatchConfigMap(old(Snapshot()), n, data, fail)
    {
      if fail {
        return Some(Other);
      } else if n !in configMaps {
        return Some(NotFound);
      }
      if configMaps[n].data != data {
        rv := rv + 1;
        configMaps := configMaps[n := configMaps[n].(rv := rv, data := data)];
      }
      return None;
    }

    method DeleteConfigMap(n: string, fail: bool) returns (error: Option<Failure>)
      modifies this`configMaps
      ensures Api.Write(Snapshot(), error) == Api.DeleteConfigMap(old(Snapshot()), n, fail)
    {
      if fail {
        return Some(Other);
      } else if n !in configMaps {
        return Some(NotFound);
      }
      configMaps := Remove(configMaps, n);
      return None;
    }

    method CreateDeployment(n: string, d: Deployment, fail: bool) returns (error: Option<Failure>)
      modifies this`rv, this`deployments
      ensures Api.Write(Snapshot(), error) == Api.CreateDeployment(old(Snapshot()), n, d, fail)
    {
      if fail {
        return Some(Other);
      } else if n in deployments {
        return Some(AlreadyExists);
      }
      rv := rv + 1;
      deployments := deployments[n := d.(uid := rv, rv := rv)];
      return None;
    }

    method PatchDeployment(n: string, d: Deployment, fail: bool) returns (error: Option<Failure>)
      modifies this`rv, this`deployments
      ensures Api.Write(Snapshot(), error) == Api.PatchDeployment(old(Snapshot()), n, d, fail)
    {
      if fail {
        return Some(Other);
      } else if n !in deployments {
        return Some(NotFound);
      }
      if d.(rv := deployments[n].rv) != deployments[n] {
        rv := rv + 1;
        deployments := deployments[n := d.(rv := rv)];
      }
      return None;
    }

    method DeleteDeployment(n: string, fail: bool) returns (error: Option<Failure>)
      modifies this`deployments
      ensures Api.Write(Snapshot(), error) == Api.DeleteDeployment(old(Snapshot()), n, fail)
    {
      if fail {
        return Some(Other);
      } else if n !in deployments {
        return Some(NotFound);
      }
      deployments := Remove(deployments, n);
      return None;
    }

    method CreateSecret(name: string, secret: Secret, fail: bool) returns (error: Option<Failure>)
      modifies this`secrets
      ensures Api.Write(Snapshot(), error) == Api.CreateSecret(old(Snapshot()), name, secret, fail)
    {
      if fail {
        return Some(Other);
      } else if name in secrets {
        return Some(AlreadyExists);
      }
      secrets := secrets[name := secret];
      return None;
    }

    method DeleteSecret(name: string, fail: bool) returns (error: Option<Failure>)
      modifies this`secrets
      ensures Api.Write(Snapshot(), error) == Api.DeleteSecret(old(Snapshot()), name, fail)
    {
      if fail {
        return Some(Other);
      } else if name !in secrets {
        return Some(NotFound);
      }
      secrets := Remove(secrets, name);
      return None;
    }

    method CreateService(n: string, fail: bool) returns (error: Option<Failure>)
      modifies this`services
      ensures Api.Write(Snapshot(), error) == Api.CreateService(old(Snapshot()), n, fail)
    {
      if fail {
        return Some(Other);
      } else if n in services {
        return Some(AlreadyExists);
      }
      services := services + {n};
      return None;
    }

    method DeleteService(n: string, fail: bool) returns (error: Option<Failure>)
      modifies this`services
      ensures Api.Write(Snapshot(), error) == Api.DeleteService(old(Snapshot()), n, fail)
    {
      if fail {
        return Some(Other);
      } else if n !in services {
        return Some(NotFound);
      }
      services := services - {n};
      return None;
    }

    // ------------------------------------------------------------------ webhooks

    method PutWebhook(kind: WebhookKind, u: string, hooks: seq<Webhook>)
      modifies this`rv, this`mutating, this`validating
      ensures Snapshot() == Api.PutWebhook(old(Snapshot()), kind, u, hooks)
    {
      rv := rv + 1;
      if kind.Mutating? {
        mutating := mutating[u := WebhookConfiguration(rv, hooks)];
      } else {
        validating := validating[u := WebhookConfiguration(rv, hooks)];
      }
    }

    method CreateWebhook(kind: WebhookKind, u: string, hooks: seq<Webhook>, fail: bool) returns (error: Option<Failure>)
      modifies this`rv, this`mutating, this`validating
      ensures Api.Write(Snapshot(), error) == Api.CreateWebhook(old(Snapshot()), kind, u, hooks, fail)
    {
      if fail {
        return Some(Other);
      } else if u in Snapshot().Webhooks(kind) {
        return Some(AlreadyExists);
      }
      PutWebhook(kind, u, hooks);
      return None;
    }

    method PatchWebhook(kind: WebhookKind, u: string, hooks: seq<Webhook>, fail: bool) returns (error: Option<Failure>)
      modifies this`rv, this`mutating, this`validating
      ensures Api.Write(Snapshot(), error) == Api.PatchWebhook(old(Snapshot()), kind, u, hooks, fail)
    {
      if fail {
        return Some(Other);
      } else if u !in Snapshot().Webhooks(kind) {
        return Some(NotFound);
      }
      if Snapshot().Webhooks(kind)[u].webhooks != hooks {
        PutWebhook(kind, u, hooks);
      }
      return None;
    }

    method DeleteWebhook(kind: WebhookKind, u: string, fail: bool) returns (error: Option<Failure>)
      modifies this`mutating, this`validating
      ensures Api.Write(Snapshot(), error) == Api.DeleteWebhook(old(Snapshot()), kind, u, fail)
    {
      if fail {
        return Some(Other);
      } else if u !in Snapshot().Webhooks(kind) {
        return Some(NotFound);
      }
      if kind.Mutating? {
        mutating := Remove(mutating, u);
      } else {
        validating := Remove(validating, u);
      }
      return None;
    }

    // --------------------------------------------------- policies and policy servers

    method DeletePolicy(k: PolicyKey, fail: bool) returns (error: Option<Failure>)
      modifies this`policies
      ensures Api.Write(Snapshot(), error) == Api.DeletePolicy(old(Snapshot()), k, fail)
    {
      if fail {
        return Some(Other);
      } else if k !in policies {
        return Some(NotFound);
      }
      if policies[k].finalizers == {} {
        policies := Remove(policies, k);
      } else {
        policies := policies[k := policies[k].(deleting := true)];
      }
      return None;
    }

    /** Through defaulting and validation; a policy under deletion that loses its last finalizer goes. */
    method UpdatePolicy(cfg: Config, k: PolicyKey, spec: PolicySpec, finalizers: set<Finalizer>, fail: bool)
      returns (error: Option<Failure>)
      modifies this`policies
      ensures Api.Write(Snapshot(), error) == Api.UpdatePolicy(old(Snapshot()), cfg, k, spec, finalizers, fail)
    {
      if fail {
        return Some(Other);
      } else if k !in policies {
        return Some(NotFound);
      }
      var p := Admission.DefaultPolicy(cfg, policies[k].(spec := spec, finalizers := finalizers));
      if !Admission.ValidPolicyUpdate(policies[k].spec, p.spec) {
        return Some(Other);
      }
      if p.deleting && p.finalizers == {} {
        policies := Remove(policies, k);
      } else {
        policies := policies[k := p];
      }
      return None;
    }

    method UpdatePolicyStatus(k: PolicyKey, status: PolicyStatus, fail: bool) returns (error: Option<Failure>)
      modifies this`policies
      ensures Api.Write(Snapshot(), error) == Api.UpdatePolicyStatus(old(Snapshot()), k, status, fail)
    {
      if fail {
        return Some(Other);
      } else if k !in policies {
        return Some(NotFound);
      }
      policies := policies[k := policies[k].(status := status)];
      return None;
    }

    /** A server under deletion that loses its last finalizer goes. */
    method UpdateServer(n: string, finalizers: set<Finalizer>, fail: Option<Failure>) returns (error: Option<Failure>)
      modifies this`servers
      ensures Api.Write(Snapshot(), error) == Api.UpdateServer(old(Snapshot()), n, finalizers, fail)
    {
      if fail.Some? {
        return fail;
      } else if n !in servers {
        return Some(NotFound);
      }
      var p := Admission.DefaultServer(servers[n].(finalizers := finalizers));
      if p.deleting && p.finalizers == {} {
        servers := Remove(servers, n);
      } else {
        servers := servers[n := p];
      }
      return None;
    }

    method UpdateServerStatus(n: string, conditions: map<ServerCondition, bool>, fail: bool)
      returns (error: Option<Failure>)
      modifies this`servers
      ensures Api.Write(Snapshot(), error) == Api.UpdateServerStatus(old(Snapshot()), n, conditions, fail)
    {
      if fail {
        return Some(Other);
      } else if n !in servers {
        return Some(NotFound);
      }
      servers := servers[n := servers[n].(conditions := conditions)];
      return None;
    }
  }
}
