/** The webhook configuration that routes requests to a policy, for the mutating and the validating kind alike. */
module Webhooks {
  import opened Common
  import opened Naming
  import opened Model
  import opened Api

  const NAMESPACE_LABEL := "kubernetes.io/metadata.name"

  // ----------------------------------------------------------- policy getters

  function WithNamespacedScope(rules: seq<Rule>): seq<Rule> {
    seq(|rules|, i requires 0 <= i < |rules| => rules[i].(scope := Some("Namespaced")))
  }

  /** Namespaced policies see namespaced objects only; every other part of a rule, and the order, stays. */
  function GetRules(k: PolicyKey, spec: PolicySpec): seq<Rule> {
    if k.ClusterWide? then spec.rules else WithNamespacedScope(spec.rules)
  }

  method GetNamespacedRules(rules: seq<Rule>) returns (r: seq<Rule>)
    ensures r == WithNamespacedScope(rules)
    ensures SameButScopes(r, rules) && forall x :: x in r ==> x.scope == Some("Namespaced")
  {
    r := [];
    for i := 0 to |rules|
      invariant |r| == i
      invariant forall x :: 0 <= x < i ==> r[x] == rules[x].(scope := Some("Namespaced"))
    {
      r := r + [rules[i].(scope := Some("Namespaced"))];
    }
  }

  /** The two lists say the same, rule by rule and in the same order, but for scopes. */
  predicate SameButScopes(a: seq<Rule>, b: seq<Rule>) {
    |a| == |b| && forall i :: 0 <= i < |a| ==> a[i] == b[i].(scope := a[i].scope)
  }

  /**
   * Setting the scopes loses nothing else: the rules a webhook gets agree with the policy's but for the scopes of a
   * namespaced one, so two policies of one kind get the same rules exactly when they ask for the same but for those.
   */
  lemma GetRulesForgetsScopesOnly(k: PolicyKey, a: PolicySpec, b: PolicySpec)
    ensures SameButScopes(GetRules(k, a), a.rules)
    ensures k.Namespaced? ==> forall r :: r in GetRules(k, a) ==> r.scope == Some("Namespaced")
    ensures GetRules(k, a) == GetRules(k, b) <==>
            (if k.ClusterWide? then a.rules == b.rules else SameButScopes(a.rules, b.rules))
  {
    if k.Namespaced? {
      var x, y := GetRules(k, a), GetRules(k, b);
      if x == y {
        forall i | 0 <= i < |a.rules|
          ensures a.rules[i] == b.rules[i].(scope := a.rules[i].scope)
        {
          assert x[i] == y[i];
        }
      }
      if SameButScopes(a.rules, b.rules) {
        assert forall i :: 0 <= i < |x| ==> x[i] == y[i];
      }
    }
  }

  function GetNamespaceSelector(k: PolicyKey, spec: PolicySpec): Option<Selector> {
    if k.ClusterWide? then spec.namespaceSelector else Some(Selector(map[NAMESPACE_LABEL := k.ns], []))
  }

  // ------------------------------------------------------ the desired webhook

  function DesiredWebhook(cfg: Config, k: PolicyKey, spec: PolicySpec, root: Secret, serviceName: string): Webhook {
    Webhook(
      UniqueName(k) + ".kubewarden.admission", cfg.deploymentsNamespace, serviceName, "/validate/" + UniqueName(k), 8443,
      Lookup(root.data, RootPem), GetRules(k, spec), spec.failurePolicy, spec.matchPolicy,
      GetNamespaceSelector(k, spec), spec.objectSelector,
      if spec.sideEffects.None? then Some("None") else spec.sideEffects, spec.timeoutSeconds, ["v1"])
  }

  method BuildWebhook(cfg: Config, k: PolicyKey, spec: PolicySpec, root: Secret, serviceName: string)
    returns (w: Webhook)
    ensures w == DesiredWebhook(cfg, k, spec, root, serviceName)
    ensures serviceName == NameWithPrefix(spec.policyServer) ==> Represents(w, cfg.deploymentsNamespace, k, spec)
    ensures w.caBundle == Lookup(root.data, RootPem)
  {
    DesiredRepresents(cfg, k, spec, root);
    hide Represents;
    var sideEffects := spec.sideEffects;
    if sideEffects.None? {
      sideEffects := Some("None");
    }
    var rules := spec.rules;
    if k.Namespaced? {
      rules := GetNamespacedRules(rules);
    }
    return Webhook(
        UniqueName(k) + ".kubewarden.admission", cfg.deploymentsNamespace, serviceName, "/validate/" + UniqueName(k), 8443,
        Lookup(root.data, RootPem), rules, spec.failurePolicy, spec.matchPolicy, GetNamespaceSelector(k, spec),
        spec.objectSelector, sideEffects, spec.timeoutSeconds, ["v1"]);
  }

  /** Creates the configuration, or patches the webhooks of one that differs. */
  function SyncWebhook(s: Store, kind: WebhookKind, u: string, hooks: seq<Webhook>, faults: set<Call>): Write {
    if CreateWebhook in faults then Failed(s, Other)
    else if u !in s.Webhooks(kind) then Api.CreateWebhook(s, kind, u, hooks, false)
    else if GetWebhook in faults then Failed(s, Other)
    else if s.Webhooks(kind)[u].webhooks == hooks then Done(s)
    else Api.PatchWebhook(s, kind, u, hooks, PatchWebhook in faults)
  }

  /** From `s` to `s'` at most the one configuration was written, and then to hold `hooks`. */
  predicate WritesWebhook(s: Store, s': Store, kind: WebhookKind, u: string, hooks: seq<Webhook>) {
    && s' == s.(rv := s'.rv).WithWebhooks(kind, s'.Webhooks(kind))
    && if s'.rv == s.rv then s'.Webhooks(kind) == s.Webhooks(kind)
       else
         && s'.rv == s.rv + 1
         && s'.Webhooks(kind) == s.Webhooks(kind)[u := WebhookConfiguration(s'.rv, hooks)]
  }

  lemma SyncWebhookResult(s: Store, kind: WebhookKind, u: string, hooks: seq<Webhook>, faults: set<Call>)
    ensures var w := SyncWebhook(s, kind, u, hooks, faults);
            && WritesWebhook(s, w.store, kind, u, hooks)
            && (w.error.Some? ==> w.store == s)
            && (w.error.None? ==> u in w.store.Webhooks(kind) && w.store.Webhooks(kind)[u].webhooks == hooks)
  {
    if CreateWebhook in faults {
    } else if u !in s.Webhooks(kind) {
    } else if GetWebhook in faults {
    } else if s.Webhooks(kind)[u].webhooks == hooks {
    } else if PatchWebhook in faults {
    } else {
    }
  }

  lemma SyncWebhookIdempotent(
    s: Store, kind: WebhookKind, u: string, hooks: seq<Webhook>, faults: set<Call>, faults': set<Call>)
    requires SyncWebhook(s, kind, u, hooks, faults).error.None?
    ensures var s1 := SyncWebhook(s, kind, u, hooks, faults).store;
            SyncWebhook(s1, kind, u, hooks, faults').store == s1
  {
    SyncWebhookResult(s, kind, u, hooks, faults);
  }

  // ------------------------------------------- which requests a webhook matches

  /** A request to the API server; `ns` is None for objects outside namespaces. */
  datatype AdmissionRequest = AdmissionRequest(
    operation: string, group: string, version: string, resource: string, subresource: string,
    ns: Option<string>, objectLabels: map<string, string>)
  {
    predicate IsNamespaceObject() {
      group == "" && resource == "namespaces"
    }
  }

  predicate Covers(patterns: seq<string>, value: string) {
    "*" in patterns || value in patterns
  }

  predicate CoversResource(patterns: seq<string>, resource: string, subresource: string) {
    var suffix := if subresource == "" then "" else "/" + subresource;
    || resource + suffix in patterns || "*" + suffix in patterns || resource + "/*" in patterns || "*/*" in patterns
  }

  predicate MatchesIgnoringScope(rule: Rule, req: AdmissionRequest) {
    && Covers(rule.operations, req.operation) && Covers(rule.apiGroups, req.group)
    && Covers(rule.apiVersions, req.version) && CoversResource(rule.resources, req.resource, req.subresource)
  }

  /** Namespace objects count as cluster-scoped. */
  predicate MatchesScope(scope: Option<string>, req: AdmissionRequest) {
    if scope == Some("Namespaced") then req.ns.Some? && !req.IsNamespaceObject()
    else if scope == Some("Cluster") then req.ns.None? || req.IsNamespaceObject()
    else true
  }

  predicate Meets(r: Requirement, labels: map<string, string>) {
    match r.operator
    case "In" => r.key in labels && labels[r.key] in r.values
    case "NotIn" => r.key !in labels || labels[r.key] !in r.values
    case "Exists" => r.key in labels
    case "DoesNotExist" => r.key !in labels
    case _ => false
  }

  /** A missing selector matches everything. */
  predicate Selects(selector: Option<Selector>, labels: map<string, string>) {
    selector.Some? ==>
      && (forall l :: l in selector.value.matchLabels ==> l in labels && labels[l] == selector.value.matchLabels[l])
      && (forall r :: r in selector.value.matchExpressions ==> Meets(r, labels))
  }

  /** Objects outside namespaces are never exempted by the namespace selector. */
  predicate MatchesNamespace(w: Webhook, req: AdmissionRequest, namespaces: map<string, map<string, string>>) {
    req.ns.Some? ==> req.ns.value in namespaces && Selects(w.namespaceSelector, namespaces[req.ns.value])
  }

  predicate Matches(w: Webhook, req: AdmissionRequest, namespaces: map<string, map<string, string>>) {
    && (exists rule :: rule in w.rules && MatchesIgnoringScope(rule, req) && MatchesScope(rule.scope, req))
    && MatchesNamespace(w, req, namespaces)
    && Selects(w.objectSelector, req.objectLabels)
  }

  /** The API server labels every namespace with its own name. */
  ghost predicate NamespacesLabelled(namespaces: map<string, map<string, string>>) {
    forall ns :: ns in namespaces ==> NAMESPACE_LABEL in namespaces[ns] && namespaces[ns][NAMESPACE_LABEL] == ns
  }

  /**
   * A namespaced policy's webhook matches exactly the requests on namespaced objects in the policy's own namespace
   * that one of its rules and its object selector match, whatever scope the rules asked for.
   */
  lemma NamespaceConfinement(
    cfg: Config, k: PolicyKey, spec: PolicySpec, root: Secret, serviceName: string, req: AdmissionRequest,
    namespaces: map<string, map<string, string>>)
    requires k.Namespaced? && NamespacesLabelled(namespaces)
    ensures Matches(DesiredWebhook(cfg, k, spec, root, serviceName), req, namespaces) <==>
            && req.ns == Some(k.ns) && k.ns in namespaces && !req.IsNamespaceObject()
            && (exists rule :: rule in spec.rules && MatchesIgnoringScope(rule, req))
            && Selects(spec.objectSelector, req.objectLabels)
  {
    var w := DesiredWebhook(cfg, k, spec, root, serviceName);
    assert w.namespaceSelector == Some(Selector(map[NAMESPACE_LABEL := k.ns], []));
    ScopedRulesMatch(spec.rules, req);
    if req.ns.Some? && req.ns.value in namespaces {
      assert NAMESPACE_LABEL in w.namespaceSelector.value.matchLabels;
    }
  }

  /**
   * A cluster-wide policy's webhook matches exactly the requests that one of its rules matches with the scope that rule asks
   * for, in namespaces its namespace selector selects or outside of namespaces, on objects its object selector selects.
   */
  lemma ClusterWideMatching(
    cfg: Config, k: PolicyKey, spec: PolicySpec, root: Secret, serviceName: string, req: AdmissionRequest,
    namespaces: map<string, map<string, string>>)
    requires k.ClusterWide?
    ensures Matches(DesiredWebhook(cfg, k, spec, root, serviceName), req, namespaces) <==>
            && (exists rule :: rule in spec.rules && MatchesIgnoringScope(rule, req) && MatchesScope(rule.scope, req))
            && (req.ns.Some? ==> req.ns.value in namespaces && Selects(spec.namespaceSelector, namespaces[req.ns.value]))
            && Selects(spec.objectSelector, req.objectLabels)
  {
    hide Selects;
    hide MatchesIgnoringScope;
    hide MatchesScope;
  }

  /** The requests a policy is for. */
  ghost predicate Wants(
    k: PolicyKey, spec: PolicySpec, req: AdmissionRequest, namespaces: map<string, map<string, string>>)
  {
    && Selects(spec.objectSelector, req.objectLabels)
    && if k.ClusterWide? then
         && (exists rule :: rule in spec.rules && MatchesIgnoringScope(rule, req) && MatchesScope(rule.scope, req))
         && (req.ns.Some? ==> req.ns.value in namespaces && Selects(spec.namespaceSelector, namespaces[req.ns.value]))
       else
         && (exists rule :: rule in spec.rules && MatchesIgnoringScope(rule, req))
         && req.ns == Some(k.ns) && k.ns in namespaces && !req.IsNamespaceObject()
  }

  /** A webhook of the policy: the requests it is for, sent where its server listens, treated as the policy asks. */
  ghost predicate Represents(w: Webhook, namespace: string, k: PolicyKey, spec: PolicySpec) {
    && w.serviceNamespace == namespace && w.serviceName == NameWithPrefix(spec.policyServer) && w.port == 8443
    && w.path == "/validate/" + UniqueName(k) && w.name == UniqueName(k) + ".kubewarden.admission"
    && w.admissionReviewVersions == ["v1"]
    && w.failurePolicy == spec.failurePolicy && w.matchPolicy == spec.matchPolicy
    && w.timeoutSeconds == spec.timeoutSeconds
    && w.sideEffects == (if spec.sideEffects == None then Some("None") else spec.sideEffects)
    && forall req, namespaces :: NamespacesLabelled(namespaces) ==>
         (Matches(w, req, namespaces) <==> Wants(k, spec, req, namespaces))
  }

  lemma DesiredRepresents(cfg: Config, k: PolicyKey, spec: PolicySpec, root: Secret)
    ensures Represents(DesiredWebhook(cfg, k, spec, root, NameWithPrefix(spec.policyServer)),
                       cfg.deploymentsNamespace, k, spec)
  {
    hide UniqueName;
    hide NameWithPrefix;
    hide Matches;
    var w := DesiredWebhook(cfg, k, spec, root, NameWithPrefix(spec.policyServer));
    forall req, namespaces | NamespacesLabelled(namespaces)
      ensures Matches(w, req, namespaces) <==> Wants(k, spec, req, namespaces)
    {
      if k.ClusterWide? {
        ClusterWideMatching(cfg, k, spec, root, NameWithPrefix(spec.policyServer), req, namespaces);
      } else {
        NamespaceConfinement(cfg, k, spec, root, NameWithPrefix(spec.policyServer), req, namespaces);
      }
    }
  }

  lemma ScopedRulesMatch(rules: seq<Rule>, req: AdmissionRequest)
    ensures (exists rule :: rule in WithNamespacedScope(rules) &&
                            MatchesIgnoringScope(rule, req) && MatchesScope(rule.scope, req)) <==>
            (exists rule :: rule in rules && MatchesIgnoringScope(rule, req)) &&
            req.ns.Some? && !req.IsNamespaceObject()
  {
    var scoped := WithNamespacedScope(rules);
    forall i | 0 <= i < |rules|
      ensures MatchesIgnoringScope(scoped[i], req) == MatchesIgnoringScope(rules[i], req)
      ensures scoped[i] in scoped && rules[i] in rules
    {
    }
    if rule :| rule in scoped && MatchesIgnoringScope(rule, req) && MatchesScope(rule.scope, req) {
      var i :| 0 <= i < |scoped| && scoped[i] == rule;
      assert rules[i] in rules;
    }
    if (exists rule :: rule in rules && MatchesIgnoringScope(rule, req)) && req.ns.Some? && !req.IsNamespaceObject() {
      var rule :| rule in rules && MatchesIgnoringScope(rule, req);
      var i :| 0 <= i < |rules| && rules[i] == rule;
      assert MatchesScope(scoped[i].scope, req);
    }
  }
}
