/** From an event on a ConfigMap, a pod or a policy server to the policies to reconcile. */
module Events {
  import opened Common
  import opened Naming
  import opened Model
  import opened ConfigMaps

  /** `namespaced` tells the controller of namespaced policies, which looks for the label, from the cluster-wide one. */
  function PoliciesForConfigMap(cm: ConfigMap, order: seq<string>, namespaced: bool): seq<Request> {
    if namespaced && cm.serverLabel.None? then []
    else if ServedPolicies(cm).Err? then []
    else Requests(ServedPolicies(cm).value, order, namespaced)
  }

  /** `order` is the order in which the ConfigMap's map is read; a failed read asks for nothing. */
  function PoliciesForPolicyServer(s: Store, n: string, order: seq<string>, namespaced: bool, faults: set<Call>)
    : seq<Request>
  {
    if GetConfigMap in faults || n !in s.configMaps then [] else PoliciesForConfigMap(s.configMaps[n], order, namespaced)
  }

  /** A pod by its policy server label, if it has one; only the namespaced controller passes over pods under deletion. */
  function PoliciesForPod(
    s: Store, server: Option<string>, deleting: bool, order: seq<string>, namespaced: bool, faults: set<Call>)
    : seq<Request>
  {
    if server.None? || (namespaced && deleting) then []
    else PoliciesForPolicyServer(s, server.value, order, namespaced, faults)
  }

  /**
   * Once a server's ConfigMap holds its policies, an event on the server, on its ConfigMap or on a live pod of it makes
   * each of them be reconciled once, by the controller of its kind.
   */
  lemma EveryPolicyIsRequestedOnce(
    s: Store, n: string, policies: seq<BoundPolicy>, order: seq<string>, namespaced: bool)
    requires n in s.configMaps && s.configMaps[n].serverLabel == Some(n)
    requires ServedPolicies(s.configMaps[n]) == Ok(PoliciesMap(policies))
    requires DistinctNames(policies) && RealNamespaces(policies) && Enumerates(order, PoliciesMap(policies).Keys)
    ensures var requested := multiset(PolicyNames(policies, namespaced));
            && multiset(PoliciesForConfigMap(s.configMaps[n], order, namespaced)) == requested
            && multiset(PoliciesForPolicyServer(s, n, order, namespaced, {})) == requested
            && multiset(PoliciesForPod(s, Some(n), false, order, namespaced, {})) == requested
  {
    RequestsRoundTrip(policies, order, namespaced);
  }

  /** Everything in a ConfigMap is asked for exactly when the ConfigMap is labelled or holds no namespaced policy. */
  lemma LabelMatters(cm: ConfigMap, order: seq<string>)
    requires ServedPolicies(cm).Ok?
    ensures (PoliciesForConfigMap(cm, order, true) == Requests(ServedPolicies(cm).value, order, true) &&
             PoliciesForConfigMap(cm, order, false) == Requests(ServedPolicies(cm).value, order, false)) <==>
            cm.serverLabel.Some? || Requests(ServedPolicies(cm).value, order, true) == []
  {
  }

  /**
   * A pod's event asks for just what its server's event does, exactly when the pod carries the server's label and is not
   * one under deletion that the controller of namespaced policies passes over, or when there is nothing to ask for.
   */
  lemma PodAsksLikeItsServer(
    s: Store, server: Option<string>, n: string, deleting: bool, order: seq<string>, namespaced: bool, faults: set<Call>)
    requires server.Some? ==> server.value == n
    ensures PoliciesForPod(s, server, deleting, order, namespaced, faults) ==
            PoliciesForPolicyServer(s, n, order, namespaced, faults) <==>
            || (server == Some(n) && !(namespaced && deleting))
            || PoliciesForPolicyServer(s, n, order, namespaced, faults) == []
  {
  }

  /** An event on a server asks for nothing exactly when its ConfigMap cannot be read, or names nobody of that kind. */
  lemma AsksForNothingExactly(s: Store, n: string, order: seq<string>, namespaced: bool, faults: set<Call>)
    requires n in s.configMaps ==>
               ServedPolicies(s.configMaps[n]).Ok? && Enumerates(order, ServedPolicies(s.configMaps[n]).value.Keys)
    requires n in s.configMaps ==> s.configMaps[n].serverLabel == Some(n)
    ensures PoliciesForPolicyServer(s, n, order, namespaced, faults) == [] <==>
            || GetConfigMap in faults || n !in s.configMaps
            || forall u :: u in ServedPolicies(s.configMaps[n]).value ==>
                 (ServedPolicies(s.configMaps[n]).value[u].key.Namespace() != "") != namespaced
  {
    if n in s.configMaps && GetConfigMap !in faults {
      var served := ServedPolicies(s.configMaps[n]).value;
      RequestsElements(served, order, namespaced);
      var asked := Requests(served, order, namespaced);
      if asked != [] {
        assert asked[0] in asked;
      }
      if u :| u in served && (served[u].key.Namespace() != "") == namespaced {
        assert RequestOf(served[u]) in asked;
      }
    }
  }
}
