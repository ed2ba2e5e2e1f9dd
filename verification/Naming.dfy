/** Names derived from policies and policy servers, and exactly when two policies get the same one. */
module Naming {

  /** A cluster-wide policy has a name; a namespaced one also lives in a namespace. */
  datatype PolicyKey = ClusterWide(name: string) | Namespaced(ns: string, name: string) {
    function Namespace(): string {
      match this
      case ClusterWide(_) => ""
      case Namespaced(ns, _) => ns
    }
  }

  const ROOT_SECRET := "policy-server-root-ca"

  function UniqueName(k: PolicyKey): string {
    match k
    case ClusterWide(name) => "clusterwide-" + name
    case Namespaced(ns, name) => "namespaced-" + ns + "-" + name
  }

  function NameWithPrefix(server: string): string {
    "policy-server-" + server
  }

  function AppLabel(server: string): string {
    "kubewarden-" + NameWithPrefix(server)
  }

  lemma ConcatCancelsLeft(p: string, a: string, b: string)
    requires p + a == p + b
    ensures a == b
  {
    assert (p + a)[|p|..] == a;
    assert (p + b)[|p|..] == b;
  }

  /** Objects named after different servers never share a name; only the server "root-ca" shares the root secret's. */
  lemma ServerNames(a: string, b: string)
    ensures NameWithPrefix(a) == NameWithPrefix(b) <==> a == b
    ensures NameWithPrefix(a) == ROOT_SECRET <==> a == "root-ca"
  {
    if NameWithPrefix(a) == NameWithPrefix(b) {
      ConcatCancelsLeft("policy-server-", a, b);
    }
    assert ROOT_SECRET == "policy-server-" + "root-ca";
    if NameWithPrefix(a) == ROOT_SECRET {
      ConcatCancelsLeft("policy-server-", a, "root-ca");
    }
  }

  /** `longer` starts with `shorter` and a dash, and the rest `s` moved to the front of the other name. */
  ghost predicate DashShift(longer: PolicyKey, shorter: PolicyKey, s: string)
    requires longer.Namespaced? && shorter.Namespaced?
  {
    longer.ns == shorter.ns + "-" + s && shorter.name == s + "-" + longer.name
  }

  lemma DashShiftCollides(a: PolicyKey, b: PolicyKey, s: string)
    requires a.Namespaced? && b.Namespaced? && DashShift(a, b, s)
    ensures UniqueName(a) == UniqueName(b)
  {
    assert "namespaced-" + (b.ns + "-" + s) + "-" + a.name == "namespaced-" + b.ns + "-" + (s + "-" + a.name);
  }

  lemma CollisionShifts(a: PolicyKey, b: PolicyKey)
    requires a.Namespaced? && b.Namespaced?
    requires |a.ns| > |b.ns|
    requires UniqueName(a) == UniqueName(b)
    ensures DashShift(a, b, a.ns[|b.ns| + 1..])
  {
    var s := a.ns[|b.ns| + 1..];
    var left, right := a.ns + "-" + a.name, b.ns + "-" + b.name;
    assert UniqueName(a) == "namespaced-" + left && UniqueName(b) == "namespaced-" + right;
    ConcatCancelsLeft("namespaced-", left, right);
    assert a.ns[..|b.ns|] == left[..|b.ns|] == right[..|b.ns|] == b.ns;
    assert a.ns[|b.ns|] == left[|b.ns|] == right[|b.ns|] == '-';
    assert a.ns == a.ns[..|b.ns|] + [a.ns[|b.ns|]] + s;
    assert b.name == right[|b.ns| + 1..] == left[|b.ns| + 1..];
    assert left[|b.ns| + 1..] == s + "-" + a.name;
  }

  /** Cluster-wide names are injective, and so are namespaced ones of equally long namespaces. */
  lemma SameNamespaceLengthInjective(a: PolicyKey, b: PolicyKey)
    requires |a.Namespace()| == |b.Namespace()|
    requires a.ClusterWide? <==> b.ClusterWide?
    requires UniqueName(a) == UniqueName(b)
    ensures a == b
  {
    if a.ClusterWide? {
      ConcatCancelsLeft("clusterwide-", a.name, b.name);
    } else {
      var left, right := a.ns + "-" + a.name, b.ns + "-" + b.name;
      assert UniqueName(a) == "namespaced-" + left && UniqueName(b) == "namespaced-" + right;
      ConcatCancelsLeft("namespaced-", left, right);
      assert a.ns == left[..|a.ns|] == right[..|a.ns|] == b.ns;
      assert a.name == left[|a.ns| + 1..] == right[|a.ns| + 1..] == b.name;
    }
  }

  /** Unique names tell all policies apart, except namespaced ones that differ by moving a dash-separated piece. */
  lemma UniqueNameCollisions(a: PolicyKey, b: PolicyKey)
    requires a != b
    ensures UniqueName(a) == UniqueName(b) <==>
            a.Namespaced? && b.Namespaced? && exists s :: DashShift(a, b, s) || DashShift(b, a, s)
  {
    if UniqueName(a) == UniqueName(b) {
      assert UniqueName(a)[0] == UniqueName(b)[0];
      if |a.Namespace()| > |b.Namespace()| {
        CollisionShifts(a, b);
      } else if |b.Namespace()| > |a.Namespace()| {
        CollisionShifts(b, a);
      } else {
        SameNamespaceLengthInjective(a, b);
      }
    }
    if a.Namespaced? && b.Namespaced? && exists s :: DashShift(a, b, s) || DashShift(b, a, s) {
      var s :| DashShift(a, b, s) || DashShift(b, a, s);
      if DashShift(a, b, s) {
        DashShiftCollides(a, b, s);
      } else {
        DashShiftCollides(b, a, s);
      }
    }
  }
}
