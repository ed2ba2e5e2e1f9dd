/** Option, results of API calls, and the few facts about finite sequences that the rest of the model uses. */
module Common {

  datatype Option<+T> = None | Some(value: T)

  /** How an API call or a helper can fail.  Error texts and wrapping are not modelled. */
  datatype Failure = NotFound | AlreadyExists | Conflict | Other

  datatype Result<+T> = Ok(value: T) | Err(error: Failure)

  /** A nil Go map key lookup: absent keys read as the zero value. */
  function Lookup<K, V>(m: map<K, V>, k: K): Option<V> {
    if k in m then Some(m[k]) else None
  }

  function Remove<K, V>(m: map<K, V>, k: K): map<K, V> {
    m - {k}
  }

  ghost predicate Distinct<T>(xs: seq<T>) {
    forall i, j :: 0 <= i < j < |xs| ==> xs[i] != xs[j]
  }

  /** `order` lists each element of `xs` once: one of the orders in which a Go map or an API list may be read. */
  ghost predicate Enumerates<T(!new)>(order: seq<T>, xs: set<T>) {
    && Distinct(order)
    && (forall x :: x in order <==> x in xs)
  }

  /** Every finite set can be listed. */
  lemma SomeOrder<T(!new)>(xs: set<T>) returns (order: seq<T>)
    ensures Enumerates(order, xs)
  {
    if xs == {} {
      order := [];
    } else {
      var x :| x in xs;
      var rest := SomeOrder(xs - {x});
      order := rest + [x];
    }
  }

  lemma {:induction false} DistinctCount<T>(xs: seq<T>, x: T)
    requires Distinct(xs)
    ensures multiset(xs)[x] == if x in xs then 1 else 0
  {
    if xs == [] {
    } else {
      assert xs == [xs[0]] + xs[1..];
      DistinctCount(xs[1..], x);
    }
  }

  /** Two duplicate-free sequences with the same elements are permutations of each other. */
  lemma SameElementsSameMultiset<T>(xs: seq<T>, ys: seq<T>)
    requires Distinct(xs) && Distinct(ys)
    requires forall x :: x in xs <==> x in ys
    ensures multiset(xs) == multiset(ys)
  {
    forall x: T
      ensures multiset(xs)[x] == multiset(ys)[x]
    {
      DistinctCount(xs, x);
      DistinctCount(ys, x);
    }
  }
}
