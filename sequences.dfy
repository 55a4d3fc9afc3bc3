/** Sequence operations shared by the model: membership, the `contains`-based
    stream filter the DAO reconciles with, order-preserving sub-sequences, and
    the set-like insert and erase the mail server applies to a user's list. */
module Sequences {

  /** The elements of `s`, forgetting order and multiplicity. */
  function Members<T>(s: seq<T>): set<T> {
    set x | x in s
  }

  /** `a` can be obtained from `b` by deleting elements: its elements occur in `b` in the same order. */
  predicate IsSubsequence<T(==)>(a: seq<T>, b: seq<T>)
    decreases |b|
  {
    if a == [] then true
    else if b == [] then false
    else if a[0] == b[0] then IsSubsequence(a[1..], b[1..])
    else IsSubsequence(a, b[1..])
  }

  /** The elements of `from` that `present` does not contain, in the order of `from`:
      `from.stream().filter(x -> !present.contains(x))`. */
  function Missing<T(==,!new)>(from: seq<T>, present: seq<T>): (r: seq<T>)
    ensures forall x :: x in r <==> x in from && x !in present
    ensures forall x :: multiset(r)[x] == if x in present then 0 else multiset(from)[x]
    ensures IsSubsequence(r, from)
    decreases |from|
  {
    if from == [] then []
    else
      var rest := Missing(from[1..], present);
      assert from == [from[0]] + from[1..];
      if from[0] in present then
        rest
      else
        [from[0]] + rest
  }

  /** A filter keeps nothing exactly when everything is contained in `present`. */
  lemma MissingEmpty<T(!new)>(from: seq<T>, present: seq<T>)
    ensures Missing(from, present) == [] <==> Members(from) <= Members(present)
  {
    if Missing(from, present) != [] {
      var x := Missing(from, present)[0];
      assert x in Members(from) && x !in Members(present);
    }
  }

  /** A set-like list insert: a value already present is not duplicated. */
  function Insert<T(==)>(s: seq<T>, x: T): (r: seq<T>)
    ensures Members(r) == Members(s) + {x}
  {
    if x in s then s else s + [x]
  }

  /** Every occurrence of `x` removed, the rest in order. */
  function Erase<T(==,!new)>(s: seq<T>, x: T): (r: seq<T>)
    ensures Members(r) == Members(s) - {x}
    ensures IsSubsequence(r, s)
  {
    Missing(s, [x])
  }

  /** The value a map holds for `k`, or the empty list when it holds none. */
  function Lookup<K, T>(m: map<K, seq<T>>, k: K): seq<T> {
    if k in m then m[k] else []
  }
}
