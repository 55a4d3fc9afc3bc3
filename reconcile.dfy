/** The DAO applies a list of remote writes with
    `items.stream().map(write).reduce(true, (r, x) -> r && x)`-style code:
    `reduce(true, (result, item) -> result && write(item), ...)`. Because `&&`
    short-circuits, the first write that answers false (or throws) ends the
    sequence of requests. `Fold` is that loop, generic over the state the
    writes act on. */
module Reconcile {
  import opened Outcomes
  import opened Sequences

  /** What one call produced, and the state it left behind. */
  datatype Step<S, T> = Step(out: Outcome<T>, state: S)

  /** Run `write` over `items` from state `s`; stop at the first write whose
      outcome is not `Value(true)` and return that write's step. */
  function Fold<S, T>(s: S, items: seq<T>, write: (S, T) -> Step<S, bool>): Step<S, bool>
    decreases |items|
  {
    if items == [] then Step(Value(true), s)
    else
      var first := write(s, items[0]);
      if first.out == Value(true) then Fold(first.state, items[1..], write) else first
  }

  /** Folding a concatenation: the second part runs only if the first succeeded. */
  lemma {:induction false} FoldConcat<S, T>(s: S, a: seq<T>, b: seq<T>, write: (S, T) -> Step<S, bool>)
    ensures Fold(s, a + b, write) ==
            (var p := Fold(s, a, write); if p.out == Value(true) then Fold(p.state, b, write) else p)
    decreases |a|
  {
    if a == [] {
      assert a + b == b;
    } else {
      assert (a + b)[0] == a[0];
      assert (a + b)[1..] == a[1..] + b;
      var first := write(s, a[0]);
      if first.out == Value(true) {
        FoldConcat(first.state, a[1..], b, write);
      }
    }
  }

  /** One more item after a successful prefix: the fold continues with exactly one write. */
  lemma FoldExtend<S, T>(s: S, items: seq<T>, write: (S, T) -> Step<S, bool>, i: nat)
    requires i < |items|
    requires Fold(s, items[..i], write).out == Value(true)
    ensures Fold(s, items[..i + 1], write) ==
            (var w := write(Fold(s, items[..i], write).state, items[i]);
             if w.out == Value(true) then Step(Value(true), w.state) else w)
  {
    assert items[..i + 1] == items[..i] + [items[i]];
    FoldConcat(s, items[..i], [items[i]], write);
    assert [items[i]][1..] == [];
  }

  /** No items: nothing is written and the fold answers true. */
  lemma FoldOfNothing<S, T>(s: S, write: (S, T) -> Step<S, bool>)
    ensures Fold(s, [], write) == Step(Value(true), s)
  {
  }

  /** Short-circuit: when the first `k` writes succeed and write `k` does not,
      the fold ends with exactly write `k`'s step, so items after `k` are never written. */
  lemma {:induction false} FoldStopsAtFirstFailure<S, T>(s: S, items: seq<T>, write: (S, T) -> Step<S, bool>, k: nat)
    requires k < |items|
    requires Fold(s, items[..k], write).out == Value(true)
    requires write(Fold(s, items[..k], write).state, items[k]).out != Value(true)
    ensures Fold(s, items, write) == write(Fold(s, items[..k], write).state, items[k])
  {
    var p := Fold(s, items[..k], write);
    assert items == items[..k] + items[k..];
    FoldConcat(s, items[..k], items[k..], write);
    assert items[k..][0] == items[k];
  }

  /** The fold answers true exactly when every write, run in the state the
      previous ones left, answered true. */
  lemma {:induction false} FoldAllSucceeded<S, T>(s: S, items: seq<T>, write: (S, T) -> Step<S, bool>)
    ensures Fold(s, items, write).out == Value(true) <==>
            forall i | 0 <= i < |items| :: write(Fold(s, items[..i], write).state, items[i]).out == Value(true)
    decreases |items|
  {
    if items != [] {
      var first := write(s, items[0]);
      assert items[..0] == [];
      if first.out == Value(true) {
        FoldAllSucceeded(first.state, items[1..], write);
        forall i | 1 <= i < |items|
          ensures Fold(s, items[..i], write) == Fold(first.state, items[1..][..i-1], write)
        {
          assert items[..i][0] == items[0];
          assert items[..i][1..] == items[1..][..i-1];
        }
        forall i | 1 <= i < |items|
          ensures items[1..][i-1] == items[i]
        {
        }
      }
    }
  }

  /** When every successful write adds its item to `view`, a successful fold
      adds all the items. */
  lemma {:induction false} FoldAdds<S, T>(s: S, items: seq<T>, write: (S, T) -> Step<S, bool>, view: S -> set<T>)
    requires forall s', x :: write(s', x).out == Value(true) ==> view(write(s', x).state) == view(s') + {x}
    ensures Fold(s, items, write).out == Value(true) ==>
            view(Fold(s, items, write).state) == view(s) + Members(items)
    decreases |items|
  {
    if items != [] {
      var first := write(s, items[0]);
      if first.out == Value(true) {
        FoldAdds(first.state, items[1..], write, view);
        assert items == [items[0]] + items[1..];
        assert Members(items) == {items[0]} + Members(items[1..]);
      }
    }
  }

  /** When every successful write removes its item from `view`, a successful
      fold removes all the items. */
  lemma {:induction false} FoldDrops<S, T>(s: S, items: seq<T>, write: (S, T) -> Step<S, bool>, view: S -> set<T>)
    requires forall s', x :: write(s', x).out == Value(true) ==> view(write(s', x).state) == view(s') - {x}
    ensures Fold(s, items, write).out == Value(true) ==>
            view(Fold(s, items, write).state) == view(s) - Members(items)
    decreases |items|
  {
    if items != [] {
      var first := write(s, items[0]);
      if first.out == Value(true) {
        FoldDrops(first.state, items[1..], write, view);
        assert items == [items[0]] + items[1..];
        assert Members(items) == {items[0]} + Members(items[1..]);
      }
    }
  }

  /** A relation to a fixed state `origin` that holds for `s` and that every
      write keeps holding is still true after the whole fold, whatever its outcome. */
  lemma {:induction false} FoldWithin<S, T>(origin: S, s: S, items: seq<T>, write: (S, T) -> Step<S, bool>, within: (S, S) -> bool)
    requires within(origin, s)
    requires forall b, x | x in items :: within(origin, b) ==> within(origin, write(b, x).state)
    ensures within(origin, Fold(s, items, write).state)
    decreases |items|
  {
    if items != [] {
      var first := write(s, items[0]);
      if first.out == Value(true) {
        assert forall x | x in items[1..] :: x in items;
        FoldWithin(origin, first.state, items[1..], write, within);
      }
    }
  }

  /** `f` applied to every element, in order. */
  function MapSeq<T, C>(f: T -> C, items: seq<T>): (r: seq<C>)
    ensures |r| == |items| && forall i | 0 <= i < |items| :: r[i] == f(items[i])
  {
    if items == [] then [] else [f(items[0])] + MapSeq(f, items[1..])
  }

  /** When each successful write records exactly its own request, a
      successful fold has recorded the requests of all the items, in list order. */
  lemma {:induction false} FoldRecordsInOrder<S, T, C>(s: S, items: seq<T>, write: (S, T) -> Step<S, bool>,
                                                       log: S -> seq<C>, request: T -> C)
    requires forall b, x | x in items :: write(b, x).out == Value(true) ==> log(write(b, x).state) == log(b) + [request(x)]
    ensures Fold(s, items, write).out == Value(true) ==> log(Fold(s, items, write).state) == log(s) + MapSeq(request, items)
    decreases |items|
  {
    if items != [] {
      var first := write(s, items[0]);
      if first.out == Value(true) {
        assert forall x | x in items[1..] :: x in items;
        FoldRecordsInOrder(first.state, items[1..], write, log, request);
        assert log(first.state) == log(s) + [request(items[0])];
        assert MapSeq(request, items) == [request(items[0])] + MapSeq(request, items[1..]);
      }
    }
  }

  /** A fold whose writes always succeed succeeds. */
  lemma {:induction false} FoldSucceeds<S, T>(s: S, items: seq<T>, write: (S, T) -> Step<S, bool>)
    requires forall s', x :: write(s', x).out == Value(true)
    ensures Fold(s, items, write).out == Value(true)
    decreases |items|
  {
    if items != [] {
      FoldSucceeds(write(s, items[0]).state, items[1..], write);
    }
  }

  /** A fold throws only what one of its writes throws. */
  lemma {:induction false} FoldThrowsOnly<S, T>(s: S, items: seq<T>, write: (S, T) -> Step<S, bool>, thrown: Exception -> bool)
    requires forall b, x | x in items :: write(b, x).out.Thrown? ==> thrown(write(b, x).out.error)
    ensures Fold(s, items, write).out.Thrown? ==> thrown(Fold(s, items, write).out.error)
    decreases |items|
  {
    if items != [] {
      var first := write(s, items[0]);
      if first.out == Value(true) {
        assert forall x | x in items[1..] :: x in items;
        FoldThrowsOnly(first.state, items[1..], write, thrown);
      }
    }
  }
}
