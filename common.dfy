/** Failure-aware wrappers and sequence helpers shared by every part of the model. */
module Common {

  /** The Java exceptions the modelled code can raise; each aborts the whole operation. */
  datatype Failure = StringIndexOutOfBounds | NullPointer | NegativeArraySize | ArrayIndexOutOfBounds

  datatype Result<T> = Ok(value: T) | Err(error: Failure)

  /** A Java reference that may be null. */
  datatype Option<T> = None | Some(value: T)

  /** java.util.List.indexOf: the first position of x, or -1. */
  function IndexOf<T(==)>(xs: seq<T>, x: T): (r: int)
    ensures -1 <= r < |xs|
    ensures r == -1 <==> x !in xs
    ensures 0 <= r ==> xs[r] == x && x !in xs[..r]
  {
    if xs == [] then -1
    else if xs[0] == x then 0
    else
      var k := IndexOf(xs[1..], x);
      if k == -1 then -1
      else
        assert xs[..k + 1] == [xs[0]] + xs[1..][..k];
        k + 1
  }

  /** Concatenation of f over xs, left to right; the first failure aborts. */
  function FlatMapR<T, U>(xs: seq<T>, f: T -> Result<seq<U>>): Result<seq<U>>
    decreases |xs|
  {
    if xs == [] then Ok([])
    else match FlatMapR(xs[..|xs| - 1], f)
      case Err(e) => Err(e)
      case Ok(acc) => match f(xs[|xs| - 1])
        case Err(e) => Err(e)
        case Ok(ys) => Ok(acc + ys)
  }

  lemma AppendAssoc<T>(a: seq<T>, b: seq<T>, c: seq<T>)
    ensures a + b + c == a + (b + c)
  {
  }

  lemma AppendEmpty<T>(a: seq<T>)
    ensures a + [] == a && [] + a == a
  {
  }

  /** Moving one element from the remaining to the finished part of a loop over a set. */
  lemma MoveOne<T>(todo: set<T>, done: set<T>, all: set<T>, x: T)
    requires todo + done == all && todo !! done && x in todo
    ensures (todo - {x}) + (done + {x}) == all && (todo - {x}) !! (done + {x})
    ensures |todo - {x}| < |todo|
  {
  }

  /** The remaining and the finished parts of a loop over a set, once nothing remains. */
  lemma AllDone<T>(todo: set<T>, done: set<T>, all: set<T>)
    requires todo + done == all && todo == {}
    ensures done == all
  {
  }

  lemma WholePrefix<T>(xs: seq<T>)
    ensures xs[..|xs|] == xs
  {
  }

  /** Appending an element of b keeps every element of the list within a or b. */
  lemma SnocWithin<T>(xs: seq<T>, x: T, a: seq<T>, b: seq<T>)
    requires forall j :: 0 <= j < |xs| ==> xs[j] in a || xs[j] in b
    requires x in b
    ensures forall j :: 0 <= j < |xs + [x]| ==> (xs + [x])[j] in a || (xs + [x])[j] in b
  {
  }

  /** Appending an element not yet present keeps the elements pairwise distinct. */
  lemma DistinctSnoc<T>(xs: seq<T>, x: T)
    requires forall i, j :: 0 <= i < j < |xs| ==> xs[i] != xs[j]
    requires x !in xs
    ensures forall i, j :: 0 <= i < j < |xs + [x]| ==> (xs + [x])[i] != (xs + [x])[j]
  {
  }

  lemma PrefixSnoc<T>(xs: seq<T>, k: nat)
    requires k < |xs|
    ensures xs[..k + 1] == xs[..k] + [xs[k]]
  {
  }

  /** One more element: the traversal of xs[..k + 1] extends that of xs[..k] by f(xs[k]). */
  lemma FlatMapRSnoc<T, U>(xs: seq<T>, f: T -> Result<seq<U>>, k: nat, acc: seq<U>, ys: seq<U>)
    requires k < |xs| && FlatMapR(xs[..k], f) == Ok(acc) && f(xs[k]) == Ok(ys)
    ensures FlatMapR(xs[..k + 1], f) == Ok(acc + ys)
  {
    assert xs[..k + 1][..k] == xs[..k];
  }

  /** A failing step after a successful prefix makes the whole traversal fail with its error. */
  lemma FlatMapRStepFails<T, U>(xs: seq<T>, f: T -> Result<seq<U>>, k: nat, acc: seq<U>)
    requires k < |xs| && FlatMapR(xs[..k], f) == Ok(acc) && f(xs[k]).Err?
    ensures FlatMapR(xs, f) == Err(f(xs[k]).error)
  {
    assert xs[..k + 1][..k] == xs[..k];
    FlatMapRFailedPrefix(xs, f, k + 1);
  }

  /** Once a prefix has failed, the whole traversal fails with the same error. */
  lemma {:induction false} FlatMapRFailedPrefix<T, U>(xs: seq<T>, f: T -> Result<seq<U>>, k: nat)
    requires k <= |xs| && FlatMapR(xs[..k], f).Err?
    ensures FlatMapR(xs, f) == FlatMapR(xs[..k], f)
    decreases |xs| - k
  {
    if k < |xs| {
      assert xs[..k + 1][..k] == xs[..k];
      FlatMapRFailedPrefix(xs, f, k + 1);
    } else {
      assert xs[..k] == xs;
    }
  }

  /** The traversal succeeds exactly when every step succeeds. */
  lemma {:induction false} FlatMapROk<T, U>(xs: seq<T>, f: T -> Result<seq<U>>)
    ensures FlatMapR(xs, f).Ok? <==> forall i :: 0 <= i < |xs| ==> f(xs[i]).Ok?
    decreases |xs|
  {
    if xs != [] {
      var init := xs[..|xs| - 1];
      FlatMapROk(init, f);
      assert forall i :: 0 <= i < |init| ==> init[i] == xs[i];
    }
  }

  /** A traversal whose every step yields exactly one element yields one per element, in order. */
  lemma {:induction false} FlatMapRSingles<T, U>(xs: seq<T>, f: T -> Result<seq<U>>)
    requires FlatMapR(xs, f).Ok?
    requires forall x :: f(x).Ok? ==> |f(x).value| == 1
    ensures |FlatMapR(xs, f).value| == |xs|
    ensures forall i :: 0 <= i < |xs| ==> f(xs[i]).Ok? && FlatMapR(xs, f).value[i] == f(xs[i]).value[0]
    decreases |xs|
  {
    if xs != [] {
      var init := xs[..|xs| - 1];
      FlatMapRSingles(init, f);
      assert forall i :: 0 <= i < |init| ==> init[i] == xs[i];
    }
  }

  /** Two single-step traversals over the same elements yield the same elements. */
  lemma FlatMapRSinglesSame<T, U>(xs: seq<T>, ys: seq<T>, f: T -> Result<seq<U>>)
    requires FlatMapR(xs, f).Ok? && FlatMapR(ys, f).Ok?
    requires forall x :: f(x).Ok? ==> |f(x).value| == 1
    requires forall x :: x in xs <==> x in ys
    ensures forall u :: u in FlatMapR(xs, f).value <==> u in FlatMapR(ys, f).value
  {
    var l, r := FlatMapR(xs, f).value, FlatMapR(ys, f).value;
    FlatMapRSingles(xs, f);
    FlatMapRSingles(ys, f);
    forall u | u in l ensures u in r {
      var i :| 0 <= i < |l| && l[i] == u;
      assert xs[i] in ys;
      var j :| 0 <= j < |ys| && ys[j] == xs[i];
      assert r[j] == u;
    }
    forall u | u in r ensures u in l {
      var j :| 0 <= j < |r| && r[j] == u;
      assert ys[j] in xs;
      var i :| 0 <= i < |xs| && xs[i] == ys[j];
      assert l[i] == u;
    }
  }

  /** Everything a successful traversal yields comes from the step of one element, and
      everything a step yields is in it. */
  lemma {:induction false} FlatMapRMember<T, U>(xs: seq<T>, f: T -> Result<seq<U>>, y: U)
    requires FlatMapR(xs, f).Ok?
    ensures y in FlatMapR(xs, f).value <==>
      exists i :: 0 <= i < |xs| && f(xs[i]).Ok? && y in f(xs[i]).value
    decreases |xs|
  {
    if xs != [] {
      var init := xs[..|xs| - 1];
      FlatMapRMember(init, f, y);
      assert forall i :: 0 <= i < |init| ==> init[i] == xs[i];
    }
  }

  /** A left-to-right loop over xs that updates a state by step; the first failure aborts. */
  function FoldR<S, T>(xs: seq<T>, s0: S, step: (S, T) -> Result<S>): Result<S>
    decreases |xs|
  {
    if xs == [] then Ok(s0)
    else match FoldR(xs[..|xs| - 1], s0, step)
      case Err(e) => Err(e)
      case Ok(s) => step(s, xs[|xs| - 1])
  }

  /** When each step appends f of its element to a part acc of the state, a successful loop
      appends the traversal of f over all elements. */
  lemma {:induction false} FoldRAccumulates<S, T, U>(xs: seq<T>, s0: S, step: (S, T) -> Result<S>,
                                                      acc: S -> seq<U>, f: T -> Result<seq<U>>)
    requires forall s, x :: step(s, x).Ok? ==> f(x).Ok? && acc(step(s, x).value) == acc(s) + f(x).value
    requires FoldR(xs, s0, step).Ok?
    ensures FlatMapR(xs, f).Ok? && acc(FoldR(xs, s0, step).value) == acc(s0) + FlatMapR(xs, f).value
    decreases |xs|
  {
    if xs != [] {
      var init, x := xs[..|xs| - 1], xs[|xs| - 1];
      FoldRAccumulates(init, s0, step, acc, f);
      var s := FoldR(init, s0, step).value;
      assert acc(s0) + FlatMapR(init, f).value + f(x).value == acc(s0) + (FlatMapR(init, f).value + f(x).value);
    }
  }

  /** When, from a state satisfying inv, each step succeeds exactly when f does and keeps
      inv, the loop succeeds exactly when the traversal of f does, and keeps inv. */
  lemma {:induction false} FoldRPreserves<S, T, U>(xs: seq<T>, s0: S, step: (S, T) -> Result<S>,
                                                    f: T -> Result<seq<U>>, inv: S -> bool)
    requires inv(s0)
    requires forall s, x :: inv(s) ==> (step(s, x).Ok? <==> f(x).Ok?) && (step(s, x).Ok? ==> inv(step(s, x).value))
    ensures FoldR(xs, s0, step).Ok? <==> FlatMapR(xs, f).Ok?
    ensures FoldR(xs, s0, step).Ok? ==> inv(FoldR(xs, s0, step).value)
    decreases |xs|
  {
    if xs != [] {
      FoldRPreserves(xs[..|xs| - 1], s0, step, f, inv);
    }
  }

  /** A left-to-right loop over xs that cannot fail. */
  function Fold<V, T>(xs: seq<T>, v0: V, g: (V, T) -> V): V
    decreases |xs|
  {
    if xs == [] then v0 else g(Fold(xs[..|xs| - 1], v0, g), xs[|xs| - 1])
  }

  /** When a part get of the state evolves by g alone, a successful loop leaves it where the
      pure loop of g leaves it. */
  lemma {:induction false} FoldRProject<S, T, V>(xs: seq<T>, s0: S, step: (S, T) -> Result<S>,
                                                  get: S -> V, g: (V, T) -> V)
    requires forall s, x :: step(s, x).Ok? ==> get(step(s, x).value) == g(get(s), x)
    requires FoldR(xs, s0, step).Ok?
    ensures get(FoldR(xs, s0, step).value) == Fold(xs, get(s0), g)
    decreases |xs|
  {
    if xs != [] {
      FoldRProject(xs[..|xs| - 1], s0, step, get, g);
    }
  }

  /** Looping over a concatenation is looping over the second part from where the first
      left off. */
  lemma {:induction false} FoldAppend<V, T>(xs: seq<T>, ys: seq<T>, v0: V, g: (V, T) -> V)
    ensures Fold(xs + ys, v0, g) == Fold(ys, Fold(xs, v0, g), g)
    decreases |ys|
  {
    if ys == [] {
      assert xs + ys == xs;
    } else {
      var init := ys[..|ys| - 1];
      assert (xs + ys)[..|xs + ys| - 1] == xs + init;
      FoldAppend(xs, init, v0, g);
    }
  }

  /** Looping over the concatenated parts of xs is looping over xs and, for each, over its
      part. */
  lemma {:induction false} FoldFlatMap<V, T, U>(xs: seq<T>, h: T -> seq<U>, v0: V, g: (V, U) -> V, outer: (V, T) -> V)
    requires forall v, x :: outer(v, x) == Fold(h(x), v, g)
    ensures Fold(FlatMap(xs, h), v0, g) == Fold(xs, v0, outer)
    decreases |xs|
  {
    if xs != [] {
      var init := xs[..|xs| - 1];
      FoldFlatMap(init, h, v0, g, outer);
      FoldAppend(FlatMap(init, h), h(xs[|xs| - 1]), v0, g);
    }
  }

  /** One more element: the loop over xs[..k + 1] is one step after the loop over xs[..k]. */
  lemma FoldRSnoc<S, T>(xs: seq<T>, s0: S, step: (S, T) -> Result<S>, k: nat)
    requires k < |xs|
    ensures FoldR(xs[..k + 1], s0, step) ==
      match FoldR(xs[..k], s0, step)
      case Err(e) => Err(e)
      case Ok(s) => step(s, xs[k])
  {
    assert xs[..k + 1][..k] == xs[..k];
  }

  /** Once a prefix has failed, the whole loop fails with the same error. */
  lemma {:induction false} FoldRFailedPrefix<S, T>(xs: seq<T>, s0: S, step: (S, T) -> Result<S>, k: nat)
    requires k <= |xs| && FoldR(xs[..k], s0, step).Err?
    ensures FoldR(xs, s0, step) == FoldR(xs[..k], s0, step)
    decreases |xs| - k
  {
    if k < |xs| {
      FoldRSnoc(xs, s0, step, k);
      FoldRFailedPrefix(xs, s0, step, k + 1);
    } else {
      assert xs[..k] == xs;
    }
  }

  /** Concatenation of f over xs, left to right. */
  function FlatMap<T, U>(xs: seq<T>, f: T -> seq<U>): seq<U>
    decreases |xs|
  {
    if xs == [] then [] else FlatMap(xs[..|xs| - 1], f) + f(xs[|xs| - 1])
  }

  /** Everything FlatMap produces comes from the step of one element. */
  lemma {:induction false} FlatMapMember<T, U>(xs: seq<T>, f: T -> seq<U>, y: U)
    requires y in FlatMap(xs, f)
    ensures exists i :: 0 <= i < |xs| && y in f(xs[i])
    decreases |xs|
  {
    var init := xs[..|xs| - 1];
    if y !in f(xs[|xs| - 1]) {
      FlatMapMember(init, f, y);
      var i :| 0 <= i < |init| && y in f(init[i]);
      assert init[i] == xs[i];
    }
  }

  /** One more element: the concatenation over xs[..k + 1] extends that over xs[..k] by f(xs[k]). */
  lemma FlatMapSnoc<T, U>(xs: seq<T>, f: T -> seq<U>, k: nat)
    requires k < |xs|
    ensures FlatMap(xs[..k + 1], f) == FlatMap(xs[..k], f) + f(xs[k])
  {
    assert xs[..k + 1][..k] == xs[..k];
  }

  /** When every failing step fails with e, a failing loop fails with e. */
  lemma {:induction false} FoldRFailsWith<S, T>(xs: seq<T>, s0: S, step: (S, T) -> Result<S>, e: Failure)
    requires forall s, x :: step(s, x).Err? ==> step(s, x).error == e
    ensures FoldR(xs, s0, step).Err? ==> FoldR(xs, s0, step).error == e
    decreases |xs|
  {
    if xs != [] {
      FoldRFailsWith(xs[..|xs| - 1], s0, step, e);
    }
  }

  /** When every failing step fails with e, a failing traversal fails with e. */
  lemma {:induction false} FlatMapRFailsWith<T, U>(xs: seq<T>, f: T -> Result<seq<U>>, e: Failure)
    requires forall x :: f(x).Err? ==> f(x).error == e
    ensures FlatMapR(xs, f).Err? ==> FlatMapR(xs, f).error == e
    decreases |xs|
  {
    if xs != [] {
      FlatMapRFailsWith(xs[..|xs| - 1], f, e);
    }
  }
}
