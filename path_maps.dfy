/** Maps from a path to a set of verbs, as HashMap<String, Set<...>> values, and the ways the
    merge containers combine them. */
module PathMaps {

  type PathMap<V> = map<string, set<V>>

  /** The verbs stored at p; an absent key reads as no verbs. */
  function At<V>(m: PathMap<V>, p: string): set<V>
  {
    if p in m then m[p] else {}
  }

  /** The map after vs is unioned into the entry of p (the entry is created when missing). */
  function UnionAt<V>(m: PathMap<V>, p: string, vs: set<V>): (r: PathMap<V>)
    ensures r.Keys == m.Keys + {p}
    ensures vs <= r[p] && At(m, p) <= r[p]
    ensures forall q :: q in r && r[q] != At(m, q) ==> q == p
  {
    m[p := At(m, p) + vs]
  }

  /** The key-wise union of two maps: keys of either, verbs of both. */
  function Union<V>(m1: PathMap<V>, m2: PathMap<V>): (r: PathMap<V>)
    ensures r.Keys == m1.Keys + m2.Keys
    ensures forall p :: p in r ==> r[p] == At(m1, p) + At(m2, p)
  {
    map p | p in m1.Keys + m2.Keys :: At(m1, p) + At(m2, p)
  }

  lemma UnionCommutative<V>(m1: PathMap<V>, m2: PathMap<V>)
    ensures Union(m1, m2) == Union(m2, m1)
  {
    var a, b := Union(m1, m2), Union(m2, m1);
    assert a.Keys == b.Keys;
    forall p | p in a ensures a[p] == b[p] {
    }
  }

  lemma UnionIdempotent<V>(m: PathMap<V>)
    ensures Union(m, m) == m
  {
    var a := Union(m, m);
    assert a.Keys == m.Keys;
    forall p | p in a ensures a[p] == m[p] {
    }
  }

  lemma UnionEmpty<V>(m: PathMap<V>)
    ensures Union(m, map[]) == m && Union(map[], m) == m
  {
    var a, b := Union(m, map[]), Union(map[], m);
    assert a.Keys == m.Keys && b.Keys == m.Keys;
    forall p | p in m ensures a[p] == m[p] && b[p] == m[p] {
    }
  }

  lemma UnionAssociative<V>(m1: PathMap<V>, m2: PathMap<V>, m3: PathMap<V>)
    ensures Union(Union(m1, m2), m3) == Union(m1, Union(m2, m3))
  {
    var a, b := Union(Union(m1, m2), m3), Union(m1, Union(m2, m3));
    assert a.Keys == b.Keys;
    forall p | p in a ensures a[p] == b[p] {
    }
  }

  /** The keys of m whose verb set is not empty. */
  function Occupied<V>(m: PathMap<V>): (ks: set<string>)
    ensures ks <= m.Keys
    ensures forall p :: p in m && m[p] != {} ==> p in ks
  {
    set p | p in m && m[p] != {}
  }

  /** The map after every (path, verb) pair of g has been added one by one: entries of g
      with no verbs never create a key. */
  function Absorb<V>(m: PathMap<V>, g: PathMap<V>): PathMap<V>
  {
    map p | p in m.Keys + Occupied(g) :: At(m, p) + At(g, p)
  }

  /** Absorbing nothing changes nothing. */
  lemma AbsorbNone<V>(m: PathMap<V>)
    ensures Absorb(m, map[]) == m
  {
    var e := Absorb(m, map[]);
    assert Occupied<V>(map[]) == {};
    assert e.Keys == m.Keys;
    forall q | q in e ensures e[q] == m[q] {
    }
  }

  /** An entry without verbs is not absorbed. */
  lemma AbsorbEmptyEntry<V>(m: PathMap<V>, g: PathMap<V>, p: string)
    requires p !in g
    ensures Absorb(m, g[p := {}]) == Absorb(m, g)
  {
    var a, b := Absorb(m, g[p := {}]), Absorb(m, g);
    assert Occupied(g[p := {}]) == Occupied(g);
    assert a.Keys == b.Keys;
    forall q | q in a ensures a[q] == b[q] {
    }
  }

  /** Adding one more verb at p to a map that has absorbed the verbs vs at p is absorbing
      vs with that verb. */
  lemma AbsorbGrow<V>(m: PathMap<V>, g: PathMap<V>, p: string, vs: set<V>, v: V)
    ensures UnionAt(Absorb(m, g[p := vs]), p, {v}) == Absorb(m, g[p := vs + {v}])
  {
    var l, r := UnionAt(Absorb(m, g[p := vs]), p, {v}), Absorb(m, g[p := vs + {v}]);
    AbsorbGrowKeys(m, g, p, vs, v);
    forall q | q in l ensures l[q] == r[q] {
      AbsorbGrowValue(m, g, p, vs, v, q);
    }
  }

  lemma AbsorbGrowKeys<V>(m: PathMap<V>, g: PathMap<V>, p: string, vs: set<V>, v: V)
    ensures UnionAt(Absorb(m, g[p := vs]), p, {v}).Keys == Absorb(m, g[p := vs + {v}]).Keys
  {
    assert Occupied(g[p := vs + {v}]) == Occupied(g[p := vs]) + {p};
  }

  lemma AbsorbGrowValue<V>(m: PathMap<V>, g: PathMap<V>, p: string, vs: set<V>, v: V, q: string)
    requires q in UnionAt(Absorb(m, g[p := vs]), p, {v})
    ensures q in Absorb(m, g[p := vs + {v}])
    ensures UnionAt(Absorb(m, g[p := vs]), p, {v})[q] == Absorb(m, g[p := vs + {v}])[q]
  {
    if q != p {
      assert q in Absorb(m, g[p := vs]);
      assert q in m || q in Occupied(g[p := vs]);
      assert At(g[p := vs + {v}], q) == At(g[p := vs], q);
    }
  }

  /** When g has no empty entry, absorbing it is the key-wise union. */
  lemma AbsorbIsUnion<V>(m: PathMap<V>, g: PathMap<V>)
    requires forall p :: p in g ==> g[p] != {}
    ensures Absorb(m, g) == Union(m, g)
  {
    var a, b := Absorb(m, g), Union(m, g);
    assert Occupied(g) == g.Keys;
    assert a.Keys == b.Keys;
    forall q | q in a ensures a[q] == b[q] {
    }
  }

  /** Absorbing a one-pair map is adding that pair. */
  lemma AbsorbSingle<V>(m: PathMap<V>, p: string, v: V)
    ensures Absorb(m, map[p := {v}]) == UnionAt(m, p, {v})
  {
    var g := map[p := {v}];
    var a, b := Absorb(m, g), UnionAt(m, p, {v});
    assert Occupied(g) == {p};
    assert a.Keys == b.Keys;
    forall q | q in a ensures a[q] == b[q] {
    }
  }
  /** Adding the same verbs at the same path twice is adding them once. */
  lemma UnionAtIdempotent<V>(m: PathMap<V>, p: string, vs: set<V>)
    ensures UnionAt(UnionAt(m, p, vs), p, vs) == UnionAt(m, p, vs)
  {
  }

  /** Two additions commute. */
  lemma UnionAtCommute<V>(m: PathMap<V>, p: string, vs: set<V>, q: string, ws: set<V>)
    ensures UnionAt(UnionAt(m, p, vs), q, ws) == UnionAt(UnionAt(m, q, ws), p, vs)
  {
    var l, r := UnionAt(UnionAt(m, p, vs), q, ws), UnionAt(UnionAt(m, q, ws), p, vs);
    assert l.Keys == r.Keys;
    forall k | k in l ensures l[k] == r[k] {
    }
  }

  /** The map after the (path, verb) pairs of ps have been added one by one, left to right. */
  function AddPairs<V>(m: PathMap<V>, ps: seq<(string, V)>): PathMap<V>
    decreases |ps|
  {
    if ps == [] then m else AddPairs(UnionAt(m, ps[0].0, {ps[0].1}), ps[1..])
  }

  /** The map holding m and the pairs of s, by their content alone. */
  function WithPairs<V>(m: PathMap<V>, s: set<(string, V)>): PathMap<V>
  {
    map p | p in m.Keys + (set x | x in s :: x.0) :: At(m, p) + VerbsOf(s, p)
  }

  /** The verbs s pairs with p. */
  function VerbsOf<V>(s: set<(string, V)>, p: string): set<V>
  {
    set x | x in s && x.0 == p :: x.1
  }

  /** Adding one pair to m before the rest is the same as counting it among the rest. */
  lemma WithPairsStep<V>(m: PathMap<V>, x: (string, V), rest: set<(string, V)>)
    ensures WithPairs(UnionAt(m, x.0, {x.1}), rest) == WithPairs(m, rest + {x})
  {
    var a, b := WithPairs(UnionAt(m, x.0, {x.1}), rest), WithPairs(m, rest + {x});
    assert (set y | y in rest + {x} :: y.0) == (set y | y in rest :: y.0) + {x.0};
    assert a.Keys == b.Keys;
    forall p | p in a ensures a[p] == b[p] {
      WithPairsStepAt(m, x, rest, p);
    }
  }

  lemma WithPairsStepAt<V>(m: PathMap<V>, x: (string, V), rest: set<(string, V)>, p: string)
    ensures At(UnionAt(m, x.0, {x.1}), p) + VerbsOf(rest, p) == At(m, p) + VerbsOf(rest + {x}, p)
  {
    assert VerbsOf(rest + {x}, p) == VerbsOf(rest, p) + (if x.0 == p then {x.1} else {});
  }

  /** Adding pairs one by one yields a map that depends only on which pairs were added. */
  lemma {:induction false} AddPairsContent<V>(m: PathMap<V>, ps: seq<(string, V)>)
    ensures AddPairs(m, ps) == WithPairs(m, set x | x in ps)
    decreases |ps|
  {
    if ps == [] {
      assert (set x | x in ps) == {};
      var w := WithPairs(m, {});
      assert w.Keys == m.Keys;
      forall p | p in m ensures w[p] == m[p] {
      }
    } else {
      AddPairsContent(UnionAt(m, ps[0].0, {ps[0].1}), ps[1..]);
      WithPairsStep(m, ps[0], set y | y in ps[1..]);
      assert (set y | y in ps) == (set y | y in ps[1..]) + {ps[0]};
    }
  }

  /** The order of additions does not matter. */
  lemma AddPairsOrderFree<V>(m: PathMap<V>, ps: seq<(string, V)>, qs: seq<(string, V)>)
    requires forall x :: x in ps <==> x in qs
    ensures AddPairs(m, ps) == AddPairs(m, qs)
  {
    AddPairsContent(m, ps);
    AddPairsContent(m, qs);
    assert (set x | x in ps) == (set x | x in qs);
  }
  /** A pair set added after another is the same as their union added at once. */
  lemma WithPairsUnion<V>(m: PathMap<V>, a: set<(string, V)>, b: set<(string, V)>)
    ensures WithPairs(WithPairs(m, a), b) == WithPairs(m, a + b)
  {
    var l, r := WithPairs(WithPairs(m, a), b), WithPairs(m, a + b);
    WithPairsUnionKeys(m, a, b);
    forall p | p in l ensures l[p] == r[p] {
      WithPairsUnionAt(m, a, b, p);
    }
  }

  lemma WithPairsUnionAt<V>(m: PathMap<V>, a: set<(string, V)>, b: set<(string, V)>, p: string)
    ensures At(WithPairs(WithPairs(m, a), b), p) == At(WithPairs(m, a + b), p)
  {
    WithPairsAt(WithPairs(m, a), b, p);
    WithPairsAt(m, a + b, p);
    WithPairsAt(m, a, p);
    assert VerbsOf(a + b, p) == VerbsOf(a, p) + VerbsOf(b, p);
  }

  lemma WithPairsUnionKeys<V>(m: PathMap<V>, a: set<(string, V)>, b: set<(string, V)>)
    ensures WithPairs(WithPairs(m, a), b).Keys == WithPairs(m, a + b).Keys
  {
    assert (set x | x in a + b :: x.0) == (set x | x in a :: x.0) + (set x | x in b :: x.0);
  }

  /** The verbs WithPairs gives a path, whether or not it is a key. */
  lemma WithPairsAt<V>(m: PathMap<V>, a: set<(string, V)>, p: string)
    ensures At(WithPairs(m, a), p) == At(m, p) + VerbsOf(a, p)
  {
    if p !in m && p !in (set x | x in a :: x.0) {
      assert VerbsOf(a, p) == {};
    }
  }

  /** Adding no pairs leaves the map as it is. */
  lemma WithNoPairs<V>(m: PathMap<V>)
    ensures WithPairs(m, {}) == m
  {
    var w := WithPairs(m, {});
    assert (set x: (string, V) | x in {} :: x.0) == {};
    assert w.Keys == m.Keys;
    forall p | p in m ensures w[p] == m[p] {
    }
  }

  /** Adding one pair to a map built from pairs is counting it among them. */
  lemma WithPairsSnoc<V>(m: PathMap<V>, s: set<(string, V)>, p: string, v: V)
    ensures UnionAt(WithPairs(m, s), p, {v}) == WithPairs(m, s + {(p, v)})
  {
    WithPairsOne(WithPairs(m, s), p, v);
    WithPairsUnion(m, s, {(p, v)});
  }

  /** Adding one pair is WithPairs of that pair alone. */
  lemma WithPairsOne<V>(m: PathMap<V>, p: string, v: V)
    ensures UnionAt(m, p, {v}) == WithPairs(m, {(p, v)})
  {
    var l, r := UnionAt(m, p, {v}), WithPairs(m, {(p, v)});
    assert (set x | x in {(p, v)} :: x.0) == {p};
    assert l.Keys == r.Keys;
    forall q | q in l ensures l[q] == r[q] {
      WithPairsAt(m, {(p, v)}, q);
      assert VerbsOf({(p, v)}, q) == if q == p then {v} else {};
    }
  }
}
