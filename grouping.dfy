/** The per-package collection every reader builds: a HashMap from package name to the
    offer of that package, filled class by class (or method by method). */
module Grouping {
  import opened PathMaps

  /** A package name with the (path, verb) pairs one class or method of it contributes. */
  type Finding<V> = (string, seq<(string, V)>)

  /** The entry of pkg, an absent one read as empty. */
  function OfferOf<V(==)>(g: map<string, PathMap<V>>, pkg: string): PathMap<V>
  {
    if pkg in g then g[pkg] else map[]
  }

  /** The findings added left to right: an empty finding creates no entry; any other one has
      its pairs added to the entry of its package, which is created when missing. */
  function Group<V(==)>(fs: seq<Finding<V>>): map<string, PathMap<V>>
    decreases |fs|
  {
    if fs == [] then map[]
    else
      var g := Group(fs[..|fs| - 1]);
      var f := fs[|fs| - 1];
      if f.1 == [] then g else g[f.0 := AddPairs(OfferOf(g, f.0), f.1)]
  }

  /** Every pair the findings contribute to pkg. */
  function PairsOf<V(==)>(fs: seq<Finding<V>>, pkg: string): set<(string, V)>
    decreases |fs|
  {
    if fs == [] then {}
    else
      var f := fs[|fs| - 1];
      PairsOf(fs[..|fs| - 1], pkg) + (if f.0 == pkg then set x | x in f.1 else {})
  }

  /** A pair belongs to pkg exactly when some finding of pkg holds it. */
  lemma {:induction false} PairsOfMember<V>(fs: seq<Finding<V>>, pkg: string, x: (string, V))
    ensures x in PairsOf(fs, pkg) <==> exists i :: 0 <= i < |fs| && fs[i].0 == pkg && x in fs[i].1
    decreases |fs|
  {
    if fs != [] {
      var init := fs[..|fs| - 1];
      PairsOfMember(init, pkg, x);
      assert forall i :: 0 <= i < |init| ==> init[i] == fs[i];
    }
  }

  /** A package has an entry exactly when its findings contribute some pair. */
  lemma {:induction false} GroupKeys<V>(fs: seq<Finding<V>>, pkg: string)
    ensures pkg in Group(fs) <==> PairsOf(fs, pkg) != {}
    decreases |fs|
  {
    if fs != [] {
      var init, f := fs[..|fs| - 1], fs[|fs| - 1];
      GroupKeys(init, pkg);
      if f.1 != [] && f.0 == pkg {
        assert f.1[0] in PairsOf(fs, pkg);
      }
    }
  }

  /** The entry of a package holds exactly the pairs its findings contribute. */
  lemma {:induction false} GroupContent<V>(fs: seq<Finding<V>>, pkg: string)
    ensures OfferOf(Group(fs), pkg) == WithPairs(map[], PairsOf(fs, pkg))
    decreases |fs|
  {
    if fs == [] {
      var e: PathMap<V> := map[];
      WithNoPairs(e);
    } else {
      var init, f := fs[..|fs| - 1], fs[|fs| - 1];
      GroupContent(init, pkg);
      GroupStep(init, f, pkg);
    }
  }

  /** One finding more, for the entry of pkg. */
  lemma GroupStep<V>(init: seq<Finding<V>>, f: Finding<V>, pkg: string)
    requires OfferOf(Group(init), pkg) == WithPairs(map[], PairsOf(init, pkg))
    ensures OfferOf(Group(init + [f]), pkg) == WithPairs(map[], PairsOf(init + [f], pkg))
  {
    var fs := init + [f];
    assert fs[..|fs| - 1] == init;
    var g, p := Group(init), PairsOf(init, pkg);
    var added := if f.0 == pkg then set x | x in f.1 else {};
    assert PairsOf(fs, pkg) == p + added;
    if f.1 == [] {
      assert added == {};
      assert p + added == p;
    } else if f.0 == pkg {
      assert Group(fs) == g[pkg := AddPairs(OfferOf(g, pkg), f.1)];
      AddPairsContent(OfferOf(g, pkg), f.1);
      WithPairsUnion(map[], p, added);
    } else {
      assert added == {};
      assert p + added == p;
      assert Group(fs) == g[f.0 := AddPairs(OfferOf(g, f.0), f.1)];
    }
  }

  /** A package's entry pairs a path with a verb exactly when one of its findings holds
      that pair. */
  lemma GroupAt<V>(fs: seq<Finding<V>>, pkg: string, path: string, v: V)
    ensures v in At(OfferOf(Group(fs), pkg), path) <==>
      exists i :: 0 <= i < |fs| && fs[i].0 == pkg && (path, v) in fs[i].1
  {
    GroupContent(fs, pkg);
    WithPairsAt(map[], PairsOf(fs, pkg), path);
    PairsOfMember(fs, pkg, (path, v));
  }

  /** The order in which findings arrive does not matter. */
  lemma GroupOrderFree<V>(fs: seq<Finding<V>>, gs: seq<Finding<V>>)
    requires forall f :: f in fs <==> f in gs
    ensures Group(fs) == Group(gs)
  {
    forall pkg ensures PairsOf(fs, pkg) == PairsOf(gs, pkg) {
      PairsOfOrderFree(fs, gs, pkg);
    }
    forall pkg ensures pkg in Group(fs) <==> pkg in Group(gs) {
      GroupKeys(fs, pkg);
      GroupKeys(gs, pkg);
    }
    forall pkg | pkg in Group(fs) ensures Group(fs)[pkg] == Group(gs)[pkg] {
      GroupContent(fs, pkg);
      GroupContent(gs, pkg);
    }
  }

  lemma PairsOfOrderFree<V>(fs: seq<Finding<V>>, gs: seq<Finding<V>>, pkg: string)
    requires forall f :: f in fs <==> f in gs
    ensures PairsOf(fs, pkg) == PairsOf(gs, pkg)
  {
    forall x: (string, V) | x in PairsOf(fs, pkg) ensures x in PairsOf(gs, pkg) {
      PairsOfMember(fs, pkg, x);
      PairsOfMember(gs, pkg, x);
      var i :| 0 <= i < |fs| && fs[i].0 == pkg && x in fs[i].1;
      assert fs[i] in gs;
      var j :| 0 <= j < |gs| && gs[j] == fs[i];
      assert gs[j].0 == pkg && x in gs[j].1;
    }
    forall x: (string, V) | x in PairsOf(gs, pkg) ensures x in PairsOf(fs, pkg) {
      PairsOfMember(fs, pkg, x);
      PairsOfMember(gs, pkg, x);
      var i :| 0 <= i < |gs| && gs[i].0 == pkg && x in gs[i].1;
      assert gs[i] in fs;
      var j :| 0 <= j < |fs| && fs[j] == gs[i];
      assert fs[j].0 == pkg && x in fs[j].1;
    }
  }

  /** The loop `for (pair : paths) currentOffer.addPathToMethod(pair)`. */
  method AddAll<V(==)>(offer: PathMap<V>, ps: seq<(string, V)>) returns (r: PathMap<V>)
    ensures r == AddPairs(offer, ps)
  {
    r := offer;
    var k := 0;
    while k < |ps|
      invariant 0 <= k <= |ps|
      invariant AddPairs(r, ps[k..]) == AddPairs(offer, ps)
    {
      assert ps[k..][1..] == ps[k + 1..];
      r := UnionAt(r, ps[k].0, {ps[k].1});
      k := k + 1;
    }
  }

  /** One class's paths put into the map of offers: nothing when there are none; otherwise
      the package's offer is looked up, or created and registered, and every pair is added. */
  method AddFinding<V(==)>(offers: map<string, PathMap<V>>, ghost fs: seq<Finding<V>>, pkg: string, ps: seq<(string, V)>)
    returns (r: map<string, PathMap<V>>)
    requires offers == Group(fs)
    ensures r == Group(fs + [(pkg, ps)])
  {
    var all := fs + [(pkg, ps)];
    assert all[..|all| - 1] == fs;
    r := offers;
    if ps != [] {
      var offer: PathMap<V> := if pkg in offers then offers[pkg] else map[];
      offer := AddAll(offer, ps);
      r := offers[pkg := offer];
    }
  }
}
