/** The component dependency graph: the source tree below every whitelisted root is walked,
    each Java file is attributed to a component named by the directories above it, and its
    imports become edges to other components. */
module ComponentCollector {
  import opened Common
  import opened Strings
  import opened PathMaps
  import opened JavaModel

  /** The configuration every lookup reads: the depth of each whitelisted name, the roots the
      walk starts from, the blacklist (None when it is null; it may hold null entries) and
      whether the default whitelist is in use. */
  datatype Settings = Settings(
    depths: map<string, int>,
    roots: set<string>,
    blackList: Option<set<Option<string>>>,
    defaultUsed: bool)

  /** Some root is a raw string prefix of the name, or the default whitelist is in use. */
  predicate IsInWhiteList(s: Settings, name: string)
  {
    (exists b :: b in s.roots && StartsWith(name, b)) || s.defaultUsed
  }

  /** Some non-null blacklist entry is a raw string prefix of the name. A null blacklist
      makes isInBlackList throw; its callers below model that before asking. */
  predicate IsInBlackList(s: Settings, name: string)
  {
    s.blackList.Some? && exists b :: b in s.blackList.value && b.Some? && StartsWith(name, b.value)
  }

  /** The configured depth of a name; a name without one counts as depth 1. */
  function DepthOf(s: Settings, name: string): int
  {
    if name in s.depths then s.depths[name] else 1
  }

  /** No name of the set is a proper raw prefix of another. */
  predicate PrefixFree(names: set<string>)
  {
    forall a, b :: a in names && b in names && a <= b ==> a == b
  }

  lemma PrefixTransitive(a: string, b: string, c: string)
    requires a <= b && b <= c
    ensures a <= c
  {
    assert c[..|b|][..|a|] == c[..|a|];
  }

  /** Two prefixes of one string are prefixes of each other. */
  lemma PrefixesComparable(a: string, b: string, p: string)
    requires a <= p && b <= p && |a| <= |b|
    ensures a <= b
  {
    assert p[..|b|][..|a|] == p[..|a|];
  }

  /** In a prefix-free set at most one name is a prefix of a given string. */
  lemma PrefixFreeUnique(names: set<string>, p: string)
    requires PrefixFree(names)
    ensures forall a, b :: a in names && b in names && a <= p && b <= p ==> a == b
  {
    forall a, b | a in names && b in names && a <= p && b <= p
      ensures a == b
    {
      if |a| <= |b| {
        PrefixesComparable(a, b, p);
      } else {
        PrefixesComparable(b, a, p);
      }
    }
  }

  /** The longest a shortened import may be, in segments: 1 with the default whitelist, the
      segments of the root the name lies under plus that root's depth, and -1 for a name
      under no root. The roots are prefix-free, so the root is unique. */
  function MaxBaseLength(s: Settings, name: string): int
    requires PrefixFree(s.roots)
  {
    if s.defaultUsed then 1
    else if exists b :: b in s.roots && StartsWith(name, b) then
      PrefixFreeUnique(s.roots, name);
      var b :| b in s.roots && StartsWith(name, b);
      Segments(b) + DepthOf(s, b)
    else -1
  }

  /** The maximum base length is that of the root the name lies under. */
  lemma MaxBaseLengthOfRoot(s: Settings, b: string, name: string)
    requires PrefixFree(s.roots) && !s.defaultUsed
    requires b in s.roots && StartsWith(name, b)
    ensures MaxBaseLength(s, name) == Segments(b) + DepthOf(s, b)
  {
    PrefixFreeUnique(s.roots, name);
  }

  /** The component an import points to: nothing for an import that is not whitelisted or is
      blacklisted; otherwise the import without its last segment, cut to the maximum base
      length unless that is -1. Arrays.copyOf with a negative length throws, and so does the
      blacklist test on a whitelisted import when the blacklist is null. */
  function ImportEdge(s: Settings, imp: string): (r: Result<Option<string>>)
    requires PrefixFree(s.roots)
    ensures !IsInWhiteList(s, imp) || IsInBlackList(s, imp) ==> r == Ok(None)
    ensures IsInWhiteList(s, imp) && !IsInBlackList(s, imp) ==> r != Ok(None)
    ensures IsInWhiteList(s, imp) && s.blackList.None? ==> r == Err(NullPointer)
    ensures r.Ok? && r.value.Some? ==> r.value.value <= imp && !IsInBlackList(s, r.value.value)
  {
    if !IsInWhiteList(s, imp) then Ok(None)
    else if s.blackList.None? then Err(NullPointer)
    else if IsInBlackList(s, imp) then Ok(None)
    else
      var parts := JavaSplit(imp, '.');
      if |parts| == 0 then Err(NegativeArraySize)
      else
        var max := MaxBaseLength(s, imp);
        if |parts| - 1 > max && max != -1 then
          if max < 0 then Err(NegativeArraySize)
          else
            JavaSplitPrefix(imp, '.', max);
            BlackListUpward(s, Join(parts[..max], '.'), imp);
            Ok(Some(Join(parts[..max], '.')))
        else
          JavaSplitPrefix(imp, '.', |parts| - 1);
          BlackListUpward(s, Join(parts[..|parts| - 1], '.'), imp);
          Ok(Some(Join(parts[..|parts| - 1], '.')))
  }

  /** An edge is the import without its last segment, cut to the first max segments when
      it is longer than the maximum base length max and max is not -1. */
  lemma ImportEdgeSegments(s: Settings, imp: string)
    requires PrefixFree(s.roots) && ImportEdge(s, imp).Ok? && ImportEdge(s, imp).value.Some?
    ensures var parts := JavaSplit(imp, '.');
            var max := MaxBaseLength(s, imp);
            var k := if |parts| - 1 > max && max != -1 then max else |parts| - 1;
            0 <= k < |parts| && ImportEdge(s, imp).value.value == Join(parts[..k], '.')
  {
  }

  /** Whatever is blacklisted makes every string it is a prefix of blacklisted too. */
  lemma BlackListUpward(s: Settings, e: string, name: string)
    requires e <= name
    ensures IsInBlackList(s, e) ==> IsInBlackList(s, name)
  {
    if IsInBlackList(s, e) {
      var b :| b in s.blackList.value && b.Some? && StartsWith(e, b.value);
      PrefixTransitive(b.value, e, name);
    }
  }

  /** The set getRelevantImportNames builds: the edges of the imports, without the current
      component itself. The first import whose edge fails aborts the whole set. */
  function RelevantImports(s: Settings, pkg: string, imps: seq<string>): (r: Result<set<string>>)
    requires PrefixFree(s.roots)
    ensures r.Ok? ==> pkg !in r.value
    ensures r.Ok? ==> forall e :: e in r.value ==> !IsInBlackList(s, e)
    decreases |imps|
  {
    if imps == [] then Ok({})
    else
      var init := imps[..|imps| - 1];
      match RelevantImports(s, pkg, init)
      case Err(f) => Err(f)
      case Ok(acc) =>
        match ImportEdge(s, imps[|imps| - 1])
        case Err(f) => Err(f)
        case Ok(None) => Ok(acc)
        case Ok(Some(e)) => Ok(if e != pkg then acc + {e} else acc)
  }

  /** The walk over the imports fails exactly when the edge of some import fails. */
  lemma {:induction false} RelevantImportsFails(s: Settings, pkg: string, imps: seq<string>)
    requires PrefixFree(s.roots)
    ensures RelevantImports(s, pkg, imps).Err? <==> exists i :: 0 <= i < |imps| && ImportEdge(s, imps[i]).Err?
    decreases |imps|
  {
    if imps != [] {
      var init := imps[..|imps| - 1];
      RelevantImportsFails(s, pkg, init);
      assert forall i :: 0 <= i < |init| ==> init[i] == imps[i];
    }
  }

  /** A component is in the set exactly when it is the edge of some import and is not the
      current component. */
  lemma {:induction false} RelevantImportsMembers(s: Settings, pkg: string, imps: seq<string>, e: string)
    requires PrefixFree(s.roots) && RelevantImports(s, pkg, imps).Ok?
    ensures e in RelevantImports(s, pkg, imps).value <==>
      e != pkg && exists i :: 0 <= i < |imps| && ImportEdge(s, imps[i]) == Ok(Some(e))
    decreases |imps|
  {
    if imps != [] {
      var init := imps[..|imps| - 1];
      RelevantImportsMembers(s, pkg, init, e);
      assert forall i :: 0 <= i < |init| ==> init[i] == imps[i];
      assert imps == init + [imps[|imps| - 1]];
    }
  }

  /** The package name a directory entry is filed under: below the root, a directory adds
      its name while the depth does not exceed the root's configured depth; the root
      directory itself (depth 0) adds nothing. */
  function Descend(s: Settings, root: string, pkg: string, depth: nat, name: string): string
  {
    if depth <= DepthOf(s, root) && depth != 0 then pkg + "." + name else pkg
  }

  /** collectBySourceAdd, on values: the dependency map after walking one node. A blacklisted
      directory is not entered; a file under a blacklisted name records nothing; a file that
      cannot be opened is skipped. With a null blacklist every directory and every readable
      file throws at the blacklist test. */
  function Collect(s: Settings, root: string, node: SourceNode, pkg: string, depth: nat,
                   deps: PathMap<string>): Result<PathMap<string>>
    requires PrefixFree(s.roots)
    decreases node
  {
    match node
    case Unreadable => Ok(deps)
    case File(imps) =>
      if s.blackList.None? then Err(NullPointer)
      else if IsInBlackList(s, pkg) then Ok(deps)
      else (
        match RelevantImports(s, pkg, imps)
        case Err(f) => Err(f)
        case Ok(r) => Ok(UnionAt(deps, pkg, r)))
    case Dir(name, children) =>
      var here := Descend(s, root, pkg, depth, name);
      if s.blackList.None? then Err(NullPointer)
      else if IsInBlackList(s, here) then Ok(deps)
      else CollectAll(s, root, children, here, depth + 1, deps)
  }

  /** The entries of one directory, walked in listing order; a failure aborts the walk. */
  function CollectAll(s: Settings, root: string, nodes: seq<SourceNode>, pkg: string, depth: nat,
                      deps: PathMap<string>): Result<PathMap<string>>
    requires PrefixFree(s.roots)
    decreases nodes
  {
    if nodes == [] then Ok(deps)
    else
      match CollectAll(s, root, nodes[..|nodes| - 1], pkg, depth, deps)
      case Err(f) => Err(f)
      case Ok(acc) => Collect(s, root, nodes[|nodes| - 1], pkg, depth, acc)
  }

  /** The invariant of the dependency map: no component is blacklisted, none depends on
      itself, and no dependency is blacklisted. */
  predicate Sound(s: Settings, deps: PathMap<string>)
  {
    forall k :: k in deps ==>
      !IsInBlackList(s, k) && k !in deps[k] && forall e :: e in deps[k] ==> !IsInBlackList(s, e)
  }

  lemma {:induction false} CollectSound(s: Settings, root: string, node: SourceNode, pkg: string,
                                        depth: nat, deps: PathMap<string>)
    requires PrefixFree(s.roots) && Sound(s, deps)
    requires Collect(s, root, node, pkg, depth, deps).Ok?
    ensures Sound(s, Collect(s, root, node, pkg, depth, deps).value)
    decreases node
  {
    match node
    case Unreadable =>
    case File(imps) =>
    case Dir(name, children) =>
      var here := Descend(s, root, pkg, depth, name);
      if s.blackList.Some? && !IsInBlackList(s, here) {
        CollectAllSound(s, root, children, here, depth + 1, deps);
      }
  }

  lemma {:induction false} CollectAllSound(s: Settings, root: string, nodes: seq<SourceNode>, pkg: string,
                                           depth: nat, deps: PathMap<string>)
    requires PrefixFree(s.roots) && Sound(s, deps)
    requires CollectAll(s, root, nodes, pkg, depth, deps).Ok?
    ensures Sound(s, CollectAll(s, root, nodes, pkg, depth, deps).value)
    decreases nodes
  {
    if nodes != [] {
      var init := nodes[..|nodes| - 1];
      CollectAllSound(s, root, init, pkg, depth, deps);
      CollectSound(s, root, nodes[|nodes| - 1], pkg, depth, CollectAll(s, root, init, pkg, depth, deps).value);
    }
  }

  /** A null blacklist makes the walk throw NullPointerException at the first directory or
      readable file; only an unreadable file is passed over. */
  lemma CollectNullBlackList(s: Settings, root: string, node: SourceNode, pkg: string, depth: nat,
                             deps: PathMap<string>)
    requires PrefixFree(s.roots) && s.blackList.None?
    ensures Collect(s, root, node, pkg, depth, deps) ==
      if node.Unreadable? then Ok(deps) else Err(NullPointer)
  {
  }

  /** With a null blacklist the imports of a file fail exactly when one of them is
      whitelisted, since only then is the blacklist consulted. */
  lemma RelevantImportsNullBlackList(s: Settings, pkg: string, imps: seq<string>)
    requires PrefixFree(s.roots) && s.blackList.None?
    ensures RelevantImports(s, pkg, imps).Err? <==> exists i :: 0 <= i < |imps| && IsInWhiteList(s, imps[i])
  {
    RelevantImportsFails(s, pkg, imps);
    if exists i :: 0 <= i < |imps| && IsInWhiteList(s, imps[i]) {
      var i :| 0 <= i < |imps| && IsInWhiteList(s, imps[i]);
      assert ImportEdge(s, imps[i]).Err?;
    }
  }

  /** The names a walk can file under: the root followed by ".name" for each directory
      entered. */
  function Dotted(names: seq<string>): string
    decreases |names|
  {
    if names == [] then [] else Dotted(names[..|names| - 1]) + "." + names[|names| - 1]
  }

  /** The component k is the root followed by at most depth(root) directory names (none
      when the depth is not positive). */
  predicate UnderRoot(s: Settings, root: string, names: seq<string>, k: string)
  {
    root in s.roots && (names == [] || |names| <= DepthOf(s, root)) && k == root + Dotted(names)
  }

  ghost predicate Placed(s: Settings, deps: PathMap<string>)
  {
    forall k :: k in deps ==> exists root, names :: UnderRoot(s, root, names, k)
  }

  /** How many directory names a walk at this depth may have added. */
  function Added(depth: nat): nat { if depth == 0 then 0 else depth - 1 }

  lemma {:induction false} CollectPlaced(s: Settings, root: string, node: SourceNode, pkg: string,
                                         depth: nat, names: seq<string>, deps: PathMap<string>)
    requires PrefixFree(s.roots) && Placed(s, deps)
    requires UnderRoot(s, root, names, pkg) && |names| <= Added(depth)
    requires Collect(s, root, node, pkg, depth, deps).Ok?
    ensures Placed(s, Collect(s, root, node, pkg, depth, deps).value)
    decreases node
  {
    match node
    case Unreadable =>
    case File(imps) =>
    case Dir(name, children) =>
      var here := Descend(s, root, pkg, depth, name);
      if s.blackList.Some? && !IsInBlackList(s, here) {
        if depth <= DepthOf(s, root) && depth != 0 {
          var deeper := names + [name];
          assert deeper[..|names|] == names;
          assert UnderRoot(s, root, deeper, here);
          CollectAllPlaced(s, root, children, here, depth + 1, deeper, deps);
        } else {
          CollectAllPlaced(s, root, children, here, depth + 1, names, deps);
        }
      }
  }

  lemma {:induction false} CollectAllPlaced(s: Settings, root: string, nodes: seq<SourceNode>, pkg: string,
                                            depth: nat, names: seq<string>, deps: PathMap<string>)
    requires PrefixFree(s.roots) && Placed(s, deps)
    requires UnderRoot(s, root, names, pkg) && |names| <= Added(depth)
    requires CollectAll(s, root, nodes, pkg, depth, deps).Ok?
    ensures Placed(s, CollectAll(s, root, nodes, pkg, depth, deps).value)
    decreases nodes
  {
    if nodes != [] {
      var init := nodes[..|nodes| - 1];
      CollectAllPlaced(s, root, init, pkg, depth, names, deps);
      CollectPlaced(s, root, nodes[|nodes| - 1], pkg, depth, names, CollectAll(s, root, init, pkg, depth, deps).value);
    }
  }

  /** A failure in the first k entries is the failure of the whole directory. */
  lemma {:induction false} CollectAllFailedPrefix(s: Settings, root: string, nodes: seq<SourceNode>, pkg: string,
                                                  depth: nat, deps: PathMap<string>, k: nat)
    requires PrefixFree(s.roots) && k <= |nodes|
    requires CollectAll(s, root, nodes[..k], pkg, depth, deps).Err?
    ensures CollectAll(s, root, nodes, pkg, depth, deps) == CollectAll(s, root, nodes[..k], pkg, depth, deps)
    decreases |nodes| - k
  {
    if k < |nodes| {
      assert nodes[..k + 1][..k] == nodes[..k];
      CollectAllFailedPrefix(s, root, nodes, pkg, depth, deps, k + 1);
    } else {
      assert nodes[..k] == nodes;
    }
  }

  /** A failure in the first k imports is the failure of the whole import list. */
  lemma {:induction false} RelevantImportsFailedPrefix(s: Settings, pkg: string, imps: seq<string>, k: nat)
    requires PrefixFree(s.roots) && k <= |imps|
    requires RelevantImports(s, pkg, imps[..k]).Err?
    ensures RelevantImports(s, pkg, imps) == RelevantImports(s, pkg, imps[..k])
    decreases |imps| - k
  {
    if k < |imps| {
      assert imps[..k + 1][..k] == imps[..k];
      RelevantImportsFailedPrefix(s, pkg, imps, k + 1);
    } else {
      assert imps[..k] == imps;
    }
  }

  /** Some other name of the set is a raw prefix of m. */
  predicate Shadowed(names: set<string>, m: string)
  {
    exists k :: k in names && k != m && StartsWith(m, k)
  }

  /** The whitelist names no other whitelist name is a raw prefix of. */
  function Survivors(names: set<string>): set<string>
  {
    set m | m in names && !Shadowed(names, m)
  }

  /** The surviving roots never overlap, so every name lies under at most one of them. */
  lemma SurvivorsPrefixFree(names: set<string>)
    ensures PrefixFree(Survivors(names))
  {
  }

  /** How far a name reaches with a depth: its own segments plus the depth. */
  function Reach(d: map<string, int>, n: string): int
    requires n in d
  {
    Segments(n) + d[n]
  }

  /** With the depths d, n reaches exactly as far as m, a name under n (n itself included),
      did with its original depth. */
  ghost predicate ReachedFrom(d0: map<string, int>, d: map<string, int>, n: string, m: string)
  {
    m in d0 && n in d && StartsWith(m, n) && Reach(d0, m) == Reach(d, n)
  }

  /** n reaches no further than some name under it did originally. */
  ghost predicate Reaches(d0: map<string, int>, d: map<string, int>, n: string)
  {
    exists m :: ReachedFrom(d0, d, n, m)
  }

  /** With the depths d, n reaches at least as far as every name of the set under it did
      with its original depth. */
  ghost predicate Covers(d0: map<string, int>, d: map<string, int>, n: string, names: set<string>)
    requires n in d && names <= d0.Keys
  {
    forall m :: m in names && StartsWith(m, n) ==> Reach(d, n) >= Reach(d0, m)
  }

  /** The depths after filtering: no depth shrinks, every name reaches at least as far as any
      name under it did, and no further than one of them did. */
  ghost predicate Compensated(d0: map<string, int>, d: map<string, int>)
  {
    d.Keys == d0.Keys &&
    (forall n :: n in d0 ==> d[n] >= d0[n] && Covers(d0, d, n, d0.Keys)) &&
    (forall n {:trigger Reaches(d0, d, n)} :: n in d0 ==> Reaches(d0, d, n))
  }

  /** The compensated depths are determined by the original ones: the order in which the
      names are visited does not matter. */
  lemma CompensatedUnique(d0: map<string, int>, d1: map<string, int>, d2: map<string, int>)
    requires Compensated(d0, d1) && Compensated(d0, d2)
    ensures d1 == d2
  {
    forall n | n in d0
      ensures d1[n] == d2[n]
    {
      assert Reaches(d0, d1, n) && Reaches(d0, d2, n);
      var m1 :| ReachedFrom(d0, d1, n, m1);
      var m2 :| ReachedFrom(d0, d2, n, m2);
      assert Covers(d0, d2, n, d0.Keys) && Covers(d0, d1, n, d0.Keys);
    }
  }

  /** A name absorbed under a survivor n reaches, with its own compensated depth, no further
      than n does. */
  lemma CompensatedAbsorbed(d0: map<string, int>, d: map<string, int>, n: string, m: string)
    requires Compensated(d0, d) && n in d0 && m in d0 && StartsWith(m, n)
    ensures Reach(d, n) >= Reach(d, m)
  {
    assert Reaches(d0, d, m);
    var k :| ReachedFrom(d0, d, m, k);
    PrefixTransitive(n, m, k);
    assert Covers(d0, d, n, d0.Keys);
  }

  /** What filterWhiteList keeps true while it visits the names: every depth has grown and
      reaches no further than a name under it did; the names in done reach as far as every
      name under them; a name is dropped exactly when a name in done shadows it. */
  ghost predicate FilterInv(names: set<string>, d0: map<string, int>, d: map<string, int>,
                            done: set<string>, filtered: set<string>)
  {
    d0.Keys == names && d.Keys == names && done <= names && filtered <= names &&
    (forall n :: n in names ==> d[n] >= d0[n]) &&
    (forall n {:trigger Reaches(d0, d, n)} :: n in names ==> Reaches(d0, d, n)) &&
    (forall n :: n in done ==> Covers(d0, d, n, names)) &&
    (forall m :: m in filtered ==> !Shadowed(done, m)) &&
    (forall m {:trigger Shadowed(done, m)} :: m in names && m !in filtered ==> Shadowed(done, m))
  }

  /** The same while name (closed is done with name added) is compared with the names in
      seen. */
  ghost predicate CompareInv(names: set<string>, d0: map<string, int>, d: map<string, int>,
                             done: set<string>, name: string, closed: set<string>,
                             seen: set<string>, filtered: set<string>)
  {
    d0.Keys == names && d.Keys == names && done <= names && name in names &&
    closed == done + {name} && seen <= names && filtered <= names &&
    (forall n :: n in names ==> d[n] >= d0[n]) &&
    (forall n {:trigger Reaches(d0, d, n)} :: n in names ==> Reaches(d0, d, n)) &&
    (forall n :: n in done ==> Covers(d0, d, n, names)) &&
    Covers(d0, d, name, seen) &&
    (forall m :: m in filtered ==> !Shadowed(done, m) && !(m in seen && m != name && StartsWith(m, name))) &&
    (forall m {:trigger Shadowed(closed, m)} :: m in names && m !in filtered ==> Shadowed(closed, m))
  }

  /** One comparison of filterWhiteList: when name is a proper prefix of other, name's depth
      grows by the positive difference of their reaches. */
  function CompareDepths(d: map<string, int>, name: string, other: string): (r: map<string, int>)
    requires name in d && other in d
    ensures r.Keys == d.Keys
    ensures forall n :: n in d && n != name ==> r[n] == d[n]
    ensures other != name && StartsWith(other, name) ==>
      Reach(r, name) == if Reach(d, other) > Reach(d, name) then Reach(d, other) else Reach(d, name)
    ensures !(other != name && StartsWith(other, name)) ==> r == d
  {
    if other != name && StartsWith(other, name) && Reach(d, other) - Reach(d, name) > 0
    then d[name := d[name] + (Reach(d, other) - Reach(d, name))]
    else d
  }

  /** When name is a proper prefix of other and other reaches further, name's depth grows
      by the difference. */
  lemma CompareDepthsRaises(d: map<string, int>, name: string, other: string, diff: int)
    requires name in d && other in d && other != name && StartsWith(other, name)
    requires diff == Segments(other) + d[other] - (Segments(name) + d[name]) && diff > 0
    ensures CompareDepths(d, name, other) == d[name := d[name] + diff]
  {
  }

  /** When other reaches no further than name, name's depth stays as it is. */
  lemma CompareDepthsKeeps(d: map<string, int>, name: string, other: string, diff: int)
    requires name in d && other in d
    requires diff == Segments(other) + d[other] - (Segments(name) + d[name]) && diff <= 0
    ensures CompareDepths(d, name, other) == d
  {
  }

  /** Before any comparison every name reaches exactly as far as it did, nothing is dropped. */
  lemma StartFilter(names: set<string>, d0: map<string, int>)
    requires d0.Keys == names
    ensures FilterInv(names, d0, d0, {}, names)
  {
    forall n | n in names
      ensures Reaches(d0, d0, n)
    {
      assert ReachedFrom(d0, d0, n, n);
    }
  }

  lemma StartComparing(names: set<string>, d0: map<string, int>, d: map<string, int>,
                       done: set<string>, name: string, filtered: set<string>)
    requires FilterInv(names, d0, d, done, filtered) && name in names
    ensures CompareInv(names, d0, d, done, name, done + {name}, {}, filtered)
  {
    forall m | m in names && m !in filtered
      ensures Shadowed(done + {name}, m)
    {
      assert Shadowed(done, m);
    }
  }

  /** A comparison keeps every name within the reach of some name under it. */
  lemma CompareKeepsReaches(names: set<string>, d0: map<string, int>, d: map<string, int>,
                            name: string, other: string)
    requires d0.Keys == names && d.Keys == names && name in names && other in names
    requires forall n {:trigger Reaches(d0, d, n)} :: n in names ==> Reaches(d0, d, n)
    ensures forall n {:trigger Reaches(d0, CompareDepths(d, name, other), n)} :: n in names ==>
      Reaches(d0, CompareDepths(d, name, other), n)
  {
    var d' := CompareDepths(d, name, other);
    forall n | n in names
      ensures Reaches(d0, d', n)
    {
      assert Reaches(d0, d, n);
      if n == name && other != name && StartsWith(other, name) && Reach(d, other) > Reach(d, name) {
        assert Reaches(d0, d, other);
        var k :| ReachedFrom(d0, d, other, k);
        PrefixTransitive(name, other, k);
        assert ReachedFrom(d0, d', name, k);
      } else {
        var k :| ReachedFrom(d0, d, n, k);
        assert ReachedFrom(d0, d', n, k);
      }
    }
  }

  /** A comparison never lowers a depth, keeps the finished names covering, and lets name
      cover other as well. */
  lemma CompareKeepsCovers(names: set<string>, d0: map<string, int>, d: map<string, int>,
                           done: set<string>, name: string, seen: set<string>, other: string)
    requires d0.Keys == names && d.Keys == names && done <= names && seen <= names
    requires name in names && name !in done && other in names
    requires forall n :: n in names ==> d[n] >= d0[n]
    requires forall n :: n in done ==> Covers(d0, d, n, names)
    requires Covers(d0, d, name, seen)
    ensures forall n :: n in names ==> CompareDepths(d, name, other)[n] >= d0[n]
    ensures forall n :: n in done ==> Covers(d0, CompareDepths(d, name, other), n, names)
    ensures Covers(d0, CompareDepths(d, name, other), name, seen + {other})
  {
    var d' := CompareDepths(d, name, other);
    forall n | n in done
      ensures Covers(d0, d', n, names)
    {
      assert Covers(d0, d, n, names);
    }
    assert Covers(d0, d, name, seen);
  }

  /** Comparing name with other keeps the invariant: other is dropped when name is a proper
      prefix of it, and name's depth then covers other's. */
  lemma CompareStep(names: set<string>, d0: map<string, int>, d: map<string, int>,
                    done: set<string>, name: string, closed: set<string>, seen: set<string>,
                    filtered: set<string>, other: string, d': map<string, int>, filtered': set<string>)
    requires CompareInv(names, d0, d, done, name, closed, seen, filtered)
    requires name !in done && other in names
    requires d' == CompareDepths(d, name, other)
    requires filtered' == if other != name && StartsWith(other, name) then filtered - {other} else filtered
    ensures CompareInv(names, d0, d', done, name, closed, seen + {other}, filtered')
  {
    CompareKeepsReaches(names, d0, d, name, other);
    CompareKeepsCovers(names, d0, d, done, name, seen, other);
    forall m | m in names && m !in filtered'
      ensures Shadowed(closed, m)
    {
      if m in filtered {
        assert m == other && name in closed;
      } else {
        assert Shadowed(closed, m);
      }
    }
  }

  lemma FinishComparing(names: set<string>, d0: map<string, int>, d: map<string, int>,
                        done: set<string>, name: string, closed: set<string>, filtered: set<string>)
    requires CompareInv(names, d0, d, done, name, closed, names, filtered)
    ensures FilterInv(names, d0, d, closed, filtered)
  {
    forall m | m in names && m !in filtered
      ensures Shadowed(closed, m)
    {
      assert Shadowed(closed, m);
    }
  }

  /** Once every name is done, the kept names are exactly the unshadowed ones. */
  lemma FinishFilterSurvivors(names: set<string>, d0: map<string, int>, d: map<string, int>,
                              filtered: set<string>)
    requires FilterInv(names, d0, d, names, filtered)
    ensures filtered == Survivors(names)
  {
    forall m | m in names && m !in filtered
      ensures Shadowed(names, m)
    {
      assert Shadowed(names, m);
    }
  }

  /** Once every name is done, the depths are compensated. */
  lemma FinishFilterCompensated(names: set<string>, d0: map<string, int>, d: map<string, int>,
                                filtered: set<string>)
    requires FilterInv(names, d0, d, names, filtered)
    ensures Compensated(d0, d)
  {
    forall n | n in names
      ensures Reaches(d0, d, n)
    {
      assert Reaches(d0, d, n);
    }
  }

  /** The directory a whitelist name leads to below the source folder; a name that leads
      nowhere is a file that cannot be opened. */
  function TreeAt(tree: map<string, SourceNode>, root: string): SourceNode
  {
    if root in tree then tree[root] else Unreadable
  }

  /** The walks of collectInfo, one per root in the order visited; a failure aborts. */
  function CollectRoots(s: Settings, roots: seq<string>, tree: map<string, SourceNode>,
                        deps: PathMap<string>): Result<PathMap<string>>
    requires PrefixFree(s.roots)
    decreases |roots|
  {
    if roots == [] then Ok(deps)
    else
      match CollectRoots(s, roots[..|roots| - 1], tree, deps)
      case Err(f) => Err(f)
      case Ok(acc) => Collect(s, roots[|roots| - 1], TreeAt(tree, roots[|roots| - 1]), roots[|roots| - 1], 0, acc)
  }

  /** Walking whitelisted roots keeps the dependency map sound and every component placed
      under its root. */
  lemma {:induction false} CollectRootsSound(s: Settings, roots: seq<string>, tree: map<string, SourceNode>,
                                             deps: PathMap<string>)
    requires PrefixFree(s.roots) && Sound(s, deps) && Placed(s, deps)
    requires forall i :: 0 <= i < |roots| ==> roots[i] in s.roots
    requires CollectRoots(s, roots, tree, deps).Ok?
    ensures Sound(s, CollectRoots(s, roots, tree, deps).value)
    ensures Placed(s, CollectRoots(s, roots, tree, deps).value)
    decreases |roots|
  {
    if roots != [] {
      var init, root := roots[..|roots| - 1], roots[|roots| - 1];
      assert forall i :: 0 <= i < |init| ==> init[i] == roots[i];
      CollectRootsSound(s, init, tree, deps);
      var acc := CollectRoots(s, init, tree, deps).value;
      CollectSound(s, root, TreeAt(tree, root), root, 0, acc);
      assert root + Dotted([]) == root;
      CollectPlaced(s, root, TreeAt(tree, root), root, 0, [], acc);
    }
  }

  /** With the default whitelist every import is whitelisted, its base length is 1, and an
      import that is not blacklisted points to its first segment; a null blacklist throws. */
  lemma DefaultWhiteList(s: Settings, imp: string)
    requires s.depths == map["" := 1] && s.roots == {""} && s.defaultUsed
    ensures IsInWhiteList(s, imp) && MaxBaseLength(s, imp) == 1
    ensures s.blackList.Some? && !IsInBlackList(s, imp) && |JavaSplit(imp, '.')| >= 2 ==>
      ImportEdge(s, imp) == Ok(Some(JavaSplit(imp, '.')[0]))
    ensures s.blackList.None? ==> ImportEdge(s, imp) == Err(NullPointer)
  {
    assert StartsWith(imp, "");
    var parts := JavaSplit(imp, '.');
    if |parts| >= 2 {
      assert parts[..1] == [parts[0]];
    }
  }

  /** In default mode every component below the root directory is named "." followed by
      the directories entered, while every edge is at most the first segment of an import, so
      an edge never names such a component. */
  lemma DefaultModeNamesDiffer(s: Settings, root: string, names: seq<string>, k: string, imp: string)
    requires s.depths == map["" := 1] && s.roots == {""} && s.defaultUsed
    requires UnderRoot(s, root, names, k) && names != []
    requires ImportEdge(s, imp).Ok? && ImportEdge(s, imp).value.Some?
    ensures ImportEdge(s, imp).value.value != k
  {
    DefaultWhiteList(s, imp);
    ImportEdgeSegments(s, imp);
    var parts := JavaSplit(imp, '.');
    JavaSplitPieces(imp, '.');
    var e := ImportEdge(s, imp).value.value;
    var n :| 0 <= n < |parts| && e == Join(parts[..n], '.') && n <= 1;
    if n == 1 {
      assert parts[..1] == [parts[0]] && parts[0] in parts;
    }
    assert '.' !in e;
    DottedHasDot(names);
    assert k == Dotted(names);
  }

  lemma DottedHasDot(names: seq<string>)
    requires names != []
    ensures '.' in Dotted(names)
  {
    var d := Dotted(names);
    assert d == Dotted(names[..|names| - 1]) + "." + names[|names| - 1];
    assert d[|Dotted(names[..|names| - 1])|] == '.';
  }

  class ComponentInfoCollector {
    var whiteListMap: Option<map<string, int>>
    const blackListSet: Option<set<Option<string>>>
    var whiteListPackageNames: set<string>
    var defaultValuesUsed: bool

    constructor(whiteList: Option<map<string, int>>, blackList: Option<set<Option<string>>>)
      ensures whiteListMap == whiteList && blackListSet == blackList
      ensures whiteListPackageNames == {} && !defaultValuesUsed
    {
      whiteListMap := whiteList;
      blackListSet := blackList;
      whiteListPackageNames := {};
      defaultValuesUsed := false;
    }

    /** The whitelist collectInfo works with: an empty one becomes {"" -> 1}. */
    static function Prepared(m: map<string, int>): map<string, int>
    {
      if m == map[] then map["" := 1] else m
    }

    /** The configuration the lookups read. */
    function Current(): Settings
      reads this
      requires whiteListMap.Some?
    {
      Settings(whiteListMap.value, whiteListPackageNames, blackListSet, defaultValuesUsed)
    }

    /** The start of collectInfo: a null whitelist throws, an empty one becomes {"" -> 1} in
        default mode, and the whitelist names become the roots. */
    method PrepareWhiteList() returns (r: Result<()>)
      modifies this
      ensures old(whiteListMap).None? ==>
        r == Err(NullPointer) && whiteListMap == old(whiteListMap)
        && whiteListPackageNames == old(whiteListPackageNames) && defaultValuesUsed == old(defaultValuesUsed)
      ensures old(whiteListMap) == Some(map[]) ==>
        r == Ok(()) && whiteListMap == Some(map["" := 1]) && defaultValuesUsed
      ensures old(whiteListMap).Some? && old(whiteListMap).value != map[] ==>
        r == Ok(()) && whiteListMap == old(whiteListMap) && defaultValuesUsed == old(defaultValuesUsed)
      ensures r.Ok? ==> whiteListMap.Some? && whiteListPackageNames == whiteListMap.value.Keys
    {
      if whiteListMap.None? {
        return Err(NullPointer);
      }
      if whiteListMap.value == map[] {
        whiteListMap := Some(whiteListMap.value["" := 1]);
        defaultValuesUsed := true;
      }
      whiteListPackageNames := whiteListMap.value.Keys;
      r := Ok(());
    }

    /** filterWhiteList: drops every name another whitelist name is a raw prefix of, and
        raises the depth of the prefix so that it reaches as far as the dropped name did. */
    method FilterWhiteList() returns (filtered: set<string>)
      requires whiteListMap.Some? && whiteListMap.value.Keys == whiteListPackageNames
      modifies this
      ensures whiteListMap.Some? && whiteListMap.value.Keys == whiteListPackageNames
      ensures whiteListPackageNames == old(whiteListPackageNames)
      ensures defaultValuesUsed == old(defaultValuesUsed)
      ensures filtered == Survivors(whiteListPackageNames)
      ensures Compensated(old(whiteListMap.value), whiteListMap.value)
    {
      ghost var d0 := whiteListMap.value;
      var names := whiteListPackageNames;
      filtered := names;
      var todo := names;
      ghost var done: set<string> := {};
      StartFilter(names, d0);
      while todo != {}
        invariant todo <= names && done == names - todo
        invariant whiteListPackageNames == names && defaultValuesUsed == old(defaultValuesUsed)
        invariant whiteListMap.Some?
        invariant FilterInv(names, d0, whiteListMap.value, done, filtered)
        decreases todo
      {
        var name :| name in todo;
        filtered := CompareWithOthers(name, d0, done, filtered);
        todo := todo - {name};
        done := done + {name};
      }
      assert done == names;
      FinishFilterSurvivors(names, d0, whiteListMap.value, filtered);
      FinishFilterCompensated(names, d0, whiteListMap.value, filtered);
    }

    /** The inner loop of filterWhiteList: name is compared with every whitelist name. */
    method CompareWithOthers(name: string, ghost d0: map<string, int>, ghost done: set<string>,
                             filtered0: set<string>) returns (filtered: set<string>)
      requires whiteListMap.Some? && name in whiteListPackageNames && name !in done
      requires FilterInv(whiteListPackageNames, d0, whiteListMap.value, done, filtered0)
      modifies this
      ensures whiteListMap.Some?
      ensures whiteListPackageNames == old(whiteListPackageNames)
      ensures defaultValuesUsed == old(defaultValuesUsed)
      ensures FilterInv(whiteListPackageNames, d0, whiteListMap.value, done + {name}, filtered)
    {
      var names := whiteListPackageNames;
      filtered := filtered0;
      StartComparing(names, d0, whiteListMap.value, done, name, filtered);
      var others := names;
      ghost var seen: set<string> := {};
      while others != {}
        invariant others <= names && seen == names - others
        invariant whiteListPackageNames == names && defaultValuesUsed == old(defaultValuesUsed)
        invariant whiteListMap.Some?
        invariant CompareInv(names, d0, whiteListMap.value, done, name, done + {name}, seen, filtered)
        decreases others
      {
        var other :| other in others;
        ghost var depths, kept := whiteListMap.value, filtered;
        filtered := CompareWith(name, other, filtered);
        CompareStep(names, d0, depths, done, name, done + {name}, seen, kept, other, whiteListMap.value, filtered);
        others := others - {other};
        seen := seen + {other};
      }
      assert seen == names;
      FinishComparing(names, d0, whiteListMap.value, done, name, done + {name}, filtered);
    }

    /** One step of the inner loop of filterWhiteList: when name is a proper prefix of other,
        other is dropped and name's depth raised to reach as far as other does. */
    method CompareWith(name: string, other: string, filtered0: set<string>) returns (filtered: set<string>)
      requires whiteListMap.Some? && name in whiteListMap.value && other in whiteListMap.value
      modifies this
      ensures whiteListMap == Some(CompareDepths(old(whiteListMap.value), name, other))
      ensures filtered == if other != name && StartsWith(other, name) then filtered0 - {other} else filtered0
      ensures whiteListPackageNames == old(whiteListPackageNames)
      ensures defaultValuesUsed == old(defaultValuesUsed)
    {
      filtered := filtered0;
      if other != name && StartsWith(other, name) {
        var otherNameDepth := Segments(other) + whiteListMap.value[other];
        var nameDepth := Segments(name) + whiteListMap.value[name];
        var diff := otherNameDepth - nameDepth;
        filtered := filtered - {other};
        if diff > 0 {
          CompareDepthsRaises(whiteListMap.value, name, other, diff);
          whiteListMap := Some(whiteListMap.value[name := whiteListMap.value[name] + diff]);
        } else {
          CompareDepthsKeeps(whiteListMap.value, name, other, diff);
        }
      }
    }

    /** getRelevantImportNames: the components the imports of one file point to. */
    method GetRelevantImportNames(currentPackage: string, srcImports: seq<string>) returns (r: Result<set<string>>)
      requires whiteListMap.Some? && PrefixFree(whiteListPackageNames)
      ensures r == RelevantImports(Current(), currentPackage, srcImports)
    {
      var relevantImportPackages: set<string> := {};
      var i := 0;
      while i < |srcImports|
        invariant 0 <= i <= |srcImports|
        invariant RelevantImports(Current(), currentPackage, srcImports[..i]) == Ok(relevantImportPackages)
      {
        assert srcImports[..i + 1][..i] == srcImports[..i];
        match ImportEdge(Current(), srcImports[i]) {
          case Err(f) =>
            RelevantImportsFailedPrefix(Current(), currentPackage, srcImports, i + 1);
            return Err(f);
          case Ok(None) =>
          case Ok(Some(e)) =>
            if e != currentPackage {
              relevantImportPackages := relevantImportPackages + {e};
            }
        }
        i := i + 1;
      }
      assert srcImports[..i] == srcImports;
      r := Ok(relevantImportPackages);
    }

    /** collectBySourceAdd: walks one node below the root whiteListPackage, filing the
        imports of each file under packageName, into the dependency map. */
    method CollectBySourceAdd(whiteListPackage: string, currentFile: SourceNode, packageName: string,
                              currentDepth: nat, packageDependencies: PathMap<string>)
      returns (r: Result<PathMap<string>>)
      requires whiteListMap.Some? && PrefixFree(whiteListPackageNames)
      ensures r == Collect(Current(), whiteListPackage, currentFile, packageName, currentDepth, packageDependencies)
      decreases currentFile
    {
      match currentFile
      case Unreadable =>
        r := Ok(packageDependencies);
      case File(imports) =>
        if blackListSet.None? {
          return Err(NullPointer);
        }
        if IsInBlackList(Current(), packageName) {
          return Ok(packageDependencies);
        }
        var imps := GetRelevantImportNames(packageName, imports);
        if imps.Err? {
          return Err(imps.error);
        }
        r := Ok(UnionAt(packageDependencies, packageName, imps.value));
      case Dir(name, children) =>
        var pkg := packageName;
        if currentDepth <= DepthOf(Current(), whiteListPackage) && currentDepth != 0 {
          pkg := pkg + "." + name;
        }
        if blackListSet.None? {
          return Err(NullPointer);
        }
        if IsInBlackList(Current(), pkg) {
          return Ok(packageDependencies);
        }
        var deps := packageDependencies;
        var i := 0;
        while i < |children|
          invariant 0 <= i <= |children|
          invariant CollectAll(Current(), whiteListPackage, children[..i], pkg, currentDepth + 1, packageDependencies) == Ok(deps)
        {
          assert children[..i + 1][..i] == children[..i];
          var res := CollectBySourceAdd(whiteListPackage, children[i], pkg, currentDepth + 1, deps);
          if res.Err? {
            CollectAllFailedPrefix(Current(), whiteListPackage, children, pkg, currentDepth + 1, packageDependencies, i + 1);
            return res;
          }
          deps := res.value;
          i := i + 1;
        }
        assert children[..i] == children;
        r := Ok(deps);
    }

    /** collectInfo without its output: prepares and filters the whitelist, then walks the
        directory of every remaining root when the source folder exists. tree gives the
        directory each whitelist name leads to; order is the order the roots were visited. */
    method CollectInfo(tree: map<string, SourceNode>, baseExists: bool)
      returns (r: Result<PathMap<string>>, ghost order: seq<string>)
      modifies this
      ensures old(whiteListMap).None? ==> r == Err(NullPointer)
      ensures old(whiteListMap).Some? ==> whiteListMap.Some?
      ensures old(whiteListMap).Some? ==>
        defaultValuesUsed == (old(whiteListMap).value == map[] || old(defaultValuesUsed))
      ensures old(whiteListMap).Some? && !baseExists ==>
        r == Ok(map[]) && whiteListMap == Some(Prepared(old(whiteListMap).value))
      ensures old(whiteListMap).Some? && baseExists ==>
        (Compensated(Prepared(old(whiteListMap).value), whiteListMap.value)
         && whiteListPackageNames == Survivors(whiteListMap.value.Keys)
         && (forall i :: 0 <= i < |order| ==> order[i] in whiteListPackageNames)
         && (forall i, j :: 0 <= i < j < |order| ==> order[i] != order[j])
         && (r.Ok? ==> forall n :: n in whiteListPackageNames ==> n in order)
         && r == CollectRoots(Current(), order, tree, map[]))
      ensures r.Ok? ==>
        (whiteListMap.Some? && Sound(Current(), r.value) && Placed(Current(), r.value))
    {
      order := [];
      var prepared := PrepareWhiteList();
      if prepared.Err? {
        return Err(NullPointer), order;
      }
      ghost var start := whiteListMap.value;
      assert start == Prepared(old(whiteListMap).value);
      var packageDependencies: PathMap<string> := map[];
      if !baseExists {
        return Ok(packageDependencies), order;
      }
      var filtered := FilterWhiteList();
      assert Compensated(start, whiteListMap.value);
      whiteListPackageNames := filtered;
      SurvivorsPrefixFree(whiteListMap.value.Keys);
      r, order := CollectRootDirectories(tree);
    }

    /** The loop of collectInfo over the filtered roots, in any order. */
    method CollectRootDirectories(tree: map<string, SourceNode>)
      returns (r: Result<PathMap<string>>, ghost order: seq<string>)
      requires whiteListMap.Some? && PrefixFree(whiteListPackageNames)
      ensures forall i :: 0 <= i < |order| ==> order[i] in whiteListPackageNames
      ensures forall i, j :: 0 <= i < j < |order| ==> order[i] != order[j]
      ensures r.Ok? ==> forall n :: n in whiteListPackageNames ==> n in order
      ensures r == CollectRoots(Current(), order, tree, map[])
      ensures r.Ok? ==> Sound(Current(), r.value) && Placed(Current(), r.value)
    {
      order := [];
      var packageDependencies: PathMap<string> := map[];
      var todo := whiteListPackageNames;
      while todo != {}
        invariant todo <= whiteListPackageNames
        invariant forall n :: n in whiteListPackageNames - todo <==> n in order
        invariant forall i :: 0 <= i < |order| ==> order[i] in whiteListPackageNames
        invariant forall i, j :: 0 <= i < j < |order| ==> order[i] != order[j]
        invariant CollectRoots(Current(), order, tree, map[]) == Ok(packageDependencies)
        decreases todo
      {
        var name :| name in todo;
        assert (order + [name])[..|order|] == order;
        var res := CollectBySourceAdd(name, TreeAt(tree, name), name, 0, packageDependencies);
        assert name !in order;
        DistinctSnoc(order, name);
        order := order + [name];
        if res.Err? {
          r := res;
          return;
        }
        packageDependencies := res.value;
        todo := todo - {name};
      }
      r := Ok(packageDependencies);
      CollectRootsSound(Current(), order, tree, map[]);
    }
  }
}
