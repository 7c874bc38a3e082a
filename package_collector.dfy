/** The older package dependency graph: every whitelisted package directory is walked, each
    Java file is attributed to a package named by at most MaxDepth directories below it, and
    its imports become edges to other packages. Unlike the component walk there is no
    blacklist, no per-package depth and no self-edge filter. */
module PackageCollector {
  import opened Common
  import opened Strings
  import opened PathMaps
  import opened JavaModel
  import ComponentCollector

  /** The number of directory levels below a whitelisted package that still name a package
      of their own; it is fixed and never changed by any operation. */
  const MaxDepth: int := 2

  /** The package every run adds to the whitelist before it starts. */
  const ApplicationPackage: string := "de.bogenliga.application"

  /** Some whitelisted name is a raw string prefix of the name. */
  predicate InBase(wl: set<string>, name: string)
  {
    exists b :: b in wl && StartsWith(name, b)
  }

  /** The longest a shortened import may be, in segments: MaxDepth without a whitelist, the
      segments of the base the name lies under plus MaxDepth, and -1 for a name under no
      base. The whitelist is prefix-free once filtered, so the base is unique. */
  function MaxBaseLength(wl: set<string>, name: string): (r: int)
    requires ComponentCollector.PrefixFree(wl)
    ensures r == -1 || r >= MaxDepth
    ensures r == -1 <==> wl != {} && !InBase(wl, name)
    ensures wl == {} ==> r == MaxDepth
  {
    if wl == {} then MaxDepth
    else if InBase(wl, name) then
      ComponentCollector.PrefixFreeUnique(wl, name);
      var b :| b in wl && StartsWith(name, b);
      Segments(b) + MaxDepth
    else -1
  }

  /** The maximum base length of a name is fixed by the base it lies under. */
  lemma MaxBaseLengthOfBase(wl: set<string>, b: string, name: string)
    requires ComponentCollector.PrefixFree(wl)
    requires b in wl && StartsWith(name, b)
    ensures MaxBaseLength(wl, name) == |JavaSplit(b, '.')| + MaxDepth
  {
    ComponentCollector.PrefixFreeUnique(wl, name);
    SegmentsSplit(b);
  }

  /** The package an import points to: nothing for an import outside a non-empty whitelist;
      otherwise the import without its last segment, cut to the maximum base length unless
      that is -1. Arrays.copyOf with a negative length throws. */
  function ImportEdge(wl: set<string>, imp: string): (r: Result<Option<string>>)
    requires ComponentCollector.PrefixFree(wl)
    ensures wl != {} && !InBase(wl, imp) ==> r == Ok(None)
    ensures wl == {} || InBase(wl, imp) ==> r != Ok(None)
    ensures r == Err(NegativeArraySize) <==> (wl == {} || InBase(wl, imp)) && JavaSplit(imp, '.') == []
    ensures r.Ok? && r.value.Some? ==> r.value.value <= imp
  {
    if wl != {} && !InBase(wl, imp) then Ok(None)
    else
      var parts := JavaSplit(imp, '.');
      if |parts| == 0 then Err(NegativeArraySize)
      else
        var cut := parts[..|parts| - 1];
        var max := MaxBaseLength(wl, imp);
        if |cut| > max && max != -1 then
          JavaSplitPrefix(imp, '.', max);
          Ok(Some(Join(parts[..max], '.')))
        else
          JavaSplitPrefix(imp, '.', |cut|);
          Ok(Some(Join(cut, '.')))
  }

  /** An edge is the import without its last segment, cut to the first max segments when
      it is longer than the maximum base length max and max is not -1. */
  lemma ImportEdgeTruncates(wl: set<string>, imp: string)
    requires ComponentCollector.PrefixFree(wl)
    requires ImportEdge(wl, imp).Ok? && ImportEdge(wl, imp).value.Some?
    ensures var parts := JavaSplit(imp, '.');
            var max := MaxBaseLength(wl, imp);
            var k := if |parts| - 1 > max && max != -1 then max else |parts| - 1;
            0 <= k < |parts| && ImportEdge(wl, imp).value.value == Join(parts[..k], '.')
  {
  }

  /** The set getRelevantImportNames builds: the edges of the imports. The current package
      plays no part, so a package may depend on itself. The first import whose edge fails
      aborts the whole set. */
  function RelevantImports(wl: set<string>, imps: seq<string>): Result<set<string>>
    requires ComponentCollector.PrefixFree(wl)
    decreases |imps|
  {
    if imps == [] then Ok({})
    else
      var init := imps[..|imps| - 1];
      match RelevantImports(wl, init)
      case Err(f) => Err(f)
      case Ok(acc) =>
        match ImportEdge(wl, imps[|imps| - 1])
        case Err(f) => Err(f)
        case Ok(None) => Ok(acc)
        case Ok(Some(e)) => Ok(acc + {e})
  }

  /** The walk over the imports fails exactly when the edge of some import fails. */
  lemma {:induction false} RelevantImportsFails(wl: set<string>, imps: seq<string>)
    requires ComponentCollector.PrefixFree(wl)
    ensures RelevantImports(wl, imps).Err? <==> exists i :: 0 <= i < |imps| && ImportEdge(wl, imps[i]).Err?
    decreases |imps|
  {
    if imps != [] {
      var init := imps[..|imps| - 1];
      RelevantImportsFails(wl, init);
      assert forall i :: 0 <= i < |init| ==> init[i] == imps[i];
    }
  }

  /** A package is in the set exactly when it is the edge of some import. */
  lemma {:induction false} RelevantImportsMembers(wl: set<string>, imps: seq<string>, e: string)
    requires ComponentCollector.PrefixFree(wl) && RelevantImports(wl, imps).Ok?
    ensures e in RelevantImports(wl, imps).value <==>
      exists i :: 0 <= i < |imps| && ImportEdge(wl, imps[i]) == Ok(Some(e))
    decreases |imps|
  {
    if imps != [] {
      var init := imps[..|imps| - 1];
      assert RelevantImports(wl, init).Ok?;
      RelevantImportsMembers(wl, init, e);
      if exists i :: 0 <= i < |init| && ImportEdge(wl, init[i]) == Ok(Some(e)) {
        var i :| 0 <= i < |init| && ImportEdge(wl, init[i]) == Ok(Some(e));
        assert imps[i] == init[i];
      }
      if exists i :: 0 <= i < |imps| && ImportEdge(wl, imps[i]) == Ok(Some(e)) {
        var i :| 0 <= i < |imps| && ImportEdge(wl, imps[i]) == Ok(Some(e));
        if i < |init| {
          assert init[i] == imps[i];
        }
      }
    }
  }

  /** A failure in the first k imports is the failure of the whole import list. */
  lemma {:induction false} RelevantImportsFailedPrefix(wl: set<string>, imps: seq<string>, k: nat)
    requires ComponentCollector.PrefixFree(wl) && k <= |imps|
    requires RelevantImports(wl, imps[..k]).Err?
    ensures RelevantImports(wl, imps) == RelevantImports(wl, imps[..k])
    decreases |imps| - k
  {
    if k < |imps| {
      assert imps[..k + 1][..k] == imps[..k];
      RelevantImportsFailedPrefix(wl, imps, k + 1);
    } else {
      assert imps[..k] == imps;
    }
  }

  /** The package name a directory entry is filed under: without a whitelist the top
      directory starts the name without a dot; below the top, a directory adds ".name" while
      the depth does not exceed MaxDepth; otherwise the name stays. */
  function Descend(wl: set<string>, pkg: string, depth: nat, name: string): string
  {
    if depth == 0 && wl == {} then pkg + name
    else if depth <= MaxDepth && depth != 0 then pkg + "." + name
    else pkg
  }

  /** collectBySourceAdd, on values: the dependency map after walking one node. A file that
      cannot be opened is skipped. */
  function Collect(wl: set<string>, node: SourceNode, pkg: string, depth: nat,
                   deps: PathMap<string>): Result<PathMap<string>>
    requires ComponentCollector.PrefixFree(wl)
    decreases node
  {
    match node
    case Unreadable => Ok(deps)
    case File(imps) =>
      (match RelevantImports(wl, imps)
       case Err(f) => Err(f)
       case Ok(r) => Ok(UnionAt(deps, pkg, r)))
    case Dir(name, children) =>
      CollectAll(wl, children, Descend(wl, pkg, depth, name), depth + 1, deps)
  }

  /** The entries of one directory, walked in listing order; a failure aborts the walk. */
  function CollectAll(wl: set<string>, nodes: seq<SourceNode>, pkg: string, depth: nat,
                      deps: PathMap<string>): Result<PathMap<string>>
    requires ComponentCollector.PrefixFree(wl)
    decreases nodes
  {
    if nodes == [] then Ok(deps)
    else
      match CollectAll(wl, nodes[..|nodes| - 1], pkg, depth, deps)
      case Err(f) => Err(f)
      case Ok(acc) => Collect(wl, nodes[|nodes| - 1], pkg, depth, acc)
  }

  /** A file whose imports point back into its own package makes that package depend on
      itself. */
  lemma SelfDependency(wl: set<string>, imps: seq<string>, pkg: string, depth: nat,
                       deps: PathMap<string>, i: nat)
    requires ComponentCollector.PrefixFree(wl) && i < |imps|
    requires ImportEdge(wl, imps[i]) == Ok(Some(pkg))
    requires Collect(wl, File(imps), pkg, depth, deps).Ok?
    ensures pkg in Collect(wl, File(imps), pkg, depth, deps).value[pkg]
  {
    RelevantImportsMembers(wl, imps, pkg);
  }

  /** A failure in the first k entries is the failure of the whole directory. */
  lemma {:induction false} CollectAllFailedPrefix(wl: set<string>, nodes: seq<SourceNode>, pkg: string,
                                                  depth: nat, deps: PathMap<string>, k: nat)
    requires ComponentCollector.PrefixFree(wl) && k <= |nodes|
    requires CollectAll(wl, nodes[..k], pkg, depth, deps).Err?
    ensures CollectAll(wl, nodes, pkg, depth, deps) == CollectAll(wl, nodes[..k], pkg, depth, deps)
    decreases |nodes| - k
  {
    if k < |nodes| {
      assert nodes[..k + 1][..k] == nodes[..k];
      CollectAllFailedPrefix(wl, nodes, pkg, depth, deps, k + 1);
    } else {
      assert nodes[..k] == nodes;
    }
  }

  /** The package k is the base followed by ".name" for at most MaxDepth directory names. */
  predicate UnderBase(bases: set<string>, base: string, names: seq<string>, k: string)
  {
    base in bases && |names| <= MaxDepth && k == base + ComponentCollector.Dotted(names)
  }

  /** Every package of the map lies at most MaxDepth directories below one of the bases. */
  ghost predicate Placed(bases: set<string>, deps: PathMap<string>)
  {
    forall k :: k in deps ==> exists base, names :: UnderBase(bases, base, names, k)
  }

  /** How many directory names a walk at this depth may have added below its base. */
  function Added(depth: nat): nat { if depth == 0 then 0 else depth - 1 }

  lemma {:induction false} CollectPlaced(wl: set<string>, bases: set<string>, node: SourceNode,
                                         base: string, names: seq<string>, depth: nat,
                                         deps: PathMap<string>)
    requires ComponentCollector.PrefixFree(wl) && Placed(bases, deps)
    requires wl != {} || depth != 0
    requires UnderBase(bases, base, names, base + ComponentCollector.Dotted(names)) && |names| <= Added(depth)
    requires Collect(wl, node, base + ComponentCollector.Dotted(names), depth, deps).Ok?
    ensures Placed(bases, Collect(wl, node, base + ComponentCollector.Dotted(names), depth, deps).value)
    decreases node
  {
    var pkg := base + ComponentCollector.Dotted(names);
    match node
    case Unreadable =>
    case File(imps) =>
      assert UnderBase(bases, base, names, pkg);
    case Dir(name, children) =>
      if depth <= MaxDepth && depth != 0 {
        var deeper := names + [name];
        assert deeper[..|names|] == names;
        assert Descend(wl, pkg, depth, name) == base + ComponentCollector.Dotted(deeper);
        CollectAllPlaced(wl, bases, children, base, deeper, depth + 1, deps);
      } else {
        CollectAllPlaced(wl, bases, children, base, names, depth + 1, deps);
      }
  }

  lemma {:induction false} CollectAllPlaced(wl: set<string>, bases: set<string>, nodes: seq<SourceNode>,
                                            base: string, names: seq<string>, depth: nat,
                                            deps: PathMap<string>)
    requires ComponentCollector.PrefixFree(wl) && Placed(bases, deps)
    requires wl != {} || depth != 0
    requires UnderBase(bases, base, names, base + ComponentCollector.Dotted(names)) && |names| <= Added(depth)
    requires CollectAll(wl, nodes, base + ComponentCollector.Dotted(names), depth, deps).Ok?
    ensures Placed(bases, CollectAll(wl, nodes, base + ComponentCollector.Dotted(names), depth, deps).value)
    decreases nodes
  {
    if nodes != [] {
      var pkg := base + ComponentCollector.Dotted(names);
      var init := nodes[..|nodes| - 1];
      CollectAllPlaced(wl, bases, init, base, names, depth, deps);
      CollectPlaced(wl, bases, nodes[|nodes| - 1], base, names, depth, CollectAll(wl, init, pkg, depth, deps).value);
    }
  }

  /** Without a whitelist, a walk that starts at a top-level directory with the empty name
      files everything under that directory's name followed by at most MaxDepth more. */
  lemma TopLevelPlaced(name: string, children: seq<SourceNode>, bases: set<string>, deps: PathMap<string>)
    requires Placed(bases, deps) && name in bases
    requires Collect({}, Dir(name, children), "", 0, deps).Ok?
    ensures Placed(bases, Collect({}, Dir(name, children), "", 0, deps).value)
  {
    assert name + ComponentCollector.Dotted([]) == "" + name;
    CollectAllPlaced({}, bases, children, name, [], 1, deps);
  }

  /** The walks of collectInfo, one per base in the order visited; a failure aborts. */
  function CollectBases(wl: set<string>, bases: seq<string>, tree: map<string, SourceNode>,
                        deps: PathMap<string>): Result<PathMap<string>>
    requires ComponentCollector.PrefixFree(wl)
    decreases |bases|
  {
    if bases == [] then Ok(deps)
    else
      match CollectBases(wl, bases[..|bases| - 1], tree, deps)
      case Err(f) => Err(f)
      case Ok(acc) =>
        var base := bases[|bases| - 1];
        Collect(wl, ComponentCollector.TreeAt(tree, base), base, 0, acc)
  }

  /** Walking whitelisted bases files every package at most MaxDepth directories below one
      of them. */
  lemma {:induction false} CollectBasesPlaced(wl: set<string>, bases: seq<string>,
                                              tree: map<string, SourceNode>, deps: PathMap<string>)
    requires ComponentCollector.PrefixFree(wl) && wl != {} && Placed(wl, deps)
    requires forall i :: 0 <= i < |bases| ==> bases[i] in wl
    requires CollectBases(wl, bases, tree, deps).Ok?
    ensures Placed(wl, CollectBases(wl, bases, tree, deps).value)
    decreases |bases|
  {
    if bases != [] {
      var init, base := bases[..|bases| - 1], bases[|bases| - 1];
      assert forall i :: 0 <= i < |init| ==> init[i] == bases[i];
      CollectBasesPlaced(wl, init, tree, deps);
      assert base + ComponentCollector.Dotted([]) == base;
      CollectPlaced(wl, wl, ComponentCollector.TreeAt(tree, base), base, [], 0,
                    CollectBases(wl, init, tree, deps).value);
    }
  }

  /** The names of done that are proper raw prefixes of another name are shadowed. */
  function Unshadowed(names: set<string>, done: set<string>): set<string>
  {
    set m | m in names && !ComponentCollector.Shadowed(done, m)
  }

  /** The names other than name that name is a raw prefix of. */
  function Extensions(names: set<string>, name: string): set<string>
  {
    set m | m in names && m != name && StartsWith(m, name)
  }

  /** Visiting one more name drops its extensions. */
  lemma UnshadowedStep(names: set<string>, done: set<string>, name: string)
    ensures Unshadowed(names, done + {name}) == Unshadowed(names, done) - Extensions(names, name)
  {
    forall m | m in Unshadowed(names, done) - Extensions(names, name)
      ensures !ComponentCollector.Shadowed(done + {name}, m)
    {
      assert !ComponentCollector.Shadowed(done, m);
    }
    forall m | m in Unshadowed(names, done + {name})
      ensures m !in Extensions(names, name)
    {
      assert !ComponentCollector.Shadowed(done + {name}, m);
    }
  }

  /** Every whitelisted name lies under a name that survives the filtering, so the surviving
      bases still cover the whole whitelist. */
  lemma {:induction false} SurvivorCovers(names: set<string>, x: string)
    requires x in names
    ensures exists s :: s in ComponentCollector.Survivors(names) && StartsWith(x, s)
    decreases |x|
  {
    if ComponentCollector.Shadowed(names, x) {
      var k :| k in names && k != x && StartsWith(x, k);
      SurvivorCovers(names, k);
      var s :| s in ComponentCollector.Survivors(names) && StartsWith(k, s);
      ComponentCollector.PrefixTransitive(s, k, x);
    } else {
      assert x in ComponentCollector.Survivors(names);
    }
  }

  /** The short forms of removeSubPackages: the packages with fewer segments than their
      maximum base length. */
  function ShortForms(wl: set<string>, packageSet: set<string>): set<string>
    requires ComponentCollector.PrefixFree(wl)
  {
    set s | s in packageSet && |JavaSplit(s, '.')| < MaxBaseLength(wl, s)
  }

  /** Some short form is a raw prefix of the package. */
  predicate UnderShortForm(shortForms: set<string>, s: string)
  {
    exists f :: f in shortForms && StartsWith(s, f)
  }

  /** removeSubPackages: the short forms, and every package no short form is a raw prefix
      of. */
  function SubPackagesRemoved(wl: set<string>, packageSet: set<string>): (r: set<string>)
    requires ComponentCollector.PrefixFree(wl)
    ensures r <= packageSet
    ensures ShortForms(wl, packageSet) <= r
    ensures forall s :: s in packageSet && s !in ShortForms(wl, packageSet) ==>
      (s in r <==> !UnderShortForm(ShortForms(wl, packageSet), s))
  {
    var short := ShortForms(wl, packageSet);
    short + set s | s in packageSet && !UnderShortForm(short, s)
  }

  /** Removing sub-packages twice removes nothing more: the short forms are those of the
      input, and the other survivors are under none of them. */
  lemma SubPackagesRemovedIdempotent(wl: set<string>, packageSet: set<string>)
    requires ComponentCollector.PrefixFree(wl)
    ensures SubPackagesRemoved(wl, SubPackagesRemoved(wl, packageSet)) == SubPackagesRemoved(wl, packageSet)
  {
    var r := SubPackagesRemoved(wl, packageSet);
    var short := ShortForms(wl, packageSet);
    assert ShortForms(wl, r) == short;
    forall s | s in r
      ensures s in SubPackagesRemoved(wl, r)
    {
      if s !in short {
        assert !UnderShortForm(short, s);
      }
    }
  }

  class PackageInfoCollector {
    var whiteListPackageNames: set<string>

    constructor()
      ensures whiteListPackageNames == {}
    {
      whiteListPackageNames := {};
    }

    /** isInBasePackage: some whitelisted name is a raw prefix of the package. */
    method IsInBasePackage(packageName: string) returns (r: bool)
      ensures r <==> InBase(whiteListPackageNames, packageName)
    {
      var todo := whiteListPackageNames;
      while todo != {}
        invariant todo <= whiteListPackageNames
        invariant forall b :: b in whiteListPackageNames - todo ==> !StartsWith(packageName, b)
        decreases todo
      {
        var base :| base in todo;
        if StartsWith(packageName, base) {
          return true;
        }
        todo := todo - {base};
      }
      return false;
    }

    /** getMaxBaseLength: MaxDepth without a whitelist, -1 for a package under no base, and
        otherwise the segments of a base it lies under plus MaxDepth (the base is unique once
        the whitelist is prefix-free). */
    method GetMaxBaseLength(packageName: string) returns (r: int)
      ensures whiteListPackageNames == {} ==> r == MaxDepth
      ensures whiteListPackageNames != {} && !InBase(whiteListPackageNames, packageName) ==> r == -1
      ensures whiteListPackageNames != {} && InBase(whiteListPackageNames, packageName) ==>
        exists b :: b in whiteListPackageNames && StartsWith(packageName, b) && r == |JavaSplit(b, '.')| + MaxDepth
      ensures ComponentCollector.PrefixFree(whiteListPackageNames) ==>
        r == MaxBaseLength(whiteListPackageNames, packageName)
    {
      if whiteListPackageNames == {} {
        return MaxDepth;
      }
      var todo := whiteListPackageNames;
      while todo != {}
        invariant todo <= whiteListPackageNames
        invariant forall b :: b in whiteListPackageNames - todo ==> !StartsWith(packageName, b)
        decreases todo
      {
        var base :| base in todo;
        if StartsWith(packageName, base) {
          r := |JavaSplit(base, '.')| + MaxDepth;
          if ComponentCollector.PrefixFree(whiteListPackageNames) {
            MaxBaseLengthOfBase(whiteListPackageNames, base, packageName);
          }
          return;
        }
        todo := todo - {base};
      }
      return -1;
    }

    /** getRelevantImportNames: the packages the imports of one file point to. */
    method GetRelevantImportNames(srcImports: seq<string>) returns (r: Result<set<string>>)
      requires ComponentCollector.PrefixFree(whiteListPackageNames)
      ensures r == RelevantImports(whiteListPackageNames, srcImports)
    {
      var relevantImportPackages: set<string> := {};
      var i := 0;
      while i < |srcImports|
        invariant 0 <= i <= |srcImports|
        invariant RelevantImports(whiteListPackageNames, srcImports[..i]) == Ok(relevantImportPackages)
      {
        assert srcImports[..i + 1][..i] == srcImports[..i];
        var edge := ShortenImport(srcImports[i]);
        match edge {
          case Err(f) =>
            RelevantImportsFailedPrefix(whiteListPackageNames, srcImports, i + 1);
            return Err(f);
          case Ok(None) =>
          case Ok(Some(e)) =>
            relevantImportPackages := relevantImportPackages + {e};
        }
        i := i + 1;
      }
      assert srcImports[..i] == srcImports;
      r := Ok(relevantImportPackages);
    }

    /** The body of the loop of getRelevantImportNames for one import: nothing when it is
        outside a non-empty whitelist, else the import without its last segment, cut to the
        maximum base length unless that is -1. */
    method ShortenImport(currentImport: string) returns (r: Result<Option<string>>)
      requires ComponentCollector.PrefixFree(whiteListPackageNames)
      ensures r == ImportEdge(whiteListPackageNames, currentImport)
    {
      var inBase := IsInBasePackage(currentImport);
      if !(whiteListPackageNames == {} || inBase) {
        return Ok(None);
      }
      var currentImportSplit := JavaSplit(currentImport, '.');
      if |currentImportSplit| == 0 {
        return Err(NegativeArraySize);
      }
      ghost var parts := currentImportSplit;
      currentImportSplit := currentImportSplit[..|currentImportSplit| - 1];
      var maxBaseLength := GetMaxBaseLength(currentImport);
      if |currentImportSplit| > maxBaseLength && maxBaseLength != -1 {
        assert currentImportSplit[..maxBaseLength] == parts[..maxBaseLength];
        currentImportSplit := currentImportSplit[..maxBaseLength];
      }
      r := Ok(Some(Join(currentImportSplit, '.')));
    }

    /** collectBySourceAdd: walks one node, filing the imports of each file under
        packageName, into the dependency map. */
    method CollectBySourceAdd(currentFile: SourceNode, packageName: string, currentDepth: nat,
                              packageDependencies: PathMap<string>)
      returns (r: Result<PathMap<string>>)
      requires ComponentCollector.PrefixFree(whiteListPackageNames)
      ensures r == Collect(whiteListPackageNames, currentFile, packageName, currentDepth, packageDependencies)
      decreases currentFile
    {
      match currentFile
      case Unreadable =>
        r := Ok(packageDependencies);
      case File(imports) =>
        var imps := GetRelevantImportNames(imports);
        if imps.Err? {
          return Err(imps.error);
        }
        r := Ok(UnionAt(packageDependencies, packageName, imps.value));
      case Dir(name, children) =>
        var pkg := packageName;
        if currentDepth == 0 && whiteListPackageNames == {} {
          pkg := pkg + name;
        } else if currentDepth <= MaxDepth && currentDepth != 0 {
          pkg := pkg + "." + name;
        }
        var deps := packageDependencies;
        var i := 0;
        while i < |children|
          invariant 0 <= i <= |children|
          invariant CollectAll(whiteListPackageNames, children[..i], pkg, currentDepth + 1, packageDependencies) == Ok(deps)
        {
          assert children[..i + 1][..i] == children[..i];
          var res := CollectBySourceAdd(children[i], pkg, currentDepth + 1, deps);
          if res.Err? {
            CollectAllFailedPrefix(whiteListPackageNames, children, pkg, currentDepth + 1, packageDependencies, i + 1);
            return res;
          }
          deps := res.value;
          i := i + 1;
        }
        assert children[..i] == children;
        r := Ok(deps);
    }

    /** filterWhiteList: the whitelisted names no other whitelisted name is a raw prefix
        of. Nothing else, no depth in particular, is changed. */
    method FilterWhiteList() returns (filteredNames: set<string>)
      ensures filteredNames == ComponentCollector.Survivors(whiteListPackageNames)
    {
      var names := whiteListPackageNames;
      filteredNames := names;
      var todo := names;
      ghost var done: set<string> := {};
      while todo != {}
        invariant todo <= names && done == names - todo
        invariant filteredNames == Unshadowed(names, done)
        decreases todo
      {
        var name :| name in todo;
        filteredNames := DropExtensions(name, filteredNames);
        UnshadowedStep(names, done, name);
        todo := todo - {name};
        done := done + {name};
      }
      assert done == names;
    }

    /** The inner loop of filterWhiteList: every other whitelisted name that name is a raw
        prefix of is removed. */
    method DropExtensions(name: string, filtered0: set<string>) returns (filtered: set<string>)
      ensures filtered == filtered0 - Extensions(whiteListPackageNames, name)
    {
      filtered := filtered0;
      var others := whiteListPackageNames;
      ghost var seen: set<string> := {};
      while others != {}
        invariant others <= whiteListPackageNames && seen == whiteListPackageNames - others
        invariant filtered == filtered0 - Extensions(seen, name)
        decreases others
      {
        var otherName :| otherName in others;
        if otherName != name && StartsWith(otherName, name) {
          filtered := filtered - {otherName};
        }
        assert Extensions(seen + {otherName}, name) ==
          Extensions(seen, name) + (if otherName != name && StartsWith(otherName, name) then {otherName} else {});
        others := others - {otherName};
        seen := seen + {otherName};
      }
      assert seen == whiteListPackageNames;
    }

    /** removeSubPackages: keeps the short forms and every package under none of them. */
    method RemoveSubPackages(packageSet: set<string>) returns (returnSet: set<string>)
      requires ComponentCollector.PrefixFree(whiteListPackageNames)
      ensures returnSet == SubPackagesRemoved(whiteListPackageNames, packageSet)
    {
      var shortForms: seq<string> := [];
      var todo := packageSet;
      while todo != {}
        invariant todo <= packageSet
        invariant forall s :: s in shortForms <==> s in ShortForms(whiteListPackageNames, packageSet - todo)
        decreases todo
      {
        var str :| str in todo;
        var max := GetMaxBaseLength(str);
        if |JavaSplit(str, '.')| < max {
          shortForms := shortForms + [str];
        }
        todo := todo - {str};
      }
      assert packageSet - todo == packageSet;
      ghost var short := ShortForms(whiteListPackageNames, packageSet);
      returnSet := set f | f in shortForms;
      todo := packageSet;
      while todo != {}
        invariant todo <= packageSet
        invariant returnSet == short + set s | s in packageSet - todo && !UnderShortForm(short, s)
        decreases todo
      {
        var str :| str in todo;
        var retain := true;
        var j := 0;
        while j < |shortForms| && retain
          invariant 0 <= j <= |shortForms|
          invariant retain <==> forall k :: 0 <= k < j ==> !StartsWith(str, shortForms[k])
        {
          if StartsWith(str, shortForms[j]) {
            retain := false;
          }
          j := j + 1;
        }
        assert retain <==> !UnderShortForm(short, str);
        if retain {
          returnSet := returnSet + {str};
        }
        todo := todo - {str};
      }
      assert packageSet - todo == packageSet;
    }

    /** collectInfo without its output: adds the application package to the whitelist,
        filters it, and walks the directory of every remaining base. The whitelist is never
        empty here, so the walk over the whole source folder never runs. tree gives the
        directory each whitelisted name leads to; order is the order the bases were
        visited. */
    method CollectInfo(tree: map<string, SourceNode>)
      returns (r: Result<PathMap<string>>, ghost order: seq<string>)
      modifies this
      ensures whiteListPackageNames == ComponentCollector.Survivors(old(whiteListPackageNames) + {ApplicationPackage})
      ensures old(whiteListPackageNames) == {} ==> whiteListPackageNames == {ApplicationPackage}
      ensures whiteListPackageNames != {} && ComponentCollector.PrefixFree(whiteListPackageNames)
      ensures forall i :: 0 <= i < |order| ==> order[i] in whiteListPackageNames
      ensures r.Ok? ==> forall n :: n in whiteListPackageNames ==> n in order
      ensures r == CollectBases(whiteListPackageNames, order, tree, map[])
      ensures r.Ok? ==> Placed(whiteListPackageNames, r.value)
    {
      whiteListPackageNames := whiteListPackageNames + {ApplicationPackage};
      SurvivorCovers(whiteListPackageNames, ApplicationPackage);
      var filtered := FilterWhiteList();
      whiteListPackageNames := filtered;
      ComponentCollector.SurvivorsPrefixFree(old(whiteListPackageNames) + {ApplicationPackage});
      r, order := CollectBaseDirectories(tree);
    }

    /** The loop of collectInfo over the filtered bases, in any order. */
    method CollectBaseDirectories(tree: map<string, SourceNode>)
      returns (r: Result<PathMap<string>>, ghost order: seq<string>)
      requires whiteListPackageNames != {} && ComponentCollector.PrefixFree(whiteListPackageNames)
      ensures forall i :: 0 <= i < |order| ==> order[i] in whiteListPackageNames
      ensures r.Ok? ==> forall n :: n in whiteListPackageNames ==> n in order
      ensures r == CollectBases(whiteListPackageNames, order, tree, map[])
      ensures r.Ok? ==> Placed(whiteListPackageNames, r.value)
    {
      order := [];
      var packageDependencies: PathMap<string> := map[];
      var todo := whiteListPackageNames;
      while todo != {}
        invariant todo <= whiteListPackageNames
        invariant forall n :: n in whiteListPackageNames - todo <==> n in order
        invariant forall i :: 0 <= i < |order| ==> order[i] in whiteListPackageNames
        invariant CollectBases(whiteListPackageNames, order, tree, map[]) == Ok(packageDependencies)
        decreases todo
      {
        var name :| name in todo;
        assert (order + [name])[..|order|] == order;
        var res := CollectBySourceAdd(ComponentCollector.TreeAt(tree, name), name, 0, packageDependencies);
        order := order + [name];
        if res.Err? {
          r := res;
          return;
        }
        packageDependencies := res.value;
        todo := todo - {name};
      }
      r := Ok(packageDependencies);
      CollectBasesPlaced(whiteListPackageNames, order, tree, map[]);
    }
  }
}
