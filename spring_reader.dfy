/** reader.impl.api.SPRINGReader: the offered REST endpoints of a Spring project, grouped per
    package, with the servlet context path put in front of every class-level mapping. */
module SpringReader {
  import opened Common
  import opened Strings
  import opened Http
  import opened PathMaps
  import opened JavaModel
  import opened SpringMapping
  import opened Grouping

  // ---------------------------------------------------------------------------------------
  // getApplicationPath

  /** What the configured apiConfigFile is on disk. */
  datatype ConfigFile = Missing | Directory | RegularFile(name: string)

  /** The characters that the regular expression "." does not match: the line terminators of
      java.util.regex.Pattern without DOTALL. */
  predicate LineTerminator(c: char)
  {
    c == '\n' || c == '\r' || c == '\U{0085}' || c == '\U{2028}' || c == '\U{2029}'
  }

  predicate AllLineTerminators(p: string)
  {
    forall k :: 0 <= k < |p| ==> LineTerminator(p[k])
  }

  /** The pieces between the matches of ".": every character other than a line terminator
      ends a piece, so each piece is a (possibly empty) run of line terminators. */
  function DotPieces(name: string): (r: seq<string>)
    ensures |r| >= 1
    decreases |name|
  {
    if name == "" then [""]
    else
      var rest := DotPieces(name[1..]);
      if LineTerminator(name[0]) then [[name[0]] + rest[0]] + rest[1..] else [""] + rest
  }

  /** The line terminators of a name, in order. */
  function Terminators(name: string): string
    decreases |name|
  {
    if name == "" then "" else (if LineTerminator(name[0]) then [name[0]] else "") + Terminators(name[1..])
  }

  /** The pieces written one after the other. */
  function Concat(ps: seq<string>): string
    decreases |ps|
  {
    if ps == [] then "" else ps[0] + Concat(ps[1..])
  }

  lemma {:induction false} TerminatorsEmpty(name: string)
    ensures Terminators(name) == "" <==> forall k :: 0 <= k < |name| ==> !LineTerminator(name[k])
    ensures AllLineTerminators(name) ==> Terminators(name) == name
    decreases |name|
  {
    if name != "" {
      TerminatorsEmpty(name[1..]);
      assert forall k :: 1 <= k < |name| ==> name[k] == name[1..][k - 1];
    }
  }

  lemma {:induction false} ConcatEmpty(ps: seq<string>)
    ensures Concat(ps) == "" <==> forall i :: 0 <= i < |ps| ==> ps[i] == ""
    decreases |ps|
  {
    if ps != [] {
      ConcatEmpty(ps[1..]);
      assert forall i :: 1 <= i < |ps| ==> ps[i] == ps[1..][i - 1];
    }
  }

  /** Empty pieces at the end add nothing to the concatenation. */
  lemma {:induction false} ConcatEmptyTail(ps: seq<string>, n: nat)
    requires n <= |ps|
    requires forall k :: n <= k < |ps| ==> ps[k] == ""
    ensures Concat(ps) == Concat(ps[..n])
    decreases |ps|
  {
    if ps != [] {
      ConcatEmptyTail(ps[1..], if n == 0 then 0 else n - 1);
      if n == 0 {
        assert Concat(ps[1..][..0]) == "";
      } else {
        assert ps[..n][1..] == ps[1..][..n - 1];
      }
    }
  }

  /** Each piece is a run of line terminators, and together they are all the line terminators
      of the name. */
  lemma {:induction false} DotPiecesMeaning(name: string)
    ensures forall i :: 0 <= i < |DotPieces(name)| ==> AllLineTerminators(DotPieces(name)[i])
    ensures Concat(DotPieces(name)) == Terminators(name)
    decreases |name|
  {
    if name != "" {
      DotPiecesMeaning(name[1..]);
      var rest := DotPieces(name[1..]);
      if LineTerminator(name[0]) {
        var r := [[name[0]] + rest[0]] + rest[1..];
        assert r[1..] == rest[1..];
        assert Concat(rest) == rest[0] + Concat(rest[1..]);
        assert forall i :: 1 <= i < |r| ==> r[i] == rest[i];
        assert AllLineTerminators(r[0]) by {
          assert forall k :: 1 <= k < |r[0]| ==> r[0][k] == rest[0][k - 1];
        }
      } else {
        var r := [""] + rest;
        assert r[1..] == rest;
        assert forall i :: 1 <= i < |r| ==> r[i] == rest[i - 1];
      }
    }
  }

  /** String.split(".") on a file name. Without any character that "." matches, the name
      itself; otherwise the pieces between the matches without the trailing empty ones. Each
      piece is a run of line terminators, the pieces hold all the name's line terminators,
      and nothing is left exactly when the name is non-empty and has no line terminator. */
  function SplitOnAnyCharacter(name: string): (parts: seq<string>)
    ensures forall i :: 0 <= i < |parts| ==> AllLineTerminators(parts[i])
    ensures Concat(parts) == Terminators(name)
    ensures |parts| == 0 <==> name != "" && forall k :: 0 <= k < |name| ==> !LineTerminator(name[k])
    ensures |parts| > 0 && name != "" ==> parts[|parts| - 1] != ""
  {
    TerminatorsEmpty(name);
    if AllLineTerminators(name) then
      assert Concat([name]) == name + Concat([]);
      [name]
    else
      DotPiecesMeaning(name);
      var ps := DotPieces(name);
      var r := DropTrailingEmpty(ps);
      ConcatEmptyTail(ps, |r|);
      ConcatEmpty(ps);
      r
  }

  /** getApplicationPath: "" without a configuration file or for a directory; for a regular
      file, the extension is the last piece of the split name; a properties or YAML file
      would supply its server.servlet.context-path entry (`property`, "" when absent). */
  function ApplicationPath(config: ConfigFile, property: Option<string>): (r: Result<string>)
  {
    var fileType :=
      if config.RegularFile? then
        var parts := SplitOnAnyCharacter(config.name);
        if |parts| == 0 then Err(ArrayIndexOutOfBounds) else Ok(parts[|parts| - 1])
      else Ok("");
    match fileType
    case Err(e) => Err(e)
    case Ok(ext) =>
      if EqualsIgnoreCase(ext, "properties") || EqualsIgnoreCase(ext, "yml") then
        Ok(if property.Some? then property.value else "")
      else Ok("")
  }

  /** The configuration file never supplies a context path: a regular file with a non-empty
      name free of line terminators makes the reader throw, and anything else yields "",
      since the extension is then empty or a run of line terminators. */
  lemma ApplicationPathNeverRead(config: ConfigFile, property: Option<string>)
    ensures ApplicationPath(config, property).Err? <==>
      config.RegularFile? && config.name != "" &&
      forall k :: 0 <= k < |config.name| ==> !LineTerminator(config.name[k])
    ensures ApplicationPath(config, property).Err? ==>
      ApplicationPath(config, property).error == ArrayIndexOutOfBounds
    ensures ApplicationPath(config, property).Ok? ==> ApplicationPath(config, property).value == ""
  {
    if config.RegularFile? {
      var parts := SplitOnAnyCharacter(config.name);
      if |parts| > 0 {
        NoExtension(parts[|parts| - 1]);
      }
    }
  }

  /** A run of line terminators is neither the extension "properties" nor "yml". */
  lemma NoExtension(ext: string)
    requires AllLineTerminators(ext)
    ensures !EqualsIgnoreCase(ext, "properties") && !EqualsIgnoreCase(ext, "yml")
  {
    var p, y := ToUpper("properties"), ToUpper("yml");
    assert |p| == 10 && |y| == 3 && p[0] == 'P' && y[0] == 'Y';
    if ext != "" {
      assert ToUpper(ext)[0] == UpperChar(ext[0]) == ext[0];
    }
  }

  // ---------------------------------------------------------------------------------------
  // addContextPathToBaseMapping

  /** Every base mapping with path in front of its path, verb kept. */
  function Prefixed(path: string, bases: seq<Mapping>): (r: seq<Mapping>)
    ensures |r| == |bases|
    ensures forall i :: 0 <= i < |r| ==> r[i] == (path + bases[i].0, bases[i].1)
    decreases |bases|
  {
    if bases == [] then [] else Prefixed(path, bases[..|bases| - 1]) + [(path + bases[|bases| - 1].0, bases[|bases| - 1].1)]
  }

  /** addContextPathToBaseMapping: nothing changes for an empty context path; otherwise the
      context path, with a leading '/', becomes the only base mapping of a class without one,
      or is put in front of each of its base mappings. */
  function AddContextPath(contextPath: string, bases: Option<seq<Mapping>>): Option<seq<Mapping>>
  {
    if contextPath == "" then bases
    else
      var path := StartWithSlash(contextPath);
      if bases.None? then Some([(path, None)]) else Some(Prefixed(path, bases.value))
  }

  /** A non-blank context path reaches every base mapping: each base path starts with it, and
      hence with '/', and the verbs stay as they were. */
  lemma AddContextPathLeads(contextPath: string, bases: Option<seq<Mapping>>)
    requires Trim(contextPath) != ""
    ensures AddContextPath(contextPath, bases).Some?
    ensures var r := AddContextPath(contextPath, bases).value;
      (forall i :: 0 <= i < |r| ==> StartsWith(r[i].0, StartWithSlash(contextPath)) && r[i].0[0] == '/') &&
      (bases.None? ==> r == [(StartWithSlash(contextPath), None)]) &&
      (bases.Some? ==> (|r| == |bases.value| &&
        forall i :: 0 <= i < |r| ==> r[i].1 == bases.value[i].1))
  {
  }

  /** An empty context path leaves the class's base mappings alone. */
  lemma AddContextPathEmpty(bases: Option<seq<Mapping>>)
    ensures AddContextPath("", bases) == bases
  {
  }

  method AddContextPathToBaseMapping(contextPath: string, baseMappings: Option<seq<Mapping>>)
    returns (r: Option<seq<Mapping>>)
    ensures r == AddContextPath(contextPath, baseMappings)
  {
    if contextPath == "" {
      return baseMappings;
    }
    var path := StartWithSlash(contextPath);
    if baseMappings.None? {
      return Some([(path, None)]);
    }
    var bases := baseMappings.value;
    var mappings: seq<Mapping> := [];
    var k := 0;
    while k < |bases|
      invariant 0 <= k <= |bases|
      invariant mappings == Prefixed(path, bases[..k])
    {
      assert bases[..k + 1][..k] == bases[..k];
      mappings := mappings + [(path + bases[k].0, bases[k].1)];
      k := k + 1;
    }
    assert bases[..k] == bases;
    r := Some(mappings);
  }

  // ---------------------------------------------------------------------------------------
  // getPathsAndMethods

  /** getMethodAnnotations of one method of a class with the given base mappings. */
  function ForMethod(bases: Option<seq<Mapping>>): JavaMethod -> Result<seq<Endpoint>>
  {
    (m: JavaMethod) => MethodEndpoints(CanonicalTables, true, bases, m)
  }

  /** The paths one class contributes: those of all its methods when it is a controller or
      has a base mapping, none otherwise. */
  function ClassEndpoints(basePath: string, c: JavaClass): Result<seq<Endpoint>>
  {
    var base := BaseMapping(CanonicalTables, c.annotations);
    if HasController(CanonicalTables, c.annotations) || base.Some? then
      FlatMapR(c.methods, ForMethod(AddContextPath(basePath, base)))
    else Ok([])
  }

  function ClassFinding(basePath: string): JavaClass -> Result<seq<Finding<HttpMethod>>>
  {
    (c: JavaClass) => FindingOf(basePath, c)
  }

  /** One class's package with its paths. */
  function FindingOf(basePath: string, c: JavaClass): Result<seq<Finding<HttpMethod>>>
  {
    match ClassEndpoints(basePath, c)
    case Err(e) => Err(e)
    case Ok(ps) => Ok([(c.packageName, ps)])
  }

  /** The offers of the classes, grouped per package. */
  function Offers(basePath: string, classes: seq<JavaClass>): Result<map<string, PathMap<HttpMethod>>>
  {
    match FlatMapR(classes, ClassFinding(basePath))
    case Err(e) => Err(e)
    case Ok(fs) => Ok(Group(fs))
  }

  /** getPathsAndMethods: the configured context path, else the application path, is the
      base path of every class. */
  function PathsAndMethods(contextPath: Option<string>, config: ConfigFile, property: Option<string>,
                           classes: seq<JavaClass>): Result<map<string, PathMap<HttpMethod>>>
  {
    var basePath := if contextPath.Some? then Ok(contextPath.value) else ApplicationPath(config, property);
    match basePath
    case Err(e) => Err(e)
    case Ok(b) => Offers(b, classes)
  }

  /** The findings are the classes in order, each with its package and its paths. */
  lemma FindingsShape(basePath: string, classes: seq<JavaClass>)
    requires FlatMapR(classes, ClassFinding(basePath)).Ok?
    ensures var fs := FlatMapR(classes, ClassFinding(basePath)).value;
      |fs| == |classes| &&
      forall i :: 0 <= i < |classes| ==>
        ClassEndpoints(basePath, classes[i]).Ok? &&
        fs[i] == (classes[i].packageName, ClassEndpoints(basePath, classes[i]).value)
  {
    forall c ensures ClassFinding(basePath)(c).Ok? ==> |ClassFinding(basePath)(c).value| == 1 {
    }
    FlatMapRSingles(classes, ClassFinding(basePath));
  }

  /** The reader fails exactly when the paths of some class cannot be computed. */
  lemma OffersFail(basePath: string, classes: seq<JavaClass>)
    ensures Offers(basePath, classes).Ok? <==>
      forall i :: 0 <= i < |classes| ==> ClassEndpoints(basePath, classes[i]).Ok?
  {
    FlatMapROk(classes, ClassFinding(basePath));
  }

  /** A package has an offer exactly when one of its classes contributes a path. */
  lemma OffersKeys(basePath: string, classes: seq<JavaClass>, pkg: string)
    requires Offers(basePath, classes).Ok?
    ensures pkg in Offers(basePath, classes).value <==>
      exists i :: 0 <= i < |classes| && classes[i].packageName == pkg &&
        ClassEndpoints(basePath, classes[i]).Ok? && ClassEndpoints(basePath, classes[i]).value != []
  {
    var fs := FlatMapR(classes, ClassFinding(basePath)).value;
    FindingsShape(basePath, classes);
    GroupKeys(fs, pkg);
    if pkg in Group(fs) {
      var x :| x in PairsOf(fs, pkg);
      PairsOfMember(fs, pkg, x);
    } else {
      forall i | 0 <= i < |classes| && classes[i].packageName == pkg
        ensures ClassEndpoints(basePath, classes[i]).Ok? && ClassEndpoints(basePath, classes[i]).value == []
      {
        if fs[i].1 != [] {
          PairsOfMember(fs, pkg, fs[i].1[0]);
        }
      }
    }
  }

  /** A package offers a verb on a path exactly when one of its classes yields that pair. */
  lemma OffersContent(basePath: string, classes: seq<JavaClass>, pkg: string, path: string, verb: HttpMethod)
    requires Offers(basePath, classes).Ok?
    ensures verb in At(OfferOf(Offers(basePath, classes).value, pkg), path) <==>
      exists i :: 0 <= i < |classes| && classes[i].packageName == pkg &&
        ClassEndpoints(basePath, classes[i]).Ok? && (path, verb) in ClassEndpoints(basePath, classes[i]).value
  {
    var fs := FlatMapR(classes, ClassFinding(basePath)).value;
    FindingsShape(basePath, classes);
    GroupContent(fs, pkg);
    WithPairsAt(map[], PairsOf(fs, pkg), path);
    PairsOfMember(fs, pkg, (path, verb));
  }

  /** The order in which the project's classes are visited does not change the offers. */
  lemma OffersOrderFree(basePath: string, classes: seq<JavaClass>, others: seq<JavaClass>)
    requires forall c :: c in classes <==> c in others
    requires Offers(basePath, classes).Ok? && Offers(basePath, others).Ok?
    ensures Offers(basePath, classes) == Offers(basePath, others)
  {
    var fs := FlatMapR(classes, ClassFinding(basePath)).value;
    var gs := FlatMapR(others, ClassFinding(basePath)).value;
    forall c ensures ClassFinding(basePath)(c).Ok? ==> |ClassFinding(basePath)(c).value| == 1 {
    }
    FlatMapRSinglesSame(classes, others, ClassFinding(basePath));
    GroupOrderFree(fs, gs);
  }

  /** The loop over a class's methods. */
  method MethodPaths(bases: Option<seq<Mapping>>, methods: seq<JavaMethod>) returns (r: Result<seq<Endpoint>>)
    ensures r == FlatMapR(methods, ForMethod(bases))
  {
    var paths: seq<Endpoint> := [];
    var k := 0;
    while k < |methods|
      invariant 0 <= k <= |methods|
      invariant FlatMapR(methods[..k], ForMethod(bases)) == Ok(paths)
    {
      var step := GetMethodAnnotations(CanonicalTables, true, methods[k], bases);
      if step.Err? {
        FlatMapRStepFails(methods, ForMethod(bases), k, paths);
        return Err(step.error);
      }
      FlatMapRSnoc(methods, ForMethod(bases), k, paths, step.value);
      paths := paths + step.value;
      k := k + 1;
    }
    assert methods[..k] == methods;
    r := Ok(paths);
  }

  /** The body of getPathsAndMethods' loop up to the offer update: one class's paths. */
  method ClassPaths(basePath: string, c: JavaClass) returns (r: Result<seq<Endpoint>>)
    ensures r == ClassEndpoints(basePath, c)
  {
    var baseMapping, controller := GetBaseMappingAndController(CanonicalTables, c.annotations);
    if controller || baseMapping.Some? {
      baseMapping := AddContextPathToBaseMapping(basePath, baseMapping);
      r := MethodPaths(baseMapping, c.methods);
    } else {
      r := Ok([]);
    }
  }

  /** The loop of getPathsAndMethods over the project's classes. */
  method CollectOffers(basePath: string, classes: seq<JavaClass>) returns (r: Result<map<string, PathMap<HttpMethod>>>)
    ensures r == Offers(basePath, classes)
  {
    var offers: map<string, PathMap<HttpMethod>> := map[];
    ghost var fs: seq<Finding<HttpMethod>> := [];
    var k := 0;
    while k < |classes|
      invariant 0 <= k <= |classes|
      invariant FlatMapR(classes[..k], ClassFinding(basePath)) == Ok(fs)
      invariant offers == Group(fs)
    {
      var paths := ClassPaths(basePath, classes[k]);
      if paths.Err? {
        FlatMapRStepFails(classes, ClassFinding(basePath), k, fs);
        return Err(paths.error);
      }
      FlatMapRSnoc(classes, ClassFinding(basePath), k, fs, [(classes[k].packageName, paths.value)]);
      offers := AddFinding(offers, fs, classes[k].packageName, paths.value);
      fs := fs + [(classes[k].packageName, paths.value)];
      k := k + 1;
    }
    assert classes[..k] == classes;
    r := Ok(offers);
  }

  /** SPRINGReader.getPathsAndMethods, from the parsed classes of the source tree. */
  method GetPathsAndMethods(contextPath: Option<string>, config: ConfigFile, property: Option<string>,
                            classes: seq<JavaClass>)
    returns (r: Result<map<string, PathMap<HttpMethod>>>)
    ensures r == PathsAndMethods(contextPath, config, property, classes)
  {
    var basePath: string;
    if contextPath.Some? {
      basePath := contextPath.value;
    } else {
      var app := ApplicationPath(config, property);
      if app.Err? {
        return Err(app.error);
      }
      basePath := app.value;
    }
    r := CollectOffers(basePath, classes);
  }
}
