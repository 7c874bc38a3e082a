/** reader.impl.api.JAXRSReader: the offered REST endpoints of a JAX-RS project, grouped per
    package, with the application path (from web.xml, an @ApplicationPath class, the
    configured context path and the GlassFish context root) put in front of every path. */
module JaxrsReader {
  import opened Common
  import opened Strings
  import opened Http
  import opened PathMaps
  import opened JavaModel
  import opened Grouping
  import opened JaxrsPaths
  import SpringMapping

  const ApplicationPathName := "javax.ws.rs.ApplicationPath"

  // ---------------------------------------------------------------------------------------
  // getPathsAndMethods: the loop over the classes

  /** The text of an annotation's value, "" without one (the class path of a @Path). */
  function ValueText(a: JavaAnnotation): string
  {
    match Param(a, "value")
    case None => ""
    case Some(v) => Text(v)
  }

  /** What one method of a class in package pkg adds: its pair, when it has one. */
  function MethodFindingOf(pkg: string, classPath: string, m: JavaMethod): Result<seq<Finding<HttpMethod>>>
  {
    match MethodPair(classPath, m)
    case Err(e) => Err(e)
    case Ok(None) => Ok([])
    case Ok(Some(e)) => Ok([(pkg, [e])])
  }

  function MethodFinding(pkg: string, classPath: string): JavaMethod -> Result<seq<Finding<HttpMethod>>>
  {
    (m: JavaMethod) => MethodFindingOf(pkg, classPath, m)
  }

  /** The pairs of all methods of c, under the class path of its @Path annotation a. */
  function PathFindings(c: JavaClass, a: JavaAnnotation): Result<seq<Finding<HttpMethod>>>
  {
    FlatMapR(c.methods, MethodFinding(c.packageName, ValueText(a)))
  }

  /** The application path found so far (null as None) and the pairs added so far. */
  datatype Scan = Scan(app: Option<string>, findings: seq<Finding<HttpMethod>>)

  /** One class annotation: an @ApplicationPath sets the application path while none is
      known (reading a missing value throws); a @Path adds the pairs of the class's
      methods; anything else is skipped. */
  function ClassStep(c: JavaClass, s: Scan, a: JavaAnnotation): Result<Scan>
  {
    if s.app.None? && a.canonicalName == ApplicationPathName then
      match Param(a, "value")
      case None => Err(NullPointer)
      case Some(v) => Ok(s.(app := Some(Text(v))))
    else if a.canonicalName == PathName then
      match PathFindings(c, a)
      case Err(e) => Err(e)
      case Ok(fs) => Ok(s.(findings := s.findings + fs))
    else Ok(s)
  }

  function ClassStepOf(c: JavaClass): (Scan, JavaAnnotation) -> Result<Scan>
  {
    (s: Scan, a: JavaAnnotation) => ClassStep(c, s, a)
  }

  /** The loop over one class's annotations. */
  function ScanClass(c: JavaClass, s0: Scan): Result<Scan>
  {
    FoldR(c.annotations, s0, ClassStepOf(c))
  }

  function ProjectStep(s: Scan, c: JavaClass): Result<Scan>
  {
    ScanClass(c, s)
  }

  /** The loop over the project's classes. */
  function ScanProject(s0: Scan, classes: seq<JavaClass>): Result<Scan>
  {
    FoldR(classes, s0, ProjectStep)
  }

  /** The pairs a class annotation adds, whatever the application path. */
  function AnnotationFindings(c: JavaClass): JavaAnnotation -> Result<seq<Finding<HttpMethod>>>
  {
    (a: JavaAnnotation) => if a.canonicalName == PathName then PathFindings(c, a) else Ok([])
  }

  function ClassFindingsOf(c: JavaClass): Result<seq<Finding<HttpMethod>>>
  {
    FlatMapR(c.annotations, AnnotationFindings(c))
  }

  const ClassFindings: JavaClass -> Result<seq<Finding<HttpMethod>>> := (c: JavaClass) => ClassFindingsOf(c)

  /** The pairs do not depend on the application path: a successful scan adds exactly the
      pairs of the @Path annotations. */
  lemma ScanProjectFindings(s0: Scan, classes: seq<JavaClass>)
    requires ScanProject(s0, classes).Ok?
    ensures FlatMapR(classes, ClassFindings).Ok?
    ensures ScanProject(s0, classes).value.findings == s0.findings + FlatMapR(classes, ClassFindings).value
  {
    forall s, c | ProjectStep(s, c).Ok?
      ensures ClassFindings(c).Ok? && ProjectStep(s, c).value.findings == s.findings + ClassFindings(c).value
    {
      ScanClassFindings(c, s);
    }
    FoldRAccumulates(classes, s0, ProjectStep, (s: Scan) => s.findings, ClassFindings);
  }

  lemma ScanClassFindings(c: JavaClass, s0: Scan)
    requires ScanClass(c, s0).Ok?
    ensures ClassFindingsOf(c).Ok?
    ensures ScanClass(c, s0).value.findings == s0.findings + ClassFindingsOf(c).value
  {
    forall s, a | ClassStepOf(c)(s, a).Ok?
      ensures AnnotationFindings(c)(a).Ok? &&
        ClassStepOf(c)(s, a).value.findings == s.findings + AnnotationFindings(c)(a).value
    {
      ClassStepFindings(c, s, a);
    }
    FoldRAccumulates(c.annotations, s0, ClassStepOf(c), (s: Scan) => s.findings, AnnotationFindings(c));
  }

  lemma ClassStepFindings(c: JavaClass, s: Scan, a: JavaAnnotation)
    requires ClassStep(c, s, a).Ok?
    ensures AnnotationFindings(c)(a).Ok?
    ensures ClassStep(c, s, a).value.findings == s.findings + AnnotationFindings(c)(a).value
  {
    assert ApplicationPathName != PathName;
    if a.canonicalName != PathName {
      assert s.findings + [] == s.findings;
    }
  }

  /** Once the application path is known, @ApplicationPath annotations are skipped: the
      scan keeps it and fails exactly when the pairs of some @Path class cannot be made. */
  lemma ScanProjectKnownApp(s0: Scan, classes: seq<JavaClass>)
    requires s0.app.Some?
    ensures ScanProject(s0, classes).Ok? <==> FlatMapR(classes, ClassFindings).Ok?
    ensures ScanProject(s0, classes).Ok? ==> ScanProject(s0, classes).value.app == s0.app
  {
    var inv := (s: Scan) => s.app == s0.app;
    forall s, c | inv(s)
      ensures (ProjectStep(s, c).Ok? <==> ClassFindings(c).Ok?) && (ProjectStep(s, c).Ok? ==> inv(ProjectStep(s, c).value))
    {
      ScanClassKnownApp(c, s);
    }
    FoldRPreserves(classes, s0, ProjectStep, ClassFindings, inv);
  }

  lemma ScanClassKnownApp(c: JavaClass, s0: Scan)
    requires s0.app.Some?
    ensures ScanClass(c, s0).Ok? <==> ClassFindingsOf(c).Ok?
    ensures ScanClass(c, s0).Ok? ==> ScanClass(c, s0).value.app == s0.app
  {
    var inv := (s: Scan) => s.app == s0.app;
    forall s, a | inv(s)
      ensures (ClassStepOf(c)(s, a).Ok? <==> AnnotationFindings(c)(a).Ok?) &&
        (ClassStepOf(c)(s, a).Ok? ==> inv(ClassStepOf(c)(s, a).value))
    {
    }
    FoldRPreserves(c.annotations, s0, ClassStepOf(c), AnnotationFindings(c), inv);
  }

  // ---------------------------------------------------------------------------------------
  // Which application path the classes supply

  predicate IsApplicationPath(a: JavaAnnotation)
  {
    a.canonicalName == ApplicationPathName
  }

  /** How one annotation changes the application path of a successful scan. */
  function AppAfter(app: Option<string>, a: JavaAnnotation): Option<string>
  {
    if app.None? && IsApplicationPath(a) then Some(ValueText(a)) else app
  }

  function ClassAppAfter(app: Option<string>, c: JavaClass): Option<string>
  {
    Fold(c.annotations, app, AppAfter)
  }

  function AnnotationsOf(c: JavaClass): seq<JavaAnnotation>
  {
    c.annotations
  }

  /** The annotations of all classes, class by class. */
  function AllAnnotations(classes: seq<JavaClass>): seq<JavaAnnotation>
  {
    FlatMap(classes, AnnotationsOf)
  }

  /** The position of the first @ApplicationPath annotation. */
  function FirstApplicationPath(annotations: seq<JavaAnnotation>): (r: Option<nat>)
    ensures r.None? <==> forall i :: 0 <= i < |annotations| ==> !IsApplicationPath(annotations[i])
    ensures r.Some? ==>
      r.value < |annotations| && IsApplicationPath(annotations[r.value]) &&
      (forall j :: 0 <= j < r.value ==> !IsApplicationPath(annotations[j]))
    decreases |annotations|
  {
    if annotations == [] then None
    else
      var init := annotations[..|annotations| - 1];
      assert forall i :: 0 <= i < |init| ==> init[i] == annotations[i];
      match FirstApplicationPath(init)
      case Some(i) => Some(i)
      case None => if IsApplicationPath(annotations[|annotations| - 1]) then Some(|annotations| - 1) else None
  }

  /** A known application path is kept; otherwise the first @ApplicationPath supplies it. */
  lemma {:induction false} AppAfterFirst(annotations: seq<JavaAnnotation>, app: Option<string>)
    ensures Fold(annotations, app, AppAfter) ==
      if app.Some? then app
      else match FirstApplicationPath(annotations)
        case None => None
        case Some(i) => Some(ValueText(annotations[i]))
    decreases |annotations|
  {
    if annotations != [] {
      var init := annotations[..|annotations| - 1];
      AppAfterFirst(init, app);
      assert forall i :: 0 <= i < |init| ==> init[i] == annotations[i];
    }
  }

  lemma ScanClassApp(c: JavaClass, s0: Scan)
    requires ScanClass(c, s0).Ok?
    ensures ScanClass(c, s0).value.app == ClassAppAfter(s0.app, c)
  {
    forall s, a | ClassStepOf(c)(s, a).Ok?
      ensures ClassStepOf(c)(s, a).value.app == AppAfter(s.app, a)
    {
      assert ApplicationPathName != PathName;
    }
    FoldRProject(c.annotations, s0, ClassStepOf(c), (s: Scan) => s.app, AppAfter);
  }

  /** The application path after the scan: web.xml's when it gave one, otherwise the value
      of the first @ApplicationPath annotation of the project, in class order; null without
      one. */
  lemma ScanProjectApp(s0: Scan, classes: seq<JavaClass>)
    requires ScanProject(s0, classes).Ok?
    ensures ScanProject(s0, classes).value.app ==
      if s0.app.Some? then s0.app
      else match FirstApplicationPath(AllAnnotations(classes))
        case None => None
        case Some(i) => Some(ValueText(AllAnnotations(classes)[i]))
  {
    forall s, c | ProjectStep(s, c).Ok?
      ensures ProjectStep(s, c).value.app == ClassAppAfter(s.app, c)
    {
      ScanClassApp(c, s);
    }
    FoldRProject(classes, s0, ProjectStep, (s: Scan) => s.app, ClassAppAfter);
    FoldFlatMap(classes, AnnotationsOf, s0.app, AppAfter, ClassAppAfter);
    AppAfterFirst(AllAnnotations(classes), s0.app);
  }

  // ---------------------------------------------------------------------------------------
  // What the classes offer

  /** Class c offers endpoint e: one of its methods yields e under one of its @Path
      annotations. */
  predicate ClassOffers(c: JavaClass, e: SpringMapping.Endpoint)
  {
    exists j, k :: 0 <= j < |c.annotations| && 0 <= k < |c.methods| &&
      c.annotations[j].canonicalName == PathName && MethodPair(ValueText(c.annotations[j]), c.methods[k]) == Ok(Some(e))
  }

  /** Some class of package pkg offers e. */
  predicate Offered(classes: seq<JavaClass>, pkg: string, e: SpringMapping.Endpoint)
  {
    exists i :: 0 <= i < |classes| && classes[i].packageName == pkg && ClassOffers(classes[i], e)
  }

  lemma MethodFindingsMember(pkg: string, classPath: string, methods: seq<JavaMethod>, f: Finding<HttpMethod>)
    requires FlatMapR(methods, MethodFinding(pkg, classPath)).Ok?
    ensures f in FlatMapR(methods, MethodFinding(pkg, classPath)).value <==>
      f.0 == pkg && |f.1| == 1 &&
      exists k :: 0 <= k < |methods| && MethodPair(classPath, methods[k]) == Ok(Some(f.1[0]))
  {
    var F := MethodFinding(pkg, classPath);
    FlatMapRMember(methods, F, f);
    if f in FlatMapR(methods, F).value {
      var k :| 0 <= k < |methods| && F(methods[k]).Ok? && f in F(methods[k]).value;
      MethodFindingOfMember(pkg, classPath, methods[k], f);
    }
    if f.0 == pkg && |f.1| == 1 && exists k :: 0 <= k < |methods| && MethodPair(classPath, methods[k]) == Ok(Some(f.1[0])) {
      var k :| 0 <= k < |methods| && MethodPair(classPath, methods[k]) == Ok(Some(f.1[0]));
      MethodFindingOfMember(pkg, classPath, methods[k], f);
      assert F(methods[k]).Ok? && f in F(methods[k]).value;
    }
  }

  lemma MethodFindingOfMember(pkg: string, classPath: string, m: JavaMethod, f: Finding<HttpMethod>)
    ensures MethodFindingOf(pkg, classPath, m).Ok? && f in MethodFindingOf(pkg, classPath, m).value <==>
      f.0 == pkg && |f.1| == 1 && MethodPair(classPath, m) == Ok(Some(f.1[0]))
  {
    var r := MethodPair(classPath, m);
    if r.Ok? && r.value.Some? {
      var single: Finding<HttpMethod> := (pkg, [r.value.value]);
      assert MethodFindingOf(pkg, classPath, m) == Ok([single]);
      if f.0 == pkg && |f.1| == 1 && f.1[0] == r.value.value {
        assert f.1 == [r.value.value];
      }
    }
  }

  lemma ClassFindingsMember(c: JavaClass, f: Finding<HttpMethod>)
    requires ClassFindingsOf(c).Ok?
    ensures f in ClassFindingsOf(c).value <==> f.0 == c.packageName && |f.1| == 1 && ClassOffers(c, f.1[0])
  {
    FlatMapRMember(c.annotations, AnnotationFindings(c), f);
    if f in ClassFindingsOf(c).value {
      var j :| 0 <= j < |c.annotations| && AnnotationFindings(c)(c.annotations[j]).Ok? &&
        f in AnnotationFindings(c)(c.annotations[j]).value;
      var a := c.annotations[j];
      assert a.canonicalName == PathName;
      MethodFindingsMember(c.packageName, ValueText(a), c.methods, f);
    }
    if f.0 == c.packageName && |f.1| == 1 && ClassOffers(c, f.1[0]) {
      var j, k :| 0 <= j < |c.annotations| && 0 <= k < |c.methods| &&
        c.annotations[j].canonicalName == PathName && MethodPair(ValueText(c.annotations[j]), c.methods[k]) == Ok(Some(f.1[0]));
      var a := c.annotations[j];
      FlatMapROk(c.annotations, AnnotationFindings(c));
      assert AnnotationFindings(c)(a).Ok?;
      MethodFindingsMember(c.packageName, ValueText(a), c.methods, f);
    }
  }

  lemma ProjectFindingsMember(classes: seq<JavaClass>, f: Finding<HttpMethod>)
    requires FlatMapR(classes, ClassFindings).Ok?
    ensures f in FlatMapR(classes, ClassFindings).value <==> |f.1| == 1 && Offered(classes, f.0, f.1[0])
  {
    FlatMapRMember(classes, ClassFindings, f);
    FlatMapROk(classes, ClassFindings);
    if f in FlatMapR(classes, ClassFindings).value {
      var i :| 0 <= i < |classes| && ClassFindings(classes[i]).Ok? && f in ClassFindings(classes[i]).value;
      ClassFindingsMember(classes[i], f);
    }
    if |f.1| == 1 && Offered(classes, f.0, f.1[0]) {
      var i :| 0 <= i < |classes| && classes[i].packageName == f.0 && ClassOffers(classes[i], f.1[0]);
      ClassFindingsMember(classes[i], f);
    }
  }

  /** Before the application path is put in front, package pkg offers verb on path exactly
      when one of its classes has a method yielding that pair under a class-level @Path. */
  lemma FindingsContent(classes: seq<JavaClass>, pkg: string, path: string, verb: HttpMethod)
    requires FlatMapR(classes, ClassFindings).Ok?
    ensures verb in At(OfferOf(Group(FlatMapR(classes, ClassFindings).value), pkg), path) <==>
      Offered(classes, pkg, (path, verb))
  {
    var fs := FlatMapR(classes, ClassFindings).value;
    GroupAt(fs, pkg, path, verb);
    if Offered(classes, pkg, (path, verb)) {
      OfferedFound(classes, pkg, (path, verb));
    }
    if exists i :: 0 <= i < |fs| && fs[i].0 == pkg && (path, verb) in fs[i].1 {
      var i :| 0 <= i < |fs| && fs[i].0 == pkg && (path, verb) in fs[i].1;
      FoundOffered(classes, i, (path, verb));
    }
  }

  lemma OfferedFound(classes: seq<JavaClass>, pkg: string, e: SpringMapping.Endpoint)
    requires FlatMapR(classes, ClassFindings).Ok? && Offered(classes, pkg, e)
    ensures var fs := FlatMapR(classes, ClassFindings).value;
      exists i :: 0 <= i < |fs| && fs[i].0 == pkg && e in fs[i].1
  {
    var fs := FlatMapR(classes, ClassFindings).value;
    ProjectFindingsMember(classes, (pkg, [e]));
    var i :| 0 <= i < |fs| && fs[i] == (pkg, [e]);
    assert e in fs[i].1;
  }

  lemma FoundOffered(classes: seq<JavaClass>, i: int, e: SpringMapping.Endpoint)
    requires FlatMapR(classes, ClassFindings).Ok?
    requires var fs := FlatMapR(classes, ClassFindings).value; 0 <= i < |fs| && e in fs[i].1
    ensures Offered(classes, FlatMapR(classes, ClassFindings).value[i].0, e)
  {
    var fs := FlatMapR(classes, ClassFindings).value;
    ProjectFindingsMember(classes, fs[i]);
  }

  /** A package has an offer exactly when one of its classes offers something. */
  lemma FindingsKeys(classes: seq<JavaClass>, pkg: string)
    requires FlatMapR(classes, ClassFindings).Ok?
    ensures pkg in Group(FlatMapR(classes, ClassFindings).value) <==> exists e :: Offered(classes, pkg, e)
  {
    var fs := FlatMapR(classes, ClassFindings).value;
    GroupKeys(fs, pkg);
    if pkg in Group(fs) {
      var x :| x in PairsOf(fs, pkg);
      PairsOfMember(fs, pkg, x);
      GroupAt(fs, pkg, x.0, x.1);
      FindingsContent(classes, pkg, x.0, x.1);
    }
    if e :| Offered(classes, pkg, e) {
      FindingsContent(classes, pkg, e.0, e.1);
      GroupAt(fs, pkg, e.0, e.1);
      PairsOfMember(fs, pkg, e);
    }
  }

  // ---------------------------------------------------------------------------------------
  // The application path: configured context path and GlassFish context root

  /** After the scan: a configured context path is put in front of the application path
      (which may be null); then a GlassFish context root is put in front of that, where a
      still-null application path throws once the root has been formatted. */
  function ComposeBase(app: Option<string>, contextPath: Option<string>, glassfishPath: Option<string>)
    : Result<Option<string>>
  {
    var withContext :=
      if contextPath.None? then Ok(app)
      else match FormatBasePath(contextPath.value)
        case Err(e) => Err(e)
        case Ok(b) =>
          if app.None? then Ok(Some(b))
          else match FormatConcatPath(app.value)
            case Err(e) => Err(e)
            case Ok(p) => Ok(Some(b + p));
    match withContext
    case Err(e) => Err(e)
    case Ok(a) =>
      if glassfishPath.None? then Ok(a)
      else match FormatBasePath(glassfishPath.value)
        case Err(e) => Err(e)
        case Ok(b) =>
          if a.None? then Err(NullPointer)
          else match FormatConcatPath(a.value)
            case Err(e) => Err(e)
            case Ok(p) => Ok(Some(b + p))
  }

  /** Without a context path or GlassFish root, the application path is the one found. */
  lemma ComposeNothing(app: Option<string>)
    ensures ComposeBase(app, None, None) == Ok(app)
  {
  }

  /** A formattable context path always yields an application path that starts with it. */
  lemma ComposeContext(app: Option<string>, contextPath: string)
    requires FormatBasePath(contextPath).Ok?
    requires app.Some? ==> FormatConcatPath(app.value).Ok?
    ensures ComposeBase(app, Some(contextPath), None).Ok?
    ensures ComposeBase(app, Some(contextPath), None).value.Some?
    ensures StartsWith(ComposeBase(app, Some(contextPath), None).value.value, FormatBasePath(contextPath).value)
  {
  }

  /** A GlassFish context root without any application path (no web.xml mapping, no
      @ApplicationPath, no context path) makes the reader throw. */
  lemma GlassfishWithoutApplicationPath(glassfishPath: string)
    requires FormatBasePath(glassfishPath).Ok?
    ensures ComposeBase(None, None, Some(glassfishPath)) == Err(NullPointer)
  {
  }

  // ---------------------------------------------------------------------------------------
  // concatApplicationPathTo

  /** The formatted application path, when there is one. */
  function Prefix(app: Option<string>): Result<Option<string>>
  {
    if app.None? then Ok(None)
    else match FormatBasePath(app.value)
      case Err(e) => Err(e)
      case Ok(p) => Ok(Some(p))
  }

  /** The new path of a key: the prefix followed by the formatted key, or without a prefix
      the key formatted as a base path. */
  function NewKey(prefix: Option<string>, key: string): Result<string>
  {
    if prefix.None? then FormatBasePath(key)
    else match FormatConcatPath(key)
      case Err(e) => Err(e)
      case Ok(k) => Ok(prefix.value + k)
  }

  /** Some key with at least one verb cannot be rekeyed. */
  predicate RekeyFails(offer: PathMap<HttpMethod>, prefix: Option<string>, keys: set<string>)
  {
    exists k :: k in keys && k in offer && offer[k] != {} && NewKey(prefix, k).Err?
  }

  /** The pairs of the keys in keys, moved to their new paths. */
  function Moved(offer: PathMap<HttpMethod>, prefix: Option<string>, keys: set<string>): set<(string, HttpMethod)>
  {
    set k, v | k in keys && k in offer && v in offer[k] && NewKey(prefix, k).Ok? :: (NewKey(prefix, k).value, v)
  }

  /** One offer with every path moved: the new offer holds each verb under the new path of
      its key. */
  function RekeyOffer(offer: PathMap<HttpMethod>, prefix: Option<string>): Result<PathMap<HttpMethod>>
  {
    if RekeyFails(offer, prefix, offer.Keys) then Err(StringIndexOutOfBounds)
    else Ok(WithPairs(map[], Moved(offer, prefix, offer.Keys)))
  }

  /** concatApplicationPathTo: every offer, in any order, rekeyed; the first failure throws. */
  function ConcatApplicationPathTo(offers: map<string, PathMap<HttpMethod>>, app: Option<string>)
    : Result<map<string, PathMap<HttpMethod>>>
  {
    match Prefix(app)
    case Err(e) => Err(e)
    case Ok(prefix) =>
      if exists pkg :: pkg in offers && RekeyOffer(offers[pkg], prefix).Err? then Err(StringIndexOutOfBounds)
      else Ok(map pkg | pkg in offers :: RekeyOffer(offers[pkg], prefix).value)
  }

  /** A rekeyed offer holds a verb under a new path exactly when the old offer held it under
      a key whose new path that is. */
  lemma RekeyOfferContent(offer: PathMap<HttpMethod>, prefix: Option<string>, path: string, verb: HttpMethod)
    requires RekeyOffer(offer, prefix).Ok?
    ensures verb in At(RekeyOffer(offer, prefix).value, path) <==>
      exists k :: k in offer && verb in offer[k] && NewKey(prefix, k) == Ok(path)
  {
    var moved := Moved(offer, prefix, offer.Keys);
    WithPairsAt(map[], moved, path);
    if verb in VerbsOf(moved, path) {
      assert (path, verb) in moved;
    }
    if k :| k in offer && verb in offer[k] && NewKey(prefix, k) == Ok(path) {
      assert (path, verb) in moved;
    }
  }

  /** Every new path starts with the formatted application path. */
  lemma NewKeyLeads(prefix: string, key: string)
    requires NewKey(Some(prefix), key).Ok?
    ensures StartsWith(NewKey(Some(prefix), key).value, prefix)
  {
  }

  /** The rekeying fails exactly when the application path cannot be formatted, or some
      offer has a path with a verb that cannot; the failure is always the same exception. */
  lemma ConcatFails(offers: map<string, PathMap<HttpMethod>>, app: Option<string>)
    ensures ConcatApplicationPathTo(offers, app).Err? <==>
      Prefix(app).Err? ||
      exists pkg, k :: pkg in offers && k in offers[pkg] && offers[pkg][k] != {} && NewKey(Prefix(app).value, k).Err?
    ensures ConcatApplicationPathTo(offers, app).Err? ==> ConcatApplicationPathTo(offers, app).error == StringIndexOutOfBounds
  {
  }

  /** The same packages keep an offer, each with its verbs under the new paths. */
  lemma ConcatContent(offers: map<string, PathMap<HttpMethod>>, app: Option<string>, pkg: string, path: string, verb: HttpMethod)
    requires ConcatApplicationPathTo(offers, app).Ok?
    ensures ConcatApplicationPathTo(offers, app).value.Keys == offers.Keys
    ensures pkg in offers ==>
      (verb in At(ConcatApplicationPathTo(offers, app).value[pkg], path) <==>
        exists k :: k in offers[pkg] && verb in offers[pkg][k] && NewKey(Prefix(app).value, k) == Ok(path))
  {
    if pkg in offers {
      RekeyOfferContent(offers[pkg], Prefix(app).value, path, verb);
    }
  }

  // ---------------------------------------------------------------------------------------
  // getPathsAndMethods

  /** getPathsAndMethods, from web.xml's servlet mapping (webXml), the configured context
      path, the GlassFish context root and the parsed classes of the source tree. */
  function PathsAndMethods(webXml: Option<string>, contextPath: Option<string>, glassfishPath: Option<string>,
                           classes: seq<JavaClass>): Result<map<string, PathMap<HttpMethod>>>
  {
    match ScanProject(Scan(webXml, []), classes)
    case Err(e) => Err(e)
    case Ok(s) =>
      match ComposeBase(s.app, contextPath, glassfishPath)
      case Err(e) => Err(e)
      case Ok(app) => ConcatApplicationPathTo(Group(s.findings), app)
  }

  /** The application path the reader puts in front of every path. */
  function ApplicationPathUsed(webXml: Option<string>, contextPath: Option<string>, glassfishPath: Option<string>,
                               classes: seq<JavaClass>): Option<string>
    requires PathsAndMethods(webXml, contextPath, glassfishPath, classes).Ok?
  {
    ComposeBase(ScanProject(Scan(webXml, []), classes).value.app, contextPath, glassfishPath).value
  }

  /** What the reader returns: an offer for exactly the packages with an endpoint, and in
      each, a verb under a path exactly when one of the package's classes yields that verb
      under a path that the application path turns into it. */
  lemma PathsAndMethodsContent(webXml: Option<string>, contextPath: Option<string>, glassfishPath: Option<string>,
                               classes: seq<JavaClass>, pkg: string, path: string, verb: HttpMethod)
    requires PathsAndMethods(webXml, contextPath, glassfishPath, classes).Ok?
    ensures var r := PathsAndMethods(webXml, contextPath, glassfishPath, classes).value;
      var prefix := Prefix(ApplicationPathUsed(webXml, contextPath, glassfishPath, classes)).value;
      (pkg in r <==> exists e :: Offered(classes, pkg, e)) &&
      (pkg in r ==>
        (verb in At(r[pkg], path) <==>
          exists k :: Offered(classes, pkg, (k, verb)) && NewKey(prefix, k) == Ok(path)))
  {
    PathsAndMethodsSteps(webXml, contextPath, glassfishPath, classes);
    var offers := Group(FlatMapR(classes, ClassFindings).value);
    var app := ApplicationPathUsed(webXml, contextPath, glassfishPath, classes);
    ConcatContent(offers, app, pkg, path, verb);
    FindingsKeys(classes, pkg);
    if pkg in offers {
      RekeyedFindings(classes, Prefix(app).value, pkg, path, verb);
    }
  }

  /** The reader is the rekeying of the grouped pairs of the @Path classes. */
  lemma PathsAndMethodsSteps(webXml: Option<string>, contextPath: Option<string>, glassfishPath: Option<string>,
                             classes: seq<JavaClass>)
    requires PathsAndMethods(webXml, contextPath, glassfishPath, classes).Ok?
    ensures FlatMapR(classes, ClassFindings).Ok?
    ensures PathsAndMethods(webXml, contextPath, glassfishPath, classes) ==
      ConcatApplicationPathTo(Group(FlatMapR(classes, ClassFindings).value),
                              ApplicationPathUsed(webXml, contextPath, glassfishPath, classes))
  {
    var s0 := Scan(webXml, []);
    ScanProjectFindings(s0, classes);
    var fs := FlatMapR(classes, ClassFindings).value;
    assert s0.findings + fs == fs;
  }

  lemma RekeyedFindings(classes: seq<JavaClass>, prefix: Option<string>, pkg: string, path: string, verb: HttpMethod)
    requires FlatMapR(classes, ClassFindings).Ok?
    requires pkg in Group(FlatMapR(classes, ClassFindings).value)
    ensures var offer := Group(FlatMapR(classes, ClassFindings).value)[pkg];
      (exists k :: k in offer && verb in offer[k] && NewKey(prefix, k) == Ok(path)) <==>
      (exists k :: Offered(classes, pkg, (k, verb)) && NewKey(prefix, k) == Ok(path))
  {
    var offer := Group(FlatMapR(classes, ClassFindings).value)[pkg];
    if k :| k in offer && verb in offer[k] && NewKey(prefix, k) == Ok(path) {
      RekeyedFinding(classes, pkg, k, verb);
    }
    if k :| Offered(classes, pkg, (k, verb)) && NewKey(prefix, k) == Ok(path) {
      RekeyedFinding(classes, pkg, k, verb);
    }
  }

  lemma RekeyedFinding(classes: seq<JavaClass>, pkg: string, k: string, verb: HttpMethod)
    requires FlatMapR(classes, ClassFindings).Ok?
    requires pkg in Group(FlatMapR(classes, ClassFindings).value)
    ensures var offer := Group(FlatMapR(classes, ClassFindings).value)[pkg];
      k in offer && verb in offer[k] <==> Offered(classes, pkg, (k, verb))
  {
    FindingsContent(classes, pkg, k, verb);
  }

  // ---------------------------------------------------------------------------------------
  // The reader's loops

  /** What the loops over the classes keep: the application path and the offers per
      package. */
  function Observed(scan: Result<Scan>): Result<(Option<string>, map<string, PathMap<HttpMethod>>)>
  {
    match scan
    case Err(e) => Err(e)
    case Ok(s) => Ok((s.app, Group(s.findings)))
  }

  /** The loop over a @Path class's methods: each method's pair goes into its package's
      offer. */
  method ReadMethods(pkg: string, classPath: string, methods: seq<JavaMethod>,
                     offers: map<string, PathMap<HttpMethod>>, ghost fs: seq<Finding<HttpMethod>>)
    returns (r: Result<map<string, PathMap<HttpMethod>>>)
    requires offers == Group(fs)
    ensures r.Err? <==> FlatMapR(methods, MethodFinding(pkg, classPath)).Err?
    ensures r.Err? ==> r.error == FlatMapR(methods, MethodFinding(pkg, classPath)).error
    ensures r.Ok? ==> r.value == Group(fs + FlatMapR(methods, MethodFinding(pkg, classPath)).value)
  {
    var current := offers;
    ghost var gs: seq<Finding<HttpMethod>> := [];
    AppendEmpty(fs);
    var k := 0;
    while k < |methods|
      invariant 0 <= k <= |methods|
      invariant FlatMapR(methods[..k], MethodFinding(pkg, classPath)) == Ok(gs)
      invariant current == Group(fs + gs)
    {
      var methodPair := GetMethodAnnotations(methods[k], classPath);
      if methodPair.Err? {
        FlatMapRStepFails(methods, MethodFinding(pkg, classPath), k, gs);
        return Err(methodPair.error);
      }
      if methodPair.value.Some? {
        var e := methodPair.value.value;
        FlatMapRSnoc(methods, MethodFinding(pkg, classPath), k, gs, [(pkg, [e])]);
        current := AddFinding(current, fs + gs, pkg, [e]);
        AppendAssoc(fs, gs, [(pkg, [e])]);
        gs := gs + [(pkg, [e])];
      } else {
        FlatMapRSnoc(methods, MethodFinding(pkg, classPath), k, gs, []);
        AppendEmpty(gs);
      }
      k := k + 1;
    }
    WholePrefix(methods);
    r := Ok(current);
  }

  /** The loop over one class's annotations. */
  method ReadClass(c: JavaClass, app: Option<string>, offers: map<string, PathMap<HttpMethod>>,
                   ghost fs: seq<Finding<HttpMethod>>)
    returns (r: Result<(Option<string>, map<string, PathMap<HttpMethod>>)>)
    requires offers == Group(fs)
    ensures r == Observed(ScanClass(c, Scan(app, fs)))
  {
    ghost var s0 := Scan(app, fs);
    var applicationPath := app;
    var current := offers;
    ghost var gs := fs;
    var k := 0;
    while k < |c.annotations|
      invariant 0 <= k <= |c.annotations|
      invariant FoldR(c.annotations[..k], s0, ClassStepOf(c)) == Ok(Scan(applicationPath, gs))
      invariant current == Group(gs)
    {
      var a := c.annotations[k];
      FoldRSnoc(c.annotations, s0, ClassStepOf(c), k);
      if applicationPath.None? && a.canonicalName == ApplicationPathName {
        if "value" !in a.params {
          FoldRFailedPrefix(c.annotations, s0, ClassStepOf(c), k + 1);
          return Err(NullPointer);
        }
        applicationPath := Some(Text(a.params["value"]));
      } else if a.canonicalName == PathName {
        var classPath := if "value" in a.params then Text(a.params["value"]) else "";
        assert classPath == ValueText(a);
        var next := ReadMethods(c.packageName, classPath, c.methods, current, gs);
        if next.Err? {
          FoldRFailedPrefix(c.annotations, s0, ClassStepOf(c), k + 1);
          return Err(next.error);
        }
        current := next.value;
        gs := gs + PathFindings(c, a).value;
      }
      k := k + 1;
    }
    WholePrefix(c.annotations);
    r := Ok((applicationPath, current));
  }

  /** The loop over the project's classes, from web.xml's application path. */
  method ReadClasses(webXml: Option<string>, classes: seq<JavaClass>)
    returns (r: Result<(Option<string>, map<string, PathMap<HttpMethod>>)>)
    ensures r == Observed(ScanProject(Scan(webXml, []), classes))
  {
    ghost var s0 := Scan(webXml, []);
    var applicationPath := webXml;
    var offers: map<string, PathMap<HttpMethod>> := map[];
    ghost var fs: seq<Finding<HttpMethod>> := [];
    var k := 0;
    while k < |classes|
      invariant 0 <= k <= |classes|
      invariant FoldR(classes[..k], s0, ProjectStep) == Ok(Scan(applicationPath, fs))
      invariant offers == Group(fs)
    {
      FoldRSnoc(classes, s0, ProjectStep, k);
      ghost var before := Scan(applicationPath, fs);
      var next := ReadClass(classes[k], applicationPath, offers, fs);
      if next.Err? {
        FoldRFailedPrefix(classes, s0, ProjectStep, k + 1);
        return Err(next.error);
      }
      applicationPath, offers := next.value.0, next.value.1;
      fs := ScanClass(classes[k], before).value.findings;
      k := k + 1;
    }
    WholePrefix(classes);
    r := Ok((applicationPath, offers));
  }

  /** Moving one more key adds its verbs under its new path. */
  lemma MovedStep(offer: PathMap<HttpMethod>, prefix: Option<string>, done: set<string>, key: string)
    requires key in offer && key !in done
    requires offer[key] != {} ==> NewKey(prefix, key).Ok?
    ensures Moved(offer, prefix, done + {key}) ==
      Moved(offer, prefix, done) +
        (if offer[key] == {} then {} else VerbPairs(NewKey(prefix, key).value, offer[key]))
  {
  }

  /** The pairs of one path with a set of verbs. */
  function VerbPairs(path: string, verbs: set<HttpMethod>): set<(string, HttpMethod)>
  {
    set v | v in verbs :: (path, v)
  }

  lemma VerbPairsStep(path: string, done: set<HttpMethod>, v: HttpMethod)
    ensures VerbPairs(path, done + {v}) == VerbPairs(path, done) + {(path, v)}
  {
  }

  lemma VerbPairsNone(path: string, done: set<HttpMethod>)
    requires done == {}
    ensures VerbPairs(path, done) == {}
  {
  }

  /** The innermost loop: every verb of an entry added under one new path. */
  method AddVerbs(m: PathMap<HttpMethod>, path: string, verbs: set<HttpMethod>) returns (r: PathMap<HttpMethod>)
    ensures r == WithPairs(m, VerbPairs(path, verbs))
  {
    r := m;
    var todo := verbs;
    ghost var done: set<HttpMethod> := {};
    WithNoPairs(m);
    VerbPairsNone(path, done);
    while todo != {}
      invariant todo + done == verbs && todo !! done
      invariant r == WithPairs(m, VerbPairs(path, done))
      decreases |todo|
    {
      var v :| v in todo;
      WithPairsSnoc(m, VerbPairs(path, done), path, v);
      VerbPairsStep(path, done, v);
      r := UnionAt(r, path, {v});
      MoveOne(todo, done, verbs, v);
      done := done + {v};
      todo := todo - {v};
    }
    AllDone(todo, done, verbs);
  }

  lemma MovedNone(offer: PathMap<HttpMethod>, prefix: Option<string>, done: set<string>)
    requires done == {}
    ensures Moved(offer, prefix, done) == {}
  {
  }

  /** The loop over one offer's entries: a new offer with every verb under its new path. */
  method ReadOffer(offer: PathMap<HttpMethod>, prefix: Option<string>) returns (r: Result<PathMap<HttpMethod>>)
    ensures r == RekeyOffer(offer, prefix)
  {
    var newOffer: PathMap<HttpMethod> := map[];
    var todo := offer.Keys;
    ghost var done: set<string> := {};
    WithNoPairs(newOffer);
    MovedNone(offer, prefix, done);
    while todo != {}
      invariant todo + done == offer.Keys && todo !! done
      invariant !RekeyFails(offer, prefix, done)
      invariant newOffer == WithPairs(map[], Moved(offer, prefix, done))
      decreases |todo|
    {
      var key :| key in todo;
      var verbs := offer[key];
      if verbs != {} {
        var newKey := NewKey(prefix, key);
        if newKey.Err? {
          RekeyFailsAt(offer, prefix, key);
          return Err(StringIndexOutOfBounds);
        }
        ReadOfferStep(offer, prefix, done, key, newOffer);
        newOffer := AddVerbs(newOffer, newKey.value, verbs);
      } else {
        ReadOfferStep(offer, prefix, done, key, newOffer);
      }
      RekeyFailsStep(offer, prefix, done, key);
      MoveOne(todo, done, offer.Keys, key);
      done := done + {key};
      todo := todo - {key};
    }
    AllDone(todo, done, offer.Keys);
    r := Ok(newOffer);
  }

  /** One more entry of the offer, moved. */
  lemma ReadOfferStep(offer: PathMap<HttpMethod>, prefix: Option<string>, done: set<string>, key: string,
                      m: PathMap<HttpMethod>)
    requires m == WithPairs(map[], Moved(offer, prefix, done))
    requires key in offer && key !in done
    requires offer[key] != {} ==> NewKey(prefix, key).Ok?
    ensures offer[key] == {} ==> m == WithPairs(map[], Moved(offer, prefix, done + {key}))
    ensures offer[key] != {} ==>
      WithPairs(m, VerbPairs(NewKey(prefix, key).value, offer[key])) == WithPairs(map[], Moved(offer, prefix, done + {key}))
  {
    MovedStep(offer, prefix, done, key);
    if offer[key] != {} {
      WithPairsUnion(map[], Moved(offer, prefix, done), VerbPairs(NewKey(prefix, key).value, offer[key]));
    } else {
      assert Moved(offer, prefix, done + {key}) == Moved(offer, prefix, done);
    }
  }

  lemma RekeyFailsAt(offer: PathMap<HttpMethod>, prefix: Option<string>, key: string)
    requires key in offer && offer[key] != {} && NewKey(prefix, key).Err?
    ensures RekeyOffer(offer, prefix) == Err(StringIndexOutOfBounds)
  {
  }

  lemma RekeyFailsStep(offer: PathMap<HttpMethod>, prefix: Option<string>, done: set<string>, key: string)
    requires !RekeyFails(offer, prefix, done)
    requires key in offer && (offer[key] != {} ==> NewKey(prefix, key).Ok?)
    ensures !RekeyFails(offer, prefix, done + {key})
  {
  }

  /** The rekeyed offers of the packages in done. */
  function Rekeyed(offers: map<string, PathMap<HttpMethod>>, prefix: Option<string>, done: set<string>)
    : map<string, PathMap<HttpMethod>>
    requires forall pkg :: pkg in done ==> pkg in offers && RekeyOffer(offers[pkg], prefix).Ok?
  {
    map pkg | pkg in done :: RekeyOffer(offers[pkg], prefix).value
  }

  lemma RekeyedStep(offers: map<string, PathMap<HttpMethod>>, prefix: Option<string>, done: set<string>, pkg: string)
    requires forall q :: q in done ==> q in offers && RekeyOffer(offers[q], prefix).Ok?
    requires pkg in offers && RekeyOffer(offers[pkg], prefix).Ok?
    ensures Rekeyed(offers, prefix, done)[pkg := RekeyOffer(offers[pkg], prefix).value] == Rekeyed(offers, prefix, done + {pkg})
  {
  }

  /** concatApplicationPathTo's loop over the offers. */
  method ConcatLoop(offers: map<string, PathMap<HttpMethod>>, app: Option<string>)
    returns (r: Result<map<string, PathMap<HttpMethod>>>)
    ensures r == ConcatApplicationPathTo(offers, app)
  {
    var prefix: Option<string> := None;
    if app.Some? {
      var p := FormatBasePath(app.value);
      if p.Err? {
        return Err(p.error);
      }
      prefix := Some(p.value);
    }
    var returnOffers: map<string, PathMap<HttpMethod>> := map[];
    var todo := offers.Keys;
    ghost var done: set<string> := {};
    RekeyedNone(offers, prefix, done);
    while todo != {}
      invariant todo + done == offers.Keys && todo !! done
      invariant forall pkg :: pkg in done ==> pkg in offers && RekeyOffer(offers[pkg], prefix).Ok?
      invariant returnOffers == Rekeyed(offers, prefix, done)
      decreases |todo|
    {
      var pkg :| pkg in todo;
      var newOffer := ReadOffer(offers[pkg], prefix);
      if newOffer.Err? {
        ConcatFailsAt(offers, app, prefix, pkg);
        return Err(newOffer.error);
      }
      RekeyedStep(offers, prefix, done, pkg);
      returnOffers := returnOffers[pkg := newOffer.value];
      MoveOne(todo, done, offers.Keys, pkg);
      done := done + {pkg};
      todo := todo - {pkg};
    }
    AllDone(todo, done, offers.Keys);
    ConcatDone(offers, app, prefix);
    r := Ok(returnOffers);
  }

  lemma RekeyedNone(offers: map<string, PathMap<HttpMethod>>, prefix: Option<string>, done: set<string>)
    requires done == {}
    ensures Rekeyed(offers, prefix, done) == map[]
  {
  }

  lemma ConcatFailsAt(offers: map<string, PathMap<HttpMethod>>, app: Option<string>, prefix: Option<string>, pkg: string)
    requires Prefix(app) == Ok(prefix) && pkg in offers && RekeyOffer(offers[pkg], prefix).Err?
    ensures ConcatApplicationPathTo(offers, app) == Err(RekeyOffer(offers[pkg], prefix).error)
  {
  }

  lemma ConcatDone(offers: map<string, PathMap<HttpMethod>>, app: Option<string>, prefix: Option<string>)
    requires Prefix(app) == Ok(prefix)
    requires forall pkg :: pkg in offers ==> RekeyOffer(offers[pkg], prefix).Ok?
    ensures ConcatApplicationPathTo(offers, app) == Ok(Rekeyed(offers, prefix, offers.Keys))
  {
  }

  /** JAXRSReader.getPathsAndMethods. */
  method GetPathsAndMethods(webXml: Option<string>, contextPath: Option<string>, glassfishPath: Option<string>,
                            classes: seq<JavaClass>)
    returns (r: Result<map<string, PathMap<HttpMethod>>>)
    ensures r == PathsAndMethods(webXml, contextPath, glassfishPath, classes)
  {
    var scan := ReadClasses(webXml, classes);
    if scan.Err? {
      return Err(scan.error);
    }
    var applicationPath, offers := scan.value.0, scan.value.1;
    if contextPath.Some? {
      var base := FormatBasePath(contextPath.value);
      if base.Err? {
        return Err(base.error);
      }
      if applicationPath.None? {
        applicationPath := Some(base.value);
      } else {
        var concat := FormatConcatPath(applicationPath.value);
        if concat.Err? {
          return Err(concat.error);
        }
        applicationPath := Some(base.value + concat.value);
      }
    }
    if glassfishPath.Some? {
      var base := FormatBasePath(glassfishPath.value);
      if base.Err? {
        return Err(base.error);
      }
      if applicationPath.None? {
        return Err(NullPointer);
      }
      var concat := FormatConcatPath(applicationPath.value);
      if concat.Err? {
        return Err(concat.error);
      }
      applicationPath := Some(base.value + concat.value);
    }
    r := ConcatLoop(offers, applicationPath);
  }
}
