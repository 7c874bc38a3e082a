/** reader.JAXRSReader, the older JAX-RS extractor: a flat list of (path, verb name) pairs,
    one per resource method, with the application path (from the last @ApplicationPath
    class annotation, else from web.xml) put verbatim in front of every path. Annotations are
    recognised by their simple name. */
module LegacyJaxrsReader {
  import opened Common
  import opened Http
  import opened JavaModel

  /** A (path, verb name) pair of the result list. */
  type Pair = (string, string)

  /** HTTP_METHODS: the simple names of the verb annotations, GET to OPTIONS. */
  const HttpMethodNames: seq<string> := ["GET", "PUT", "POST", "DELETE", "HEAD", "OPTIONS"]

  predicate IsVerb(a: JavaAnnotation)
  {
    a.simpleName in HttpMethodNames
  }

  /** extractHttpMethod: the HTTP_METHOD_TYPE entry at the annotation's position in
      HTTP_METHODS. The two tables agree on their first six entries, so the verb name is the
      annotation's own name, and PATCH never comes out. */
  function ExtractHttpMethod(annotationClass: string): (r: string)
    requires annotationClass in HttpMethodNames
    ensures r == annotationClass
    ensures r in MethodTypeNames && r != "PATCH"
    ensures ValueOf(r).Some? && ValueOf(r).value != PATCH
  {
    MethodTypeNames[IndexOf(HttpMethodNames, annotationClass)]
  }

  // ---------------------------------------------------------------------------------------
  // getMethodAnnotations

  /** The verb name of the last verb annotation, if any. */
  function LastVerb(annotations: seq<JavaAnnotation>): Option<string>
    decreases |annotations|
  {
    if annotations == [] then None
    else if IsVerb(annotations[|annotations| - 1]) then
      Some(ExtractHttpMethod(annotations[|annotations| - 1].simpleName))
    else LastVerb(annotations[..|annotations| - 1])
  }

  /** The text of an annotation's value, "" without one. */
  function ValueText(a: JavaAnnotation): string
  {
    match Param(a, "value")
    case None => ""
    case Some(v) => Text(v)
  }

  /** What one method annotation appends to the path: "/" and the value of a @Path, nothing
      for a @Path without value or any other annotation. */
  function Appended(a: JavaAnnotation): string
  {
    if IsVerb(a) || a.simpleName != "Path" then ""
    else match Param(a, "value")
      case None => ""
      case Some(v) => "/" + Text(v)
  }

  /** The pair of a method under the class path: the class path followed by what each
      annotation appends, with the last verb; no pair without a verb annotation. */
  function MethodPair(classPath: string, m: JavaMethod): Option<Pair>
  {
    match LastVerb(m.annotations)
    case None => None
    case Some(verb) => Some((classPath + FlatMap(m.annotations, Appended), verb))
  }

  /** LastVerb finds the last verb annotation, and there is none exactly when it finds
      nothing. */
  lemma {:induction false} LastVerbMeaning(annotations: seq<JavaAnnotation>)
    ensures LastVerb(annotations).None? <==> forall i :: 0 <= i < |annotations| ==> !IsVerb(annotations[i])
    ensures LastVerb(annotations).Some? ==>
      exists i :: 0 <= i < |annotations| && IsVerb(annotations[i]) &&
        LastVerb(annotations).value == annotations[i].simpleName &&
        forall j :: i < j < |annotations| ==> !IsVerb(annotations[j])
    decreases |annotations|
  {
    if annotations != [] {
      var n := |annotations| - 1;
      if IsVerb(annotations[n]) {
        assert LastVerb(annotations).value == annotations[n].simpleName;
      } else {
        var init := annotations[..n];
        LastVerbMeaning(init);
        assert forall i :: 0 <= i < n ==> init[i] == annotations[i];
        if LastVerb(init).Some? {
          var i :| 0 <= i < n && IsVerb(init[i]) && LastVerb(init).value == init[i].simpleName &&
            forall j :: i < j < n ==> !IsVerb(init[j]);
          assert forall j :: i < j < |annotations| ==> !IsVerb(annotations[j]);
        }
      }
    }
  }

  /** A method yields a pair exactly when it carries a verb annotation (a method with only a
      @Path yields none); the verb is the name of the last verb annotation and never PATCH,
      and the path is the class path, unnormalised, followed by "/" and the value of each
      method-level @Path, in annotation order. */
  lemma MethodPairMeaning(classPath: string, m: JavaMethod)
    ensures MethodPair(classPath, m).Some? <==> exists i :: 0 <= i < |m.annotations| && IsVerb(m.annotations[i])
    ensures MethodPair(classPath, m).Some? ==>
      var p := MethodPair(classPath, m).value;
      p.0 == classPath + FlatMap(m.annotations, Appended) &&
      p.1 in MethodTypeNames && p.1 != "PATCH" &&
      exists i :: 0 <= i < |m.annotations| && IsVerb(m.annotations[i]) && p.1 == m.annotations[i].simpleName &&
        forall j :: i < j < |m.annotations| ==> !IsVerb(m.annotations[j])
  {
    LastVerbMeaning(m.annotations);
  }

  /** One annotation of the loop in getMethodAnnotations. */
  method ReadAnnotation(path: string, meth: string, a: JavaAnnotation) returns (path': string, meth': string)
    ensures path' == path + Appended(a)
    ensures meth' == if IsVerb(a) then a.simpleName else meth
  {
    path', meth' := path, meth;
    var annotationClass := a.simpleName;
    if annotationClass in HttpMethodNames {
      meth' := ExtractHttpMethod(annotationClass);
    } else if annotationClass == "Path" {
      path' := path + if "value" !in a.params then "" else "/" + Text(a.params["value"]);
    }
  }

  /** The verb name found in a prefix of the annotations, "" before any. */
  function VerbOrEmpty(annotations: seq<JavaAnnotation>): string
  {
    match LastVerb(annotations)
    case None => ""
    case Some(v) => v
  }

  lemma VerbStep(annotations: seq<JavaAnnotation>, k: nat)
    requires k < |annotations|
    ensures VerbOrEmpty(annotations[..k + 1]) ==
      if IsVerb(annotations[k]) then annotations[k].simpleName else VerbOrEmpty(annotations[..k])
  {
    assert annotations[..k + 1][..k] == annotations[..k];
  }

  /** getMethodAnnotations: the loop over a method's annotations. */
  method GetMethodAnnotations(m: JavaMethod, classPath: string) returns (r: Option<Pair>)
    ensures r == MethodPair(classPath, m)
  {
    var path := classPath;
    var meth := "";
    var k := 0;
    while k < |m.annotations|
      invariant 0 <= k <= |m.annotations|
      invariant path == classPath + FlatMap(m.annotations[..k], Appended)
      invariant meth == VerbOrEmpty(m.annotations[..k])
    {
      FlatMapSnoc(m.annotations, Appended, k);
      VerbStep(m.annotations, k);
      AppendAssoc(classPath, FlatMap(m.annotations[..k], Appended), Appended(m.annotations[k]));
      path, meth := ReadAnnotation(path, meth, m.annotations[k]);
      k := k + 1;
    }
    WholePrefix(m.annotations);
    LastVerbMeaning(m.annotations);
    if meth != "" {
      r := Some((path, meth));
    } else {
      r := None;
    }
  }

  // ---------------------------------------------------------------------------------------
  // getPathsAndMethods: the loop over the classes

  /** The pair of a method, as a list of zero or one pairs. */
  function MethodPairsOf(classPath: string): JavaMethod -> seq<Pair>
  {
    (m: JavaMethod) => match MethodPair(classPath, m) case None => [] case Some(p) => [p]
  }

  /** The pairs of a @Path class's methods under its class path, in method order. */
  function MethodPairs(classPath: string, methods: seq<JavaMethod>): seq<Pair>
  {
    FlatMap(methods, MethodPairsOf(classPath))
  }

  /** The application path found so far (null as None) and the pairs added so far. */
  datatype Scan = Scan(app: Option<string>, pairs: seq<Pair>)

  /** One class annotation: an @ApplicationPath overwrites the application path (reading a
      missing value throws); a @Path adds the pairs of all the class's methods; anything
      else is skipped. */
  function ClassStep(c: JavaClass, s: Scan, a: JavaAnnotation): Result<Scan>
  {
    if a.simpleName == "ApplicationPath" then
      match Param(a, "value")
      case None => Err(NullPointer)
      case Some(v) => Ok(s.(app := Some(Text(v))))
    else if a.simpleName == "Path" then
      Ok(s.(pairs := s.pairs + MethodPairs(ValueText(a), c.methods)))
    else Ok(s)
  }

  function ClassStepOf(c: JavaClass): (Scan, JavaAnnotation) -> Result<Scan>
  {
    (s: Scan, a: JavaAnnotation) => ClassStep(c, s, a)
  }

  function ScanClass(c: JavaClass, s0: Scan): Result<Scan>
  {
    FoldR(c.annotations, s0, ClassStepOf(c))
  }

  function ProjectStep(s: Scan, c: JavaClass): Result<Scan>
  {
    ScanClass(c, s)
  }

  function ScanProject(s0: Scan, classes: seq<JavaClass>): Result<Scan>
  {
    FoldR(classes, s0, ProjectStep)
  }

  /** Every pair with the application path in front, verbatim. */
  function Prefixed(app: string, pairs: seq<Pair>): (r: seq<Pair>)
    ensures |r| == |pairs|
    ensures forall i :: 0 <= i < |pairs| ==> r[i] == (app + pairs[i].0, pairs[i].1)
    decreases |pairs|
  {
    if pairs == [] then []
    else
      var init := pairs[..|pairs| - 1];
      var last := pairs[|pairs| - 1];
      assert forall i :: 0 <= i < |init| ==> init[i] == pairs[i];
      Prefixed(app, init) + [(app + last.0, last.1)]
  }

  /** getPathsAndMethods, with readPathFromWebXML's result given as webXml: the pairs of all
      classes, behind the application path of the classes or else of web.xml. */
  function PathsAndMethods(webXml: Option<string>, classes: seq<JavaClass>): Result<seq<Pair>>
  {
    match ScanProject(Scan(None, []), classes)
    case Err(e) => Err(e)
    case Ok(s) =>
      var app := if s.app.Some? then s.app else webXml;
      Ok(if app.Some? then Prefixed(app.value, s.pairs) else s.pairs)
  }

  // ---------------------------------------------------------------------------------------
  // When the scan fails

  /** An @ApplicationPath without value: reading it throws. */
  predicate MissingValue(a: JavaAnnotation)
  {
    a.simpleName == "ApplicationPath" && "value" !in a.params
  }

  function AnnotationCheck(a: JavaAnnotation): Result<seq<Pair>>
  {
    if MissingValue(a) then Err(NullPointer) else Ok([])
  }

  function ClassCheckOf(c: JavaClass): Result<seq<Pair>>
  {
    FlatMapR(c.annotations, AnnotationCheck)
  }

  const ClassCheck: JavaClass -> Result<seq<Pair>> := (c: JavaClass) => ClassCheckOf(c)

  lemma ScanClassFails(c: JavaClass, s0: Scan)
    ensures ScanClass(c, s0).Ok? <==> ClassCheckOf(c).Ok?
    ensures ScanClass(c, s0).Err? ==> ScanClass(c, s0).error == NullPointer
  {
    var inv := (s: Scan) => true;
    FoldRPreserves(c.annotations, s0, ClassStepOf(c), AnnotationCheck, inv);
    FoldRFailsWith(c.annotations, s0, ClassStepOf(c), NullPointer);
  }

  /** getPathsAndMethods throws exactly when some class carries an @ApplicationPath without
      value, and then it is a NullPointerException; nothing else fails. */
  lemma PathsAndMethodsFails(webXml: Option<string>, classes: seq<JavaClass>)
    ensures PathsAndMethods(webXml, classes).Err? <==>
      exists i, j :: 0 <= i < |classes| && 0 <= j < |classes[i].annotations| && MissingValue(classes[i].annotations[j])
    ensures PathsAndMethods(webXml, classes).Err? ==> PathsAndMethods(webXml, classes).error == NullPointer
  {
    var s0 := Scan(None, []);
    var inv := (s: Scan) => true;
    forall s, c | inv(s)
      ensures (ProjectStep(s, c).Ok? <==> ClassCheck(c).Ok?) && (ProjectStep(s, c).Ok? ==> inv(ProjectStep(s, c).value))
    {
      ScanClassFails(c, s);
    }
    FoldRPreserves(classes, s0, ProjectStep, ClassCheck, inv);
    forall s, c | ProjectStep(s, c).Err?
      ensures ProjectStep(s, c).error == NullPointer
    {
      ScanClassFails(c, s);
    }
    FoldRFailsWith(classes, s0, ProjectStep, NullPointer);
    FlatMapROk(classes, ClassCheck);
    forall i | 0 <= i < |classes|
      ensures ClassCheck(classes[i]).Ok? <==>
        forall j :: 0 <= j < |classes[i].annotations| ==> !MissingValue(classes[i].annotations[j])
    {
      FlatMapROk(classes[i].annotations, AnnotationCheck);
    }
  }

  // ---------------------------------------------------------------------------------------
  // The pairs and the application path of a successful scan

  function AnnotationPairs(c: JavaClass): JavaAnnotation -> seq<Pair>
  {
    (a: JavaAnnotation) => if a.simpleName == "Path" then MethodPairs(ValueText(a), c.methods) else []
  }

  /** The pairs of one class: for each @Path annotation, the pairs of all its methods. */
  function ClassPairsOf(c: JavaClass): seq<Pair>
  {
    FlatMap(c.annotations, AnnotationPairs(c))
  }

  const ClassPairs: JavaClass -> seq<Pair> := (c: JavaClass) => ClassPairsOf(c)

  /** What a loop step does to the pairs: append those of the element. */
  function AppendPairs<T>(h: T -> seq<Pair>): (seq<Pair>, T) -> seq<Pair>
  {
    (v: seq<Pair>, x: T) => v + h(x)
  }

  lemma {:induction false} FoldAppendPairs<T>(xs: seq<T>, v0: seq<Pair>, h: T -> seq<Pair>)
    ensures Fold(xs, v0, AppendPairs(h)) == v0 + FlatMap(xs, h)
    decreases |xs|
  {
    if xs != [] {
      var init := xs[..|xs| - 1];
      FoldAppendPairs(init, v0, h);
      AppendAssoc(v0, FlatMap(init, h), h(xs[|xs| - 1]));
    }
  }

  lemma ScanClassPairs(c: JavaClass, s0: Scan)
    requires ScanClass(c, s0).Ok?
    ensures ScanClass(c, s0).value.pairs == s0.pairs + ClassPairsOf(c)
  {
    forall s, a | ClassStepOf(c)(s, a).Ok?
      ensures ClassStepOf(c)(s, a).value.pairs == AppendPairs(AnnotationPairs(c))(s.pairs, a)
    {
      if a.simpleName != "Path" {
        AppendEmpty(s.pairs);
      }
    }
    FoldRProject(c.annotations, s0, ClassStepOf(c), (s: Scan) => s.pairs, AppendPairs(AnnotationPairs(c)));
    FoldAppendPairs(c.annotations, s0.pairs, AnnotationPairs(c));
  }

  /** The scan adds the pairs in class, annotation and method order, without grouping or
      removing duplicates. */
  lemma ScanProjectPairs(s0: Scan, classes: seq<JavaClass>)
    requires ScanProject(s0, classes).Ok?
    ensures ScanProject(s0, classes).value.pairs == s0.pairs + FlatMap(classes, ClassPairs)
  {
    forall s, c | ProjectStep(s, c).Ok?
      ensures ProjectStep(s, c).value.pairs == AppendPairs(ClassPairs)(s.pairs, c)
    {
      ScanClassPairs(c, s);
    }
    FoldRProject(classes, s0, ProjectStep, (s: Scan) => s.pairs, AppendPairs(ClassPairs));
    FoldAppendPairs(classes, s0.pairs, ClassPairs);
  }

  predicate IsApplicationPath(a: JavaAnnotation)
  {
    a.simpleName == "ApplicationPath"
  }

  /** How one annotation changes the application path of a successful scan. */
  function AppAfter(app: Option<string>, a: JavaAnnotation): Option<string>
  {
    if IsApplicationPath(a) then Some(ValueText(a)) else app
  }

  function ClassAppAfter(app: Option<string>, c: JavaClass): Option<string>
  {
    Fold(c.annotations, app, AppAfter)
  }

  function AnnotationsOf(c: JavaClass): seq<JavaAnnotation>
  {
    c.annotations
  }

  /** The annotations of all classes, class by class. */
  function AllAnnotations(classes: seq<JavaClass>): seq<JavaAnnotation>
  {
    FlatMap(classes, AnnotationsOf)
  }

  /** The position of the last @ApplicationPath annotation. */
  function LastApplicationPath(annotations: seq<JavaAnnotation>): (r: Option<nat>)
    ensures r.None? <==> forall i :: 0 <= i < |annotations| ==> !IsApplicationPath(annotations[i])
    ensures r.Some? ==>
      r.value < |annotations| && IsApplicationPath(annotations[r.value]) &&
      (forall j :: r.value < j < |annotations| ==> !IsApplicationPath(annotations[j]))
    decreases |annotations|
  {
    if annotations == [] then None
    else if IsApplicationPath(annotations[|annotations| - 1]) then Some(|annotations| - 1)
    else
      var init := annotations[..|annotations| - 1];
      assert forall i :: 0 <= i < |init| ==> init[i] == annotations[i];
      LastApplicationPath(init)
  }

  /** The last @ApplicationPath supplies the application path; without one it stays. */
  lemma {:induction false} AppAfterLast(annotations: seq<JavaAnnotation>, app: Option<string>)
    ensures Fold(annotations, app, AppAfter) ==
      match LastApplicationPath(annotations)
      case None => app
      case Some(i) => Some(ValueText(annotations[i]))
    decreases |annotations|
  {
    if annotations != [] {
      var init := annotations[..|annotations| - 1];
      AppAfterLast(init, app);
      assert forall i :: 0 <= i < |init| ==> init[i] == annotations[i];
    }
  }

  lemma ScanClassApp(c: JavaClass, s0: Scan)
    requires ScanClass(c, s0).Ok?
    ensures ScanClass(c, s0).value.app == ClassAppAfter(s0.app, c)
  {
    forall s, a | ClassStepOf(c)(s, a).Ok?
      ensures ClassStepOf(c)(s, a).value.app == AppAfter(s.app, a)
    {
    }
    FoldRProject(c.annotations, s0, ClassStepOf(c), (s: Scan) => s.app, AppAfter);
  }

  /** The application path after the scan: the value of the last @ApplicationPath of the
      project, in class order; the starting one without any. */
  lemma ScanProjectApp(s0: Scan, classes: seq<JavaClass>)
    requires ScanProject(s0, classes).Ok?
    ensures ScanProject(s0, classes).value.app ==
      match LastApplicationPath(AllAnnotations(classes))
      case None => s0.app
      case Some(i) => Some(ValueText(AllAnnotations(classes)[i]))
  {
    forall s, c | ProjectStep(s, c).Ok?
      ensures ProjectStep(s, c).value.app == ClassAppAfter(s.app, c)
    {
      ScanClassApp(c, s);
    }
    FoldRProject(classes, s0, ProjectStep, (s: Scan) => s.app, ClassAppAfter);
    FoldFlatMap(classes, AnnotationsOf, s0.app, AppAfter, ClassAppAfter);
    AppAfterLast(AllAnnotations(classes), s0.app);
  }

  /** The application path getPathsAndMethods puts in front: the last class-level
      @ApplicationPath takes precedence over web.xml. */
  function UsedApplicationPath(webXml: Option<string>, classes: seq<JavaClass>): Option<string>
  {
    match LastApplicationPath(AllAnnotations(classes))
    case None => webXml
    case Some(i) => Some(ValueText(AllAnnotations(classes)[i]))
  }

  /** A successful getPathsAndMethods returns the pairs of every class in order, each with
      the application path put verbatim in front (count and order kept), or unchanged when
      neither the classes nor web.xml give an application path. */
  lemma PathsAndMethodsContent(webXml: Option<string>, classes: seq<JavaClass>)
    requires PathsAndMethods(webXml, classes).Ok?
    ensures var pairs := FlatMap(classes, ClassPairs);
      var app := UsedApplicationPath(webXml, classes);
      PathsAndMethods(webXml, classes).value == if app.Some? then Prefixed(app.value, pairs) else pairs
  {
    var s0 := Scan(None, []);
    ScanProjectPairs(s0, classes);
    ScanProjectApp(s0, classes);
    AppendEmpty(FlatMap(classes, ClassPairs));
  }

  // ---------------------------------------------------------------------------------------
  // The loops of getPathsAndMethods

  /** The loop over a @Path class's methods, appending each method's pair. */
  method ReadMethods(classPath: string, methods: seq<JavaMethod>, pairs: seq<Pair>) returns (r: seq<Pair>)
    ensures r == pairs + MethodPairs(classPath, methods)
  {
    r := pairs;
    AppendEmpty(pairs);
    var k := 0;
    while k < |methods|
      invariant 0 <= k <= |methods|
      invariant r == pairs + FlatMap(methods[..k], MethodPairsOf(classPath))
    {
      FlatMapSnoc(methods, MethodPairsOf(classPath), k);
      AppendAssoc(pairs, FlatMap(methods[..k], MethodPairsOf(classPath)), MethodPairsOf(classPath)(methods[k]));
      var methodPair := GetMethodAnnotations(methods[k], classPath);
      if methodPair.Some? {
        r := r + [methodPair.value];
      } else {
        AppendEmpty(r);
      }
      k := k + 1;
    }
    WholePrefix(methods);
  }

  /** The loop over one class's annotations. */
  method ReadClass(c: JavaClass, app: Option<string>, pairs: seq<Pair>) returns (r: Result<Scan>)
    ensures r == ScanClass(c, Scan(app, pairs))
  {
    ghost var s0 := Scan(app, pairs);
    var applicationPath := app;
    var paths := pairs;
    var k := 0;
    while k < |c.annotations|
      invariant 0 <= k <= |c.annotations|
      invariant FoldR(c.annotations[..k], s0, ClassStepOf(c)) == Ok(Scan(applicationPath, paths))
    {
      var a := c.annotations[k];
      FoldRSnoc(c.annotations, s0, ClassStepOf(c), k);
      if a.simpleName == "ApplicationPath" {
        if "value" !in a.params {
          FoldRFailedPrefix(c.annotations, s0, ClassStepOf(c), k + 1);
          return Err(NullPointer);
        }
        applicationPath := Some(Text(a.params["value"]));
      } else if a.simpleName == "Path" {
        var classPath := if "value" !in a.params then "" else Text(a.params["value"]);
        assert classPath == ValueText(a);
        paths := ReadMethods(classPath, c.methods, paths);
      }
      k := k + 1;
    }
    WholePrefix(c.annotations);
    r := Ok(Scan(applicationPath, paths));
  }

  /** The loop over the project's classes. */
  method ReadClasses(classes: seq<JavaClass>) returns (r: Result<Scan>)
    ensures r == ScanProject(Scan(None, []), classes)
  {
    ghost var s0 := Scan(None, []);
    var s := Scan(None, []);
    var k := 0;
    while k < |classes|
      invariant 0 <= k <= |classes|
      invariant FoldR(classes[..k], s0, ProjectStep) == Ok(s)
    {
      FoldRSnoc(classes, s0, ProjectStep, k);
      var next := ReadClass(classes[k], s.app, s.pairs);
      if next.Err? {
        FoldRFailedPrefix(classes, s0, ProjectStep, k + 1);
        return Err(next.error);
      }
      s := next.value;
      k := k + 1;
    }
    WholePrefix(classes);
    r := Ok(s);
  }

  /** The loop that builds returnPaths: each pair with the application path in front. */
  method PrefixPaths(applicationPath: string, paths: seq<Pair>) returns (r: seq<Pair>)
    ensures r == Prefixed(applicationPath, paths)
  {
    r := [];
    var k := 0;
    while k < |paths|
      invariant 0 <= k <= |paths|
      invariant |r| == k
      invariant forall i :: 0 <= i < k ==> r[i] == (applicationPath + paths[i].0, paths[i].1)
    {
      r := r + [(applicationPath + paths[k].0, paths[k].1)];
      k := k + 1;
    }
  }

  /** getPathsAndMethods, with the application path of web.xml given as webXml. */
  method GetPathsAndMethods(webXml: Option<string>, classes: seq<JavaClass>) returns (r: Result<seq<Pair>>)
    ensures r == PathsAndMethods(webXml, classes)
  {
    var scan := ReadClasses(classes);
    if scan.Err? {
      return Err(scan.error);
    }
    var applicationPath := scan.value.app;
    if applicationPath.None? {
      applicationPath := webXml;
    }
    if applicationPath.Some? {
      var returnPaths := PrefixPaths(applicationPath.value, scan.value.pairs);
      return Ok(returnPaths);
    }
    r := Ok(scan.value.pairs);
  }
}
