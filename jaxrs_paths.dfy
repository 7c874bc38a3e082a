/** The path helpers of reader.impl.api.JAXRSReader: formatConcatPath, formatBasePath,
    extractHttpMethod, setTypeInPath and getMethodAnnotations. */
module JaxrsPaths {
  import opened Common
  import opened Strings
  import opened Http
  import opened JavaModel
  import SpringMapping

  /** HTTP_METHODS: the verb annotations, by canonical name; PATCH has none. */
  const HttpMethodNames: seq<string> := ["javax.ws.rs.GET", "javax.ws.rs.PUT", "javax.ws.rs.POST",
    "javax.ws.rs.DELETE", "javax.ws.rs.HEAD", "javax.ws.rs.OPTIONS"]

  const PathName: string := "javax.ws.rs.Path"

  /** javax.ws.rs.PathParam in upper case: equalsIgnoreCase compares upper-cased forms. */
  const PathParamUpper: string := "JAVAX.WS.RS.PATHPARAM"

  // ---------------------------------------------------------------------------------------
  // formatConcatPath, formatBasePath

  /** Trimmed, then every '"' removed (in that order, so blanks inside quotes survive). */
  function Unquoted(s: string): (r: string)
    ensures '"' !in r
  {
    RemoveChar(Trim(s), '"')
  }

  /** What startWithEndsWithoutSlash's cut leaves: the characters of its input and '/',
      and a leading '/' unless nothing is left ("//" is cut to ""). */
  lemma CutSlashShape(t: string)
    requires SpringMapping.CutSlash(t).Ok?
    ensures var r := SpringMapping.CutSlash(t).value;
      (forall x :: x in r ==> x in t || x == '/') && (r == "" || r[0] == '/')
  {
    var u := if StartsWith(t, "/") then t else "/" + t;
    assert forall x :: x in u ==> x in t || x == '/';
    if EndsWith(u, '/') {
      assert SpringMapping.CutSlash(t).value == u[..|u| - 2];
    }
  }

  /** formatConcatPath: unquoted, a '/' put in front when missing, and on a trailing '/'
      cut with substring(0, length - 2), which throws below two characters. */
  function FormatConcatPath(s: string): (r: Result<string>)
    ensures r.Err? <==> Unquoted(s) == "" || Unquoted(s) == "/"
    ensures r.Err? ==> r.error == StringIndexOutOfBounds
    ensures r.Ok? ==> '"' !in r.value && (r.value == "" || r.value[0] == '/')
  {
    var t := Unquoted(s);
    var r := SpringMapping.CutSlash(t);
    if r.Ok? then
      CutSlashShape(t);
      r
    else r
  }

  /** formatBasePath: like formatConcatPath, but a trailing '*' is first cut with
      substring(0, length - 2) as well, dropping the slash-and-star wildcard suffix of a
      servlet url-pattern. */
  function FormatBasePath(s: string): (r: Result<string>)
    ensures r.Err? ==> r.error == StringIndexOutOfBounds
  {
    var t := Unquoted(s);
    if EndsWith(t, '*') then
      if |t| >= 2 then SpringMapping.CutSlash(t[..|t| - 2]) else Err(StringIndexOutOfBounds)
    else SpringMapping.CutSlash(t)
  }

  /** Without a trailing '*', formatBasePath is formatConcatPath. */
  lemma FormatBasePathWithoutStar(s: string)
    requires !EndsWith(Unquoted(s), '*')
    ensures FormatBasePath(s) == FormatConcatPath(s)
  {
  }

  /** A url-pattern "p/" followed by a star, for a path p in form, becomes p. */
  lemma FormatBasePathWildcard(s: string, p: string)
    requires Unquoted(s) == p + ['/', '*']
    requires p != "" && p[0] == '/' && !EndsWith(p, '/')
    ensures FormatBasePath(s) == Ok(p)
  {
    var t := Unquoted(s);
    assert t[..|t| - 2] == p;
    assert StartsWith(p, "/");
  }

  /** The bare wildcard, a slash and a star, makes formatBasePath throw. */
  lemma FormatBasePathBareWildcard(s: string)
    requires Unquoted(s) == ['/', '*']
    ensures FormatBasePath(s) == Err(StringIndexOutOfBounds)
  {
    var t := Unquoted(s);
    assert t[..|t| - 2] == "";
  }

  /** A star after anything but a slash takes the character before it along: "/rest*"
      becomes "/res". */
  lemma FormatBasePathStarDropsTwo(s: string)
    requires var t := Unquoted(s);
      |t| >= 3 && t[0] == '/' && t[|t| - 1] == '*' && t[|t| - 2] != '/' && t[|t| - 3] != '/'
    ensures FormatBasePath(s) == Ok(Unquoted(s)[..|Unquoted(s)| - 2])
  {
    var t := Unquoted(s);
    assert StartsWith(t[..|t| - 2], "/");
  }

  /** A trailing '/' takes the character before it along: "/api/" becomes "/ap". */
  lemma FormatConcatPathDropsTwo(s: string)
    requires var t := Unquoted(s); |t| >= 2 && t[0] == '/' && t[|t| - 1] == '/'
    ensures FormatConcatPath(s) == Ok(Unquoted(s)[..|Unquoted(s)| - 2])
  {
    assert StartsWith(Unquoted(s), "/");
  }

  /** So a result may still end with '/', against the method's documented promise:
      "/a/b/" becomes "/a/". */
  lemma FormatConcatPathMayEndWithSlash(s: string)
    requires var t := Unquoted(s); |t| >= 3 && t[0] == '/' && t[|t| - 1] == '/' && t[|t| - 3] == '/'
    ensures FormatConcatPath(s).Ok? && EndsWith(FormatConcatPath(s).value, '/')
  {
    FormatConcatPathDropsTwo(s);
  }

  // ---------------------------------------------------------------------------------------
  // extractHttpMethod

  /** extractHttpMethod: the verb at the annotation's position in HTTP_METHODS. */
  function ExtractHttpMethod(name: string): (m: HttpMethod)
    requires name in HttpMethodNames
    ensures m != PATCH && Ordinal(m) < |HttpMethodNames| && HttpMethodNames[Ordinal(m)] == name
  {
    var i := IndexOf(HttpMethodNames, name);
    assert Ordinal(Values[i]) == i;
    Values[i]
  }

  /** Each verb but PATCH is extracted from its own annotation. */
  lemma ExtractHttpMethodOnto(m: HttpMethod)
    requires m != PATCH
    ensures Ordinal(m) < |HttpMethodNames| && ExtractHttpMethod(HttpMethodNames[Ordinal(m)]) == m
  {
  }

  // ---------------------------------------------------------------------------------------
  // setTypeInPath, removeRegularExpressionsFromPath

  /** The parameter annotation's type equals PathParam ignoring case. */
  predicate IsPathParam(a: JavaAnnotation)
  {
    ToUpper(a.canonicalName) == PathParamUpper
  }

  /** The variable a @PathParam names: its value, else the parameter's own name, without
      quotes. */
  function ParamName(p: JavaParameter, a: JavaAnnotation): string
  {
    var name := match Param(a, "value") case Some(v) => Text(v) case None => p.name;
    RemoveChar(name, '"')
  }

  /** One annotation of one parameter: its placeholder is looked for in the ORIGINAL path,
      but replaced in the stripped one. */
  function TypeParam(path: string, newPath: string, p: JavaParameter, a: JavaAnnotation): string
  {
    var placeholder := SpringMapping.Placeholder(ParamName(p, a));
    if IsPathParam(a) && Contains(path, placeholder) then
      Replace(newPath, placeholder, SpringMapping.TypePlaceholder(p))
    else newPath
  }

  function TypeParamAnnotations(path: string, newPath: string, p: JavaParameter, annotations: seq<JavaAnnotation>): string
    decreases |annotations|
  {
    if annotations == [] then newPath
    else TypeParam(path, TypeParamAnnotations(path, newPath, p, annotations[..|annotations| - 1]), p,
      annotations[|annotations| - 1])
  }

  function TypeParams(path: string, newPath: string, params: seq<JavaParameter>): string
    decreases |params|
  {
    if params == [] then newPath
    else
      var p := params[|params| - 1];
      TypeParamAnnotations(path, TypeParams(path, newPath, params[..|params| - 1]), p, p.annotations)
  }

  /** setTypeInPath: the path stripped of its regular-expression constraints, with each
      @PathParam placeholder that occurs in the unstripped path replaced by its type. */
  function TypedPath(params: seq<JavaParameter>, path: string): string
  {
    TypeParams(path, RemoveRegularExpressions(path), params)
  }

  /** No placeholder of a @PathParam parameter occurs in the unstripped path. */
  predicate NoPlaceholderIn(path: string, params: seq<JavaParameter>)
  {
    forall i, j :: 0 <= i < |params| && 0 <= j < |params[i].annotations| && IsPathParam(params[i].annotations[j]) ==>
      !Contains(path, SpringMapping.Placeholder(ParamName(params[i], params[i].annotations[j])))
  }

  /** Then the path is only stripped; in particular a constrained variable "{id:[0-9]+}"
      becomes "{id}" and stays untyped. */
  lemma TypedPathOnlyStrips(params: seq<JavaParameter>, path: string)
    requires NoPlaceholderIn(path, params)
    ensures TypedPath(params, path) == RemoveRegularExpressions(path)
  {
    TypeParamsUnchanged(path, RemoveRegularExpressions(path), params);
  }

  lemma {:induction false} TypeParamsUnchanged(path: string, newPath: string, params: seq<JavaParameter>)
    requires NoPlaceholderIn(path, params)
    ensures TypeParams(path, newPath, params) == newPath
    decreases |params|
  {
    if params != [] {
      var init := params[..|params| - 1];
      assert NoPlaceholderIn(path, init) by {
        forall i, j | 0 <= i < |init| && 0 <= j < |init[i].annotations| && IsPathParam(init[i].annotations[j])
          ensures !Contains(path, SpringMapping.Placeholder(ParamName(init[i], init[i].annotations[j])))
        {
          assert init[i] == params[i];
        }
      }
      TypeParamsUnchanged(path, newPath, init);
      var p := params[|params| - 1];
      TypeParamAnnotationsUnchanged(path, newPath, p, p.annotations);
    }
  }

  lemma {:induction false} TypeParamAnnotationsUnchanged(path: string, newPath: string, p: JavaParameter, annotations: seq<JavaAnnotation>)
    requires forall j :: 0 <= j < |annotations| && IsPathParam(annotations[j]) ==>
      !Contains(path, SpringMapping.Placeholder(ParamName(p, annotations[j])))
    ensures TypeParamAnnotations(path, newPath, p, annotations) == newPath
    decreases |annotations|
  {
    if annotations != [] {
      TypeParamAnnotationsUnchanged(path, newPath, p, annotations[..|annotations| - 1]);
    }
  }

  /** The witness of that defect: "{a:b}" does not contain "{a}", yet stripping it yields
      exactly "{a}", so a @PathParam("a") parameter is never typed. */
  lemma ConstrainedPlaceholder()
    ensures !Contains("{a:b}", "{a}")
    ensures RemoveRegularExpressions("{a:b}") == "{a}"
  {
    var s := "{a:b}";
    assert s[1..] == "a:b}" && s[2..] == ":b}" && s[3..] == "b}" && s[4..] == "}" && s[5..] == "";
    assert FirstIndex(s[2..], '}') == 2;
    assert RemoveRegularExpressions(s[2..]) == "}";
  }

  /** A single @PathParam parameter whose placeholder occurs in the unstripped path has every
      occurrence in the stripped path replaced by its type. */
  lemma TypedPathSingle(p: JavaParameter, path: string)
    requires |p.annotations| == 1 && IsPathParam(p.annotations[0])
    requires Contains(path, SpringMapping.Placeholder(ParamName(p, p.annotations[0])))
    ensures TypedPath([p], path) == Replace(RemoveRegularExpressions(path),
      SpringMapping.Placeholder(ParamName(p, p.annotations[0])), SpringMapping.TypePlaceholder(p))
  {
    var stripped := RemoveRegularExpressions(path);
    assert [p][..0] == [];
    assert p.annotations[..0] == [];
    assert TypeParams(path, stripped, [p]) == TypeParamAnnotations(path, stripped, p, p.annotations);
  }

  /** The inner loop of setTypeInPath, over one parameter's annotations. */
  method TypeParameter(path: string, newPath: string, p: JavaParameter) returns (r: string)
    ensures r == TypeParamAnnotations(path, newPath, p, p.annotations)
  {
    r := newPath;
    var j := 0;
    while j < |p.annotations|
      invariant 0 <= j <= |p.annotations|
      invariant r == TypeParamAnnotations(path, newPath, p, p.annotations[..j])
    {
      assert p.annotations[..j + 1][..j] == p.annotations[..j];
      var a := p.annotations[j];
      if ToUpper(a.canonicalName) == PathParamUpper {
        var name := if "value" in a.params then Text(a.params["value"]) else p.name;
        name := RemoveChar(name, '"');
        if Contains(path, "{" + name + "}") {
          r := Replace(r, "{" + name + "}", "{" + ToUpper(p.typeName) + "}");
        }
      }
      j := j + 1;
    }
    assert p.annotations[..j] == p.annotations;
  }

  method SetTypeInPath(params: seq<JavaParameter>, path: string) returns (newPath: string)
    ensures newPath == TypedPath(params, path)
  {
    newPath := RemoveRegularExpressions(path);
    var k := 0;
    while k < |params|
      invariant 0 <= k <= |params|
      invariant newPath == TypeParams(path, RemoveRegularExpressions(path), params[..k])
    {
      assert params[..k + 1][..k] == params[..k];
      newPath := TypeParameter(path, newPath, params[k]);
      k := k + 1;
    }
    assert params[..k] == params;
  }

  // ---------------------------------------------------------------------------------------
  // getMethodAnnotations

  /** What a method-level @Path appends: its formatted value, nothing without a value. */
  function PathPart(a: JavaAnnotation): Result<string>
  {
    match Param(a, "value")
    case None => Ok("")
    case Some(v) => FormatConcatPath(Text(v))
  }

  /** The state getMethodAnnotations keeps while it reads a method's annotations. */
  datatype MethodScan = MethodScan(path: string, verb: Option<HttpMethod>)

  /** One method annotation: a verb annotation sets the verb, so the last one wins; a @Path
      appends its part and the whole path is typed again. */
  function ScanStep(m: JavaMethod, s: MethodScan, a: JavaAnnotation): Result<MethodScan>
  {
    if a.canonicalName in HttpMethodNames then Ok(s.(verb := Some(ExtractHttpMethod(a.canonicalName))))
    else if a.canonicalName == PathName then
      match PathPart(a)
      case Err(e) => Err(e)
      case Ok(x) => Ok(s.(path := TypedPath(m.parameters, s.path + x)))
    else Ok(s)
  }

  function ScanAnnotations(m: JavaMethod, s0: MethodScan, annotations: seq<JavaAnnotation>): Result<MethodScan>
    decreases |annotations|
  {
    if annotations == [] then Ok(s0)
    else match ScanAnnotations(m, s0, annotations[..|annotations| - 1])
      case Err(e) => Err(e)
      case Ok(s) => ScanStep(m, s, annotations[|annotations| - 1])
  }

  /** getMethodAnnotations: the path starts as the formatted class path; the pair is
      returned only when the method carries a verb annotation. */
  function MethodPair(classPath: string, m: JavaMethod): Result<Option<SpringMapping.Endpoint>>
  {
    match FormatConcatPath(classPath)
    case Err(e) => Err(e)
    case Ok(p) =>
      match ScanAnnotations(m, MethodScan(p, None), m.annotations)
      case Err(e) => Err(e)
      case Ok(s) => Ok(if s.verb.Some? then Some((s.path, s.verb.value)) else None)
  }

  /** The position of the verb annotation that decides the verb: the last one. */
  function LastVerb(annotations: seq<JavaAnnotation>): (r: Option<nat>)
    ensures r.None? <==> forall i :: 0 <= i < |annotations| ==> annotations[i].canonicalName !in HttpMethodNames
    ensures r.Some? ==>
      r.value < |annotations| && annotations[r.value].canonicalName in HttpMethodNames &&
      (forall j :: r.value < j < |annotations| ==> annotations[j].canonicalName !in HttpMethodNames)
    decreases |annotations|
  {
    if annotations == [] then None
    else if annotations[|annotations| - 1].canonicalName in HttpMethodNames then Some(|annotations| - 1)
    else
      var init := annotations[..|annotations| - 1];
      assert forall i :: 0 <= i < |init| ==> init[i] == annotations[i];
      LastVerb(init)
  }

  /** The verb the scan ends with, starting from verb. */
  function VerbAfter(verb: Option<HttpMethod>, annotations: seq<JavaAnnotation>): Option<HttpMethod>
  {
    match LastVerb(annotations)
    case None => verb
    case Some(i) => Some(ExtractHttpMethod(annotations[i].canonicalName))
  }

  /** A @Path whose value cannot be formatted. */
  predicate BadPath(a: JavaAnnotation)
  {
    a.canonicalName == PathName && PathPart(a).Err?
  }

  /** What one annotation does to the scan. */
  lemma ScanStepFacts(m: JavaMethod, s: MethodScan, a: JavaAnnotation)
    ensures ScanStep(m, s, a).Err? <==> BadPath(a)
    ensures ScanStep(m, s, a).Err? ==> ScanStep(m, s, a).error == StringIndexOutOfBounds
    ensures ScanStep(m, s, a).Ok? ==>
      (ScanStep(m, s, a).value.verb == if a.canonicalName in HttpMethodNames then Some(ExtractHttpMethod(a.canonicalName)) else s.verb)
  {
    assert PathName !in HttpMethodNames;
  }

  /** The scan of annotations + [a] is one step after that of annotations. */
  lemma ScanSnoc(m: JavaMethod, s0: MethodScan, annotations: seq<JavaAnnotation>, a: JavaAnnotation)
    ensures ScanAnnotations(m, s0, annotations + [a]) ==
      match ScanAnnotations(m, s0, annotations)
      case Err(e) => Err(e)
      case Ok(s) => ScanStep(m, s, a)
  {
    assert (annotations + [a])[..|annotations|] == annotations;
  }

  /** The scan fails exactly at a @Path annotation whose value formatConcatPath rejects. */
  lemma {:induction false} ScanFails(m: JavaMethod, s0: MethodScan, annotations: seq<JavaAnnotation>)
    ensures ScanAnnotations(m, s0, annotations).Err? <==>
      exists i :: 0 <= i < |annotations| && BadPath(annotations[i])
    ensures ScanAnnotations(m, s0, annotations).Err? ==>
      ScanAnnotations(m, s0, annotations).error == StringIndexOutOfBounds
    decreases |annotations|
  {
    if annotations != [] {
      var init, a := annotations[..|annotations| - 1], annotations[|annotations| - 1];
      assert annotations == init + [a];
      ScanFails(m, s0, init);
      ScanSnoc(m, s0, init, a);
      if ScanAnnotations(m, s0, init).Ok? {
        ScanStepFacts(m, ScanAnnotations(m, s0, init).value, a);
      }
      assert forall i :: 0 <= i < |init| ==> init[i] == annotations[i];
    }
  }

  /** A successful scan ends with the verb of the last verb annotation. */
  lemma {:induction false} ScanVerb(m: JavaMethod, s0: MethodScan, annotations: seq<JavaAnnotation>)
    requires ScanAnnotations(m, s0, annotations).Ok?
    ensures ScanAnnotations(m, s0, annotations).value.verb == VerbAfter(s0.verb, annotations)
    decreases |annotations|
  {
    if annotations != [] {
      var init, a := annotations[..|annotations| - 1], annotations[|annotations| - 1];
      ScanVerb(m, s0, init);
      ScanStepFacts(m, ScanAnnotations(m, s0, init).value, a);
      if a.canonicalName !in HttpMethodNames {
        assert LastVerb(annotations) == LastVerb(init);
      }
    }
  }

  /** A pair is returned exactly when the method carries a verb annotation; its verb is
      that of the last one and never PATCH. The method fails exactly when the class path or
      one of its @Path values cannot be formatted. */
  lemma MethodPairMeaning(classPath: string, m: JavaMethod)
    ensures MethodPair(classPath, m).Ok? <==>
      FormatConcatPath(classPath).Ok? && forall i :: 0 <= i < |m.annotations| ==> !BadPath(m.annotations[i])
    ensures MethodPair(classPath, m).Err? ==> MethodPair(classPath, m).error == StringIndexOutOfBounds
    ensures MethodPair(classPath, m).Ok? ==>
      (MethodPair(classPath, m).value.Some? <==> LastVerb(m.annotations).Some?)
    ensures MethodPair(classPath, m).Ok? && MethodPair(classPath, m).value.Some? ==>
      MethodPair(classPath, m).value.value.1 == ExtractHttpMethod(m.annotations[LastVerb(m.annotations).value].canonicalName) &&
      MethodPair(classPath, m).value.value.1 != PATCH
  {
    if FormatConcatPath(classPath).Ok? {
      var s0 := MethodScan(FormatConcatPath(classPath).value, None);
      ScanFails(m, s0, m.annotations);
      if ScanAnnotations(m, s0, m.annotations).Ok? {
        ScanVerb(m, s0, m.annotations);
      }
    }
  }

  /** What every annotation appends to the path: a @Path its part, any other nothing. */
  function Appended(a: JavaAnnotation): Result<string>
  {
    if a.canonicalName == PathName then PathPart(a) else Ok("")
  }

  /** No parameter carries a @PathParam annotation. */
  predicate NoPathParams(params: seq<JavaParameter>)
  {
    forall i, j :: 0 <= i < |params| && 0 <= j < |params[i].annotations| ==> !IsPathParam(params[i].annotations[j])
  }

  /** One annotation, without placeholders and constraints: the path grows by its part. */
  lemma ScanPathStep(m: JavaMethod, s: MethodScan, a: JavaAnnotation, added: string)
    requires NoPathParams(m.parameters) && Appended(a) == Ok(added) && NoConstraint(s.path + added)
    ensures ScanStep(m, s, a) == Ok(s.(path := s.path + added, verb := ScanStep(m, s, a).value.verb))
  {
    assert PathName !in HttpMethodNames;
    if a.canonicalName in HttpMethodNames {
      assert added == "";
      assert s.path + added == s.path;
    } else if a.canonicalName == PathName {
      TypedPathOnlyStrips(m.parameters, s.path + added);
      RemoveRegularExpressionsFixed(s.path + added);
    } else {
      assert s.path + added == s.path;
    }
  }

  /** Without @PathParam parameters and regular-expression constraints, the path is the
      formatted class path followed by the formatted @Path values, in annotation order. */
  lemma {:induction false} ScanPath(m: JavaMethod, s0: MethodScan, annotations: seq<JavaAnnotation>)
    requires NoPathParams(m.parameters)
    requires FlatMapR(annotations, Appended).Ok?
    requires NoConstraint(s0.path + FlatMapR(annotations, Appended).value)
    ensures ScanAnnotations(m, s0, annotations).Ok?
    ensures ScanAnnotations(m, s0, annotations).value.path == s0.path + FlatMapR(annotations, Appended).value
    decreases |annotations|
  {
    if annotations != [] {
      var init, a := annotations[..|annotations| - 1], annotations[|annotations| - 1];
      var before, added := FlatMapR(init, Appended).value, Appended(a).value;
      assert FlatMapR(annotations, Appended).value == before + added;
      assert s0.path + (before + added) == (s0.path + before) + added;
      NoConstraintPrefix(s0.path + before, added);
      ScanPath(m, s0, init);
      ScanPathStep(m, ScanAnnotations(m, s0, init).value, a, added);
    }
  }

  lemma NoConstraintPrefix(s: string, t: string)
    requires NoConstraint(s + t)
    ensures NoConstraint(s)
  {
    forall i, j | 0 <= i < j < |s| && s[i] == ':' ensures s[j] != '}' {
      assert (s + t)[i] == s[i] && (s + t)[j] == s[j];
    }
  }

  /** The scan of the first k + 1 annotations is one step after that of the first k. */
  lemma ScanPrefixSnoc(m: JavaMethod, s0: MethodScan, annotations: seq<JavaAnnotation>, k: nat)
    requires k < |annotations|
    ensures ScanAnnotations(m, s0, annotations[..k + 1]) ==
      match ScanAnnotations(m, s0, annotations[..k])
      case Err(e) => Err(e)
      case Ok(s) => ScanStep(m, s, annotations[k])
  {
    assert annotations[..k + 1] == annotations[..k] + [annotations[k]];
    ScanSnoc(m, s0, annotations[..k], annotations[k]);
  }

  /** Once a prefix of the annotations has failed, the scan fails with the same error. */
  lemma {:induction false} ScanFailedPrefix(m: JavaMethod, s0: MethodScan, annotations: seq<JavaAnnotation>, k: nat)
    requires k <= |annotations| && ScanAnnotations(m, s0, annotations[..k]).Err?
    ensures ScanAnnotations(m, s0, annotations) == ScanAnnotations(m, s0, annotations[..k])
    decreases |annotations| - k
  {
    if k < |annotations| {
      ScanPrefixSnoc(m, s0, annotations, k);
      ScanFailedPrefix(m, s0, annotations, k + 1);
    } else {
      assert annotations[..k] == annotations;
    }
  }

  /** The body of getMethodAnnotations' loop, for one annotation. */
  method ReadAnnotation(m: JavaMethod, path: string, meth: Option<HttpMethod>, a: JavaAnnotation)
    returns (r: Result<MethodScan>)
    ensures r == ScanStep(m, MethodScan(path, meth), a)
  {
    if a.canonicalName in HttpMethodNames {
      r := Ok(MethodScan(path, Some(ExtractHttpMethod(a.canonicalName))));
    } else if a.canonicalName == PathName {
      var part := if "value" in a.params then FormatConcatPath(Text(a.params["value"])) else Ok("");
      assert part == PathPart(a);
      if part.Err? {
        return Err(part.error);
      }
      var newPath := SetTypeInPath(m.parameters, path + part.value);
      r := Ok(MethodScan(newPath, meth));
    } else {
      r := Ok(MethodScan(path, meth));
    }
  }

  /** getMethodAnnotations' loop over the method's annotations, from the formatted class
      path. */
  method ReadAnnotations(m: JavaMethod, start: string) returns (r: Result<MethodScan>)
    ensures r == ScanAnnotations(m, MethodScan(start, None), m.annotations)
  {
    ghost var s0 := MethodScan(start, None);
    var path := start;
    var meth: Option<HttpMethod> := None;
    var k := 0;
    while k < |m.annotations|
      invariant 0 <= k <= |m.annotations|
      invariant ScanAnnotations(m, s0, m.annotations[..k]) == Ok(MethodScan(path, meth))
    {
      var a := m.annotations[k];
      ScanPrefixSnoc(m, s0, m.annotations, k);
      var step := ReadAnnotation(m, path, meth, a);
      if step.Err? {
        ScanFailedPrefix(m, s0, m.annotations, k + 1);
        return Err(step.error);
      }
      path, meth := step.value.path, step.value.verb;
      k := k + 1;
    }
    assert m.annotations[..k] == m.annotations;
    r := Ok(MethodScan(path, meth));
  }

  /** JAXRSReader.getMethodAnnotations: the pair is returned when a verb was found. */
  method GetMethodAnnotations(m: JavaMethod, classPath: string) returns (r: Result<Option<SpringMapping.Endpoint>>)
    ensures r == MethodPair(classPath, m)
  {
    var start := FormatConcatPath(classPath);
    if start.Err? {
      return Err(start.error);
    }
    var scan := ReadAnnotations(m, start.value);
    if scan.Err? {
      return Err(scan.error);
    }
    if scan.value.verb.Some? {
      r := Ok(Some((scan.value.path, scan.value.verb.value)));
    } else {
      r := Ok(None);
    }
  }
}
