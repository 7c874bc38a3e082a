/** The mapping-annotation logic the two Spring readers share. The newer reader
    (reader.impl.api.SPRINGReader) compares canonical type names and types path variables;
    the older one (reader.SPRINGReader) compares simple type names and leaves paths as found. */
module SpringMapping {
  import opened Common
  import opened Strings
  import opened Http
  import opened JavaModel

  /** A Pair<String, HttpMethods> as getMapping returns it: the verb may be null. */
  type Mapping = (string, Option<HttpMethod>)

  /** A found endpoint: a path and a verb, never null. */
  type Endpoint = (string, HttpMethod)

  /** Which name of an annotation type a reader compares with its tables. */
  datatype Naming = Canonical | Simple

  /** The name tables of one reader: RequestMapping's name, HTTP_METHODS_MAPPING and
      CONTROLLER_ANNOTATIONS. */
  datatype Tables = Tables(
    naming: Naming,
    requestMapping: string,
    verbMappings: seq<Option<string>>,
    controllers: seq<string>)

  /** HTTP_METHODS_MAPPING is aligned with HttpMethods.values(): HEAD has a null entry and
      OPTIONS an empty name. */
  type ReaderTables = t: Tables | |t.verbMappings| == |Values| && t.verbMappings[4] == None &&
    t.verbMappings[5] == Some("")
    witness Tables(Simple, "", [None, None, None, None, None, Some(""), None], [])

  /** The newer reader's tables: canonical names. */
  const CanonicalTables: ReaderTables :=
    var t := Tables(Canonical,
      "org.springframework.web.bind.annotation.RequestMapping",
      [Some("org.springframework.web.bind.annotation.GetMapping"),
       Some("org.springframework.web.bind.annotation.PutMapping"),
       Some("org.springframework.web.bind.annotation.PostMapping"),
       Some("org.springframework.web.bind.annotation.DeleteMapping"), None, Some(""),
       Some("org.springframework.web.bind.annotation.PatchMapping")],
      CanonicalControllers);
    assert |t.verbMappings| == |Values| && t.verbMappings[4] == None;
    t

  const CanonicalControllers: seq<string> := ["org.springframework.stereotype.Controller",
    "org.springframework.web.bind.annotation.RestController",
    "org.springframework.stereotype.Component", "org.springframework.stereotype.Service"]

  /** The older reader's tables: simple names. */
  const SimpleTables: ReaderTables := Tables(Simple, "RequestMapping",
    [Some("GetMapping"), Some("PutMapping"), Some("PostMapping"), Some("DeleteMapping"), None,
     Some(""), Some("PatchMapping")],
    ["Controller", "RestController", "Component", "Service"])

  function TypeName(t: ReaderTables, a: JavaAnnotation): string
  {
    match t.naming
    case Canonical => a.canonicalName
    case Simple => a.simpleName
  }

  /** HTTP_METHODS: how a RequestMethod constant is written in a `method` parameter. */
  const RequestMethodNames: seq<string> := ["RequestMethod.GET", "RequestMethod.PUT",
    "RequestMethod.POST", "RequestMethod.DELETE", "RequestMethod.HEAD",
    "RequestMethod.OPTIONS", "RequestMethod.PATCH"]

  predicate IsController(t: ReaderTables, a: JavaAnnotation)
  {
    TypeName(t, a) in t.controllers
  }

  predicate IsMappingAnnotation(t: ReaderTables, a: JavaAnnotation)
  {
    TypeName(t, a) == t.requestMapping || Some(TypeName(t, a)) in t.verbMappings
  }

  // ---------------------------------------------------------------------------------------
  // getMapping

  /** The paths of a mapping annotation's `value`: none given means the empty path, a single
      string is trimmed, list elements are taken as they print, anything else gives none. */
  function Paths(a: JavaAnnotation): seq<string>
  {
    match Param(a, "value")
    case None => [""]
    case Some(Str(t)) => [Trim(t)]
    case Some(Lst(items)) => Texts(items)
    case Some(Other(_)) => []
  }

  /** The verbs named by RequestMethod constants in ms, in order; other names are skipped. */
  function Recognised(ms: seq<string>): (r: seq<HttpMethod>)
    decreases |ms|
  {
    if ms == [] then []
    else
      var last := ms[|ms| - 1];
      var i := IndexOf(RequestMethodNames, last);
      Recognised(ms[..|ms| - 1]) + (if i == -1 then [] else [Values[i]])
  }

  /** The verbs of a mapping annotation, or None for the null list of a RequestMapping
      without a usable `method`. A verb-specific annotation names its verb through its
      position in HTTP_METHODS_MAPPING. */
  function Verbs(t: ReaderTables, a: JavaAnnotation): Option<seq<HttpMethod>>
  {
    if TypeName(t, a) == t.requestMapping then
      match Param(a, "method")
      case Some(Lst(items)) => Some(Recognised(Texts(items)))
      case Some(Str(text)) => Some(Recognised([text]))
      case _ => None
    else
      var i := IndexOf(t.verbMappings, Some(TypeName(t, a)));
      Some(if i == -1 then [] else [Values[i]])
  }

  /** How many pairs one path yields. */
  function Width(verbs: Option<seq<HttpMethod>>): nat
  {
    if verbs.Some? && verbs.value != [] then |verbs.value| else 1
  }

  /** The pairs of one path: one per verb, or one with a null verb when there are none. */
  function PathMappings(verbs: Option<seq<HttpMethod>>): string -> seq<Mapping>
  {
    (p: string) => PathMappingsOf(verbs, p)
  }

  function PathMappingsOf(verbs: Option<seq<HttpMethod>>, p: string): seq<Mapping>
  {
    var q := RemoveChar(p, '"');
    if verbs.Some? && verbs.value != [] then
      seq(|verbs.value|, i requires 0 <= i < |verbs.value| => (q, Some(verbs.value[i])))
    else [(q, None)]
  }

  /** Everything getMapping returns for an annotation. */
  function Mappings(t: ReaderTables, a: JavaAnnotation): seq<Mapping>
  {
    FlatMap(Paths(a), PathMappings(Verbs(t, a)))
  }

  /** A (path, verb) pair is among the mappings exactly when the path is one of the annotation's
      paths without its quotes and the verb is one of its verbs, or null when it has none. */
  lemma {:induction false} MappingsMembers(t: ReaderTables, a: JavaAnnotation, m: Mapping)
    ensures m in Mappings(t, a) <==>
      (exists p :: p in Paths(a) && m.0 == RemoveChar(p, '"')) &&
      (if Verbs(t, a).None? || Verbs(t, a).value == [] then m.1 == None
       else m.1.Some? && m.1.value in Verbs(t, a).value)
  {
    var verbs := Verbs(t, a);
    var f := PathMappings(verbs);
    var none := verbs.None? || verbs.value == [];
    if m in Mappings(t, a) {
      FlatMapMember(Paths(a), f, m);
    }
    if (exists p :: p in Paths(a) && m.0 == RemoveChar(p, '"')) &&
      (if none then m.1 == None else m.1.Some? && m.1.value in verbs.value)
    {
      var p :| p in Paths(a) && m.0 == RemoveChar(p, '"');
      if !none {
        var i :| 0 <= i < |verbs.value| && verbs.value[i] == m.1.value;
        assert f(p)[i] == m;
      }
      assert m in f(p);
      FlatMapHas(Paths(a), f, p, m);
    }
  }

  /** Every element of a step's output is in FlatMap's output. */
  lemma {:induction false} FlatMapHas<T, U>(xs: seq<T>, f: T -> seq<U>, x: T, y: U)
    requires x in xs && y in f(x)
    ensures y in FlatMap(xs, f)
    decreases |xs|
  {
    if xs[|xs| - 1] != x {
      assert x in xs[..|xs| - 1];
      FlatMapHas(xs[..|xs| - 1], f, x, y);
    }
  }

  /** getMapping yields one pair per path and verb: |paths| * max(1, |verbs|). */
  lemma MappingsCount(t: ReaderTables, a: JavaAnnotation)
    ensures |Mappings(t, a)| == |Paths(a)| * Width(Verbs(t, a))
  {
    FlatMapUniform(Paths(a), PathMappings(Verbs(t, a)), Width(Verbs(t, a)));
  }

  lemma {:induction false} FlatMapUniform<T, U>(xs: seq<T>, f: T -> seq<U>, w: nat)
    requires forall x :: |f(x)| == w
    ensures |FlatMap(xs, f)| == |xs| * w
    decreases |xs|
  {
    if xs != [] {
      FlatMapUniform(xs[..|xs| - 1], f, w);
      assert |xs| * w == (|xs| - 1) * w + w;
    }
  }

  /** A verb-specific mapping annotation never yields HEAD (its table entry is null), and
      only an annotation type with an empty name would yield OPTIONS. */
  lemma VerbSpecificNeverHead(t: ReaderTables, a: JavaAnnotation)
    requires TypeName(t, a) != t.requestMapping && TypeName(t, a) != ""
    ensures Verbs(t, a).Some? && HEAD !in Verbs(t, a).value && OPTIONS !in Verbs(t, a).value
    ensures |Verbs(t, a).value| <= 1
  {
    var i := IndexOf(t.verbMappings, Some(TypeName(t, a)));
    if i != -1 {
      assert i != 4 && i != 5;
    }
  }

  method RecogniseVerbs(ms: seq<string>) returns (verbs: seq<HttpMethod>)
    ensures verbs == Recognised(ms)
  {
    verbs := [];
    var k := 0;
    while k < |ms|
      invariant 0 <= k <= |ms|
      invariant verbs == Recognised(ms[..k])
    {
      assert ms[..k + 1][..k] == ms[..k];
      if ms[k] in RequestMethodNames {
        var index := IndexOf(RequestMethodNames, ms[k]);
        verbs := verbs + [Values[index]];
      }
      k := k + 1;
    }
    assert ms[..k] == ms;
  }

  /** The verb part of getMapping. */
  method GetVerbs(t: ReaderTables, a: JavaAnnotation) returns (verbs: Option<seq<HttpMethod>>)
    ensures verbs == Verbs(t, a)
  {
    if TypeName(t, a) == t.requestMapping {
      match Param(a, "method") {
        case Some(Lst(items)) =>
          var vs := RecogniseVerbs(Texts(items));
          verbs := Some(vs);
        case Some(Str(text)) =>
          var vs := RecogniseVerbs([text]);
          verbs := Some(vs);
        case _ =>
          verbs := None;
      }
    } else {
      var index := IndexOf(t.verbMappings, Some(TypeName(t, a)));
      verbs := Some(if index != -1 then [Values[index]] else []);
    }
  }

  /** The pairs of one path. */
  method PairPath(path: string, verbs: Option<seq<HttpMethod>>) returns (pairs: seq<Mapping>)
    ensures pairs == PathMappings(verbs)(path)
  {
    var p := RemoveChar(path, '"');
    if verbs != None && verbs.value != [] {
      pairs := [];
      var j := 0;
      while j < |verbs.value|
        invariant 0 <= j <= |verbs.value|
        invariant pairs == seq(j, i requires 0 <= i < j => (p, Some(verbs.value[i])))
      {
        pairs := pairs + [(p, Some(verbs.value[j]))];
        j := j + 1;
      }
    } else {
      pairs := [(p, None)];
    }
  }

  /** SPRINGReader.getMapping */
  method GetMapping(t: ReaderTables, a: JavaAnnotation) returns (pairs: seq<Mapping>)
    ensures pairs == Mappings(t, a)
  {
    var paths := Paths(a);
    var verbs := GetVerbs(t, a);
    pairs := [];
    var k := 0;
    while k < |paths|
      invariant 0 <= k <= |paths|
      invariant pairs == FlatMap(paths[..k], PathMappings(verbs))
    {
      assert paths[..k + 1][..k] == paths[..k];
      var found := PairPath(paths[k], verbs);
      pairs := pairs + found;
      k := k + 1;
    }
    assert paths[..k] == paths;
  }

  // ---------------------------------------------------------------------------------------
  // getBaseMappingAndController

  /** A class annotation that sets the base mapping: a mapping annotation that is not also
      a controller annotation (the controller test comes first). */
  predicate IsBaseMapping(t: ReaderTables, a: JavaAnnotation)
  {
    !IsController(t, a) && IsMappingAnnotation(t, a)
  }

  /** The position of the annotation whose mapping becomes the base mapping: the LAST base
      mapping annotation, since each one overwrites the previous. */
  function LastBaseMapping(t: ReaderTables, annotations: seq<JavaAnnotation>): (r: Option<nat>)
    ensures r.None? <==> forall i :: 0 <= i < |annotations| ==> !IsBaseMapping(t, annotations[i])
    ensures r.Some? ==>
      r.value < |annotations| && IsBaseMapping(t, annotations[r.value]) &&
      (forall j :: r.value < j < |annotations| ==> !IsBaseMapping(t, annotations[j]))
    decreases |annotations|
  {
    if annotations == [] then None
    else if IsBaseMapping(t, annotations[|annotations| - 1]) then Some(|annotations| - 1)
    else
      var init := annotations[..|annotations| - 1];
      assert forall i :: 0 <= i < |init| ==> init[i] == annotations[i];
      LastBaseMapping(t, init)
  }

  /** The base mapping getBaseMappingAndController returns: null without a base mapping
      annotation. */
  function BaseMapping(t: ReaderTables, annotations: seq<JavaAnnotation>): Option<seq<Mapping>>
  {
    match LastBaseMapping(t, annotations)
    case None => None
    case Some(i) => Some(Mappings(t, annotations[i]))
  }

  /** The controller flag getBaseMappingAndController returns. */
  predicate HasController(t: ReaderTables, annotations: seq<JavaAnnotation>)
  {
    exists i :: 0 <= i < |annotations| && IsController(t, annotations[i])
  }

  /** One more class annotation. */
  lemma ClassAnnotationStep(t: ReaderTables, annotations: seq<JavaAnnotation>, k: nat)
    requires k < |annotations|
    ensures LastBaseMapping(t, annotations[..k + 1]) ==
      if IsBaseMapping(t, annotations[k]) then Some(k) else LastBaseMapping(t, annotations[..k])
    ensures HasController(t, annotations[..k + 1]) <==>
      HasController(t, annotations[..k]) || IsController(t, annotations[k])
  {
    var pre, next := annotations[..k], annotations[..k + 1];
    assert next[..k] == pre;
    assert forall i :: 0 <= i < k ==> next[i] == pre[i];
    assert next[k] == annotations[k];
  }

  method GetBaseMappingAndController(t: ReaderTables, annotations: seq<JavaAnnotation>)
    returns (baseMapping: Option<seq<Mapping>>, controller: bool)
    ensures baseMapping == BaseMapping(t, annotations)
    ensures controller == HasController(t, annotations)
  {
    baseMapping, controller := None, false;
    ghost var last: Option<nat> := None;
    var k := 0;
    while k < |annotations|
      invariant 0 <= k <= |annotations|
      invariant last == LastBaseMapping(t, annotations[..k])
      invariant last.None? ==> baseMapping.None?
      invariant last.Some? ==> last.value < k && baseMapping == Some(Mappings(t, annotations[last.value]))
      invariant controller == HasController(t, annotations[..k])
    {
      ClassAnnotationStep(t, annotations, k);
      var a := annotations[k];
      if TypeName(t, a) in t.controllers {
        controller := true;
      } else if TypeName(t, a) == t.requestMapping || Some(TypeName(t, a)) in t.verbMappings {
        var m := GetMapping(t, a);
        baseMapping := Some(m);
        last := Some(k);
      }
      k := k + 1;
    }
    assert annotations[..k] == annotations;
  }

  // ---------------------------------------------------------------------------------------
  // startWithSlash, startWithEndsWithoutSlash

  /** startWithSlash: the trimmed text, with a '/' put in front unless it is empty or has one. */
  function StartWithSlash(s: string): (r: string)
    ensures r == "" <==> Trim(s) == ""
    ensures r != "" ==> r[0] == '/'
    ensures r == Trim(s) || r == "/" + Trim(s)
  {
    var t := Trim(s);
    if t == "" || StartsWith(t, "/") then t else "/" + t
  }

  /** A path already in form is left as it is. */
  lemma StartWithSlashIdempotent(s: string)
    ensures StartWithSlash(StartWithSlash(s)) == StartWithSlash(s)
  {
    var t := Trim(s);
    TrimIdempotent(s);
    if t != "" && !StartsWith(t, "/") {
      TrimmedIsFixed("/" + t);
    }
  }

  /** startWithEndsWithoutSlash: trim, put a '/' in front when missing, and when the text
      ends with '/' cut it with substring(0, length - 2), which throws below two characters. */
  function StartWithEndsWithoutSlash(s: string): (r: Result<string>)
    ensures r.Err? <==> Trim(s) == "" || Trim(s) == "/"
    ensures r.Err? ==> r.error == StringIndexOutOfBounds
  {
    CutSlash(Trim(s))
  }

  /** startWithEndsWithoutSlash after the trim. */
  function CutSlash(t: string): (r: Result<string>)
    ensures r.Err? <==> t == "" || t == "/"
    ensures r.Err? ==> r.error == StringIndexOutOfBounds
  {
    var u := if StartsWith(t, "/") then t else "/" + t;
    if EndsWith(u, '/') then
      if |u| >= 2 then Ok(u[..|u| - 2])
      else
        assert u == "/" by { assert |u| == 1 && u[0] == '/'; }
        Err(StringIndexOutOfBounds)
    else Ok(u)
  }

  /** When the trimmed text does not end with '/', the result keeps all of it, starts with
      '/' and does not end with '/', as the method's documentation promises. */
  lemma StartWithEndsWithoutSlashInForm(s: string)
    requires Trim(s) != "" && !EndsWith(Trim(s), '/')
    ensures StartWithEndsWithoutSlash(s).Ok?
    ensures var r := StartWithEndsWithoutSlash(s).value;
      r[0] == '/' && !EndsWith(r, '/') && (r == Trim(s) || r == "/" + Trim(s))
  {
  }

  /** When it does end with '/', the character before the slash is dropped too:
      "/api/" becomes "/ap". */
  lemma StartWithEndsWithoutSlashDropsTwo(s: string)
    requires EndsWith(Trim(s), '/') && |Trim(s)| >= 2 && Trim(s)[0] == '/'
    ensures StartWithEndsWithoutSlash(s) == Ok(Trim(s)[..|Trim(s)| - 2])
  {
  }

  /** The path of a base mapping joined with a method mapping. */
  function Compose(base: string, path: string): (r: Result<string>)
    ensures r.Err? <==> StartWithEndsWithoutSlash(base).Err?
    ensures r.Ok? ==> r.value == StartWithEndsWithoutSlash(base).value + StartWithSlash(path)
  {
    match StartWithEndsWithoutSlash(base)
    case Err(e) => Err(e)
    case Ok(b) => Ok(b + StartWithSlash(path))
  }

  // ---------------------------------------------------------------------------------------
  // setTypeInPath (newer reader only)

  const PathVariableName: string := "org.springframework.web.bind.annotation.PathVariable"

  /** The variable a @PathVariable names: its value, else its name, else the parameter's
      own name, without quotes. */
  function VariableName(p: JavaParameter, a: JavaAnnotation): string
  {
    var name :=
      match Param(a, "value")
      case Some(v) => Text(v)
      case None =>
        match Param(a, "name")
        case Some(v) => Text(v)
        case None => p.name;
    RemoveChar(name, '"')
  }

  function Placeholder(name: string): (r: string)
    ensures |r| > 0
  {
    "{" + name + "}"
  }

  /** The placeholder a typed path variable gets: the parameter's type name, upper-cased. */
  function TypePlaceholder(p: JavaParameter): string
  {
    Placeholder(ToUpper(p.typeName))
  }

  /** PathVariableName in upper case: equalsIgnoreCase compares upper-cased forms. */
  const PathVariableUpper: string := "ORG.SPRINGFRAMEWORK.WEB.BIND.ANNOTATION.PATHVARIABLE"

  /** The annotation's type equals PathVariable ignoring case. */
  predicate IsPathVariable(a: JavaAnnotation)
  {
    ToUpper(a.canonicalName) == PathVariableUpper
  }

  /** One annotation of one parameter applied to the path. */
  function TypeVariable(path: string, p: JavaParameter, a: JavaAnnotation): string
  {
    if IsPathVariable(a) && Contains(path, Placeholder(VariableName(p, a))) then
      Replace(path, Placeholder(VariableName(p, a)), TypePlaceholder(p))
    else path
  }

  function TypeAnnotations(path: string, p: JavaParameter, annotations: seq<JavaAnnotation>): string
    decreases |annotations|
  {
    if annotations == [] then path
    else TypeVariable(TypeAnnotations(path, p, annotations[..|annotations| - 1]), p,
      annotations[|annotations| - 1])
  }

  function TypeParameters(path: string, params: seq<JavaParameter>): string
    decreases |params|
  {
    if params == [] then path
    else
      var p := params[|params| - 1];
      TypeAnnotations(TypeParameters(path, params[..|params| - 1]), p, p.annotations)
  }

  /** The path with regular-expression constraints stripped and every placeholder of a
      @PathVariable parameter replaced by the parameter's type. */
  function TypedPath(params: seq<JavaParameter>, path: string): string
  {
    TypeParameters(RemoveRegularExpressions(path), params)
  }

  predicate HasPathVariable(params: seq<JavaParameter>)
  {
    exists i, j :: 0 <= i < |params| && 0 <= j < |params[i].annotations| &&
      IsPathVariable(params[i].annotations[j])
  }

  /** Without @PathVariable parameters only the constraints are stripped. */
  lemma {:induction false} TypedPathUntyped(params: seq<JavaParameter>, path: string)
    requires !HasPathVariable(params)
    ensures TypedPath(params, path) == RemoveRegularExpressions(path)
  {
    TypeParametersUntyped(RemoveRegularExpressions(path), params);
  }

  lemma {:induction false} TypeParametersUntyped(path: string, params: seq<JavaParameter>)
    requires !HasPathVariable(params)
    ensures TypeParameters(path, params) == path
    decreases |params|
  {
    if params != [] {
      var init := params[..|params| - 1];
      assert !HasPathVariable(init) by {
        forall i, j | 0 <= i < |init| && 0 <= j < |init[i].annotations|
          ensures !IsPathVariable(init[i].annotations[j])
        {
          assert init[i] == params[i];
        }
      }
      TypeParametersUntyped(path, init);
      var p := params[|params| - 1];
      assert forall j :: 0 <= j < |p.annotations| ==> !IsPathVariable(p.annotations[j]);
      TypeAnnotationsUntyped(path, p, p.annotations);
    }
  }

  lemma {:induction false} TypeAnnotationsUntyped(path: string, p: JavaParameter, annotations: seq<JavaAnnotation>)
    requires forall j :: 0 <= j < |annotations| ==> !IsPathVariable(annotations[j])
    ensures TypeAnnotations(path, p, annotations) == path
    decreases |annotations|
  {
    if annotations != [] {
      TypeAnnotationsUntyped(path, p, annotations[..|annotations| - 1]);
    }
  }

  /** Constraints play no part: "{id:[0-9]+}" is typed like "{id}". */
  lemma TypedPathIgnoresConstraints(params: seq<JavaParameter>, path: string)
    ensures TypedPath(params, path) == TypedPath(params, RemoveRegularExpressions(path))
  {
    RemoveRegularExpressionsIdempotent(path);
  }

  /** A single @PathVariable parameter whose placeholder appears in the stripped path has
      every occurrence replaced by its type; the check is made on the stripped path. */
  lemma TypedPathSingle(p: JavaParameter, path: string)
    requires |p.annotations| == 1 && IsPathVariable(p.annotations[0])
    requires Contains(RemoveRegularExpressions(path), Placeholder(VariableName(p, p.annotations[0])))
    ensures TypedPath([p], path) ==
      Replace(RemoveRegularExpressions(path), Placeholder(VariableName(p, p.annotations[0])), TypePlaceholder(p))
  {
    var stripped := RemoveRegularExpressions(path);
    assert [p][..0] == [];
    assert TypeParameters(stripped, [p]) == TypeAnnotations(stripped, p, p.annotations);
    assert p.annotations[..0] == [];
    assert TypeAnnotations(stripped, p, p.annotations) == TypeVariable(stripped, p, p.annotations[0]);
  }

  method SetTypeInPath(params: seq<JavaParameter>, path: string) returns (newPath: string)
    ensures newPath == TypedPath(params, path)
  {
    newPath := RemoveRegularExpressions(path);
    var k := 0;
    while k < |params|
      invariant 0 <= k <= |params|
      invariant newPath == TypeParameters(RemoveRegularExpressions(path), params[..k])
    {
      assert params[..k + 1][..k] == params[..k];
      var param := params[k];
      var j := 0;
      while j < |param.annotations|
        invariant 0 <= j <= |param.annotations|
        invariant newPath == TypeAnnotations(TypeParameters(RemoveRegularExpressions(path), params[..k]),
          param, param.annotations[..j])
      {
        assert param.annotations[..j + 1][..j] == param.annotations[..j];
        var annotation := param.annotations[j];
        if ToUpper(annotation.canonicalName) == PathVariableUpper {
          var paramName := VariableName(param, annotation);
          if Contains(newPath, Placeholder(paramName)) {
            newPath := Replace(newPath, Placeholder(paramName), TypePlaceholder(param));
          }
        }
        j := j + 1;
      }
      assert param.annotations[..j] == param.annotations;
      k := k + 1;
    }
    assert params[..k] == params;
  }

  // ---------------------------------------------------------------------------------------
  // getMethodAnnotations

  /** The path of a method-level mapping as the reader finally writes it: typed by the
      method's parameters in the newer reader (params given), untouched in the older one. */
  function Typed(typing: Option<seq<JavaParameter>>, path: string): string
  {
    match typing
    case None => path
    case Some(params) => TypedPath(params, path)
  }

  /** All seven verbs on one path: a mapping that allows any method. */
  function AllVerbs(path: string): (r: seq<Endpoint>)
    ensures |r| == |Values| && forall i :: 0 <= i < |Values| ==> r[i] == (path, Values[i])
  {
    seq(|Values|, i requires 0 <= i < |Values| => (path, Values[i]))
  }

  /** The endpoints of one method mapping under one base mapping: the method mapping's verb
      if it has one, else the base's verb, else every verb. */
  function UnderBase(typing: Option<seq<JavaParameter>>, cm: Mapping): Mapping -> Result<seq<Endpoint>>
  {
    (base: Mapping) => BaseEndpoints(typing, cm, base)
  }

  function BaseEndpoints(typing: Option<seq<JavaParameter>>, cm: Mapping, base: Mapping): Result<seq<Endpoint>>
  {
    match Compose(base.0, cm.0)
    case Err(e) => Err(e)
    case Ok(p) =>
      var q := Typed(typing, p);
      Ok(if cm.1.Some? then [(q, cm.1.value)]
         else if base.1.Some? then [(q, base.1.value)]
         else AllVerbs(q))
  }

  /** The endpoints of one method mapping: joined with every base mapping when the class has
      some, on its own otherwise. */
  function MappingEndpoints(typing: Option<seq<JavaParameter>>, bases: Option<seq<Mapping>>): Mapping -> Result<seq<Endpoint>>
  {
    (cm: Mapping) => EndpointsOf(typing, bases, cm)
  }

  function EndpointsOf(typing: Option<seq<JavaParameter>>, bases: Option<seq<Mapping>>, cm: Mapping): Result<seq<Endpoint>>
  {
    if bases.Some? then FlatMapR(bases.value, UnderBase(typing, cm))
    else if cm.1.Some? then Ok([(Typed(typing, cm.0), cm.1.value)])
    else
      match StartWithEndsWithoutSlash(cm.0)
      case Err(e) => Err(e)
      case Ok(p) => Ok(AllVerbs(Typed(typing, p)))
  }

  function AnnotationEndpoints(t: ReaderTables, typing: Option<seq<JavaParameter>>, bases: Option<seq<Mapping>>): JavaAnnotation -> Result<seq<Endpoint>>
  {
    (a: JavaAnnotation) => AnnotationEndpointsOf(t, typing, bases, a)
  }

  function AnnotationEndpointsOf(t: ReaderTables, typing: Option<seq<JavaParameter>>, bases: Option<seq<Mapping>>, a: JavaAnnotation): Result<seq<Endpoint>>
  {
    if IsMappingAnnotation(t, a) then FlatMapR(Mappings(t, a), MappingEndpoints(typing, bases))
    else Ok([])
  }

  /** The parameters the newer reader types paths with; the older reader does not. */
  function Typing(typed: bool, m: JavaMethod): Option<seq<JavaParameter>>
  {
    if typed then Some(m.parameters) else None
  }

  /** Everything getMethodAnnotations returns for one method. */
  function MethodEndpoints(t: ReaderTables, typed: bool, bases: Option<seq<Mapping>>, m: JavaMethod): Result<seq<Endpoint>>
  {
    FlatMapR(m.annotations, AnnotationEndpoints(t, Typing(typed, m), bases))
  }

  /** How many endpoints one method mapping yields: one per base (seven for a base without a
      verb when the mapping has none either), or one, or seven without bases. */
  function EndpointCount(cm: Mapping, bases: Option<seq<Mapping>>): nat
  {
    if bases.Some? then BasesCount(cm, bases.value)
    else if cm.1.Some? then 1
    else |Values|
  }

  function BasesCount(cm: Mapping, bases: seq<Mapping>): nat
    decreases |bases|
  {
    if bases == [] then 0
    else
      var own := if cm.1.Some? || bases[|bases| - 1].1.Some? then 1 else |Values|;
      BasesCount(cm, bases[..|bases| - 1]) + own
  }

  /** The four cases of getMethodAnnotations yield exactly EndpointCount pairs. */
  lemma MappingEndpointsCount(typing: Option<seq<JavaParameter>>, bases: Option<seq<Mapping>>, cm: Mapping)
    requires MappingEndpoints(typing, bases)(cm).Ok?
    ensures |MappingEndpoints(typing, bases)(cm).value| == EndpointCount(cm, bases)
  {
    if bases.Some? {
      UnderBaseCount(typing, cm, bases.value);
    }
  }

  lemma {:induction false} UnderBaseCount(typing: Option<seq<JavaParameter>>, cm: Mapping, bases: seq<Mapping>)
    requires FlatMapR(bases, UnderBase(typing, cm)).Ok?
    ensures |FlatMapR(bases, UnderBase(typing, cm)).value| == BasesCount(cm, bases)
    decreases |bases|
  {
    if bases != [] {
      UnderBaseCount(typing, cm, bases[..|bases| - 1]);
    }
  }

  /** With a verb on the method mapping, every endpoint carries that verb. */
  lemma {:induction false} MappingEndpointsKeepVerb(typing: Option<seq<JavaParameter>>, bases: Option<seq<Mapping>>, cm: Mapping)
    requires cm.1.Some? && MappingEndpoints(typing, bases)(cm).Ok?
    ensures forall e :: e in MappingEndpoints(typing, bases)(cm).value ==> e.1 == cm.1.value
  {
    if bases.Some? {
      UnderBaseKeepVerb(typing, cm, bases.value);
    }
  }

  lemma {:induction false} UnderBaseKeepVerb(typing: Option<seq<JavaParameter>>, cm: Mapping, bases: seq<Mapping>)
    requires cm.1.Some? && FlatMapR(bases, UnderBase(typing, cm)).Ok?
    ensures forall e :: e in FlatMapR(bases, UnderBase(typing, cm)).value ==> e.1 == cm.1.value
    decreases |bases|
  {
    if bases != [] {
      UnderBaseKeepVerb(typing, cm, bases[..|bases| - 1]);
    }
  }

  /** The "all methods are allowed" loop: one pair per verb of HttpMethods.values(). */
  method EveryVerb(path: string) returns (pairs: seq<Endpoint>)
    ensures pairs == AllVerbs(path)
  {
    pairs := [];
    var k := 0;
    while k < |Values|
      invariant 0 <= k <= |Values|
      invariant pairs == AllVerbs(path)[..k]
    {
      pairs := pairs + [(path, Values[k])];
      k := k + 1;
    }
    assert AllVerbs(path)[..k] == AllVerbs(path);
  }

  method TypePath(typing: Option<seq<JavaParameter>>, path: string) returns (r: string)
    ensures r == Typed(typing, path)
  {
    r := path;
    if typing.Some? {
      r := SetTypeInPath(typing.value, path);
    }
  }

  /** One base mapping, the loop body of the first and third case. */
  method JoinBase(typing: Option<seq<JavaParameter>>, cm: Mapping, base: Mapping)
    returns (r: Result<seq<Endpoint>>)
    ensures r == UnderBase(typing, cm)(base)
  {
    var b := StartWithEndsWithoutSlash(base.0);
    if b.Err? {
      return Err(b.error);
    }
    var path := b.value + StartWithSlash(cm.0);
    path := TypePath(typing, path);
    if cm.1.Some? {
      r := Ok([(path, cm.1.value)]);
    } else if base.1.Some? {
      r := Ok([(path, base.1.value)]);
    } else {
      var pairs := EveryVerb(path);
      r := Ok(pairs);
    }
  }

  /** One method mapping, all four cases. */
  method JoinMapping(typing: Option<seq<JavaParameter>>, bases: Option<seq<Mapping>>, cm: Mapping)
    returns (r: Result<seq<Endpoint>>)
    ensures r == MappingEndpoints(typing, bases)(cm)
  {
    if bases.Some? {
      var pairs: seq<Endpoint> := [];
      var k := 0;
      while k < |bases.value|
        invariant 0 <= k <= |bases.value|
        invariant FlatMapR(bases.value[..k], UnderBase(typing, cm)) == Ok(pairs)
      {
        var step := JoinBase(typing, cm, bases.value[k]);
        if step.Err? {
          FlatMapRStepFails(bases.value, UnderBase(typing, cm), k, pairs);
          return Err(step.error);
        }
        FlatMapRSnoc(bases.value, UnderBase(typing, cm), k, pairs, step.value);
        pairs := pairs + step.value;
        k := k + 1;
      }
      assert bases.value[..k] == bases.value;
      r := Ok(pairs);
    } else if cm.1.Some? {
      var path := cm.0;
      path := TypePath(typing, path);
      r := Ok([(path, cm.1.value)]);
    } else {
      var b := StartWithEndsWithoutSlash(cm.0);
      if b.Err? {
        return Err(b.error);
      }
      var path := b.value;
      path := TypePath(typing, path);
      var pairs := EveryVerb(path);
      r := Ok(pairs);
    }
  }

  /** The loop over getMapping's pairs. */
  method JoinMappings(typing: Option<seq<JavaParameter>>, bases: Option<seq<Mapping>>, cms: seq<Mapping>)
    returns (r: Result<seq<Endpoint>>)
    ensures r == FlatMapR(cms, MappingEndpoints(typing, bases))
  {
    var found: seq<Endpoint> := [];
    var j := 0;
    while j < |cms|
      invariant 0 <= j <= |cms|
      invariant FlatMapR(cms[..j], MappingEndpoints(typing, bases)) == Ok(found)
    {
      var step := JoinMapping(typing, bases, cms[j]);
      if step.Err? {
        FlatMapRStepFails(cms, MappingEndpoints(typing, bases), j, found);
        return Err(step.error);
      }
      FlatMapRSnoc(cms, MappingEndpoints(typing, bases), j, found, step.value);
      found := found + step.value;
      j := j + 1;
    }
    assert cms[..j] == cms;
    r := Ok(found);
  }

  /** The endpoints of one method annotation: nothing unless it is a mapping annotation. */
  method JoinAnnotation(t: ReaderTables, typing: Option<seq<JavaParameter>>, bases: Option<seq<Mapping>>, a: JavaAnnotation)
    returns (r: Result<seq<Endpoint>>)
    ensures r == AnnotationEndpoints(t, typing, bases)(a)
  {
    if !(TypeName(t, a) == t.requestMapping || Some(TypeName(t, a)) in t.verbMappings) {
      return Ok([]);
    }
    var methodMapping := GetMapping(t, a);
    r := JoinMappings(typing, bases, methodMapping);
  }

  /** SPRINGReader.getMethodAnnotations; `typed` selects the newer reader's path typing. */
  method GetMethodAnnotations(t: ReaderTables, typed: bool, m: JavaMethod, bases: Option<seq<Mapping>>)
    returns (r: Result<seq<Endpoint>>)
    ensures r == MethodEndpoints(t, typed, bases, m)
  {
    var typing := Typing(typed, m);
    var pairList: seq<Endpoint> := [];
    var k := 0;
    while k < |m.annotations|
      invariant 0 <= k <= |m.annotations|
      invariant FlatMapR(m.annotations[..k], AnnotationEndpoints(t, typing, bases)) == Ok(pairList)
    {
      var step := JoinAnnotation(t, typing, bases, m.annotations[k]);
      if step.Err? {
        FlatMapRStepFails(m.annotations, AnnotationEndpoints(t, typing, bases), k, pairList);
        return Err(step.error);
      }
      FlatMapRSnoc(m.annotations, AnnotationEndpoints(t, typing, bases), k, pairList, step.value);
      pairList := pairList + step.value;
      k := k + 1;
    }
    assert m.annotations[..k] == m.annotations;
    r := Ok(pairList);
  }
}
