/** reader.impl.apiconsumption.AnnotationReader: the REST endpoints a project consumes, read
    from @ConsumesAPI method annotations (directly or inside a @ConsumesAPIs container), one
    ConsumeDescription per (service, package). */
module ConsumptionReader {
  import opened Common
  import opened Strings
  import opened Http
  import opened JavaModel
  import opened PathMaps
  import opened Consumes

  const ConsumesApiName := "annotation.ConsumesAPI"
  const ConsumesApisName := "annotation.ConsumesAPIs"

  /** ConsumesAPI.DEFAULT_SERVICE */
  const DefaultService := "--"

  // ---------------------------------------------------------------------------------------
  // format

  /** format: trimmed (twice), then every '"' removed. */
  function Format(toFormat: string): (r: string)
    ensures '"' !in r
  {
    RemoveChar(Trim(Trim(toFormat)), '"')
  }

  /** The second trim changes nothing: format is one trim followed by quote removal. */
  lemma FormatOnce(s: string)
    ensures Format(s) == RemoveChar(Trim(s), '"')
  {
    TrimIdempotent(s);
  }

  /** The trim comes before the quotes go, so a blank inside the quotes survives:
      "\" a\"" formats to " a". */
  lemma FormatNotTrimmed()
    ensures Format("\" a\"") == " a"
    ensures Trim(Format("\" a\"")) != Format("\" a\"")
  {
    var s := "\" a\"";
    assert TrimStart(s) == s;
    assert TrimEnd(s) == s;
    assert Trim(s) == s;
    assert RemoveChar(s[3..], '"') == [];
    assert RemoveChar(s[2..], '"') == "a";
    assert RemoveChar(s[1..], '"') == " a";
    assert TrimStart(" a") == "a";
  }

  // ---------------------------------------------------------------------------------------
  // couldBeValidService

  /** A character of a tag segment: an ASCII letter or digit, '.', '-' or '_'. */
  predicate TagChar(c: char)
  {
    'a' <= c <= 'z' || 'A' <= c <= 'Z' || '0' <= c <= '9' || c == '.' || c == '-' || c == '_'
  }

  /** The matcher of couldBeValidService's pattern (one or two segments each followed by
      ':', then a last segment; every segment one or more tag characters), reading s left
      to right after `colons` separators and `run` characters of the current segment. */
  function TagScan(s: string, colons: nat, run: nat): bool
    decreases |s|
  {
    if s == [] then run > 0 && 1 <= colons <= 2
    else if s[0] == ':' then run > 0 && colons < 2 && TagScan(s[1..], colons + 1, 0)
    else TagChar(s[0]) && TagScan(s[1..], colons, run + 1)
  }

  /** couldBeValidService: the whole name matches the tag pattern. */
  predicate CouldBeValidService(serviceName: string)
  {
    TagScan(serviceName, 0, 0)
  }

  /** The matcher from any point: the rest is tag characters and separators, the
      separators seen and still to come number one or two, and no segment is empty. */
  lemma {:induction false} TagScanMeaning(s: string, colons: nat, run: nat)
    ensures var parts := Split(s, ':');
      TagScan(s, colons, run) <==>
        (forall i :: 0 <= i < |s| ==> s[i] == ':' || TagChar(s[i])) &&
        1 <= colons + |parts| - 1 <= 2 &&
        (run > 0 || parts[0] != []) &&
        (forall i :: 1 <= i < |parts| ==> parts[i] != [])
    decreases |s|
  {
    if s != [] {
      var rest := Split(s[1..], ':');
      var parts := Split(s, ':');
      if s[0] == ':' {
        TagScanMeaning(s[1..], colons + 1, 0);
        assert parts == [[]] + rest;
        assert forall i :: 1 <= i < |parts| ==> parts[i] == rest[i - 1];
        assert forall j :: 0 <= j < |rest| ==> rest[j] == parts[j + 1];
      } else {
        TagScanMeaning(s[1..], colons, run + 1);
        assert parts == [[s[0]] + rest[0]] + rest[1..];
        assert forall i :: 1 <= i < |parts| ==> parts[i] == rest[i];
      }
      assert forall i :: 1 <= i < |s| ==> s[i] == s[1..][i - 1];
      assert forall j :: 0 <= j < |s| - 1 ==> s[1..][j] == s[j + 1];
    }
  }

  /** couldBeValidService accepts exactly the names made of 2 or 3 non-empty
      ':'-separated segments of letters, digits, '.', '-' and '_'. */
  lemma CouldBeValidServiceMeaning(serviceName: string)
    ensures var parts := Split(serviceName, ':');
      CouldBeValidService(serviceName) <==>
        (|parts| == 2 || |parts| == 3) &&
        (forall i :: 0 <= i < |parts| ==> parts[i] != []) &&
        (forall i :: 0 <= i < |serviceName| ==> serviceName[i] == ':' || TagChar(serviceName[i]))
  {
    TagScanMeaning(serviceName, 0, 0);
  }

  /** The default service name is no tag. */
  lemma DefaultServiceInvalid()
    ensures !CouldBeValidService(DefaultService)
  {
    SplitWithout(DefaultService, ':');
    CouldBeValidServiceMeaning(DefaultService);
  }

  /** The service of an annotation: its formatted "service" value when that is a valid
      tag, "--" when the value is absent or not a tag. */
  function ServiceName(a: JavaAnnotation): (r: string)
    ensures r != DefaultService <==>
      "service" in a.params && CouldBeValidService(Format(Text(a.params["service"])))
    ensures r != DefaultService ==> r == Format(Text(a.params["service"]))
  {
    DefaultServiceInvalid();
    match Param(a, "service")
    case None => DefaultService
    case Some(v) =>
      var name := Format(Text(v));
      if CouldBeValidService(name) then name else DefaultService
  }

  // ---------------------------------------------------------------------------------------
  // setTypeInPath

  /** A path template part "{...}". */
  predicate IsTemplate(part: string)
  {
    StartsWith(part, "{") && EndsWith(part, '}')
  }

  /** What one part of the split path adds: "/" and the part, upper-cased when it is a
      template part; nothing for an empty part. */
  function Segment(part: string): string
  {
    if IsTemplate(part) then "/" + ToUpper(part)
    else if part != "" then "/" + part
    else ""
  }

  /** setTypeInPath: the parts joined again, or the path itself when that gives nothing. */
  function TypedPath(path: string): string
  {
    var setPath := FlatMap(JavaSplit(path, '/'), Segment);
    if setPath == "" then path else setPath
  }

  /** A kept segment: template parts upper-cased, others as they are. */
  function Typed(part: string): string
  {
    if IsTemplate(part) then ToUpper(part) else part
  }

  function KeptOf(part: string): seq<string>
  {
    if part == "" then [] else [Typed(part)]
  }

  /** The non-empty parts, each as Typed makes it, in order. */
  function Kept(parts: seq<string>): seq<string>
  {
    FlatMap(parts, KeptOf)
  }

  /** No segment is kept exactly when every part is empty. */
  lemma {:induction false} KeptEmpty(parts: seq<string>)
    ensures Kept(parts) == [] <==> forall i :: 0 <= i < |parts| ==> parts[i] == ""
    decreases |parts|
  {
    if parts != [] {
      var init := parts[..|parts| - 1];
      KeptEmpty(init);
      assert forall i :: 0 <= i < |init| ==> init[i] == parts[i];
    }
  }

  /** Upper-casing adds no separator. */
  lemma ToUpperKeepsOut(s: string, c: char)
    requires c !in s && !('A' <= c <= 'Z')
    ensures c !in ToUpper(s)
  {
  }

  /** Kept segments are non-empty and hold no '/' when the parts hold none. */
  lemma {:induction false} KeptClean(parts: seq<string>)
    requires forall i :: 0 <= i < |parts| ==> '/' !in parts[i]
    ensures forall i :: 0 <= i < |Kept(parts)| ==> Kept(parts)[i] != "" && '/' !in Kept(parts)[i]
    decreases |parts|
  {
    if parts != [] {
      var init, last := parts[..|parts| - 1], parts[|parts| - 1];
      KeptClean(init);
      ToUpperKeepsOut(last, '/');
      assert Kept(parts) == Kept(init) + KeptOf(last);
    }
  }

  /** The segments of the parts are "/" followed by the kept segments, joined with "/". */
  lemma {:induction false} SegmentsJoin(parts: seq<string>)
    ensures FlatMap(parts, Segment) == if Kept(parts) == [] then "" else Join([""] + Kept(parts), '/')
    decreases |parts|
  {
    if parts != [] {
      var init, last := parts[..|parts| - 1], parts[|parts| - 1];
      SegmentsJoin(init);
      var k := Kept(init);
      if last == "" {
        assert Segment(last) == "" && KeptOf(last) == [];
        AppendEmpty(FlatMap(init, Segment));
        AppendEmpty(k);
      } else {
        assert Segment(last) == "/" + Typed(last);
        JoinOneMore(k, Typed(last));
      }
    }
  }

  /** One more kept segment t adds "/" and t to the joined segments. */
  lemma JoinOneMore(k: seq<string>, t: string)
    ensures (if k == [] then "" else Join([""] + k, '/')) + ("/" + t) == Join([""] + (k + [t]), '/')
  {
    var all := [""] + k;
    if k == [] {
      assert [""] + (k + [t]) == ["", t];
    } else {
      JoinSnoc(all, t, '/');
      AppendAssoc([""], k, [t]);
      AppendAssoc(Join(all, '/'), "/", t);
    }
  }

  /** setTypeInPath returns the path unchanged when it has no non-empty part; otherwise the
      result starts with '/' and splits at '/' into "" followed by the non-empty parts of
      the path, in order, template parts upper-cased: no segment of it is empty. */
  lemma TypedPathSegments(path: string)
    ensures var parts := JavaSplit(path, '/');
      (Kept(parts) == [] <==> forall i :: 0 <= i < |parts| ==> parts[i] == "") &&
      (Kept(parts) == [] ==> TypedPath(path) == path) &&
      (Kept(parts) != [] ==>
        |TypedPath(path)| > 0 && TypedPath(path)[0] == '/' &&
        Split(TypedPath(path), '/') == [""] + Kept(parts) &&
        forall i :: 0 <= i < |Kept(parts)| ==> Kept(parts)[i] != "")
  {
    var parts := JavaSplit(path, '/');
    KeptEmpty(parts);
    SegmentsJoin(parts);
    var kept := Kept(parts);
    if kept != [] {
      JavaSplitPieces(path, '/');
      KeptClean(parts);
      var all := [""] + kept;
      assert all == [""] + [kept[0]] + kept[1..];
      assert Join(all, '/') == "" + ['/'] + Join(kept, '/');
      SplitJoin(all, '/');
    }
  }

  /** setTypeInPath: the loop over the parts of path.split("/"). */
  method SetTypeInPath(path: string) returns (r: string)
    ensures r == TypedPath(path)
  {
    var setPath := "";
    var splitPath := JavaSplit(path, '/');
    var k := 0;
    while k < |splitPath|
      invariant 0 <= k <= |splitPath|
      invariant setPath == FlatMap(splitPath[..k], Segment)
    {
      var part := splitPath[k];
      FlatMapSnoc(splitPath, Segment, k);
      if StartsWith(part, "{") && EndsWith(part, '}') {
        AppendAssoc(setPath, "/", ToUpper(part));
        setPath := setPath + "/" + ToUpper(part);
      } else if part != "" {
        AppendAssoc(setPath, "/", part);
        setPath := setPath + "/" + part;
      } else {
        AppendEmpty(setPath);
      }
      k := k + 1;
    }
    WholePrefix(splitPath);
    if setPath == "" {
      return path;
    }
    r := setPath;
  }
  // ---------------------------------------------------------------------------------------
  // addConsumesAPIInfo and addToList, on values

  /** One recorded consumption: service, package, typed path and the verb as written. */
  datatype Call = Call(service: string, pkg: string, path: string, methodName: string)

  /** What one @ConsumesAPI annotation of a class in package pkg records: nothing when the
      upper-cased method names no HTTP verb; reading a missing path or method throws. */
  function CallOf(pkg: string, a: JavaAnnotation): Result<Option<Call>>
  {
    var name := ServiceName(a);
    match Param(a, "path")
    case None => Err(NullPointer)
    case Some(p) =>
      match Param(a, "method")
      case None => Err(NullPointer)
      case Some(m) =>
        var path := TypedPath(Format(Text(p)));
        var methodName := Format(Text(m));
        if ValueOf(ToUpper(methodName)).None? then Ok(None)
        else Ok(Some(Call(name, pkg, path, methodName)))
  }

  /** A recorded call keeps the method as written (it is not upper-cased); only its
      upper-cased form has to name a verb. An annotation with both values records nothing
      exactly when the upper-cased method is no verb name. */
  lemma CallOfMeaning(pkg: string, a: JavaAnnotation)
    ensures CallOf(pkg, a).Err? <==> "path" !in a.params || "method" !in a.params
    ensures CallOf(pkg, a).Ok? ==>
      var methodName := Format(Text(a.params["method"]));
      (CallOf(pkg, a).value.None? <==> forall v :: Name(v) != ToUpper(methodName)) &&
      (CallOf(pkg, a).value.Some? ==>
        CallOf(pkg, a).value.value ==
          Call(ServiceName(a), pkg, TypedPath(Format(Text(a.params["path"]))), methodName))
  {
    if CallOf(pkg, a).Ok? {
      var methodName := Format(Text(a.params["method"]));
      if ValueOf(ToUpper(methodName)).Some? {
        assert Name(ValueOf(ToUpper(methodName)).value) == ToUpper(methodName);
      }
    }
  }

  /** A ConsumeDescription as a value. */
  datatype Entry = Entry(service: string, pkg: string, content: PathMap<string>)

  /** The (service, package) keys of a list of entries. */
  function Keys(es: seq<Entry>): (ks: seq<(string, string)>)
    ensures |ks| == |es| && forall i :: 0 <= i < |es| ==> ks[i] == (es[i].service, es[i].pkg)
  {
    seq(|es|, i requires 0 <= i < |es| => (es[i].service, es[i].pkg))
  }

  predicate DistinctKeys(es: seq<Entry>)
  {
    forall i, j :: 0 <= i < j < |es| ==> Keys(es)[i] != Keys(es)[j]
  }

  /** addToList, or else a new ConsumeDescription: the first entry of the call's service and
      package gets path -> {method} unioned in; without one, a new entry holding only that
      is appended. */
  function AddCall(es: seq<Entry>, c: Call): seq<Entry>
  {
    var k := IndexOf(Keys(es), (c.service, c.pkg));
    if k == -1 then es + [Entry(c.service, c.pkg, UnionAt(map[], c.path, {c.methodName}))]
    else es[k := es[k].(content := UnionAt(es[k].content, c.path, {c.methodName}))]
  }

  /** The content recorded for a key: that of its first entry, or nothing. */
  function ContentFor(es: seq<Entry>, key: (string, string)): PathMap<string>
  {
    var k := IndexOf(Keys(es), key);
    if k == -1 then map[] else es[k].content
  }

  /** Adding a call keeps one entry per key; the list grows exactly when the key is new. */
  lemma AddCallShape(es: seq<Entry>, c: Call)
    requires DistinctKeys(es)
    ensures DistinctKeys(AddCall(es, c))
    ensures Keys(AddCall(es, c)) ==
      if (c.service, c.pkg) in Keys(es) then Keys(es) else Keys(es) + [(c.service, c.pkg)]
  {
    var r := AddCall(es, c);
    if (c.service, c.pkg) in Keys(es) {
      assert Keys(r) == Keys(es);
    } else {
      assert Keys(r) == Keys(es) + [(c.service, c.pkg)];
    }
  }

  /** Adding a call unions path -> {method} into its key's content and leaves every other
      key's content alone. */
  lemma AddCallContent(es: seq<Entry>, c: Call, key: (string, string))
    requires DistinctKeys(es)
    ensures ContentFor(AddCall(es, c), key) ==
      if key == (c.service, c.pkg) then UnionAt(ContentFor(es, key), c.path, {c.methodName})
      else ContentFor(es, key)
  {
    AddCallShape(es, c);
    if (c.service, c.pkg) in Keys(es) {
      UpdatedContent(es, c, key);
    } else {
      AppendedContent(es, c, key);
    }
  }

  lemma AppendedContent(es: seq<Entry>, c: Call, key: (string, string))
    requires DistinctKeys(es) && (c.service, c.pkg) !in Keys(es)
    requires Keys(AddCall(es, c)) == Keys(es) + [(c.service, c.pkg)]
    ensures ContentFor(AddCall(es, c), key) ==
      if key == (c.service, c.pkg) then UnionAt(ContentFor(es, key), c.path, {c.methodName})
      else ContentFor(es, key)
  {
    var r := AddCall(es, c);
    var j := IndexOf(Keys(es), key);
    if key == (c.service, c.pkg) {
      assert IndexOf(Keys(r), key) == |es|;
    } else if j != -1 {
      assert IndexOf(Keys(r), key) == j;
    } else {
      assert key !in Keys(r);
    }
  }

  lemma UpdatedContent(es: seq<Entry>, c: Call, key: (string, string))
    requires DistinctKeys(es) && (c.service, c.pkg) in Keys(es)
    requires Keys(AddCall(es, c)) == Keys(es)
    ensures ContentFor(AddCall(es, c), key) ==
      if key == (c.service, c.pkg) then UnionAt(ContentFor(es, key), c.path, {c.methodName})
      else ContentFor(es, key)
  {
  }

  /** Whether a list of calls records verb m at path p for a key. */
  predicate Records(cs: seq<Call>, key: (string, string), p: string, m: string)
  {
    exists i :: 0 <= i < |cs| && cs[i] == Call(key.0, key.1, p, m)
  }

  /** Recording a list of calls, from no entries: one entry per key that some call has, and
      under each key exactly the paths and verbs of its calls. */
  lemma {:induction false} RecordAll(cs: seq<Call>)
    ensures DistinctKeys(Fold(cs, [], AddCall))
    ensures forall key :: key in Keys(Fold(cs, [], AddCall)) <==>
      exists i :: 0 <= i < |cs| && (cs[i].service, cs[i].pkg) == key
    ensures forall key, p, m :: m in At(ContentFor(Fold(cs, [], AddCall), key), p) <==> Records(cs, key, p, m)
    decreases |cs|
  {
    if cs != [] {
      var init, c := cs[..|cs| - 1], cs[|cs| - 1];
      RecordAll(init);
      var es := Fold(init, [], AddCall);
      AddCallShape(es, c);
      forall key
        ensures key in Keys(AddCall(es, c)) <==> exists i :: 0 <= i < |cs| && (cs[i].service, cs[i].pkg) == key
      {
        if key in Keys(es) {
          var i :| 0 <= i < |init| && (init[i].service, init[i].pkg) == key;
          assert cs[i] == init[i];
        }
        if exists i :: 0 <= i < |cs| && (cs[i].service, cs[i].pkg) == key {
          var i :| 0 <= i < |cs| && (cs[i].service, cs[i].pkg) == key;
          if i < |init| {
            assert init[i] == cs[i];
          }
        }
      }
      forall key, p, m
        ensures m in At(ContentFor(AddCall(es, c), key), p) <==> Records(cs, key, p, m)
      {
        AddCallContent(es, c, key);
        RecordsStep(cs, key, p, m);
      }
    }
  }

  lemma RecordsStep(cs: seq<Call>, key: (string, string), p: string, m: string)
    requires cs != []
    ensures Records(cs, key, p, m) <==>
      Records(cs[..|cs| - 1], key, p, m) || cs[|cs| - 1] == Call(key.0, key.1, p, m)
  {
    var init := cs[..|cs| - 1];
    if Records(cs, key, p, m) && cs[|cs| - 1] != Call(key.0, key.1, p, m) {
      var i :| 0 <= i < |cs| && cs[i] == Call(key.0, key.1, p, m);
      assert init[i] == cs[i];
    }
    if Records(init, key, p, m) {
      var i :| 0 <= i < |init| && init[i] == Call(key.0, key.1, p, m);
      assert cs[i] == init[i];
    }
  }
  // ---------------------------------------------------------------------------------------
  // The calls a project records

  /** What one @ConsumesAPI annotation records: no call or one. */
  function AnnotationCalls(pkg: string, a: JavaAnnotation): Result<seq<Call>>
  {
    match CallOf(pkg, a)
    case Err(e) => Err(e)
    case Ok(None) => Ok([])
    case Ok(Some(c)) => Ok([c])
  }

  function ElementCalls(pkg: string): Element -> Result<seq<Call>>
  {
    (x: Element) => if x.nested.Some? then AnnotationCalls(pkg, x.nested.value) else Ok([])
  }

  /** addAllConsumesAPIInfo: a list value is read element by element, every nested
      annotation as a @ConsumesAPI; a value of another kind, or none, records nothing. */
  function ContainerCalls(pkg: string, a: JavaAnnotation): Result<seq<Call>>
  {
    match Param(a, "value")
    case Some(Lst(items)) => FlatMapR(items, ElementCalls(pkg))
    case _ => Ok([])
  }

  /** What one method annotation records. */
  function MethodAnnotationCalls(pkg: string): JavaAnnotation -> Result<seq<Call>>
  {
    (a: JavaAnnotation) =>
      if a.canonicalName == ConsumesApiName then AnnotationCalls(pkg, a)
      else if a.canonicalName == ConsumesApisName then ContainerCalls(pkg, a)
      else Ok([])
  }

  function MethodCalls(pkg: string): JavaMethod -> Result<seq<Call>>
  {
    (m: JavaMethod) => FlatMapR(m.annotations, MethodAnnotationCalls(pkg))
  }

  /** Only a class whose import list holds "annotation.ConsumesAPI" is searched. */
  function ClassCalls(c: JavaClass): Result<seq<Call>>
  {
    if ConsumesApiName in c.imports then FlatMapR(c.methods, MethodCalls(c.packageName)) else Ok([])
  }

  const ClassCallsOf: JavaClass -> Result<seq<Call>> := (c: JavaClass) => ClassCalls(c)

  /** Every call of the project, in class, method, annotation and element order. */
  function Calls(classes: seq<JavaClass>): Result<seq<Call>>
  {
    FlatMapR(classes, ClassCallsOf)
  }

  /** getAPIConsumption on values: the calls recorded one after the other from an empty
      list. */
  function Consumption(classes: seq<JavaClass>): Result<seq<Entry>>
  {
    match Calls(classes)
    case Err(e) => Err(e)
    case Ok(cs) => Ok(Fold(cs, [], AddCall))
  }

  // ---------------------------------------------------------------------------------------
  // Where calls come from, and when reading fails

  /** Annotation a of a method in package pkg records call: a @ConsumesAPI directly, or a
      nested annotation in the list value of a @ConsumesAPIs. */
  predicate AnnotationRecords(pkg: string, a: JavaAnnotation, call: Call)
  {
    (a.canonicalName == ConsumesApiName && CallOf(pkg, a) == Ok(Some(call))) ||
    (a.canonicalName == ConsumesApisName && "value" in a.params && a.params["value"].Lst? &&
     exists l :: 0 <= l < |a.params["value"].items| && a.params["value"].items[l].nested.Some? &&
       CallOf(pkg, a.params["value"].items[l].nested.value) == Ok(Some(call)))
  }

  /** Class c records call: it imports the annotation and some annotation of one of its
      methods records the call. */
  predicate ClassRecords(c: JavaClass, call: Call)
  {
    ConsumesApiName in c.imports &&
    exists j, k :: 0 <= j < |c.methods| && 0 <= k < |c.methods[j].annotations| &&
      AnnotationRecords(c.packageName, c.methods[j].annotations[k], call)
  }

  lemma SingleCall(pkg: string, a: JavaAnnotation, call: Call)
    requires AnnotationCalls(pkg, a).Ok?
    ensures call in AnnotationCalls(pkg, a).value <==> CallOf(pkg, a) == Ok(Some(call))
  {
  }

  /** An element of a list value records a call exactly when it is a nested annotation that
      records it. */
  lemma ElementCallsMember(pkg: string, x: Element, call: Call)
    requires ElementCalls(pkg)(x).Ok?
    ensures call in ElementCalls(pkg)(x).value <==> x.nested.Some? && CallOf(pkg, x.nested.value) == Ok(Some(call))
  {
    if x.nested.Some? {
      SingleCall(pkg, x.nested.value, call);
    }
  }

  lemma ItemsCallsMember(pkg: string, items: seq<Element>, call: Call)
    requires FlatMapR(items, ElementCalls(pkg)).Ok?
    ensures call in FlatMapR(items, ElementCalls(pkg)).value <==>
      exists l :: 0 <= l < |items| && items[l].nested.Some? && CallOf(pkg, items[l].nested.value) == Ok(Some(call))
  {
    FlatMapRMember(items, ElementCalls(pkg), call);
    FlatMapROk(items, ElementCalls(pkg));
    forall l | 0 <= l < |items|
      ensures call in ElementCalls(pkg)(items[l]).value <==>
        items[l].nested.Some? && CallOf(pkg, items[l].nested.value) == Ok(Some(call))
    {
      ElementCallsMember(pkg, items[l], call);
    }
  }

  lemma ContainerCallsMember(pkg: string, a: JavaAnnotation, call: Call)
    requires ContainerCalls(pkg, a).Ok?
    ensures call in ContainerCalls(pkg, a).value <==>
      "value" in a.params && a.params["value"].Lst? &&
      exists l :: 0 <= l < |a.params["value"].items| && a.params["value"].items[l].nested.Some? &&
        CallOf(pkg, a.params["value"].items[l].nested.value) == Ok(Some(call))
  {
    if "value" in a.params && a.params["value"].Lst? {
      ItemsCallsMember(pkg, a.params["value"].items, call);
    }
  }

  lemma AnnotationCallsMember(pkg: string, a: JavaAnnotation, call: Call)
    requires MethodAnnotationCalls(pkg)(a).Ok?
    ensures call in MethodAnnotationCalls(pkg)(a).value <==> AnnotationRecords(pkg, a, call)
  {
    if a.canonicalName == ConsumesApiName {
      SingleCall(pkg, a, call);
    } else if a.canonicalName == ConsumesApisName {
      ContainerCallsMember(pkg, a, call);
    }
  }

  lemma MethodCallsMember(pkg: string, m: JavaMethod, call: Call)
    requires MethodCalls(pkg)(m).Ok?
    ensures call in MethodCalls(pkg)(m).value <==>
      exists k :: 0 <= k < |m.annotations| && AnnotationRecords(pkg, m.annotations[k], call)
  {
    FlatMapRMember(m.annotations, MethodAnnotationCalls(pkg), call);
    FlatMapROk(m.annotations, MethodAnnotationCalls(pkg));
    forall k | 0 <= k < |m.annotations|
      ensures call in MethodAnnotationCalls(pkg)(m.annotations[k]).value <==> AnnotationRecords(pkg, m.annotations[k], call)
    {
      AnnotationCallsMember(pkg, m.annotations[k], call);
    }
  }

  lemma ClassCallsMember(c: JavaClass, call: Call)
    requires ClassCalls(c).Ok?
    ensures call in ClassCalls(c).value <==> ClassRecords(c, call)
  {
    if ConsumesApiName in c.imports {
      var F := MethodCalls(c.packageName);
      FlatMapRMember(c.methods, F, call);
      FlatMapROk(c.methods, F);
      forall j | 0 <= j < |c.methods|
        ensures call in F(c.methods[j]).value <==>
          exists k :: 0 <= k < |c.methods[j].annotations| && AnnotationRecords(c.packageName, c.methods[j].annotations[k], call)
      {
        MethodCallsMember(c.packageName, c.methods[j], call);
      }
    }
  }

  /** The calls of a project are exactly those some class records. */
  lemma CallsMember(classes: seq<JavaClass>, call: Call)
    requires Calls(classes).Ok?
    ensures call in Calls(classes).value <==> exists i :: 0 <= i < |classes| && ClassRecords(classes[i], call)
  {
    FlatMapRMember(classes, ClassCallsOf, call);
    FlatMapROk(classes, ClassCallsOf);
    forall i | 0 <= i < |classes|
      ensures call in ClassCallsOf(classes[i]).value <==> ClassRecords(classes[i], call)
    {
      ClassCallsMember(classes[i], call);
    }
  }

  /** A @ConsumesAPI without path or without method: reading it throws. */
  predicate Throws(a: JavaAnnotation)
  {
    "path" !in a.params || "method" !in a.params
  }

  /** A method annotation that throws when read: a @ConsumesAPI that throws, or a
      @ConsumesAPIs whose list value holds one as a nested annotation. */
  predicate AnnotationThrows(a: JavaAnnotation)
  {
    (a.canonicalName == ConsumesApiName && Throws(a)) ||
    (a.canonicalName == ConsumesApisName && "value" in a.params && a.params["value"].Lst? &&
     exists l :: 0 <= l < |a.params["value"].items| && a.params["value"].items[l].nested.Some? &&
       Throws(a.params["value"].items[l].nested.value))
  }

  predicate ClassThrows(c: JavaClass)
  {
    ConsumesApiName in c.imports &&
    exists j, k :: 0 <= j < |c.methods| && 0 <= k < |c.methods[j].annotations| &&
      AnnotationThrows(c.methods[j].annotations[k])
  }

  /** Reading a @ConsumesAPI throws exactly when its path or its method is missing. */
  lemma CallOfFails(pkg: string, a: JavaAnnotation)
    ensures CallOf(pkg, a).Err? <==> Throws(a)
    ensures CallOf(pkg, a).Err? ==> CallOf(pkg, a).error == NullPointer
  {
  }

  /** A @ConsumesAPIs throws exactly when a nested annotation of its list value throws. */
  lemma ContainerCallsFail(pkg: string, a: JavaAnnotation)
    ensures ContainerCalls(pkg, a).Err? <==>
      "value" in a.params && a.params["value"].Lst? &&
      exists l :: 0 <= l < |a.params["value"].items| && a.params["value"].items[l].nested.Some? &&
        Throws(a.params["value"].items[l].nested.value)
    ensures ContainerCalls(pkg, a).Err? ==> ContainerCalls(pkg, a).error == NullPointer
  {
    if "value" in a.params && a.params["value"].Lst? {
      var items := a.params["value"].items;
      var F := ElementCalls(pkg);
      FlatMapROk(items, F);
      forall x
        ensures F(x).Err? <==> x.nested.Some? && Throws(x.nested.value)
        ensures F(x).Err? ==> F(x).error == NullPointer
      {
        if x.nested.Some? {
          CallOfFails(pkg, x.nested.value);
        }
      }
      FlatMapRFailsWith(items, F, NullPointer);
    }
  }

  lemma AnnotationCallsFail(pkg: string, a: JavaAnnotation)
    ensures MethodAnnotationCalls(pkg)(a).Err? <==> AnnotationThrows(a)
    ensures MethodAnnotationCalls(pkg)(a).Err? ==> MethodAnnotationCalls(pkg)(a).error == NullPointer
  {
    if a.canonicalName == ConsumesApiName {
      CallOfFails(pkg, a);
    } else if a.canonicalName == ConsumesApisName {
      ContainerCallsFail(pkg, a);
    }
  }

  lemma MethodCallsFail(pkg: string, m: JavaMethod)
    ensures MethodCalls(pkg)(m).Err? <==> exists k :: 0 <= k < |m.annotations| && AnnotationThrows(m.annotations[k])
    ensures MethodCalls(pkg)(m).Err? ==> MethodCalls(pkg)(m).error == NullPointer
  {
    FlatMapROk(m.annotations, MethodAnnotationCalls(pkg));
    forall a
      ensures MethodAnnotationCalls(pkg)(a).Err? ==> MethodAnnotationCalls(pkg)(a).error == NullPointer
    {
      AnnotationCallsFail(pkg, a);
    }
    forall k | 0 <= k < |m.annotations|
      ensures MethodAnnotationCalls(pkg)(m.annotations[k]).Err? <==> AnnotationThrows(m.annotations[k])
    {
      AnnotationCallsFail(pkg, m.annotations[k]);
    }
    FlatMapRFailsWith(m.annotations, MethodAnnotationCalls(pkg), NullPointer);
  }

  lemma ClassCallsFail(c: JavaClass)
    ensures ClassCalls(c).Err? <==> ClassThrows(c)
    ensures ClassCalls(c).Err? ==> ClassCalls(c).error == NullPointer
  {
    if ConsumesApiName in c.imports {
      var F := MethodCalls(c.packageName);
      FlatMapROk(c.methods, F);
      forall m
        ensures F(m).Err? ==> F(m).error == NullPointer
      {
        MethodCallsFail(c.packageName, m);
      }
      forall j | 0 <= j < |c.methods|
        ensures F(c.methods[j]).Err? <==>
          exists k :: 0 <= k < |c.methods[j].annotations| && AnnotationThrows(c.methods[j].annotations[k])
      {
        MethodCallsFail(c.packageName, c.methods[j]);
      }
      FlatMapRFailsWith(c.methods, F, NullPointer);
    }
  }

  /** getAPIConsumption throws exactly when a searched class has a @ConsumesAPI, directly or
      in a @ConsumesAPIs list, without path or method; it is then a NullPointerException. */
  lemma ConsumptionFails(classes: seq<JavaClass>)
    ensures Consumption(classes).Err? <==> exists i :: 0 <= i < |classes| && ClassThrows(classes[i])
    ensures Consumption(classes).Err? ==> Consumption(classes).error == NullPointer
  {
    FlatMapROk(classes, ClassCallsOf);
    forall c
      ensures ClassCallsOf(c).Err? ==> ClassCallsOf(c).error == NullPointer
    {
      ClassCallsFail(c);
    }
    forall i | 0 <= i < |classes|
      ensures ClassCallsOf(classes[i]).Err? <==> ClassThrows(classes[i])
    {
      ClassCallsFail(classes[i]);
    }
    FlatMapRFailsWith(classes, ClassCallsOf, NullPointer);
  }

  /** Some searched class of the project records the call. */
  predicate ProjectRecords(classes: seq<JavaClass>, call: Call)
  {
    exists i :: 0 <= i < |classes| && ClassRecords(classes[i], call)
  }

  /** A key has a call in the project's call list exactly when some class records a call
      under it. */
  lemma CallsKey(classes: seq<JavaClass>, key: (string, string))
    requires Calls(classes).Ok?
    ensures var cs := Calls(classes).value;
      (exists i :: 0 <= i < |cs| && (cs[i].service, cs[i].pkg) == key) <==>
        exists p, m :: ProjectRecords(classes, Call(key.0, key.1, p, m))
  {
    var cs := Calls(classes).value;
    if exists i :: 0 <= i < |cs| && (cs[i].service, cs[i].pkg) == key {
      var i :| 0 <= i < |cs| && (cs[i].service, cs[i].pkg) == key;
      CallsMember(classes, cs[i]);
      assert ProjectRecords(classes, Call(key.0, key.1, cs[i].path, cs[i].methodName));
    }
    if exists p, m :: ProjectRecords(classes, Call(key.0, key.1, p, m)) {
      var p, m :| ProjectRecords(classes, Call(key.0, key.1, p, m));
      CallsMember(classes, Call(key.0, key.1, p, m));
      var j :| 0 <= j < |cs| && cs[j] == Call(key.0, key.1, p, m);
      assert (cs[j].service, cs[j].pkg) == key;
    }
  }

  /** A successful getAPIConsumption holds one description per (service, package) that some
      searched class records a call for, and no two for the same pair. */
  lemma ConsumptionKeys(classes: seq<JavaClass>)
    requires Consumption(classes).Ok?
    ensures DistinctKeys(Consumption(classes).value)
    ensures forall key :: key in Keys(Consumption(classes).value) <==>
      exists p, m :: ProjectRecords(classes, Call(key.0, key.1, p, m))
  {
    RecordAll(Calls(classes).value);
    forall key
      ensures key in Keys(Consumption(classes).value) <==>
        exists p, m :: ProjectRecords(classes, Call(key.0, key.1, p, m))
    {
      CallsKey(classes, key);
    }
  }

  /** Under each (service, package), a successful getAPIConsumption holds exactly the paths
      and verbs of the calls the searched classes record for it. */
  lemma ConsumptionContent(classes: seq<JavaClass>)
    requires Consumption(classes).Ok?
    ensures forall key, p, m :: m in At(ContentFor(Consumption(classes).value, key), p) <==>
      ProjectRecords(classes, Call(key.0, key.1, p, m))
  {
    var cs := Calls(classes).value;
    RecordAll(cs);
    forall key, p, m
      ensures Records(cs, key, p, m) <==> ProjectRecords(classes, Call(key.0, key.1, p, m))
    {
      CallsMember(classes, Call(key.0, key.1, p, m));
    }
  }

  // ---------------------------------------------------------------------------------------
  // The reader itself, over a list of ConsumeDescription objects

  /** The (service, package) names of the descriptions in a list. */
  function KeysOf(list: seq<ConsumeDescription>): (ks: seq<(string, string)>)
    ensures |ks| == |list| && forall i :: 0 <= i < |list| ==> ks[i] == (list[i].serviceName, list[i].packageName)
  {
    seq(|list|, i requires 0 <= i < |list| => (list[i].serviceName, list[i].packageName))
  }

  /** What a list of descriptions holds, as entries. */
  function EntriesOf(list: seq<ConsumeDescription>): (es: seq<Entry>)
    reads list
    ensures |es| == |list|
    ensures forall i :: 0 <= i < |list| ==>
      es[i] == Entry(list[i].serviceName, list[i].packageName, list[i].Content())
    ensures Keys(es) == KeysOf(list)
  {
    seq(|list|, i reads list requires 0 <= i < |list| =>
      Entry(list[i].serviceName, list[i].packageName, list[i].Content()))
  }

  /** No description object sits twice in the list. */
  predicate Unaliased(list: seq<ConsumeDescription>)
  {
    forall i, j :: 0 <= i < j < |list| ==> list[i] != list[j]
  }

  /** addToList: the first description of the service and package gets path -> {method}
      added and true is returned; without one nothing changes and false is returned. */
  method AddToList(consume: seq<ConsumeDescription>, serviceName: string, packageName: string,
                   path: string, methodName: string) returns (found: bool)
    requires Unaliased(consume)
    modifies consume
    ensures found <==> (serviceName, packageName) in KeysOf(consume)
    ensures found ==> EntriesOf(consume) == AddCall(old(EntriesOf(consume)), Call(serviceName, packageName, path, methodName))
    ensures !found ==> EntriesOf(consume) == old(EntriesOf(consume))
  {
    var key := (serviceName, packageName);
    var i := 0;
    while i < |consume| && !(consume[i].serviceName == serviceName && consume[i].packageName == packageName)
      invariant 0 <= i <= |consume|
      invariant key !in KeysOf(consume)[..i]
    {
      assert KeysOf(consume)[..i + 1] == KeysOf(consume)[..i] + [KeysOf(consume)[i]];
      i := i + 1;
    }
    if i == |consume| {
      assert KeysOf(consume)[..i] == KeysOf(consume);
      return false;
    }
    ghost var es := EntriesOf(consume);
    assert IndexOf(Keys(es), key) == i;
    consume[i].AddPathToMethod(path, {methodName});
    assert forall j :: 0 <= j < |consume| && j != i ==> consume[j] != consume[i];
    found := true;
  }

  /** The end of addConsumesAPIInfo: addToList, or else a new description holding only
      path -> {method}, appended to the list. */
  method Record(consume: seq<ConsumeDescription>, serviceName: string, packageName: string,
                path: string, methodName: string) returns (list: seq<ConsumeDescription>)
    requires Unaliased(consume)
    modifies consume
    ensures Unaliased(list)
    ensures EntriesOf(list) == AddCall(old(EntriesOf(consume)), Call(serviceName, packageName, path, methodName))
    ensures forall i :: 0 <= i < |list| ==> list[i] in consume || fresh(list[i])
  {
    var found := AddToList(consume, serviceName, packageName, path, methodName);
    if found {
      return consume;
    }
    var d := new ConsumeDescription(serviceName, packageName);
    d.AddPathToMethod(path, {methodName});
    list := consume + [d];
    assert IndexOf(Keys(old(EntriesOf(consume))), (serviceName, packageName)) == -1;
  }

  /** The calls of a @ConsumesAPI, from the values read out of it. */
  lemma AnnotationCallsFrom(pkg: string, a: JavaAnnotation, p: ParamValue, m: ParamValue,
                            name: string, path: string, methodName: string)
    requires Param(a, "path") == Some(p) && Param(a, "method") == Some(m)
    requires name == ServiceName(a) && path == TypedPath(Format(Text(p))) && methodName == Format(Text(m))
    ensures AnnotationCalls(pkg, a) ==
      if ValueOf(ToUpper(methodName)).None? then Ok([]) else Ok([Call(name, pkg, path, methodName)])
  {
  }

  /** addConsumesAPIInfo: the call one @ConsumesAPI describes is added to the list, into the
      description of its service and package or, when there is none, into a new one
      appended at the end; a method that is no verb adds nothing; a missing path or method
      throws. */
  method AddConsumesAPIInfo(c: JavaClass, a: JavaAnnotation, consume: seq<ConsumeDescription>)
    returns (r: Result<seq<ConsumeDescription>>)
    requires Unaliased(consume)
    modifies consume
    ensures r.Err? <==> AnnotationCalls(c.packageName, a).Err?
    ensures r.Err? ==> r.error == AnnotationCalls(c.packageName, a).error
    ensures r.Ok? ==> Unaliased(r.value)
    ensures r.Ok? ==>
      EntriesOf(r.value) == Fold(AnnotationCalls(c.packageName, a).value, old(EntriesOf(consume)), AddCall)
    ensures r.Ok? ==> forall i :: 0 <= i < |r.value| ==> r.value[i] in consume || fresh(r.value[i])
  {
    var name := ServiceName(a);
    var p := Param(a, "path");
    if p.None? {
      return Err(NullPointer);
    }
    var path := SetTypeInPath(Format(Text(p.value)));
    var m := Param(a, "method");
    if m.None? {
      return Err(NullPointer);
    }
    var methodName := Format(Text(m.value));
    AnnotationCallsFrom(c.packageName, a, p.value, m.value, name, path, methodName);
    if ValueOf(ToUpper(methodName)).None? {
      return Ok(consume);
    }
    var list := Record(consume, name, c.packageName, path, methodName);
    return Ok(list);
  }

  /** One element of the list value of a @ConsumesAPIs: a nested annotation is read as a
      @ConsumesAPI, any other element adds nothing. */
  method AddElement(c: JavaClass, x: Element, consume: seq<ConsumeDescription>)
    returns (r: Result<seq<ConsumeDescription>>)
    requires Unaliased(consume)
    modifies consume
    ensures r.Err? <==> ElementCalls(c.packageName)(x).Err?
    ensures r.Err? ==> r.error == ElementCalls(c.packageName)(x).error
    ensures r.Ok? ==> Unaliased(r.value)
    ensures r.Ok? ==>
      EntriesOf(r.value) == Fold(ElementCalls(c.packageName)(x).value, old(EntriesOf(consume)), AddCall)
    ensures r.Ok? ==> forall i :: 0 <= i < |r.value| ==> r.value[i] in consume || fresh(r.value[i])
  {
    if x.nested.Some? {
      r := AddConsumesAPIInfo(c, x.nested.value, consume);
    } else {
      r := Ok(consume);
    }
  }

  /** addAllConsumesAPIInfo: every nested annotation in the list value of a @ConsumesAPIs is
      read as a @ConsumesAPI, in order; a value of another kind adds nothing. */
  method AddAllConsumesAPIInfo(c: JavaClass, a: JavaAnnotation, consume: seq<ConsumeDescription>)
    returns (r: Result<seq<ConsumeDescription>>)
    requires Unaliased(consume)
    modifies consume
    ensures r.Err? <==> ContainerCalls(c.packageName, a).Err?
    ensures r.Err? ==> r.error == ContainerCalls(c.packageName, a).error
    ensures r.Ok? ==> Unaliased(r.value)
    ensures r.Ok? ==>
      EntriesOf(r.value) == Fold(ContainerCalls(c.packageName, a).value, old(EntriesOf(consume)), AddCall)
    ensures r.Ok? ==> forall i :: 0 <= i < |r.value| ==> r.value[i] in consume || fresh(r.value[i])
  {
    var val := Param(a, "value");
    if !(val.Some? && val.value.Lst?) {
      return Ok(consume);
    }
    r := AddItems(c, val.value.items, consume);
  }

  /** The loop of addAllConsumesAPIInfo over the elements of the container's value:
      each nested @ConsumesAPI is added in turn, the first failure ends the loop. */
  method AddItems(c: JavaClass, items: seq<Element>, consume: seq<ConsumeDescription>)
    returns (r: Result<seq<ConsumeDescription>>)
    requires Unaliased(consume)
    modifies consume
    ensures r.Err? <==> FlatMapR(items, ElementCalls(c.packageName)).Err?
    ensures r.Err? ==> r.error == FlatMapR(items, ElementCalls(c.packageName)).error
    ensures r.Ok? ==> Unaliased(r.value)
    ensures r.Ok? ==>
      EntriesOf(r.value) == Fold(FlatMapR(items, ElementCalls(c.packageName)).value, old(EntriesOf(consume)), AddCall)
    ensures r.Ok? ==> forall i :: 0 <= i < |r.value| ==> r.value[i] in consume || fresh(r.value[i])
  {
    ghost var F := ElementCalls(c.packageName);
    ghost var cs: seq<Call> := [];
    var list := consume;
    var l := 0;
    while l < |items|
      invariant 0 <= l <= |items|
      invariant FlatMapR(items[..l], F) == Ok(cs)
      invariant Unaliased(list)
      invariant EntriesOf(list) == Fold(cs, old(EntriesOf(consume)), AddCall)
      invariant forall i :: 0 <= i < |list| ==> list[i] in consume || fresh(list[i])
    {
      var step := AddElement(c, items[l], list);
      if step.Err? {
        FlatMapRStepFails(items, F, l, cs);
        return Err(step.error);
      }
      FlatMapRSnoc(items, F, l, cs, F(items[l]).value);
      FoldAppend(cs, F(items[l]).value, old(EntriesOf(consume)), AddCall);
      cs := cs + F(items[l]).value;
      list := step.value;
      l := l + 1;
    }
    WholePrefix(items);
    return Ok(list);
  }

  /** The inner loop of searchForAPIInfo: the annotations of one method, in order; a
      @ConsumesAPI is read on its own, a @ConsumesAPIs as a container. */
  method SearchAnnotations(c: JavaClass, m: JavaMethod, consume: seq<ConsumeDescription>)
    returns (r: Result<seq<ConsumeDescription>>)
    requires Unaliased(consume)
    modifies consume
    ensures r.Err? <==> MethodCalls(c.packageName)(m).Err?
    ensures r.Err? ==> r.error == MethodCalls(c.packageName)(m).error
    ensures r.Ok? ==> Unaliased(r.value)
    ensures r.Ok? ==>
      EntriesOf(r.value) == Fold(MethodCalls(c.packageName)(m).value, old(EntriesOf(consume)), AddCall)
    ensures r.Ok? ==> forall i :: 0 <= i < |r.value| ==> r.value[i] in consume || fresh(r.value[i])
  {
    var anns := m.annotations;
    ghost var F := MethodAnnotationCalls(c.packageName);
    ghost var cs: seq<Call> := [];
    var list := consume;
    var k := 0;
    while k < |anns|
      invariant 0 <= k <= |anns|
      invariant FlatMapR(anns[..k], F) == Ok(cs)
      invariant Unaliased(list)
      invariant EntriesOf(list) == Fold(cs, old(EntriesOf(consume)), AddCall)
      invariant forall i :: 0 <= i < |list| ==> list[i] in consume || fresh(list[i])
    {
      var a := anns[k];
      var step := Ok(list);
      if a.canonicalName == ConsumesApiName {
        step := AddConsumesAPIInfo(c, a, list);
      }
      if a.canonicalName == ConsumesApisName {
        step := AddAllConsumesAPIInfo(c, a, list);
      }
      if step.Err? {
        FlatMapRStepFails(anns, F, k, cs);
        return Err(step.error);
      }
      FlatMapRSnoc(anns, F, k, cs, F(a).value);
      FoldAppend(cs, F(a).value, old(EntriesOf(consume)), AddCall);
      cs := cs + F(a).value;
      list := step.value;
      k := k + 1;
    }
    WholePrefix(anns);
    return Ok(list);
  }

  /** searchForAPIInfo: the methods of a class, in order. */
  method SearchForAPIInfo(c: JavaClass, consume: seq<ConsumeDescription>)
    returns (r: Result<seq<ConsumeDescription>>)
    requires Unaliased(consume)
    modifies consume
    ensures r.Err? <==> FlatMapR(c.methods, MethodCalls(c.packageName)).Err?
    ensures r.Err? ==> r.error == FlatMapR(c.methods, MethodCalls(c.packageName)).error
    ensures r.Ok? ==> Unaliased(r.value)
    ensures r.Ok? ==>
      EntriesOf(r.value) == Fold(FlatMapR(c.methods, MethodCalls(c.packageName)).value, old(EntriesOf(consume)), AddCall)
    ensures r.Ok? ==> forall i :: 0 <= i < |r.value| ==> r.value[i] in consume || fresh(r.value[i])
  {
    ghost var F := MethodCalls(c.packageName);
    ghost var cs: seq<Call> := [];
    var list := consume;
    var j := 0;
    while j < |c.methods|
      invariant 0 <= j <= |c.methods|
      invariant FlatMapR(c.methods[..j], F) == Ok(cs)
      invariant Unaliased(list)
      invariant EntriesOf(list) == Fold(cs, old(EntriesOf(consume)), AddCall)
      invariant forall i :: 0 <= i < |list| ==> list[i] in consume || fresh(list[i])
    {
      var step := SearchAnnotations(c, c.methods[j], list);
      if step.Err? {
        FlatMapRStepFails(c.methods, F, j, cs);
        return Err(step.error);
      }
      FlatMapRSnoc(c.methods, F, j, cs, F(c.methods[j]).value);
      FoldAppend(cs, F(c.methods[j]).value, old(EntriesOf(consume)), AddCall);
      cs := cs + F(c.methods[j]).value;
      list := step.value;
      j := j + 1;
    }
    WholePrefix(c.methods);
    return Ok(list);
  }

  /** getAPIConsumption: the classes that import the annotation are searched in order, into
      one list of new descriptions; it throws when reading an annotation does. */
  method GetAPIConsumption(classes: seq<JavaClass>) returns (r: Result<seq<ConsumeDescription>>)
    ensures r.Err? <==> Consumption(classes).Err?
    ensures r.Err? ==> r.error == Consumption(classes).error
    ensures r.Ok? ==> EntriesOf(r.value) == Consumption(classes).value
    ensures r.Ok? ==> Unaliased(r.value) && forall i :: 0 <= i < |r.value| ==> fresh(r.value[i])
  {
    ghost var cs: seq<Call> := [];
    var list: seq<ConsumeDescription> := [];
    var i := 0;
    while i < |classes|
      invariant 0 <= i <= |classes|
      invariant FlatMapR(classes[..i], ClassCallsOf) == Ok(cs)
      invariant Unaliased(list)
      invariant EntriesOf(list) == Fold(cs, [], AddCall)
      invariant forall k :: 0 <= k < |list| ==> fresh(list[k])
    {
      var c := classes[i];
      var step := Ok(list);
      if ConsumesApiName in c.imports {
        step := SearchForAPIInfo(c, list);
      }
      if step.Err? {
        FlatMapRStepFails(classes, ClassCallsOf, i, cs);
        return Err(step.error);
      }
      FlatMapRSnoc(classes, ClassCallsOf, i, cs, ClassCallsOf(c).value);
      FoldAppend(cs, ClassCallsOf(c).value, [], AddCall);
      cs := cs + ClassCallsOf(c).value;
      list := step.value;
      i := i + 1;
    }
    WholePrefix(classes);
    return Ok(list);
  }
}
