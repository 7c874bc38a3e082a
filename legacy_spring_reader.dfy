/** reader.SPRINGReader, the older Spring reader: annotations are recognised by their simple
    names, paths are not typed, there is no context path and the result is one flat list. */
module LegacySpringReader {
  import opened Common
  import opened Http
  import opened JavaModel
  import opened SpringMapping

  /** getMethodAnnotations of one method of a class with the given base mappings. */
  function ForMethod(bases: Option<seq<Mapping>>): JavaMethod -> Result<seq<Endpoint>>
  {
    (m: JavaMethod) => MethodEndpoints(SimpleTables, false, bases, m)
  }

  /** The paths one class contributes: those of all its methods when it is a controller or
      has a base mapping, none otherwise. */
  function ClassEndpoints(c: JavaClass): Result<seq<Endpoint>>
  {
    var base := BaseMapping(SimpleTables, c.annotations);
    if HasController(SimpleTables, c.annotations) || base.Some? then
      FlatMapR(c.methods, ForMethod(base))
    else Ok([])
  }

  const ForClass: JavaClass -> Result<seq<Endpoint>> := (c: JavaClass) => ClassEndpoints(c)

  /** getPathsAndMethods: the paths of all classes, class after class. */
  function PathsAndMethods(classes: seq<JavaClass>): Result<seq<Endpoint>>
  {
    FlatMapR(classes, ForClass)
  }

  /** The list holds exactly the pairs of the classes, and fails when one class fails. */
  lemma PathsAndMethodsMembers(classes: seq<JavaClass>, e: Endpoint)
    ensures PathsAndMethods(classes).Ok? <==>
      forall i :: 0 <= i < |classes| ==> ClassEndpoints(classes[i]).Ok?
    ensures PathsAndMethods(classes).Ok? ==>
      (e in PathsAndMethods(classes).value <==>
        exists i :: 0 <= i < |classes| && ClassEndpoints(classes[i]).Ok? && e in ClassEndpoints(classes[i]).value)
  {
    FlatMapROk(classes, ForClass);
    if PathsAndMethods(classes).Ok? {
      FlatMapRMember(classes, ForClass, e);
    }
  }

  /** A class that is neither a controller nor carries a class-level mapping is skipped. */
  lemma PlainClassSkipped(c: JavaClass)
    requires forall i :: 0 <= i < |c.annotations| ==>
      !IsController(SimpleTables, c.annotations[i]) && !IsMappingAnnotation(SimpleTables, c.annotations[i])
    ensures ClassEndpoints(c) == Ok([])
  {
  }

  /** The loop over a class's methods. */
  method MethodPaths(bases: Option<seq<Mapping>>, methods: seq<JavaMethod>) returns (r: Result<seq<Endpoint>>)
    ensures r == FlatMapR(methods, ForMethod(bases))
  {
    var paths: seq<Endpoint> := [];
    var k := 0;
    while k < |methods|
      invariant 0 <= k <= |methods|
      invariant FlatMapR(methods[..k], ForMethod(bases)) == Ok(paths)
    {
      var step := GetMethodAnnotations(SimpleTables, false, methods[k], bases);
      if step.Err? {
        FlatMapRStepFails(methods, ForMethod(bases), k, paths);
        return Err(step.error);
      }
      FlatMapRSnoc(methods, ForMethod(bases), k, paths, step.value);
      paths := paths + step.value;
      k := k + 1;
    }
    assert methods[..k] == methods;
    r := Ok(paths);
  }

  /** One class: its base mapping and controller flag, then its methods when either is set. */
  method ClassPaths(c: JavaClass) returns (r: Result<seq<Endpoint>>)
    ensures r == ClassEndpoints(c)
  {
    var baseMapping, controller := GetBaseMappingAndController(SimpleTables, c.annotations);
    if controller || baseMapping.Some? {
      r := MethodPaths(baseMapping, c.methods);
    } else {
      r := Ok([]);
    }
  }

  /** SPRINGReader.getPathsAndMethods of the older reader, from the parsed classes. */
  method GetPathsAndMethods(classes: seq<JavaClass>) returns (r: Result<seq<Endpoint>>)
    ensures r == PathsAndMethods(classes)
  {
    var paths: seq<Endpoint> := [];
    var k := 0;
    while k < |classes|
      invariant 0 <= k <= |classes|
      invariant FlatMapR(classes[..k], ForClass) == Ok(paths)
    {
      var step := ClassPaths(classes[k]);
      if step.Err? {
        FlatMapRStepFails(classes, ForClass, k, paths);
        return Err(step.error);
      }
      FlatMapRSnoc(classes, ForClass, k, paths, step.value);
      paths := paths + step.value;
      k := k + 1;
    }
    assert classes[..k] == classes;
    r := Ok(paths);
  }
}
