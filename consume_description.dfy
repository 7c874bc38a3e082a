/** util.ConsumeDescription: the REST endpoints one package consumes from one service. */
module Consumes {
  import opened Common
  import opened PathMaps

  class ConsumeDescription {
    /** Both names are set once, right after construction. */
    const serviceName: string
    const packageName: string
    /** pathToMethods; None while the Java field is still null. The verbs are kept as the
        strings written in the annotation. */
    var pathToMethods: Option<PathMap<string>>

    /** new ConsumeDescription() followed by setServiceName and setPackageName. */
    constructor (serviceName: string, packageName: string)
      ensures this.serviceName == serviceName && this.packageName == packageName
      ensures pathToMethods == None
    {
      this.serviceName := serviceName;
      this.packageName := packageName;
      pathToMethods := None;
    }

    /** The map, with a null map read as an empty one. */
    function Content(): PathMap<string>
      reads this
    {
      if pathToMethods.Some? then pathToMethods.value else map[]
    }

    /** addPathToMethod: a null or empty map is replaced by {path: methods}; an existing entry
        gets methods added; a missing entry is created with methods. */
    method AddPathToMethod(path: string, methods: set<string>)
      modifies this
      ensures pathToMethods == Some(UnionAt(old(Content()), path, methods))
    {
      if pathToMethods.None? || pathToMethods.value == map[] {
        assert UnionAt(Content(), path, methods) == map[path := methods] by {
          assert At(Content(), path) + methods == methods;
        }
        pathToMethods := Some(map[path := methods]);
      } else {
        var m := pathToMethods.value;
        if path in m {
          pathToMethods := Some(m[path := m[path] + methods]);
        } else {
          assert At(m, path) + methods == methods;
          pathToMethods := Some(m[path := methods]);
        }
      }
    }
  }
}
