/** util.OfferDescription: the REST endpoints one package offers, as a mutable record. */
module Offers {
  import opened Common
  import opened Http
  import opened PathMaps

  class OfferDescription {
    /** Set once, right after construction, by every reader. */
    const packageName: string
    /** pathToMethodMappings; None while the Java field is still null. */
    var mappings: Option<PathMap<HttpMethod>>

    /** new OfferDescription() followed by setPackageName(packageName). */
    constructor (packageName: string)
      ensures this.packageName == packageName && mappings == None
    {
      this.packageName := packageName;
      mappings := None;
    }

    /** The mappings, with a null map read as an empty one. */
    function Content(): PathMap<HttpMethod>
      reads this
    {
      if mappings.Some? then mappings.value else map[]
    }

    /** addPathToMethod: creates the map when null, then adds verb to the entry of path,
        creating the entry when missing. */
    method AddPathToMethod(path: string, verb: HttpMethod)
      modifies this
      ensures mappings == Some(UnionAt(old(Content()), path, {verb}))
      ensures verb in Content()[path]
    {
      var m := if mappings.None? then map[] else mappings.value;
      assert m == old(Content());
      if path !in m {
        assert At(m, path) + {verb} == {verb};
        m := m[path := {verb}];
      } else {
        m := m[path := m[path] + {verb}];
      }
      mappings := Some(m);
      assert Content() == m;
    }

    /** addPathToMethods: a null map adopts the given one; otherwise every (path, verb) pair
        of the given map is added, in the map's (unspecified) iteration order. */
    method AddPathToMethods(given: PathMap<HttpMethod>)
      modifies this
      ensures old(mappings).None? ==> mappings == Some(given)
      ensures old(mappings).Some? ==> mappings == Some(Absorb(old(mappings.value), given))
    {
      if mappings.None? {
        mappings := Some(given);
        return;
      }
      ghost var m0 := mappings.value;
      var todo := given.Keys;
      ghost var done: PathMap<HttpMethod> := map[];
      AbsorbNone(m0);
      while todo != {}
        invariant todo <= given.Keys && done.Keys == given.Keys - todo
        invariant forall p :: p in done ==> done[p] == given[p]
        invariant mappings == Some(Absorb(m0, done))
        decreases todo
      {
        var path :| path in todo;
        var verbs := given[path];
        ghost var added: set<HttpMethod> := {};
        AbsorbEmptyEntry(m0, done, path);
        while verbs != {}
          invariant added + verbs == given[path] && added !! verbs
          invariant mappings == Some(Absorb(m0, done[path := added]))
            decreases verbs
        {
          var verb :| verb in verbs;
          AbsorbGrow(m0, done, path, added, verb);
          AddPathToMethod(path, verb);
          added := added + {verb};
          verbs := verbs - {verb};
        }
        done := done[path := added];
        todo := todo - {path};
      }
      assert done == given;
    }
  }
}
