/** The HTTP verb enumeration util.HttpMethods and its positional name tables. */
module Http {
  import opened Common

  datatype HttpMethod = GET | PUT | POST | DELETE | HEAD | OPTIONS | PATCH

  /** HttpMethods.values(): every verb, in declaration order. */
  const Values: seq<HttpMethod> := [GET, PUT, POST, DELETE, HEAD, OPTIONS, PATCH]

  /** HttpMethods.ordinal(): the position of m in Values. */
  function Ordinal(m: HttpMethod): (i: nat)
    ensures i < |Values| && Values[i] == m
  {
    match m
    case GET => 0
    case PUT => 1
    case POST => 2
    case DELETE => 3
    case HEAD => 4
    case OPTIONS => 5
    case PATCH => 6
  }

  /** HttpMethods.name() */
  function Name(m: HttpMethod): string
  {
    match m
    case GET => "GET"
    case PUT => "PUT"
    case POST => "POST"
    case DELETE => "DELETE"
    case HEAD => "HEAD"
    case OPTIONS => "OPTIONS"
    case PATCH => "PATCH"
  }

  /** The first verb of vs named s. */
  function Lookup(s: string, vs: seq<HttpMethod>): (r: Option<HttpMethod>)
    ensures r.Some? ==> Name(r.value) == s && r.value in vs
    ensures r.None? ==> forall i :: 0 <= i < |vs| ==> Name(vs[i]) != s
    decreases |vs|
  {
    if vs == [] then None
    else if Name(vs[0]) == s then Some(vs[0])
    else Lookup(s, vs[1..])
  }

  /** HttpMethods.valueOf(s): the verb of that name, with the IllegalArgumentException for
      an unknown name as None. */
  function ValueOf(s: string): (r: Option<HttpMethod>)
    ensures r.Some? ==> Name(r.value) == s
    ensures forall m :: Name(m) == s ==> r == Some(m)
  {
    LookupValues(s);
    Lookup(s, Values)
  }

  /** No two verbs share a name. */
  lemma NameInjective(a: HttpMethod, b: HttpMethod)
    requires Name(a) == Name(b)
    ensures a == b
  {
    assert |Name(a)| == |Name(b)| && Name(a)[0] == Name(b)[0];
  }

  /** Every verb is found by its name. */
  lemma LookupValues(s: string)
    ensures forall m :: Name(m) == s ==> Lookup(s, Values) == Some(m)
  {
    forall m | Name(m) == s
      ensures Lookup(s, Values) == Some(m)
    {
      assert Values[Ordinal(m)] == m;
      NameInjective(Lookup(s, Values).value, m);
    }
  }

  /** The string table HTTP_METHOD_TYPE shared by the older readers. */
  const MethodTypeNames: seq<string> := ["GET", "PUT", "POST", "DELETE", "HEAD", "OPTIONS", "PATCH"]

  /** The string table lists the verb names in enumeration order. */
  lemma MethodTypeNamesAligned()
    ensures |MethodTypeNames| == |Values|
    ensures forall i :: 0 <= i < |Values| ==> MethodTypeNames[i] == Name(Values[i])
  {
  }
}
