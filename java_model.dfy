/** The facts the analysers read from a project's Java sources, as plain values. */
module JavaModel {
  import opened Common

  /** A node below a source root: a directory with its entries in listing order, a Java
      source file with its import list, or a file that cannot be opened. */
  datatype SourceNode =
    | Dir(name: string, children: seq<SourceNode>)
    | File(imports: seq<string>)
    | Unreadable

  /** The value of an annotation parameter as the source parser hands it out: a single
      expression (a string literal keeps its quotes), a list, or an expression of another
      kind. `text` is its toString(). */
  datatype ParamValue =
    | Str(text: string)
    | Lst(items: seq<Element>)
    | Other(text: string)

  /** An element of a list value: its toString(), and the annotation it is when the element
      is a nested annotation. */
  datatype Element = Element(text: string, nested: Option<JavaAnnotation>)

  /** An annotation: its type's canonical and simple name and its named parameters. */
  datatype JavaAnnotation = JavaAnnotation(
    canonicalName: string,
    simpleName: string,
    params: map<string, ParamValue>)

  /** A method parameter: its name, the simple name of its type, its annotations. */
  datatype JavaParameter = JavaParameter(
    name: string,
    typeName: string,
    annotations: seq<JavaAnnotation>)

  datatype JavaMethod = JavaMethod(
    annotations: seq<JavaAnnotation>,
    parameters: seq<JavaParameter>)

  /** A class of the source tree as the parser lists it. */
  datatype JavaClass = JavaClass(
    packageName: string,
    imports: seq<string>,
    annotations: seq<JavaAnnotation>,
    methods: seq<JavaMethod>)

  /** Object.toString() of a parameter value; a list prints as "[a, b]". */
  function Text(v: ParamValue): string
  {
    match v
    case Str(t) => t
    case Lst(items) => "[" + JoinComma(Texts(items)) + "]"
    case Other(t) => t
  }

  /** The toString() of every element, in order. */
  function Texts(items: seq<Element>): (r: seq<string>)
    ensures |r| == |items| && forall i :: 0 <= i < |items| ==> r[i] == items[i].text
  {
    seq(|items|, i requires 0 <= i < |items| => items[i].text)
  }

  function JoinComma(items: seq<string>): string
    decreases |items|
  {
    if items == [] then ""
    else if |items| == 1 then items[0]
    else items[0] + ", " + JoinComma(items[1..])
  }

  /** annotation.getNamedParameter(key), with null as None. */
  function Param(a: JavaAnnotation, key: string): Option<ParamValue>
  {
    if key in a.params then Some(a.params[key]) else None
  }
}
