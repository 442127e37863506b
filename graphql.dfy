/** The part of a GraphQL schema and of the per-field resolve info that the
    cache-key code inspects. */
module GraphQL {
  import opened Js

  /** An argument's value node: `Kind.STRING` carries its text; every other
      kind is lumped together. */
  datatype ArgumentValue = StringValue(value: string) | OtherValue

  datatype Argument = Argument(name: string, value: ArgumentValue)

  /** A directive on a type definition, such as `@key(fields: "id")`. */
  datatype Directive = Directive(name: string, arguments: seq<Argument>)

  /** Output types. `astNode` is an object type's definition node, reduced to
      its directives; `None` when the type was built without one. */
  datatype OutputType =
    | ObjectType(name: string, astNode: Option<seq<Directive>>)
    | ScalarType(name: string)
    | NonNullType(ofType: OutputType)

  /** The fields of `GraphQLResolveInfo` that the key code reads. */
  datatype ResolveInfo = ResolveInfo(returnType: OutputType, parentType: OutputType, fieldName: string)

  datatype CacheScope = Public | Private

  /** A cache hint as the query engine supplies it, reduced to its optional
      scope (its `maxAge` is read by none of the modelled code). */
  datatype CacheHint = CacheHint(scope: Option<CacheScope>)

  /** `node.name` rendered by a template literal: a non-null wrapper has no
      `name` property, so it renders as `undefined`. */
  function NameOf(t: OutputType): string {
    match t
    case ObjectType(n, _) => n
    case ScalarType(n) => n
    case NonNullType(_) => "undefined"
  }

  /** `i` is the index of the first directive called `name`. */
  ghost predicate IsFirstDirective(ds: seq<Directive>, i: int, name: string) {
    0 <= i < |ds| && ds[i].name == name && forall j :: 0 <= j < i ==> ds[j].name != name
  }

  /** `j` is the index of the first argument called `name`. */
  ghost predicate IsFirstArgument(args: seq<Argument>, j: int, name: string) {
    0 <= j < |args| && args[j].name == name && forall k :: 0 <= k < j ==> args[k].name != name
  }

  /** `directives.find(dir => dir.name.value === name)`, as an index. */
  function FindDirective(ds: seq<Directive>, name: string): (r: Option<nat>)
    ensures r.Some? ==> IsFirstDirective(ds, r.value, name)
    ensures forall i :: IsFirstDirective(ds, i, name) ==> r == Some(i)
    ensures r.None? <==> forall i :: 0 <= i < |ds| ==> ds[i].name != name
    decreases |ds|
  {
    if ds == [] then None
    else if ds[0].name == name then Some(0)
    else
      match FindDirective(ds[1..], name)
      case None => None
      case Some(i) => Some(i + 1)
  }

  /** `arguments.find(arg => arg.name.value === name)`, as an index. */
  function FindArgument(args: seq<Argument>, name: string): (r: Option<nat>)
    ensures r.Some? ==> IsFirstArgument(args, r.value, name)
    ensures forall j :: IsFirstArgument(args, j, name) ==> r == Some(j)
    ensures r.None? <==> forall j :: 0 <= j < |args| ==> args[j].name != name
    decreases |args|
  {
    if args == [] then None
    else if args[0].name == name then Some(0)
    else
      match FindArgument(args[1..], name)
      case None => None
      case Some(j) => Some(j + 1)
  }
}
