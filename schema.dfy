// Model of `function_to_json` (swarm/util.py): the translation of a
// function's parameter list into a JSON-Schema-style tool description.
//
// Python's runtime reflection (inspect.signature, get_origin, get_args,
// __metadata__) is replaced by a tagged description of each declared
// parameter; the two table lookups the source performs are written out as
// `OriginLookup` and `TableLookup`.

module Schema {

  datatype Option<T> = None | Some(value: T)

  datatype Result<T, E> = Ok(value: T) | Err(error: E)

  /** The schema vocabulary: the values of the source's type table. */
  datatype JsonType = String | Integer | Number | Boolean | Array | Object | Null

  /** The name a JSON-Schema consumer sees for each JsonType. */
  function TypeName(t: JsonType): (name: string)
    ensures name in {"string", "integer", "number", "boolean", "array", "object", "null"}
  {
    match t
    case String => "string"
    case Integer => "integer"
    case Number => "number"
    case Boolean => "boolean"
    case Array => "array"
    case Object => "object"
    case Null => "null"
  }

  /** The built-in classes that are keys of the type table, NoneType aside. */
  datatype Base = Str | Int | Float | Bool | List | Dict

  /** The origin class of a subscripted generic: list[...], dict[...], or any
      other one (tuple[...], set[...], a union that is not a table key, ...). */
  datatype Origin = ListOrigin | DictOrigin | OtherOrigin

  /** One item of the metadata of an `Annotated[T, ...]` form; an item that
      is not a string may or may not be hashable (33 is, {"k": 1} is not). */
  datatype Metadata = Text(text: string) | NotText(hashable: bool)

  /** A declared parameter type, tagged by the shape reflection would see. */
  datatype TypeExpr =
    | Plain(base: Base)                             // str, int, float, bool, list, dict
    | NoneType                                      // type(None)
    | Optional(base: Base)                          // str | None, ..., dict | None
    | Generic(origin: Origin, args: seq<TypeExpr>)  // list[int], dict[str, int], tuple[int], list[int] | None, ...
    | Annotated(inner: TypeExpr, metadata: seq<Metadata>)
    | Other(hashable: bool)                         // any other class, the literal None, or an unhashable object such as [int]

  /** A parameter annotation: absent (`inspect.Parameter.empty`) or declared. */
  datatype Annotation = Empty | Declared(declared: TypeExpr)

  datatype Parameter = Parameter(name: string, annotation: Annotation, hasDefault: bool)

  /** One entry of `properties`; `description` and `items` may be absent. */
  datatype Property = Property(description: Option<string>, items: Option<JsonType>, typ: JsonType)

  /** The `parameters` object; `kind` is its "type" field. */
  datatype Parameters = Parameters(
    kind: string,
    properties: seq<(string, Property)>,
    required: seq<string>,
    additionalProperties: bool)

  datatype FunctionSchema = FunctionSchema(name: string, description: string, parameters: Parameters)

  /** The whole tool description; `kind` is its top-level "type" field. */
  datatype Tool = Tool(kind: string, schema: FunctionSchema)

  /** The exceptions the source raises: a ValueError when the signature
      cannot be obtained, a TypeError for an unsupported list type, and the
      TypeError of a dictionary lookup with an unhashable key. */
  datatype Error =
    | SignatureUnavailable(functionName: string)
    | UnsupportedType(annotation: TypeExpr)
    | Unhashable(annotation: TypeExpr)

  // ---------------------------------------------------------------------
  // The type table and the two lookups
  // ---------------------------------------------------------------------

  /** The table entry of each built-in class. */
  function BaseType(b: Base): (r: JsonType)
    ensures r != Null
    ensures r == Array <==> b == List
    ensures r == Object <==> b == Dict
  {
    match b
    case Str => String
    case Int => Integer
    case Float => Number
    case Bool => Boolean
    case List => Array
    case Dict => Object
  }

  /** `type_map.get(t)`: only the table's own keys are found. */
  function TableLookup(t: TypeExpr): (r: Option<JsonType>)
    ensures r.Some? <==> (t.Plain? || t.Optional? || t.NoneType?)
    ensures t.NoneType? ==> r == Some(Null)
    ensures t.Plain? || t.Optional? ==> r == Some(BaseType(t.base))
  {
    match t
    case Plain(b) => Some(BaseType(b))
    case Optional(b) => Some(BaseType(b))
    case NoneType => Some(Null)
    case _ => None
  }

  /** `type_map.get(get_origin(t))`: only list[...] and dict[...] have an
      origin that is a table key (a union's origin is types.UnionType). */
  function OriginLookup(t: TypeExpr): (r: Option<JsonType>)
    ensures r.Some? <==> t.Generic? && t.origin != OtherOrigin
    ensures r.Some? ==> r.value == (if t.origin == ListOrigin then Array else Object)
  {
    match t
    case Generic(ListOrigin, _) => Some(Array)
    case Generic(DictOrigin, _) => Some(Object)
    case _ => None
  }

  /** `type_map.get(get_origin(t)) or type_map.get(t)`. */
  function Resolve(t: TypeExpr): (r: Option<JsonType>)
    ensures r == Some(Array) <==> t in {Plain(List), Optional(List)} || (t.Generic? && t.origin == ListOrigin)
  {
    if OriginLookup(t).Some? then OriginLookup(t) else TableLookup(t)
  }

  /** `get_args(t)` for the types that resolve to "array": none for bare
      `list`, `(list, NoneType)` for `list | None`, the subscripts otherwise. */
  function ArrayArgs(t: TypeExpr): (args: seq<TypeExpr>)
    requires Resolve(t) == Some(Array)
    ensures t == Plain(List) ==> args == []
    ensures t == Optional(List) ==> args == [Plain(List), NoneType]
    ensures t.Generic? ==> args == t.args
  {
    match t
    case Generic(_, args) => args
    case Optional(b) => [Plain(b), NoneType]
    case _ => []
  }

  /** The `Annotated` step: the description, if the metadata is exactly one
      string, and the type that is resolved afterwards. */
  function Unwrap(t: TypeExpr): (r: (Option<string>, TypeExpr))
    ensures r.0.Some? ==> t == Annotated(r.1, [Text(r.0.value)])
    ensures r.0.None? ==> r.1 == t && !(t.Annotated? && |t.metadata| == 1 && t.metadata[0].Text?)
  {
    if t.Annotated? && |t.metadata| == 1 && t.metadata[0].Text? then
      (Some(t.metadata[0].text), t.inner)
    else
      (None, t)
  }

  /** `hash(t)` succeeds: a generic alias hashes its arguments, an
      `Annotated` form its type and its metadata. */
  function Hashable(t: TypeExpr): (h: bool)
    ensures TableLookup(t).Some? ==> h
    ensures t.Other? ==> (h <==> t.hashable)
    ensures t.Annotated? && (exists i :: 0 <= i < |t.metadata| && t.metadata[i] == NotText(false)) ==> !h
    ensures t.Generic? && (exists i :: 0 <= i < |t.args| && t.args[i] == Other(false)) ==> !h
  {
    match t
    case Generic(_, args) => forall i :: 0 <= i < |args| ==> Hashable(args[i])
    case Annotated(inner, metadata) =>
      Hashable(inner) && forall i :: 0 <= i < |metadata| ==> metadata[i].Text? || metadata[i].hashable
    case Other(hashable) => hashable
    case _ => true
  }

  // ---------------------------------------------------------------------
  // One parameter
  // ---------------------------------------------------------------------

  /** Resolves an (already unwrapped) declared type to its property. */
  function ResolveProperty(description: Option<string>, t: TypeExpr): (r: Result<Property, Error>)
    ensures OriginLookup(t).None? && !Hashable(t) ==> r == Err(Unhashable(t))
    ensures r.Err? && r.error.UnsupportedType? <==>
              && Resolve(t) == Some(Array) && ArrayArgs(t) != []
              && !(|ArrayArgs(t)| == 1 && (TableLookup(ArrayArgs(t)[0]).Some? || !Hashable(ArrayArgs(t)[0])))
    ensures r.Err? && r.error.UnsupportedType? ==> r.error == UnsupportedType(t)
    ensures r.Err? && r.error.Unhashable? ==>
              !Hashable(r.error.annotation)
              && (r.error.annotation == t || (Resolve(t) == Some(Array) && ArrayArgs(t) == [r.error.annotation]))
    ensures r.Err? ==> !r.error.SignatureUnavailable?
    ensures r.Ok? ==> r.value.description == description
    ensures r.Ok? ==> (r.value.items.Some? ==> r.value.typ == Array)
    ensures r.Ok? && Resolve(t) == Some(Array) ==>
              r.value.typ == Array
              && r.value.items == (if ArrayArgs(t) == [] then None else TableLookup(ArrayArgs(t)[0]))
    ensures r.Ok? && Resolve(t).Some? && Resolve(t) != Some(Array) ==>
              r.value == Property(description, None, Resolve(t).value)
    ensures Resolve(t).Some? && Resolve(t) != Some(Array) ==> r.Ok?
    ensures r.Ok? && Resolve(t).None? ==> r.value == Property(description, None, String)
  {
    var resolved := Resolve(t);
    if OriginLookup(t).None? && !Hashable(t) then
      Err(Unhashable(t))
    else if resolved == Some(Array) then
      var args := ArrayArgs(t);
      if args == [] then
        Ok(Property(description, None, Array))
      else if |args| == 1 && !Hashable(args[0]) then
        Err(Unhashable(args[0]))
      else if |args| == 1 && TableLookup(args[0]).Some? then
        Ok(Property(description, TableLookup(args[0]), Array))
      else
        Err(UnsupportedType(t))
    else if resolved.Some? then
      Ok(Property(description, None, resolved.value))
    else
      Ok(Property(description, None, String))
  }

  /** The body of the source's loop for one parameter. */
  function PropertyFor(p: Parameter): (r: Result<Property, Error>)
    ensures p.annotation.Empty? ==> r == Ok(Property(None, None, String))
    ensures r.Ok? && r.value.items.Some? ==> r.value.typ == Array
    ensures r.Ok? && r.value.description.Some? ==>
              p.annotation.Declared? && p.annotation.declared.Annotated?
              && p.annotation.declared.metadata == [Text(r.value.description.value)]
  {
    match p.annotation
    case Empty => Ok(Property(None, None, String))
    case Declared(t) =>
      var (description, u) := Unwrap(t);
      ResolveProperty(description, u)
  }

  // ---------------------------------------------------------------------
  // The parameter list
  // ---------------------------------------------------------------------

  function Names(ps: seq<Parameter>): (names: seq<string>)
    ensures |names| == |ps| && forall i :: 0 <= i < |ps| ==> names[i] == ps[i].name
  {
    seq(|ps|, i requires 0 <= i < |ps| => ps[i].name)
  }

  /** Python signatures never repeat a parameter name. */
  predicate DistinctNames(ps: seq<Parameter>) {
    forall i, j :: 0 <= i < j < |ps| ==> ps[i].name != ps[j].name
  }

  /** The first parameter whose property cannot be built, if any. */
  predicate FailsFirstAt(ps: seq<Parameter>, i: int, e: Error) {
    0 <= i < |ps| && PropertyFor(ps[i]) == Err(e)
    && forall j :: 0 <= j < i ==> PropertyFor(ps[j]).Ok?
  }

  /** The `properties` dictionary, built parameter by parameter in signature
      order; the first TypeError aborts the whole translation. */
  function BuildProperties(ps: seq<Parameter>): (r: Result<seq<(string, Property)>, Error>)
    ensures r.Ok? <==> forall i :: 0 <= i < |ps| ==> PropertyFor(ps[i]).Ok?
    ensures r.Ok? ==> |r.value| == |ps|
    ensures r.Ok? ==> forall i :: 0 <= i < |ps| ==>
              r.value[i] == (ps[i].name, PropertyFor(ps[i]).value)
    ensures r.Err? ==> exists i :: FailsFirstAt(ps, i, r.error)
  {
    if ps == [] then Ok([])
    else
      match PropertyFor(ps[0])
      case Err(e) =>
        assert FailsFirstAt(ps, 0, e);
        Err(e)
      case Ok(property) =>
        match BuildProperties(ps[1..])
        case Err(e) =>
          var k :| FailsFirstAt(ps[1..], k, e);
          assert FailsFirstAt(ps, k + 1, e) by {
            forall j | 0 <= j < k + 1 ensures PropertyFor(ps[j]).Ok? {
              if j > 0 { assert ps[j] == ps[1..][j - 1]; }
            }
          }
          Err(e)
        case Ok(rest) =>
          assert forall i :: 1 <= i < |ps| ==> ps[i] == ps[1..][i - 1];
          Ok([(ps[0].name, property)] + rest)
  }

  /** The `required` list: the names of the parameters without a default. */
  function Required(ps: seq<Parameter>): (names: seq<string>)
    ensures |names| <= |ps|
    ensures forall x :: x in names ==> x in Names(ps)
  {
    if ps == [] then []
    else (if ps[0].hasDefault then [] else [ps[0].name]) + Required(ps[1..])
  }

  // ---------------------------------------------------------------------
  // The whole translation
  // ---------------------------------------------------------------------

  /** `function_to_json`: `signature` is None when introspection fails,
      `doc` is the docstring. */
  function FunctionToJson(name: string, doc: Option<string>, signature: Option<seq<Parameter>>): (r: Result<Tool, Error>)
    requires signature.Some? ==> DistinctNames(signature.value)
    ensures signature.None? ==> r == Err(SignatureUnavailable(name))
    ensures r.Ok? ==>
              && r.value.kind == "function"
              && r.value.schema.name == name
              && r.value.schema.description == (if doc.Some? then doc.value else "")
              && r.value.schema.parameters.kind == "object"
              && !r.value.schema.parameters.additionalProperties
    ensures signature.Some? ==>
              (r.Ok? <==> forall i :: 0 <= i < |signature.value| ==> PropertyFor(signature.value[i]).Ok?)
    ensures r.Ok? ==>
              var ps, schema := signature.value, r.value.schema.parameters;
              && |schema.properties| == |ps|
              && (forall i :: 0 <= i < |ps| ==> schema.properties[i] == (ps[i].name, PropertyFor(ps[i]).value))
              && (forall i, j :: 0 <= i < j < |ps| ==> schema.properties[i].0 != schema.properties[j].0)
              && schema.required == Required(ps)
    ensures signature.Some? && r.Err? ==> exists i :: FailsFirstAt(signature.value, i, r.error)
  {
    match signature
    case None => Err(SignatureUnavailable(name))
    case Some(ps) =>
      match BuildProperties(ps)
      case Err(e) => Err(e)
      case Ok(properties) =>
        Ok(Tool("function", FunctionSchema(
          name,
          if doc.Some? then doc.value else "",
          Parameters("object", properties, Required(ps), false))))
  }
}
