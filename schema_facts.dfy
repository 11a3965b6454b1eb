// Properties of the schema translation: the `required` list, the type
// table, `Annotated` descriptions, list item types, and the source's own
// test cases (tests/test_util.py).

module SchemaFacts {
  import opened Schema

  // ---------------------------------------------------------------------
  // The `required` list
  // ---------------------------------------------------------------------

  /** A name is required exactly when some parameter of that name has no default. */
  lemma {:induction false} RequiredMembers(ps: seq<Parameter>, x: string)
    ensures x in Required(ps) <==> exists i :: 0 <= i < |ps| && ps[i].name == x && !ps[i].hasDefault
  {
    if ps != [] {
      RequiredMembers(ps[1..], x);
      if x in Required(ps[1..]) {
        var i :| 0 <= i < |ps[1..]| && ps[1..][i].name == x && !ps[1..][i].hasDefault;
        assert ps[i + 1] == ps[1..][i];
      }
      if exists i :: 0 <= i < |ps| && ps[i].name == x && !ps[i].hasDefault {
        var i :| 0 <= i < |ps| && ps[i].name == x && !ps[i].hasDefault;
        if i > 0 { assert ps[1..][i - 1] == ps[i]; }
      }
    }
  }

  /** `required` keeps signature order: the list of a concatenated signature is
      the concatenation of the lists of its two parts. */
  lemma {:induction false} RequiredSplit(ps: seq<Parameter>, qs: seq<Parameter>)
    ensures Required(ps + qs) == Required(ps) + Required(qs)
  {
    if ps == [] {
      assert ps + qs == qs;
    } else {
      assert (ps + qs)[1..] == ps[1..] + qs;
      RequiredSplit(ps[1..], qs);
    }
  }

  /** With no defaults anywhere, every parameter is required, in order. */
  lemma {:induction false} RequiredWithoutDefaults(ps: seq<Parameter>)
    requires forall i :: 0 <= i < |ps| ==> !ps[i].hasDefault
    ensures Required(ps) == Names(ps)
  {
    if ps != [] {
      RequiredWithoutDefaults(ps[1..]);
      assert Names(ps) == [ps[0].name] + Names(ps[1..]);
    }
  }

  /** The `required` list is never longer than the signature. */
  lemma {:induction false} RequiredLength(ps: seq<Parameter>)
    ensures |Required(ps)| <= |ps|
    ensures |Required(ps)| == |ps| <==> forall i :: 0 <= i < |ps| ==> !ps[i].hasDefault
  {
    if ps != [] {
      RequiredLength(ps[1..]);
      assert forall i :: 1 <= i < |ps| ==> ps[i] == ps[1..][i - 1];
    }
  }

  /** A signature of untyped parameters without defaults: every parameter
      becomes a "string" property and all of them are required. */
  lemma UntypedSignature(name: string, doc: Option<string>, ps: seq<Parameter>)
    requires DistinctNames(ps)
    requires forall i :: 0 <= i < |ps| ==> ps[i].annotation.Empty? && !ps[i].hasDefault
    ensures var r := FunctionToJson(name, doc, Some(ps));
            && r.Ok?
            && (forall i :: 0 <= i < |ps| ==>
                  r.value.schema.parameters.properties[i] == (ps[i].name, Property(None, None, String)))
            && r.value.schema.parameters.required == Names(ps)
  {
    RequiredWithoutDefaults(ps);
  }

  // ---------------------------------------------------------------------
  // One parameter: the type table, fallbacks and errors
  // ---------------------------------------------------------------------

  /** A primitive and its `| None` form resolve to the same table entry, with
      no description and no items; the one exception is `list | None`, whose
      two type arguments make it an error. */
  lemma OptionalMatchesPlain(name: string, b: Base, hasDefault: bool)
    ensures PropertyFor(Parameter(name, Declared(Plain(b)), hasDefault)) == Ok(Property(None, None, BaseType(b)))
    ensures b != List ==>
              PropertyFor(Parameter(name, Declared(Optional(b)), hasDefault)) == Ok(Property(None, None, BaseType(b)))
    ensures b == List ==>
              PropertyFor(Parameter(name, Declared(Optional(b)), hasDefault)) == Err(UnsupportedType(Optional(List)))
  {
  }

  /** NoneType is the one key that maps to "null". */
  lemma NoneTypeIsNull(name: string, hasDefault: bool)
    ensures PropertyFor(Parameter(name, Declared(NoneType), hasDefault)) == Ok(Property(None, None, Null))
    ensures TypeName(PropertyFor(Parameter(name, Declared(NoneType), hasDefault)).value.typ) == "null"
  {
  }

  /** Only a type that resolves to "array" raises the "not supported"
      TypeError; the only other failure is the TypeError of looking up an
      unhashable annotation. An absent annotation always gets a property. */
  lemma OnlyListsRaise(p: Parameter)
    ensures PropertyFor(p).Err? ==> p.annotation.Declared?
    ensures PropertyFor(p).Err? && PropertyFor(p).error.UnsupportedType? ==>
              var u := Unwrap(p.annotation.declared).1;
              Resolve(u) == Some(Array) && PropertyFor(p).error == UnsupportedType(u)
    ensures PropertyFor(p).Err? && !PropertyFor(p).error.UnsupportedType? ==>
              PropertyFor(p).error.Unhashable? && !Hashable(PropertyFor(p).error.annotation)
  {
  }

  /** An annotation that is neither a table key nor has a table key as its
      origin falls back to "string" when it can be hashed; otherwise its
      lookup in the table raises. */
  lemma UnknownTypesAreStrings(p: Parameter)
    requires p.annotation.Declared?
    requires Resolve(Unwrap(p.annotation.declared).1).None?
    ensures var u := Unwrap(p.annotation.declared).1;
            && (Hashable(u) ==> PropertyFor(p).Ok? && PropertyFor(p).value.typ == String && PropertyFor(p).value.items.None?)
            && (!Hashable(u) ==> PropertyFor(p) == Err(Unhashable(u)))
  {
  }

  /** `dict[K, V]` resolves to "object" through its origin, whatever its
      arguments are; they are never looked up. */
  lemma DictIsObject(name: string, args: seq<TypeExpr>, hasDefault: bool)
    ensures PropertyFor(Parameter(name, Declared(Generic(DictOrigin, args)), hasDefault)) == Ok(Property(None, None, Object))
    ensures TypeName(PropertyFor(Parameter(name, Declared(Generic(DictOrigin, args)), hasDefault)).value.typ) == "object"
  {
  }

  /** `Annotated[T, s]` with exactly one string: the description is `s` and
      `T` resolves as it would alone, including its error. */
  lemma AnnotatedDescription(name: string, t: TypeExpr, s: string, hasDefault: bool)
    requires !t.Annotated?
    ensures var plain := PropertyFor(Parameter(name, Declared(t), hasDefault));
            var annotated := PropertyFor(Parameter(name, Declared(Annotated(t, [Text(s)])), hasDefault));
            && (plain.Ok? <==> annotated.Ok?)
            && (plain.Ok? ==> annotated.value == plain.value.(description := Some(s)))
            && (plain.Err? ==> annotated.error == plain.error)
  {
  }

  /** Any other metadata leaves the annotation wrapped: it is no table key
      and resolves to "string", unless hashing it for the lookup fails. */
  lemma AnnotatedWithoutText(name: string, t: TypeExpr, metadata: seq<Metadata>, hasDefault: bool)
    requires !(|metadata| == 1 && metadata[0].Text?)
    ensures var a := Annotated(t, metadata);
            PropertyFor(Parameter(name, Declared(a), hasDefault))
            == if Hashable(a) then Ok(Property(None, None, String)) else Err(Unhashable(a))
  {
  }

  /** `list[T]`: with T a table key the items type is T's entry; bare `list`
      has no items; an unhashable T fails its lookup; any other argument
      list is the "not supported" TypeError. */
  lemma ListItems(name: string, args: seq<TypeExpr>, hasDefault: bool)
    ensures var r := PropertyFor(Parameter(name, Declared(Generic(ListOrigin, args)), hasDefault));
            && (args == [] ==> r == Ok(Property(None, None, Array)))
            && (|args| == 1 && TableLookup(args[0]).Some? ==> r == Ok(Property(None, TableLookup(args[0]), Array)))
            && (|args| == 1 && !Hashable(args[0]) ==> r == Err(Unhashable(args[0])))
            && (args != [] && !(|args| == 1 && (TableLookup(args[0]).Some? || !Hashable(args[0]))) ==>
                  r == Err(UnsupportedType(Generic(ListOrigin, args))))
  {
  }

  /** `list[int] | None` is a union that is not a table key: it is a "string". */
  lemma OptionalListOfIntIsString(name: string, hasDefault: bool)
    ensures PropertyFor(Parameter(name, Declared(Generic(OtherOrigin, [Generic(ListOrigin, [Plain(Int)]), NoneType])), hasDefault))
            == Ok(Property(None, None, String))
  {
  }

  /** A parameter that cannot be translated makes the whole translation fail
      with its error, however many parameters precede it. */
  lemma {:induction false} FirstErrorWins(name: string, doc: Option<string>, ps: seq<Parameter>, i: int)
    requires DistinctNames(ps)
    requires 0 <= i < |ps| && PropertyFor(ps[i]).Err?
    requires forall j :: 0 <= j < i ==> PropertyFor(ps[j]).Ok?
    ensures FunctionToJson(name, doc, Some(ps)) == Err(PropertyFor(ps[i]).error)
  {
    var r := FunctionToJson(name, doc, Some(ps));
    assert r.Err?;
    var k :| FailsFirstAt(ps, k, r.error);
    assert !(k < i) by {
      assert forall j :: 0 <= j < i ==> PropertyFor(ps[j]).Ok?;
      assert PropertyFor(ps[k]).Err?;
    }
    assert !(k > i) by {
      assert forall j :: 0 <= j < k ==> PropertyFor(ps[j]).Ok?;
      assert PropertyFor(ps[i]).Err?;
    }
  }

  // ---------------------------------------------------------------------
  // Type names
  // ---------------------------------------------------------------------

  /** Distinct schema types get distinct names, so the JSON text of a
      schema determines its types. */
  lemma TypeNameInjective(t: JsonType, u: JsonType)
    ensures TypeName(t) == TypeName(u) ==> t == u
  {
  }

  /** The "type" string of each property, as the source writes it. */
  function TypeNames(properties: seq<(string, Property)>): (names: seq<string>)
    ensures |names| == |properties|
    ensures forall i :: 0 <= i < |properties| ==> names[i] == TypeName(properties[i].1.typ)
  {
    seq(|properties|, i requires 0 <= i < |properties| => TypeName(properties[i].1.typ))
  }

  /** The "items" type string of each property, if it has one. */
  function ItemNames(properties: seq<(string, Property)>): (names: seq<Option<string>>)
    ensures |names| == |properties|
    ensures forall i :: 0 <= i < |properties| ==>
              names[i] == if properties[i].1.items.Some? then Some(TypeName(properties[i].1.items.value)) else None
  {
    seq(|properties|, i requires 0 <= i < |properties| =>
      if properties[i].1.items.Some? then Some(TypeName(properties[i].1.items.value)) else None)
  }

  // ---------------------------------------------------------------------
  // The source's test cases
  // ---------------------------------------------------------------------

  /** tests/test_util.py, test_basic_function. */
  lemma BasicFunction()
    ensures FunctionToJson("basic_function", None,
              Some([Parameter("arg1", Empty, false), Parameter("arg2", Empty, false)]))
            == Ok(Tool("function", FunctionSchema("basic_function", "",
                 Parameters("object",
                   [("arg1", Property(None, None, String)), ("arg2", Property(None, None, String))],
                   ["arg1", "arg2"], false))))
    ensures TypeNames([("arg1", Property(None, None, String)), ("arg2", Property(None, None, String))])
            == ["string", "string"]
  {
    var ps := [Parameter("arg1", Empty, false), Parameter("arg2", Empty, false)];
    assert ps[1..][1..] == [];
    assert PropertyFor(ps[0]) == PropertyFor(ps[1]) == Ok(Property(None, None, String));
    var r := FunctionToJson("basic_function", None, Some(ps));
    assert r.Ok?;
    assert r.value.schema.parameters.properties == [("arg1", Property(None, None, String)), ("arg2", Property(None, None, String))];
    assert r.value.schema.parameters.required == ["arg1", "arg2"];
    assert r.value.schema.description == "";
  }

  /** tests/test_util.py, test_complex_function. */
  lemma ComplexFunction()
    ensures FunctionToJson("complex_function_with_types_and_descriptions",
              Some("This is a complex function with a docstring."),
              Some([Parameter("arg1", Declared(Plain(Int)), false),
                    Parameter("arg2", Declared(Plain(Str)), false),
                    Parameter("arg3", Declared(Plain(Float)), true),
                    Parameter("arg4", Declared(Plain(Bool)), true)]))
            == Ok(Tool("function", FunctionSchema("complex_function_with_types_and_descriptions",
                 "This is a complex function with a docstring.",
                 Parameters("object",
                   [("arg1", Property(None, None, Integer)), ("arg2", Property(None, None, String)),
                    ("arg3", Property(None, None, Number)), ("arg4", Property(None, None, Boolean))],
                   ["arg1", "arg2"], false))))
    ensures TypeNames([("arg1", Property(None, None, Integer)), ("arg2", Property(None, None, String)),
                       ("arg3", Property(None, None, Number)), ("arg4", Property(None, None, Boolean))])
            == ["integer", "string", "number", "boolean"]
  {
    var ps := [Parameter("arg1", Declared(Plain(Int)), false),
               Parameter("arg2", Declared(Plain(Str)), false),
               Parameter("arg3", Declared(Plain(Float)), true),
               Parameter("arg4", Declared(Plain(Bool)), true)];
    assert ps[1..][1..][1..][1..] == [];
    assert PropertyFor(ps[0]) == Ok(Property(None, None, Integer));
    assert PropertyFor(ps[1]) == Ok(Property(None, None, String));
    assert PropertyFor(ps[2]) == Ok(Property(None, None, Number));
    assert PropertyFor(ps[3]) == Ok(Property(None, None, Boolean));
    var r := FunctionToJson("complex_function_with_types_and_descriptions",
                            Some("This is a complex function with a docstring."), Some(ps));
    assert r.Ok?;
    assert r.value.schema.parameters.properties ==
             [("arg1", Property(None, None, Integer)), ("arg2", Property(None, None, String)),
              ("arg3", Property(None, None, Number)), ("arg4", Property(None, None, Boolean))];
    assert r.value.schema.parameters.required == ["arg1", "arg2"];
  }

  /** tests/test_util.py, test_list_and_annotated_function. */
  lemma ListAndAnnotatedFunction()
    ensures FunctionToJson("list_annotated_function", Some("This is an annotated function."), Some(AnnotatedSignature()))
            == Ok(Tool("function", FunctionSchema("list_annotated_function", "This is an annotated function.",
                 Parameters("object", AnnotatedProperties(), ["arg1", "arg2", "arg3", "arg4", "arg5"], false))))
    ensures TypeNames(AnnotatedProperties()) == ["array", "array", "integer", "array", "string", "string", "integer"]
    ensures ItemNames(AnnotatedProperties()) == [Some("integer"), Some("string"), None, Some("integer"), None, None, None]
  {
    AnnotatedBuild();
    AnnotatedRequired();
    AnnotatedNames();
  }

  /** The parameters of `list_annotated_function` in tests/test_util.py. */
  function AnnotatedSignature(): seq<Parameter> {
    [Parameter("arg1", Declared(Generic(ListOrigin, [Plain(Int)])), false),
     Parameter("arg2", Declared(Generic(ListOrigin, [Plain(Str)])), false),
     Parameter("arg3", Declared(Annotated(Plain(Int), [Text("an integer")])), false),
     Parameter("arg4", Declared(Annotated(Generic(ListOrigin, [Plain(Int)]), [Text("a list of integers")])), false),
     Parameter("arg5", Declared(Annotated(Plain(Bool), [NotText(true)])), false),
     Parameter("arg6", Declared(Optional(Str)), true),
     Parameter("arg7", Declared(Annotated(Optional(Int), [Text("an optional integer")])), true)]
  }

  /** The `properties` the test expects for `list_annotated_function`. */
  function AnnotatedProperties(): seq<(string, Property)> {
    [("arg1", Property(None, Some(Integer), Array)),
     ("arg2", Property(None, Some(String), Array)),
     ("arg3", Property(Some("an integer"), None, Integer)),
     ("arg4", Property(Some("a list of integers"), Some(Integer), Array)),
     ("arg5", Property(None, None, String)),
     ("arg6", Property(None, None, String)),
     ("arg7", Property(Some("an optional integer"), None, Integer))]
  }

  lemma AnnotatedNames()
    ensures TypeNames(AnnotatedProperties()) == ["array", "array", "integer", "array", "string", "string", "integer"]
    ensures ItemNames(AnnotatedProperties()) == [Some("integer"), Some("string"), None, Some("integer"), None, None, None]
  {
    var props := AnnotatedProperties();
    assert TypeNames(props) == ["array", "array", "integer", "array", "string", "string", "integer"];
  }

  lemma AnnotatedBuild()
    ensures BuildProperties(AnnotatedSignature()) == Ok(AnnotatedProperties())
  {
    var ps, expected := AnnotatedSignature(), AnnotatedProperties();
    forall i | 0 <= i < |ps| ensures PropertyFor(ps[i]) == Ok(expected[i].1) && ps[i].name == expected[i].0 {
      AnnotatedParameter(i);
    }
    var r := BuildProperties(ps);
    assert r.Ok?;
    assert r.value == expected;
  }

  lemma AnnotatedParameter(i: int)
    requires 0 <= i < |AnnotatedSignature()|
    ensures PropertyFor(AnnotatedSignature()[i]) == Ok(AnnotatedProperties()[i].1)
    ensures AnnotatedSignature()[i].name == AnnotatedProperties()[i].0
  {
    var p := AnnotatedSignature()[i];
    if i == 0 {
      assert p == Parameter("arg1", Declared(Generic(ListOrigin, [Plain(Int)])), false);
    } else if i == 3 {
      assert p == Parameter("arg4", Declared(Annotated(Generic(ListOrigin, [Plain(Int)]), [Text("a list of integers")])), false);
    }
  }

  lemma AnnotatedRequired()
    ensures Required(AnnotatedSignature()) == ["arg1", "arg2", "arg3", "arg4", "arg5"]
  {
    var ps := AnnotatedSignature();
    assert ps[5..][1..][1..] == [];
    assert Required(ps[5..][1..]) == [];
    assert Required(ps[5..]) == [];
    assert ps[1..][1..][1..][1..][1..] == ps[5..];
  }
}
