# swarm utilities, modelled in Dafny

This project models the two non-trivial routines of `swarm/util.py`. It proves properties of both.

- **`function_to_json`** translates a Python function's parameter list into a
  JSON-Schema-style tool description. Each parameter's annotation goes
  through a fixed type table. `Annotated[T, "text"]` contributes a
  `description`, and `list[T]` gets an `items.type`. Unknown types fall back
  to `"string"`. An unsupported list element type raises a `TypeError`, and
  so does an annotation the type table cannot hash.
  `required` lists the parameters that have no default.
- **`merge_fields` / `merge_chunk`** merge one streamed response fragment
  (a "delta") into the response assembled so far, in place:
  - string values are appended;
  - nested dictionaries are merged recursively;
  - other values are ignored;
  - `role` is dropped;
  - the first tool call is merged into the response's tool call at its
    `index`.

Files:

- `schema.dfy` (module `Schema`) models the translation. It is pure, so it
  is written as functions over a sequence of tagged parameter descriptors.
  Python's reflection is replaced by the `TypeExpr` datatype: plain
  primitive, `NoneType`, primitive `| None`, subscripted generic, `Annotated`,
  or other. The two lookups the source performs are written out
  (`type_map.get(get_origin(a))` and `type_map.get(a)`), and so is whether
  the second lookup can hash its key (`Hashable`).
- `schema_facts.dfy` (module `SchemaFacts`) holds lemmas about the
  translation: the `required` list, the table, the fallbacks, the error
  cases, `Annotated`, list items, and the three test cases of
  `tests/test_util.py`.
- `merge.dfy` (module `Merge`) models the merge. A decoded JSON value is the
  recursive datatype `Json`.
  - `MergeFields` is a method with the source's loop over the delta's keys.
    It recurses into nested dictionaries, and it is proved equal to the
    specification function `Merged`.
  - `MergeChunk` works on two caller-owned `JsonDict` objects. It updates
    both in place: the response is merged, and the delta loses `role` and
    its first tool call's `index`.
  - The KeyError and TypeError cases of the source are preconditions:
    `Mergeable` for merging fields, `ChunkMergeable` for a whole chunk.
- `merge_facts.dfy` (module `MergeFacts`) holds lemmas about the merge:
  - what a merge leaves alone;
  - the response's `role` never changes;
  - tool calls are merged into the slot their index names, with every
    other slot unchanged;
  - interleaved tool calls at different indices commute;
  - streamed text gives the same response however it was split into
    chunks, both for the response's own fields (`content`) and inside a
    tool call (`function.arguments`).

## Behaviour followed as written

Where the obvious reading of the type table and the code disagree, the model
follows the code:

- `list | None` appears in the table as `"array"`, but `get_args` returns two
  arguments for it (`list` and `NoneType`), so it always raises `TypeError`
  (`SchemaFacts.OptionalMatchesPlain`).
- `list[int] | None` is not a table key, and its origin is a union, so it
  becomes `"string"` and has no `items` (`SchemaFacts.OptionalListOfIntIsString`).
- `Annotated` with metadata that is not exactly one string is not unwrapped.
  It is not a table key either, so it becomes `"string"`
  (`SchemaFacts.AnnotatedWithoutText`).
- `dict[K, V]` resolves to `"object"` through its origin, and its arguments
  are never checked (`SchemaFacts.DictIsObject`).
- `type_map.get(a)` hashes `a`. An annotation that cannot be hashed, such
  as `[int]` or `Annotated[int, {"k": 1}]`, therefore raises `TypeError`
  instead of falling back to `"string"` (`Schema.ResolveProperty`,
  `SchemaFacts.AnnotatedWithoutText`). So does `list[T]` with an unhashable
  `T`, in the lookup of its item type.
- A negative `index` in a tool call addresses a slot from the end, as Python
  list indexing does (`Merge.SlotIndex`).

## Model

| member | source | states |
|---|---|---|
| Schema.TypeName | swarm/util.py:44-58 | every table value is one of the seven JSON-Schema type names |
| Schema.BaseType | swarm/util.py:44-56 | no built-in class maps to "null"; exactly `list` maps to "array" and exactly `dict` to "object" |
| Schema.TableLookup | swarm/util.py:44-58 | a type is found in the table exactly when it is a primitive, an `Optional` primitive, or NoneType; NoneType maps to null and `Optional[X]` maps like `X` |
| Schema.OriginLookup | swarm/util.py:81 | only `list[...]` and `dict[...]` have an origin that is a table key, giving "array" and "object" |
| Schema.Resolve | swarm/util.py:81-83 | the origin lookup, then the table: the result is "array" exactly for `list`, `Optional[list]` and `list[...]` |
| Schema.ArrayArgs | swarm/util.py:85 | `get_args`: none for bare `list`, `(list, NoneType)` for `Optional[list]`, the subscripts of `list[...]` |
| Schema.Unwrap | swarm/util.py:75-80 | `Annotated` with exactly one string of metadata yields that string and the inner type; anything else is left as it was, with no description |
| Schema.Hashable | swarm/util.py:81-87 | the hash taken by `type_map.get`: every table key hashes; another class hashes when it is hashable; an `Annotated` form with unhashable metadata and a generic with an unhashable argument do not |
| Schema.ResolveProperty | swarm/util.py:81-92 | an unhashable annotation with no table origin raises; the "not supported" error is raised exactly when the type resolves to "array" and its arguments are not one hashable argument; a single unhashable argument raises in its lookup; a type found by a lookup other than "array" keeps that type; "array" has the items of its one argument or none; a type found by neither lookup becomes "string"; the description is kept |
| Schema.PropertyFor | swarm/util.py:67-94 | an unannotated parameter gets "string" with nothing else; `items` only with "array"; a description only comes from `Annotated` metadata that is exactly that one string |
| Schema.Required | swarm/util.py:96-100 | the list is no longer than the signature and holds only parameter names |
| Schema.BuildProperties | swarm/util.py:67-94 | succeeds exactly when every parameter does, with one entry per parameter, in signature order; otherwise fails with the error of the first parameter that fails |
| Schema.FunctionToJson | swarm/util.py:32-114 | no signature gives the signature error; fixed envelope ("function", the name, the docstring or "", "object", additionalProperties false); one property per parameter, in order, names distinct; `required` is the no-default list; the error is the first failing parameter's |
| SchemaFacts.RequiredMembers | swarm/util.py:96-100 | a name is in `required` exactly when a parameter of that name has no default |
| SchemaFacts.RequiredSplit | swarm/util.py:96-100 | `required` keeps signature order: it distributes over concatenation of signatures |
| SchemaFacts.RequiredWithoutDefaults | swarm/util.py:96-100 | with no defaults, `required` is every parameter name, in order |
| SchemaFacts.RequiredLength | swarm/util.py:96-100 | `required` is at most as long as the signature, and exactly as long when no parameter has a default |
| SchemaFacts.UntypedSignature | swarm/util.py:67-100 | untyped parameters without defaults all become "string" properties, and all are required |
| SchemaFacts.OptionalMatchesPlain | swarm/util.py:44-58 | each primitive maps through the table; `Optional[X]` gives the same property as `X`, except that `Optional[list]` raises |
| SchemaFacts.NoneTypeIsNull | swarm/util.py:57 | NoneType resolves to "null" |
| SchemaFacts.OnlyListsRaise | swarm/util.py:81-92 | an unannotated parameter never raises; the "not supported" error only comes from a type that resolves to "array"; every other error is the lookup of an unhashable annotation |
| SchemaFacts.UnknownTypesAreStrings | swarm/util.py:81-92 | a type resolved by neither lookup becomes "string" without items when it can be hashed, and raises otherwise |
| SchemaFacts.DictIsObject | swarm/util.py:81 | `dict[...]` becomes "object" whatever its arguments |
| SchemaFacts.AnnotatedDescription | swarm/util.py:75-80 | `Annotated[T, s]` gives T's property with description s, or T's error |
| SchemaFacts.AnnotatedWithoutText | swarm/util.py:75-83 | `Annotated` with any other metadata becomes a plain "string", or raises when that metadata cannot be hashed |
| SchemaFacts.ListItems | swarm/util.py:84-90 | `list[T]` with T a table key gives "array" with items T's entry; no arguments gives "array" without items; an unhashable T raises in its lookup; any other arguments raise "not supported" |
| SchemaFacts.OptionalListOfIntIsString | swarm/util.py:81-92 | `Optional[list[int]]` becomes "string" |
| SchemaFacts.FirstErrorWins | swarm/util.py:84-90 | the first parameter that raises decides the outcome of the whole translation |
| SchemaFacts.TypeNameInjective | swarm/util.py:44-58 | distinct schema types have distinct names |
| SchemaFacts.BasicFunction | tests/test_util.py:5-25 | the expected schema of `basic_function`, with its type strings |
| SchemaFacts.ComplexFunction | tests/test_util.py:28-53 | the expected schema of the typed function with defaults and a docstring, with its type strings |
| SchemaFacts.ListAndAnnotatedFunction | tests/test_util.py:56-97 | the expected schema of the function with lists, `Annotated` and optionals, with its type and item type strings |
| Merge.Truthy | swarm/util.py:27 | Python truthiness: None is false; a list, dictionary or string is true exactly when it is non-empty |
| Merge.Touches | swarm/util.py:16-18 | the merge reads the target only for string and dictionary values; None, booleans, numbers and lists are skipped |
| Merge.MergeableValue | swarm/util.py:16-19 | merging one value raises nothing: a skipped value always merges; a string merges exactly into a string; a dictionary merges into a dictionary it fits, and into anything else only when it has no string or dictionary values |
| Merge.Mergeable | swarm/util.py:14-19 | `merge_fields` raises nothing: it always holds for a source with no string and no dictionary values, and it demands a string target for every string value |
| Merge.MergedValue | swarm/util.py:16-19 | a string is appended to a string; a value that is neither string nor dictionary, or a dictionary merged into a non-dictionary, changes nothing; the kind of the target and a dictionary's keys are kept |
| Merge.Merged | swarm/util.py:14-19 | the merged dictionary has the target's keys; a string value is appended to the target's string; keys absent from the source, and keys with a non-string non-dictionary value, keep their value; every value keeps its kind |
| Merge.MergeFields | swarm/util.py:14-19 | the loop over the source's keys, with its recursion into nested dictionaries, computes `Merged` |
| Merge.WithoutRole | swarm/util.py:23 | popping `role` removes that key and keeps every other entry |
| Merge.HasToolCall | swarm/util.py:26-27 | for a list of tool calls, `tool_calls and len(tool_calls) > 0` holds exactly when the list is non-empty; a present call is never None |
| Merge.WellFormedToolCall | swarm/util.py:28-29 | without a tool call nothing is required; with one, `tool_calls` is a non-empty list whose first element is a dictionary holding an integer `index`, so `tool_calls[0].pop("index")` succeeds |
| Merge.FirstCall | swarm/util.py:28 | the first call is one of the delta's tool calls and holds an integer `index` |
| Merge.SlotIndex | swarm/util.py:29 | an index within Python's range for a list addresses a slot inside it; a non-negative index addresses itself and a negative one counts back from the length |
| Merge.ChunkMergeable | swarm/util.py:22-29 | `merge_chunk` raises nothing: the fields merge, and a tool call's index names an existing slot of the response's `tool_calls` list |
| Merge.ChunkMerged | swarm/util.py:22-29 | merging a chunk adds and removes no key of the response |
| Merge.Consumed | swarm/util.py:22-29 | after the merge the delta has no `role` and otherwise the same keys and values, except that its first tool call has lost its `index`; the other tool calls and the list's length are unchanged |
| Merge.MergeChunk | swarm/util.py:22-29 | updates the response in place to `ChunkMerged` and the delta to `Consumed` |
| MergeFacts.MergedIgnoresOtherValues | swarm/util.py:15-19 | a source without string or dictionary values leaves the target unchanged |
| MergeFacts.MergedEmpty | swarm/util.py:15-19 | merging an empty source leaves the target unchanged |
| MergeFacts.UntouchedDictIntoAnything | swarm/util.py:18-19 | a dictionary with no string or dictionary values merges into a target of any kind and leaves it unchanged |
| MergeFacts.MergeableKept | swarm/util.py:14-19 | a source that merges into a target still merges after any other mergeable source has been merged |
| MergeFacts.MergePathDelta | swarm/util.py:15-19 | a string delta nested along a path appends to the string at the end of that path and changes nothing else |
| MergeFacts.RoleUnchanged | swarm/util.py:22-24 | a chunk never changes the response's `role` and adds or removes no key |
| MergeFacts.NoToolCall | swarm/util.py:22-27 | without tool calls, `merge_chunk` is `merge_fields` of the delta without its role |
| MergeFacts.ToolCallSlot | swarm/util.py:26-29 | the slot the index names is merged with the call minus its `index`; other slots and the length stay the same; other keys merge as in `merge_fields` |
| MergeFacts.ChunkMergeableKept | swarm/util.py:22-29 | a delta the response accepts is still accepted after any other accepted delta |
| MergeFacts.NullSlotAcceptsNullCall | swarm/util.py:28-29 | a tool call `{"index": 0, "id": None}` merges into a `None` slot and changes nothing |
| MergeFacts.ConsumedRestored | swarm/util.py:23-28 | putting the popped `index` back into the consumed delta restores a delta that had no `role` |
| MergeFacts.LaterToolCallsIgnored | swarm/util.py:26-29 | only the first element of a delta's `tool_calls` affects the response |
| MergeFacts.InterleavedToolCallsCommute | swarm/util.py:26-29 | tool-call fragments for different slots, whose other values are not read by the merge (such as "content": None), can arrive in either order with the same result |
| MergeFacts.ChunkAppends | swarm/util.py:22-29 | one text chunk for `content` or for a tool call's field appends to exactly that string |
| MergeFacts.StreamAppends | swarm/util.py:22-29 | streaming chunks one after another appends their concatenation |
| MergeFacts.ChunkingInvariance | swarm/util.py:22-29 | two chunkings of the same text produce the same response |
| MergeFacts.CharacterStreaming | swarm/util.py:22-29 | streaming a text character by character into an empty field yields that text |

## Left out

- `debug_print` (swarm/util.py:6-11) reads the clock and prints to the terminal. It is I/O only.
- Runtime reflection (`inspect.signature`, `get_origin`, `get_args`,
  `__metadata__`, `__name__`, `__doc__`) is replaced by the tagged input
  `Parameter`/`TypeExpr`. A failed introspection is the `None` signature.
  The text of the ValueError is not modelled, only the function's name.
- Python typing beyond the tagged shapes is left out. `TypeExpr` does not
  model every `Union` spelling. Python flattens a nested `Annotated` form
  (`Annotated[Annotated[int, "x"], "y"]` is `Annotated[int, "x", "y"]`), so
  a descriptor's `Annotated` is taken to be already flattened: its `inner`
  is never itself `Annotated`. The model does not enforce this, and for a
  nested value `PropertyFor` answers as if the outer metadata stood alone. The
  source only performs table lookups on them, so those shapes reduce to
  "not in the table" (`Other`, `Generic(OtherOrigin, ...)`), hashable or not.
- The order of keys inside one property (`description`, `items`, `type`) is
  not modelled. The order of `properties` (signature order) is.
- Serialisation of the schema to JSON text and the agent loop that calls
  these routines are not part of this model.
- Merge.MergeFields: a string delta for a slot that holds a list is excluded
  by `Mergeable`, although Python's `list += str` would extend the list by
  the string's characters. A string delta is modelled only into a string
  slot.
- Merge.MergeChunk: the tool call's `index` must be an integer; Python would
  also accept `True`/`False` as 1/0.
- Merge.MergeChunk: it requires the response and the delta to be different
  objects.
- Nested dictionaries are modelled as values inside `Json`, not as shared
  objects. Aliasing is therefore not captured, for example the same dict
  reachable twice inside a response. The in-place update is modelled at the
  level of the two `JsonDict` objects passed to `MergeChunk`.
- The KeyError, TypeError and AttributeError cases of `merge_fields` and
  `merge_chunk` are preconditions (`Mergeable`, `ChunkMergeable`), not
  modelled exceptions.
- Floating-point values are not modelled. A merge ignores them like any
  other non-string, non-dictionary value.
