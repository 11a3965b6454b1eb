// Model of `merge_fields` and `merge_chunk` (swarm/util.py): the in-place
// merge of one streamed response fragment ("delta") into the response
// assembled so far.
//
// Dictionaries nested inside a response are modelled as values of the
// recursive type `Json`; the response and the delta the caller owns are
// `JsonDict` objects whose `fields` the merge updates in place.

module Merge {

  /** A decoded JSON value. Numbers are integers: a float behaves as any
      other non-string, non-dictionary value in a merge (it is ignored). */
  datatype Json =
    | Null
    | Bool(b: bool)
    | Num(n: int)
    | Str(s: string)
    | Arr(items: seq<Json>)
    | Obj(fields: map<string, Json>)

  /** Python truthiness of a value. */
  function Truthy(v: Json): (truthy: bool)
    ensures v.Null? ==> !truthy
    ensures v.Arr? ==> (truthy <==> |v.items| > 0)
    ensures v.Obj? ==> (truthy <==> |v.fields| > 0)
    ensures v.Str? ==> (truthy <==> |v.s| > 0)
  {
    match v
    case Null => false
    case Bool(b) => b
    case Num(n) => n != 0
    case Str(s) => s != ""
    case Arr(items) => items != []
    case Obj(fields) => fields != map[]
  }

  /** merge_fields reads `target[key]` only for string and dictionary values. */
  function Touches(v: Json): (read: bool)
    ensures !read <==> v.Null? || v.Bool? || v.Num? || v.Arr?
  {
    v.Str? || v.Obj?
  }

  // ---------------------------------------------------------------------
  // merge_fields
  // ---------------------------------------------------------------------

  /** Merging the delta value `s` into the target value `t` raises nothing:
      a string is appended to a string, and a dictionary is merged into a
      dictionary. A dictionary with no string and no dictionary values never
      reads its target, so it merges into anything. */
  function MergeableValue(t: Json, s: Json): (ok: bool)
    decreases s, 1
    ensures !Touches(s) ==> ok
    ensures s.Str? ==> (ok <==> t.Str?)
    ensures s.Obj? && t.Obj? && Mergeable(t.fields, s.fields) ==> ok
    ensures ok && s.Obj? && !t.Obj? ==> forall k :: k in s.fields ==> !Touches(s.fields[k])
  {
    match s
    case Str(_) => t.Str?
    case Obj(m) => (forall k :: k in m ==> !Touches(m[k])) || (t.Obj? && Mergeable(t.fields, m))
    case _ => true
  }

  /** `merge_fields(target, source)` raises no KeyError and no TypeError:
      every key whose value it reads is present with a value of the right kind. */
  function Mergeable(target: map<string, Json>, source: map<string, Json>): (ok: bool)
    decreases Obj(source), 0
    ensures (forall k :: k in source ==> !Touches(source[k])) ==> ok
    ensures ok ==> forall k :: k in source && source[k].Str? ==> k in target && target[k].Str?
  {
    forall k :: k in source && Touches(source[k]) ==> k in target && MergeableValue(target[k], source[k])
  }

  /** What `target[key]` becomes when merged with the delta value `s`. */
  function MergedValue(t: Json, s: Json): (r: Json)
    requires MergeableValue(t, s)
    decreases s, 1
    ensures s.Str? ==> r == Str(t.s + s.s)
    ensures !Touches(s) ==> r == t
    ensures s.Obj? && !t.Obj? ==> r == t
    ensures r.Str? == t.Str? && r.Obj? == t.Obj?
    ensures t.Obj? ==> r.fields.Keys == t.fields.Keys
  {
    match s
    case Str(x) => Str(t.s + x)
    case Obj(m) => if t.Obj? then Obj(Merged(t.fields, m)) else t
    case _ => t
  }

  /** The target dictionary after `merge_fields(target, source)`. */
  function Merged(target: map<string, Json>, source: map<string, Json>): (r: map<string, Json>)
    requires Mergeable(target, source)
    decreases Obj(source), 0
    ensures r.Keys == target.Keys
    ensures forall k :: k in target && k !in source ==> r[k] == target[k]
    ensures forall k :: k in target && k in source && !Touches(source[k]) ==> r[k] == target[k]
    ensures forall k :: k in source && source[k].Str? ==>
              k in target && target[k].Str? && r[k] == Str(target[k].s + source[k].s)
    ensures forall k :: k in r ==> r[k].Str? == target[k].Str? && r[k].Obj? == target[k].Obj?
  {
    assert forall k :: k in source && source[k].Str? ==> k in target && MergeableValue(target[k], source[k]);
    map k | k in target :: if k in source then MergedValue(target[k], source[k]) else target[k]
  }

  /** `merge_fields`: visits the keys of `source` one at a time, appending
      strings and recursing into dictionaries; every other value is skipped. */
  method MergeFields(target: map<string, Json>, source: map<string, Json>) returns (merged: map<string, Json>)
    requires Mergeable(target, source)
    ensures merged == Merged(target, source)
    decreases Obj(source)
  {
    merged := target;
    var pending := source.Keys;
    while pending != {}
      invariant pending <= source.Keys
      invariant merged.Keys == target.Keys
      invariant forall k :: k in target ==>
                  merged[k] == if k in source && k !in pending then MergedValue(target[k], source[k]) else target[k]
      decreases pending
    {
      var key :| key in pending;
      match source[key] {
        case Str(text) =>
          merged := merged[key := Str(merged[key].s + text)];
        case Obj(nested) =>
          if merged[key].Obj? {
            var inner := MergeFields(merged[key].fields, nested);
            merged := merged[key := Obj(inner)];
          }
        case _ =>
      }
      pending := pending - {key};
    }
  }

  // ---------------------------------------------------------------------
  // merge_chunk
  // ---------------------------------------------------------------------

  /** A dictionary owned by the caller and updated in place. */
  class JsonDict {
    var fields: map<string, Json>

    constructor (fields: map<string, Json>)
      ensures this.fields == fields
    {
      this.fields := fields;
    }
  }

  /** The delta with its `role` popped. */
  function WithoutRole(delta: map<string, Json>): (fragment: map<string, Json>)
    ensures "role" !in fragment
    ensures forall k :: k in delta && k != "role" ==> k in fragment && fragment[k] == delta[k]
    ensures fragment.Keys <= delta.Keys
  {
    delta - {"role"}
  }

  /** The fragment carries tool calls (`tool_calls` is present and truthy). */
  function HasToolCall(fragment: map<string, Json>): (present: bool)
    ensures "tool_calls" in fragment && fragment["tool_calls"].Arr? ==>
              (present <==> |fragment["tool_calls"].items| > 0)
    ensures present ==> "tool_calls" in fragment && !fragment["tool_calls"].Null?
  {
    "tool_calls" in fragment && Truthy(fragment["tool_calls"])
  }

  /** The first tool call of a fragment is a dictionary with an integer `index`. */
  function WellFormedToolCall(fragment: map<string, Json>): (ok: bool)
    ensures !HasToolCall(fragment) ==> ok
    ensures ok && HasToolCall(fragment) ==>
              var calls := fragment["tool_calls"];
              && calls.Arr? && |calls.items| > 0 && calls.items[0].Obj?
              && "index" in calls.items[0].fields && calls.items[0].fields["index"].Num?
  {
    HasToolCall(fragment) ==>
      var calls := fragment["tool_calls"];
      && calls.Arr?
      && calls.items[0].Obj?
      && "index" in calls.items[0].fields
      && calls.items[0].fields["index"].Num?
  }

  /** The first tool call of a well-formed fragment. */
  function FirstCall(fragment: map<string, Json>): (call: map<string, Json>)
    requires HasToolCall(fragment) && WellFormedToolCall(fragment)
    ensures "index" in call && call["index"].Num?
    ensures Obj(call) in fragment["tool_calls"].items
  {
    fragment["tool_calls"].items[0].fields
  }

  /** Python list indexing: a negative index counts from the end. */
  function SlotIndex(index: int, length: nat): (slot: int)
    ensures 0 <= index + length && index < length ==> 0 <= slot < length
    ensures 0 <= index ==> slot == index
    ensures index < 0 ==> slot == index + length
  {
    if index < 0 then index + length else index
  }

  /** `merge_chunk(response, delta)` raises nothing: the fields merge, and a
      tool call names an existing slot of `response["tool_calls"]` into which
      it merges. */
  function ChunkMergeable(response: map<string, Json>, delta: map<string, Json>): (ok: bool)
    ensures ok ==> Mergeable(response, WithoutRole(delta)) && WellFormedToolCall(WithoutRole(delta))
    ensures ok && HasToolCall(WithoutRole(delta)) ==>
              && "tool_calls" in response && response["tool_calls"].Arr?
              && var slots := response["tool_calls"].items;
                 0 <= SlotIndex(FirstCall(WithoutRole(delta))["index"].n, |slots|) < |slots|
  {
    var fragment := WithoutRole(delta);
    && Mergeable(response, fragment)
    && WellFormedToolCall(fragment)
    && (HasToolCall(fragment) ==>
          var call := FirstCall(fragment);
          && "tool_calls" in response && response["tool_calls"].Arr?
          && var slots := response["tool_calls"].items;
             && -|slots| <= call["index"].n < |slots|
             && MergeableValue(slots[SlotIndex(call["index"].n, |slots|)], Obj(call - {"index"})))
  }

  /** The response after `merge_chunk(response, delta)`. */
  function ChunkMerged(response: map<string, Json>, delta: map<string, Json>): (r: map<string, Json>)
    requires ChunkMergeable(response, delta)
    ensures r.Keys == response.Keys
  {
    var fragment := WithoutRole(delta);
    var merged := Merged(response, fragment);
    if HasToolCall(fragment) then
      var call := FirstCall(fragment);
      var slots := merged["tool_calls"].items;
      var slot := SlotIndex(call["index"].n, |slots|);
      merged["tool_calls" := Arr(slots[slot := MergedValue(slots[slot], Obj(call - {"index"}))])]
    else
      merged
  }

  /** The delta after `merge_chunk`: `role` popped, and `index` popped from
      its first tool call. */
  function Consumed(delta: map<string, Json>): (r: map<string, Json>)
    requires WellFormedToolCall(WithoutRole(delta))
    ensures "role" !in r
    ensures r.Keys == delta.Keys - {"role"}
    ensures forall k :: k in r && (k != "tool_calls" || !HasToolCall(WithoutRole(delta))) ==> r[k] == delta[k]
    ensures HasToolCall(WithoutRole(delta)) ==>
              var before, after := delta["tool_calls"].items, r["tool_calls"];
              && after.Arr? && |after.items| == |before|
              && after.items[0] == Obj(FirstCall(WithoutRole(delta)) - {"index"})
              && forall i :: 0 < i < |before| ==> after.items[i] == before[i]
  {
    var fragment := WithoutRole(delta);
    if HasToolCall(fragment) then
      var calls := fragment["tool_calls"].items;
      fragment["tool_calls" := Arr(calls[0 := Obj(FirstCall(fragment) - {"index"})])]
    else
      fragment
  }

  /** `merge_chunk`: pops `role` from the delta, merges the delta into the
      response, then pops `index` from the first tool call and merges that
      call into the response's tool call at that index. */
  method MergeChunk(response: JsonDict, delta: JsonDict)
    requires response != delta
    requires ChunkMergeable(response.fields, delta.fields)
    modifies response, delta
    ensures response.fields == ChunkMerged(old(response.fields), old(delta.fields))
    ensures delta.fields == Consumed(old(delta.fields))
  {
    delta.fields := delta.fields - {"role"};
    response.fields := MergeFields(response.fields, delta.fields);
    if "tool_calls" in delta.fields && Truthy(delta.fields["tool_calls"]) {
      var calls := delta.fields["tool_calls"].items;
      var call := calls[0].fields;
      var index := call["index"].n;
      call := call - {"index"};
      delta.fields := delta.fields["tool_calls" := Arr(calls[0 := Obj(call)])];
      var slots := response.fields["tool_calls"].items;
      var slot := SlotIndex(index, |slots|);
      if slots[slot].Obj? {
        var updated := MergeFields(slots[slot].fields, call);
        response.fields := response.fields["tool_calls" := Arr(slots[slot := Obj(updated)])];
      } else {
        assert slots[slot := slots[slot]] == slots;
        assert response.fields["tool_calls" := Arr(slots)] == response.fields;
      }
    }
  }
}
