// Properties of the streaming merge: what a merge leaves alone, how tool
// calls are addressed by index, and that streamed text accumulates the
// same way however it was split into chunks.

module MergeFacts {
  import opened Merge

  // ---------------------------------------------------------------------
  // merge_fields
  // ---------------------------------------------------------------------

  /** A source with no string and no dictionary values changes nothing. */
  lemma MergedIgnoresOtherValues(target: map<string, Json>, source: map<string, Json>)
    requires forall k :: k in source ==> !Touches(source[k])
    ensures Mergeable(target, source)
    ensures Merged(target, source) == target
  {
  }

  /** Merging an empty source changes nothing. */
  lemma MergedEmpty(target: map<string, Json>)
    ensures Mergeable(target, map[]) && Merged(target, map[]) == target
  {
  }

  /** A path of keys leading to a string inside a dictionary. */
  predicate HasText(m: map<string, Json>, path: seq<string>)
    decreases |path|
  {
    && |path| > 0
    && path[0] in m
    && if |path| == 1 then m[path[0]].Str?
       else m[path[0]].Obj? && HasText(m[path[0]].fields, path[1..])
  }

  /** The string at the end of a path. */
  function TextAt(m: map<string, Json>, path: seq<string>): string
    requires HasText(m, path)
    decreases |path|
  {
    if |path| == 1 then m[path[0]].s else TextAt(m[path[0]].fields, path[1..])
  }

  /** The dictionary with the string at the end of a path replaced. */
  function WithText(m: map<string, Json>, path: seq<string>, text: string): map<string, Json>
    requires HasText(m, path)
    decreases |path|
  {
    if |path| == 1 then m[path[0] := Str(text)]
    else m[path[0] := Obj(WithText(m[path[0]].fields, path[1..], text))]
  }

  /** The delta that carries `text` for the string at the end of a path,
      e.g. {"function": {"arguments": text}}. */
  function PathDelta(path: seq<string>, text: string): (delta: map<string, Json>)
    requires |path| > 0
    ensures delta.Keys == {path[0]}
    decreases |path|
  {
    if |path| == 1 then map[path[0] := Str(text)]
    else map[path[0] := Obj(PathDelta(path[1..], text))]
  }

  lemma {:induction false} WithTextFacts(m: map<string, Json>, path: seq<string>, s: string, s': string)
    requires HasText(m, path)
    ensures HasText(WithText(m, path, s), path)
    ensures TextAt(WithText(m, path, s), path) == s
    ensures WithText(WithText(m, path, s), path, s') == WithText(m, path, s')
    ensures WithText(m, path, TextAt(m, path)) == m
    decreases |path|
  {
    if |path| > 1 {
      WithTextFacts(m[path[0]].fields, path[1..], s, s');
    }
  }

  /** A string delta merged along a path appends to the string at its end
      and changes nothing else. */
  lemma {:induction false} MergePathDelta(m: map<string, Json>, path: seq<string>, text: string)
    requires HasText(m, path)
    ensures Mergeable(m, PathDelta(path, text))
    ensures Merged(m, PathDelta(path, text)) == WithText(m, path, TextAt(m, path) + text)
    decreases |path|
  {
    var delta := PathDelta(path, text);
    if |path| > 1 {
      MergePathDelta(m[path[0]].fields, path[1..], text);
      assert MergeableValue(m[path[0]], delta[path[0]]);
    }
  }

  /** A dictionary delta whose values are neither strings nor dictionaries
      never reads its target, so it merges into a target of any kind and
      leaves it as it was: merge_fields({"k": "abc"}, {"k": {"x": 1}}) raises
      nothing and changes nothing. */
  lemma UntouchedDictIntoAnything(t: Json, m: map<string, Json>)
    requires forall k :: k in m ==> !Touches(m[k])
    ensures MergeableValue(t, Obj(m)) && MergedValue(t, Obj(m)) == t
  {
    if t.Obj? {
      MergedIgnoresOtherValues(t.fields, m);
    }
  }

  /** A merge keeps the kind of every value it reaches, so a source that
      merges into the target still merges into it after any other source
      has been merged. */
  lemma {:induction false} MergeableKept(target: map<string, Json>, s1: map<string, Json>, s2: map<string, Json>)
    requires Mergeable(target, s1) && Mergeable(target, s2)
    ensures Mergeable(Merged(target, s1), s2)
    decreases Obj(s2), 0
  {
    var merged := Merged(target, s1);
    forall k | k in s2 && Touches(s2[k])
      ensures k in merged && MergeableValue(merged[k], s2[k])
    {
      if k in s1 {
        assert merged[k] == MergedValue(target[k], s1[k]);
        MergeableValueKept(target[k], s1[k], s2[k]);
      }
    }
  }

  /** The same for one value. */
  lemma {:induction false} MergeableValueKept(t: Json, v1: Json, v2: Json)
    requires MergeableValue(t, v1) && MergeableValue(t, v2)
    ensures MergeableValue(MergedValue(t, v1), v2)
    decreases v2, 1
  {
    if v2.Obj? && !(forall k :: k in v2.fields ==> !Touches(v2.fields[k])) {
      assert t.Obj? && Mergeable(t.fields, v2.fields);
      if v1.Obj? {
        assert Mergeable(t.fields, v1.fields);
        MergeableKept(t.fields, v1.fields, v2.fields);
      }
    }
  }

  // ---------------------------------------------------------------------
  // merge_chunk: role and tool calls
  // ---------------------------------------------------------------------

  /** A delta never changes the response's `role`, and no key is added or removed. */
  lemma RoleUnchanged(response: map<string, Json>, delta: map<string, Json>)
    requires ChunkMergeable(response, delta)
    ensures ChunkMerged(response, delta).Keys == response.Keys
    ensures "role" in response ==> ChunkMerged(response, delta)["role"] == response["role"]
  {
  }

  /** Without tool calls, merge_chunk is merge_fields of the delta without its role. */
  lemma NoToolCall(response: map<string, Json>, delta: map<string, Json>)
    requires ChunkMergeable(response, delta)
    requires !HasToolCall(WithoutRole(delta))
    ensures ChunkMerged(response, delta) == Merged(response, WithoutRole(delta))
  {
  }

  /** With a tool call, the slot its index names is merged with the call
      (its `index` removed), every other slot stays as it was, and every key
      other than `tool_calls` is merged as by merge_fields. */
  lemma ToolCallSlot(response: map<string, Json>, delta: map<string, Json>)
    requires ChunkMergeable(response, delta)
    requires HasToolCall(WithoutRole(delta))
    ensures var call := FirstCall(WithoutRole(delta));
            var slots := response["tool_calls"].items;
            var slot := SlotIndex(call["index"].n, |slots|);
            var after := ChunkMerged(response, delta)["tool_calls"];
            && after.Arr? && |after.items| == |slots|
            && after.items[slot] == MergedValue(slots[slot], Obj(call - {"index"}))
            && (forall j :: 0 <= j < |slots| && j != slot ==> after.items[j] == slots[j])
    ensures forall k :: k in response && k != "tool_calls" ==>
              ChunkMerged(response, delta)[k] == Merged(response, WithoutRole(delta))[k]
  {
  }

  /** A delta the response accepts is still accepted after any other
      accepted delta has been merged: no chunk changes the kind of a value,
      the `tool_calls` list or its length. */
  lemma {:induction false} ChunkMergeableKept(response: map<string, Json>, d1: map<string, Json>, d2: map<string, Json>)
    requires ChunkMergeable(response, d1) && ChunkMergeable(response, d2)
    ensures ChunkMergeable(ChunkMerged(response, d1), d2)
  {
    var f1, f2 := WithoutRole(d1), WithoutRole(d2);
    var merged := Merged(response, f1);
    MergeableKept(response, f1, f2);
    var after := ChunkMerged(response, d1);
    if HasToolCall(f1) {
      var call := FirstCall(f1);
      var slots := merged["tool_calls"].items;
      var slot := SlotIndex(call["index"].n, |slots|);
      assert merged["tool_calls"] == response["tool_calls"];
      var v := MergedValue(slots[slot], Obj(call - {"index"}));
      assert after == merged["tool_calls" := Arr(slots[slot := v])];
      assert Mergeable(after, f2) by {
        forall k | k in f2 && Touches(f2[k])
          ensures k in after && MergeableValue(after[k], f2[k])
        {
          if k == "tool_calls" {
            assert MergeableValue(merged[k], f2[k]);
          }
        }
      }
      if HasToolCall(f2) {
        var call2 := FirstCall(f2);
        var slot2 := SlotIndex(call2["index"].n, |slots|);
        if slot2 == slot {
          MergeableValueKept(slots[slot], Obj(call - {"index"}), Obj(call2 - {"index"}));
        }
      }
    } else if HasToolCall(f2) {
      assert merged["tool_calls"] == response["tool_calls"];
    }
  }

  /** A tool call whose other values are all None merges into a slot that
      is None and leaves it as it was. */
  lemma NullSlotAcceptsNullCall()
    ensures var response := map["tool_calls" := Arr([Null])];
            var delta := map["tool_calls" := Arr([Obj(map["index" := Num(0), "id" := Null])])];
            ChunkMergeable(response, delta) && ChunkMerged(response, delta) == response
  {
    var response := map["tool_calls" := Arr([Null])];
    var delta := map["tool_calls" := Arr([Obj(map["index" := Num(0), "id" := Null])])];
    assert WithoutRole(delta) == delta;
    assert FirstCall(delta) - {"index"} == map["id" := Null];
    assert [Null][0 := Null] == [Null];
  }

  /** Putting an `index` back into the first tool call of a consumed delta. */
  function Restored(consumed: map<string, Json>, index: Json): map<string, Json>
    requires "tool_calls" in consumed && consumed["tool_calls"].Arr?
    requires |consumed["tool_calls"].items| > 0 && consumed["tool_calls"].items[0].Obj?
  {
    var calls := consumed["tool_calls"].items;
    consumed["tool_calls" := Arr(calls[0 := Obj(calls[0].fields["index" := index])])]
  }

  /** merge_chunk consumes nothing of a delta but its `role` and the `index`
      of its first tool call: putting the index back restores a delta that
      had no role. */
  lemma ConsumedRestored(delta: map<string, Json>)
    requires "role" !in delta
    requires HasToolCall(delta) && WellFormedToolCall(delta)
    ensures Restored(Consumed(delta), FirstCall(delta)["index"]) == delta
  {
    assert WithoutRole(delta) == delta;
    var call := FirstCall(delta);
    assert (call - {"index"})["index" := call["index"]] == call;
    var calls := delta["tool_calls"].items;
    var consumed := delta["tool_calls" := Arr(calls[0 := Obj(call - {"index"})])];
    assert Consumed(delta) == consumed;
    assert calls[0 := Obj(call - {"index"})][0 := Obj(call)] == calls;
    assert consumed["tool_calls" := Arr(calls)] == delta;
  }

  /** Only the first element of a delta's `tool_calls` is merged: any later
      elements are ignored. */
  lemma LaterToolCallsIgnored(response: map<string, Json>, delta: map<string, Json>)
    requires ChunkMergeable(response, delta)
    requires HasToolCall(WithoutRole(delta))
    ensures var first := delta["tool_calls" := Arr([delta["tool_calls"].items[0]])];
            ChunkMergeable(response, first) && ChunkMerged(response, first) == ChunkMerged(response, delta)
  {
    var first := delta["tool_calls" := Arr([delta["tool_calls"].items[0]])];
    assert WithoutRole(first) == WithoutRole(delta)["tool_calls" := Arr([delta["tool_calls"].items[0]])];
    assert FirstCall(WithoutRole(first)) == FirstCall(WithoutRole(delta));
  }

  /** A delta that carries a tool call and nothing else a merge reads:
      besides its role, every other value is None, a number, a boolean or a
      list (a streamed tool-call chunk with "content": None, say). */
  predicate ToolCallOnly(delta: map<string, Json>) {
    && (forall k :: k in delta && k != "role" && k != "tool_calls" ==> !Touches(delta[k]))
    && HasToolCall(WithoutRole(delta))
    && WellFormedToolCall(WithoutRole(delta))
  }

  /** The response slot a tool-call delta addresses. */
  function SlotOf(response: map<string, Json>, delta: map<string, Json>): int
    requires ChunkMergeable(response, delta) && ToolCallOnly(delta)
  {
    SlotIndex(FirstCall(WithoutRole(delta))["index"].n, |response["tool_calls"].items|)
  }

  lemma {:induction false} ToolCallOnlyMerge(response: map<string, Json>, delta: map<string, Json>)
    requires ChunkMergeable(response, delta) && ToolCallOnly(delta)
    ensures var slots := response["tool_calls"].items;
            var slot := SlotOf(response, delta);
            ChunkMerged(response, delta) ==
              response["tool_calls" := Arr(slots[slot := MergedValue(slots[slot], Obj(FirstCall(WithoutRole(delta)) - {"index"}))])]
  {
    var fragment := WithoutRole(delta);
    assert forall k :: k in fragment ==> !Touches(fragment[k]);
    MergedIgnoresOtherValues(response, fragment);
  }

  /** The call a tool-call delta merges, without its `index`. */
  function CallOf(delta: map<string, Json>): map<string, Json>
    requires ToolCallOnly(delta)
  {
    FirstCall(WithoutRole(delta)) - {"index"}
  }

  /** After a tool-call delta for one slot, a delta for another slot still
      merges, into the same slot, which the first left as it was. */
  lemma {:induction false} OtherSlotUntouched(response: map<string, Json>, d1: map<string, Json>, d2: map<string, Json>)
    requires ToolCallOnly(d1) && ToolCallOnly(d2)
    requires ChunkMergeable(response, d1) && ChunkMergeable(response, d2)
    requires SlotOf(response, d1) != SlotOf(response, d2)
    ensures ChunkMergeable(ChunkMerged(response, d1), d2)
    ensures SlotOf(ChunkMerged(response, d1), d2) == SlotOf(response, d2)
  {
    var slots := response["tool_calls"].items;
    var i, j := SlotOf(response, d1), SlotOf(response, d2);
    var r1 := ChunkMerged(response, d1);
    assert r1 == response["tool_calls" := Arr(slots[i := MergedValue(slots[i], Obj(CallOf(d1)))])] by {
      ToolCallOnlyMerge(response, d1);
    }
    assert r1["tool_calls"].items[j] == slots[j];
    assert forall k :: k in WithoutRole(d2) ==> !Touches(WithoutRole(d2)[k]);
    MergedIgnoresOtherValues(r1, WithoutRole(d2));
  }

  /** The value a tool-call delta leaves in its slot. */
  function MergedSlot(response: map<string, Json>, delta: map<string, Json>): Json
    requires ChunkMergeable(response, delta) && ToolCallOnly(delta)
  {
    var slots := response["tool_calls"].items;
    MergedValue(slots[SlotOf(response, delta)], Obj(CallOf(delta)))
  }

  /** Two tool-call deltas for different slots, one after the other. */
  lemma {:induction false} TwoSlots(response: map<string, Json>, d1: map<string, Json>, d2: map<string, Json>)
    requires ToolCallOnly(d1) && ToolCallOnly(d2)
    requires ChunkMergeable(response, d1) && ChunkMergeable(response, d2)
    requires SlotOf(response, d1) != SlotOf(response, d2)
    ensures ChunkMergeable(ChunkMerged(response, d1), d2)
    ensures var slots := response["tool_calls"].items;
            ChunkMerged(ChunkMerged(response, d1), d2)
            == response["tool_calls" := Arr(slots[SlotOf(response, d1) := MergedSlot(response, d1)]
                                                 [SlotOf(response, d2) := MergedSlot(response, d2)])]
  {
    var slots := response["tool_calls"].items;
    var r1 := ChunkMerged(response, d1);
    OtherSlotUntouched(response, d1, d2);
    assert r1 == response["tool_calls" := Arr(slots[SlotOf(response, d1) := MergedSlot(response, d1)])] by {
      ToolCallOnlyMerge(response, d1);
    }
    assert MergedSlot(r1, d2) == MergedSlot(response, d2);
    ToolCallOnlyMerge(r1, d2);
  }

  /** Fragments of two tool calls at different indices may arrive in either
      order: each only updates its own slot, so the results agree. */
  lemma {:induction false} InterleavedToolCallsCommute(response: map<string, Json>, d1: map<string, Json>, d2: map<string, Json>)
    requires ToolCallOnly(d1) && ToolCallOnly(d2)
    requires ChunkMergeable(response, d1) && ChunkMergeable(response, d2)
    requires SlotOf(response, d1) != SlotOf(response, d2)
    ensures ChunkMergeable(ChunkMerged(response, d1), d2)
    ensures ChunkMergeable(ChunkMerged(response, d2), d1)
    ensures ChunkMerged(ChunkMerged(response, d1), d2) == ChunkMerged(ChunkMerged(response, d2), d1)
  {
    var slots := response["tool_calls"].items;
    var i, j := SlotOf(response, d1), SlotOf(response, d2);
    var v1, v2 := MergedSlot(response, d1), MergedSlot(response, d2);
    TwoSlots(response, d1, d2);
    TwoSlots(response, d2, d1);
    UpdatesCommute(slots, i, j, v1, v2);
  }

  lemma UpdatesCommute(s: seq<Json>, i: int, j: int, a: Json, b: Json)
    requires 0 <= i < |s| && 0 <= j < |s| && i != j
    ensures s[i := a][j := b] == s[j := b][i := a]
  {
  }

  // ---------------------------------------------------------------------
  // Streaming: chunk boundaries do not matter
  // ---------------------------------------------------------------------

  /** Where streamed text accumulates: a string reached by a path of keys
      from the response itself ("content"), or from the tool call in a
      given slot (["function", "arguments"]). */
  datatype Target = Content(path: seq<string>) | ToolCall(index: nat, path: seq<string>)

  predicate ValidTarget(response: map<string, Json>, target: Target) {
    match target
    case Content(path) =>
      && |path| > 0 && path[0] != "role" && path[0] != "tool_calls"
      && HasText(response, path)
    case ToolCall(i, path) =>
      && |path| > 0 && path[0] != "index"
      && "tool_calls" in response && response["tool_calls"].Arr?
      && i < |response["tool_calls"].items|
      && response["tool_calls"].items[i].Obj?
      && HasText(response["tool_calls"].items[i].fields, path)
  }

  /** The text accumulated so far at a target. */
  function TargetText(response: map<string, Json>, target: Target): string
    requires ValidTarget(response, target)
  {
    match target
    case Content(path) => TextAt(response, path)
    case ToolCall(i, path) => TextAt(response["tool_calls"].items[i].fields, path)
  }

  /** The response with the text at a target replaced. */
  function SetTargetText(response: map<string, Json>, target: Target, text: string): map<string, Json>
    requires ValidTarget(response, target)
  {
    match target
    case Content(path) => WithText(response, path, text)
    case ToolCall(i, path) =>
      var slots := response["tool_calls"].items;
      response["tool_calls" := Arr(slots[i := Obj(WithText(slots[i].fields, path, text))])]
  }

  /** The delta that streams one chunk of text to a target. */
  function ChunkFor(target: Target, text: string): map<string, Json>
    requires |target.path| > 0
  {
    match target
    case Content(path) => PathDelta(path, text)
    case ToolCall(i, path) => map["tool_calls" := Arr([Obj(PathDelta(path, text)["index" := Num(i)])])]
  }

  lemma {:induction false} SetTargetTextFacts(response: map<string, Json>, target: Target, s: string, s': string)
    requires ValidTarget(response, target)
    ensures ValidTarget(SetTargetText(response, target, s), target)
    ensures TargetText(SetTargetText(response, target, s), target) == s
    ensures SetTargetText(SetTargetText(response, target, s), target, s') == SetTargetText(response, target, s')
    ensures SetTargetText(response, target, TargetText(response, target)) == response
  {
    match target
    case Content(path) =>
      WithTextFacts(response, path, s, s');
    case ToolCall(i, path) =>
      var slots := response["tool_calls"].items;
      WithTextFacts(slots[i].fields, path, s, s');
      var after := SetTargetText(response, target, s);
      assert after["tool_calls"].items[i].fields == WithText(slots[i].fields, path, s);
      assert after["tool_calls"].items[i := Obj(WithText(WithText(slots[i].fields, path, s), path, s'))]
             == slots[i := Obj(WithText(slots[i].fields, path, s'))];
      assert slots[i := Obj(WithText(slots[i].fields, path, TextAt(slots[i].fields, path)))] == slots;
  }

  /** One chunk, merged by merge_chunk, appends to the target's text. */
  lemma {:induction false} ChunkAppends(response: map<string, Json>, target: Target, text: string)
    requires ValidTarget(response, target)
    ensures ChunkMergeable(response, ChunkFor(target, text))
    ensures ChunkMerged(response, ChunkFor(target, text))
            == SetTargetText(response, target, TargetText(response, target) + text)
  {
    match target
    case Content(path) =>
      var delta := PathDelta(path, text);
      assert WithoutRole(delta) == delta;
      MergePathDelta(response, path, text);
    case ToolCall(i, path) =>
      var delta := ChunkFor(target, text);
      var slots := response["tool_calls"].items;
      assert WithoutRole(delta) == delta;
      assert FirstCall(delta) - {"index"} == PathDelta(path, text);
      MergePathDelta(slots[i].fields, path, text);
      assert MergeableValue(slots[i], Obj(PathDelta(path, text)));
      MergedIgnoresOtherValues(response, delta);
  }

  function Concat(chunks: seq<string>): string {
    if chunks == [] then "" else chunks[0] + Concat(chunks[1..])
  }

  /** The response after merge_chunk has merged each chunk in turn. */
  function Stream(response: map<string, Json>, target: Target, chunks: seq<string>): map<string, Json>
    requires ValidTarget(response, target)
    decreases |chunks|
  {
    if chunks == [] then response
    else
      ChunkAppends(response, target, chunks[0]);
      SetTargetTextFacts(response, target, TargetText(response, target) + chunks[0], "");
      Stream(ChunkMerged(response, ChunkFor(target, chunks[0])), target, chunks[1..])
  }

  /** One step of a stream: the first chunk is appended, the rest streamed after it. */
  lemma StreamStep(response: map<string, Json>, target: Target, chunks: seq<string>)
    requires ValidTarget(response, target) && chunks != []
    ensures var next := SetTargetText(response, target, TargetText(response, target) + chunks[0]);
            && ValidTarget(next, target)
            && TargetText(next, target) == TargetText(response, target) + chunks[0]
            && Stream(response, target, chunks) == Stream(next, target, chunks[1..])
  {
    ChunkAppends(response, target, chunks[0]);
    SetTargetTextFacts(response, target, TargetText(response, target) + chunks[0], "");
  }

  /** Streaming chunks appends their concatenation to the target's text. */
  lemma {:induction false} StreamAppends(response: map<string, Json>, target: Target, chunks: seq<string>)
    requires ValidTarget(response, target)
    ensures Stream(response, target, chunks) == SetTargetText(response, target, TargetText(response, target) + Concat(chunks))
    decreases |chunks|
  {
    var text := TargetText(response, target);
    if chunks == [] {
      SetTargetTextFacts(response, target, text, text);
      assert text + "" == text;
    } else {
      var c, rest := chunks[0], chunks[1..];
      var next := SetTargetText(response, target, text + c);
      assert ValidTarget(next, target) && TargetText(next, target) == text + c
             && Stream(response, target, chunks) == Stream(next, target, rest) by {
        StreamStep(response, target, chunks);
      }
      var all := text + c + Concat(rest);
      assert Stream(next, target, rest) == SetTargetText(next, target, all) by {
        StreamAppends(next, target, rest);
      }
      assert SetTargetText(next, target, all) == SetTargetText(response, target, all) by {
        SetTargetTextFacts(response, target, text + c, all);
      }
      assert all == text + Concat(chunks) by {
        ConcatFirst(text, chunks);
      }
    }
  }

  lemma ConcatFirst(prefix: string, chunks: seq<string>)
    requires chunks != []
    ensures prefix + chunks[0] + Concat(chunks[1..]) == prefix + Concat(chunks)
  {
  }

  /** However a text was split into chunks, streaming it gives the same response. */
  lemma ChunkingInvariance(response: map<string, Json>, target: Target, chunks: seq<string>, chunks': seq<string>)
    requires ValidTarget(response, target)
    requires Concat(chunks) == Concat(chunks')
    ensures Stream(response, target, chunks) == Stream(response, target, chunks')
  {
    StreamAppends(response, target, chunks);
    StreamAppends(response, target, chunks');
  }

  /** The characters of a text, each as a one-character chunk. */
  function Characters(text: string): (chunks: seq<string>)
    ensures |chunks| == |text|
  {
    seq(|text|, i requires 0 <= i < |text| => [text[i]])
  }

  lemma {:induction false} ConcatCharacters(text: string)
    ensures Concat(Characters(text)) == text
  {
    if text != [] {
      ConcatCharacters(text[1..]);
      assert Characters(text)[1..] == Characters(text[1..]);
      assert text == [text[0]] + text[1..];
    }
  }

  /** Streaming a text one character at a time into an empty string leaves
      exactly that text at the target. */
  lemma CharacterStreaming(response: map<string, Json>, target: Target, text: string)
    requires ValidTarget(response, target) && TargetText(response, target) == ""
    ensures var after := Stream(response, target, Characters(text));
            ValidTarget(after, target) && TargetText(after, target) == text
  {
    StreamAppends(response, target, Characters(text));
    ConcatCharacters(text);
    assert "" + Concat(Characters(text)) == text;
    SetTargetTextFacts(response, target, text, text);
  }
}
