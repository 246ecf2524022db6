/**
 The persistence boundary of a message: two generations of on-disk shape, read through one
 in-place rewrite, and a write that must read back.

 `ToValue` and `FromValue` stand for the derived serializer and deserializer of the message
 type: the first leaves an empty `tool_calls` out, the second demands the field.
 */
module PersistedMessage {
  import opened Wrappers

  datatype Json =
    | Null
    | Bool(flag: bool)
    | Num(num: int)
    | Str(text: string)
    | Arr(items: seq<Json>)
    | Obj(fields: map<string, Json>)

  datatype ToolCall = ToolCall(id: string, name: string, arguments: string)

  /** An assistant message, or a message of another role, which passes through as its fields. */
  datatype Message =
    | Assistant(content: Option<string>, toolCalls: seq<ToolCall>, reasoning: Option<map<string, Json>>)
    | Other(role: string, rest: map<string, Json>)
  {
    predicate Valid() { Other? ==> role != "assistant" && "role" !in rest }
  }

  // ------------------------------------------------------------------ the derived serializer

  function CallValue(c: ToolCall): Json {
    Obj(map["id" := Str(c.id), "name" := Str(c.name), "arguments" := Str(c.arguments)])
  }

  function CallValues(cs: seq<ToolCall>): seq<Json> { seq(|cs|, i requires 0 <= i < |cs| => CallValue(cs[i])) }

  function With(o: map<string, Json>, key: string, v: Option<Json>): map<string, Json> {
    if v.Some? then o[key := v.value] else o
  }

  function TextValue(t: Option<string>): Option<Json> { if t.Some? then Some(Str(t.value)) else None }

  function ReasoningValue(r: Option<map<string, Json>>): Option<Json> { if r.Some? then Some(Obj(r.value)) else None }

  function AssistantFields(m: Message, calls: Option<Json>): map<string, Json>
    requires m.Assistant?
  {
    With(With(With(map["role" := Str("assistant")], "content", TextValue(m.content)),
              "tool_calls", calls), "reasoning", ReasoningValue(m.reasoning))
  }

  function ToValue(m: Message): Json {
    match m
    case Assistant(_, calls, _) => Obj(AssistantFields(m, if calls == [] then None else Some(Arr(CallValues(calls)))))
    case Other(role, rest) => Obj(rest["role" := Str(role)])
  }

  function ReadText(o: map<string, Json>, key: string): Option<string> {
    if key in o && o[key].Str? then Some(o[key].text) else None
  }

  /** An optional field: absent, null, or of the right kind. */
  predicate Absent(o: map<string, Json>, key: string) { key !in o || o[key].Null? }

  function ReadCall(v: Json): Option<ToolCall> {
    if !v.Obj? then None
    else
      var id, name, arguments := ReadText(v.fields, "id"), ReadText(v.fields, "name"), ReadText(v.fields, "arguments");
      if id.Some? && name.Some? && arguments.Some? then Some(ToolCall(id.value, name.value, arguments.value)) else None
  }

  function ReadCalls(vs: seq<Json>): Option<seq<ToolCall>> {
    if vs == [] then Some([])
    else
      var first, others := ReadCall(vs[0]), ReadCalls(vs[1..]);
      if first.Some? && others.Some? then Some([first.value] + others.value) else None
  }

  function FromValue(v: Json): Option<Message> {
    if !v.Obj? || ReadText(v.fields, "role").None? then None
    else
      var o, role := v.fields, v.fields["role"].text;
      if role != "assistant" then Some(Other(role, o - {"role"}))
      else if "tool_calls" !in o || !o["tool_calls"].Arr? then None
      else if !Absent(o, "content") && !o["content"].Str? then None
      else if !Absent(o, "reasoning") && !o["reasoning"].Obj? then None
      else
        var calls := ReadCalls(o["tool_calls"].items);
        if calls.None? then None
        else
          Some(Assistant(ReadText(o, "content"), calls.value,
                         if Absent(o, "reasoning") then None else Some(o["reasoning"].fields)))
  }

  // ------------------------------------------------------------------ the boundary

  predicate IsAssistant(v: Json) { v.Obj? && "role" in v.fields && v.fields["role"] == Str("assistant") }

  function Fill(o: map<string, Json>): map<string, Json> {
    if "tool_calls" in o then o else o["tool_calls" := Arr([])]
  }

  /** message_to_value. */
  function Write(m: Message): Json {
    var v := ToValue(m);
    if IsAssistant(v) then Obj(Fill(v.fields)) else v
  }

  function Flattened(call: Json): Json {
    if !call.Obj? || "function" !in call.fields then call
    else
      var f := call.fields["function"];
      var inner: map<string, Json> := if f.Obj? then f.fields else map[];
      var o := call.fields - {"function", "type"};
      Obj(With(With(o, "name", Lookup(inner, "name")), "arguments", Lookup(inner, "arguments")))
  }

  function Lookup(o: map<string, Json>, key: string): Option<Json> { if key in o then Some(o[key]) else None }

  function FlattenedAll(calls: seq<Json>): seq<Json> { seq(|calls|, i requires 0 <= i < |calls| => Flattened(calls[i])) }

  function FlattenCalls(o: map<string, Json>): map<string, Json> {
    if "tool_calls" in o && o["tool_calls"].Arr? then o["tool_calls" := Arr(FlattenedAll(o["tool_calls"].items))] else o
  }

  /** The bare reasoning string always goes; it survives only where no structured one stands. */
  function FoldReasoning(o: map<string, Json>): map<string, Json> {
    var o' := o - {"reasoning_content"};
    if "reasoning_content" in o && o["reasoning_content"].Str? && "reasoning" !in o' then
      o'["reasoning" := Obj(map["text" := o["reasoning_content"]])]
    else o'
  }

  function Normalized(v: Json): Json { if v.Obj? then Obj(Fill(FoldReasoning(FlattenCalls(v.fields)))) else v }

  /** message_from_value. */
  function Read(v: Json): Option<Message> { FromValue(if IsAssistant(v) then Normalized(v) else v) }

  /** flatten_legacy_tool_call: take the nested object out, then put its two fields in. */
  method FlattenLegacyToolCall(call: Json) returns (r: Json)
    ensures r == Flattened(call)
  {
    if !call.Obj? { return call; }
    var obj := call.fields;
    if "function" !in obj { return call; }
    var f := obj["function"];
    obj := obj - {"function"};
    obj := obj - {"type"};
    assert obj == call.fields - {"function", "type"};
    if f.Obj? && "name" in f.fields { obj := obj["name" := f.fields["name"]]; }
    if f.Obj? && "arguments" in f.fields { obj := obj["arguments" := f.fields["arguments"]]; }
    r := Obj(obj);
  }

  /** normalize_legacy_assistant. */
  method NormalizeLegacyAssistant(value: Json) returns (r: Json)
    ensures r == Normalized(value)
  {
    if !value.Obj? { return value; }
    var obj := value.fields;
    if "tool_calls" in obj && obj["tool_calls"].Arr? {
      var calls := obj["tool_calls"].items;
      var i := 0;
      ghost var given := calls;
      while i < |calls|
        invariant i <= |calls| == |given|
        invariant forall j :: 0 <= j < i ==> calls[j] == Flattened(given[j])
        invariant forall j :: i <= j < |calls| ==> calls[j] == given[j]
      {
        var flat := FlattenLegacyToolCall(calls[i]);
        calls := calls[i := flat];
        i := i + 1;
      }
      assert calls == FlattenedAll(given);
      obj := obj["tool_calls" := Arr(calls)];
    }
    if "reasoning_content" in obj {
      var bare := obj["reasoning_content"];
      obj := obj - {"reasoning_content"};
      if bare.Str? && "reasoning" !in obj { obj := obj["reasoning" := Obj(map["text" := bare])]; }
    }
    assert obj == FoldReasoning(FlattenCalls(value.fields));
    if "tool_calls" !in obj { obj := obj["tool_calls" := Arr([])]; }
    r := Obj(obj);
  }

  // ------------------------------------------------------------------ round trip

  lemma {:induction false} ReadsBackCalls(cs: seq<ToolCall>)
    ensures ReadCalls(CallValues(cs)) == Some(cs)
  {
    if cs != [] {
      assert CallValues(cs)[1..] == CallValues(cs[1..]);
      ReadsBackCalls(cs[1..]);
      assert ReadCall(CallValues(cs)[0]) == Some(cs[0]);
      assert [cs[0]] + cs[1..] == cs;
    }
  }

  /** What is written reads back, for every message. */
  lemma RoundTrip(m: Message)
    requires m.Valid()
    ensures Read(Write(m)) == Some(m)
  {
    match m
    case Assistant(_, calls, _) =>
      WrittenIsCurrent(m);
      CurrentIsOnlyFilled(Write(m));
      ReadsBackCalls(calls);
      hide CallValues, ReadCalls;
    case Other(role, rest) => assert rest["role" := Str(role)] - {"role"} == rest;
  }

  /** Without the boundary the derived pair loses exactly the assistant messages that call no tool. */
  lemma DerivedPairLosesPlainReplies(m: Message)
    requires m.Valid()
    ensures FromValue(ToValue(m)) == Some(m) <==> !(m.Assistant? && m.toolCalls == [])
    ensures m.Assistant? && m.toolCalls == [] ==> FromValue(ToValue(m)) == None
  {
    match m
    case Assistant(_, calls, _) =>
      ReadsBackCalls(calls);
      hide CallValues, ReadCalls;
    case Other(role, rest) => assert rest["role" := Str(role)] - {"role"} == rest;
  }

  // ------------------------------------------------------------------ normalisation

  predicate Flat(call: Json) { call.Obj? ==> "function" !in call.fields }

  /** A document of the current shape: no bare reasoning, no nested call. */
  predicate Current(v: Json) {
    v.Obj? ==>
      && "reasoning_content" !in v.fields
      && ("tool_calls" in v.fields && v.fields["tool_calls"].Arr? ==>
            forall i :: 0 <= i < |v.fields["tool_calls"].items| ==> Flat(v.fields["tool_calls"].items[i]))
  }

  lemma FlatteningFixes(call: Json)
    ensures Flat(Flattened(call))
    ensures Flattened(call) == call <==> Flat(call)
  {
    if !Flat(call) { assert "function" !in Flattened(call).fields; }
  }

  lemma FlatteningAllFixes(calls: seq<Json>)
    ensures FlattenedAll(calls) == calls <==> forall i :: 0 <= i < |calls| ==> Flat(calls[i])
    ensures forall i :: 0 <= i < |calls| ==> Flat(FlattenedAll(calls)[i])
  {
    forall i | 0 <= i < |calls| ensures Flat(Flattened(calls[i])) && (Flattened(calls[i]) == calls[i] <==> Flat(calls[i])) {
      FlatteningFixes(calls[i]);
    }
    hide Flattened, Flat;
    if FlattenedAll(calls) == calls {
      forall i | 0 <= i < |calls| ensures Flat(calls[i]) { assert FlattenedAll(calls)[i] == Flattened(calls[i]); }
    }
  }

  /** Normalisation leaves a document alone, up to the fill, exactly when it has the current shape. */
  lemma CurrentIsOnlyFilled(v: Json)
    requires v.Obj?
    ensures Normalized(v) == Obj(Fill(v.fields)) <==> Current(v)
  {
    var o := v.fields;
    var n := FoldReasoning(FlattenCalls(o));
    if "tool_calls" in o && o["tool_calls"].Arr? {
      FlatteningAllFixes(o["tool_calls"].items);
      assert n["tool_calls"] == Arr(FlattenedAll(o["tool_calls"].items));
    }
    hide FlattenedAll, Flat;
    assert "reasoning_content" !in n;
    if Current(v) {
      assert FlattenCalls(o) == o;
      assert o - {"reasoning_content"} == o;
    }
    assert "reasoning_content" in Fill(o) <==> "reasoning_content" in o;
    assert "tool_calls" in o ==> Fill(n)["tool_calls"] == n["tool_calls"] && Fill(o)["tool_calls"] == o["tool_calls"];
  }

  lemma NormalizedIsCurrent(v: Json)
    ensures Current(Normalized(v))
    ensures v.Obj? ==> "tool_calls" in Normalized(v).fields
  {
    if v.Obj? && "tool_calls" in v.fields && v.fields["tool_calls"].Arr? { FlatteningAllFixes(v.fields["tool_calls"].items); }
    hide FlattenedAll, Flat;
  }

  /** Normalising twice is normalising once. */
  lemma NormalizeIsIdempotent(v: Json)
    ensures Normalized(Normalized(v)) == Normalized(v)
  {
    NormalizedIsCurrent(v);
    if v.Obj? { CurrentIsOnlyFilled(Normalized(v)); }
    hide Current;
  }

  /** Whatever was written is of the current shape, whole. */
  lemma WrittenIsCurrent(m: Message)
    requires m.Assistant?
    ensures IsAssistant(Write(m)) && Current(Write(m)) && "tool_calls" in Write(m).fields
  {}

  /**
   What becomes of each field of any document: a structured reasoning stands against a bare one, a bare string
   alone becomes its text, any other bare value goes without a trace, and every other field is left alone.
   */
  lemma FieldsExactly(o: map<string, Json>, key: string)
    ensures
      var n := Normalized(Obj(o)).fields;
      && "reasoning_content" !in n
      && ("reasoning" in o ==> "reasoning" in n && n["reasoning"] == o["reasoning"])
      && ("reasoning" !in o ==>
            if "reasoning_content" in o && o["reasoning_content"].Str? then
              "reasoning" in n && n["reasoning"] == Obj(map["text" := o["reasoning_content"]])
            else "reasoning" !in n)
      && ("tool_calls" !in o ==> "tool_calls" in n && n["tool_calls"] == Arr([]))
      && (key != "reasoning" && key != "reasoning_content" && key != "tool_calls" ==>
            (key in n <==> key in o) && (key in o ==> n[key] == o[key]))
  {
    var o1 := FlattenCalls(o);
    assert forall k: string :: k != "tool_calls" ==> (k in o1 <==> k in o) && (k in o ==> o1[k] == o[k]);
    var o2 := FoldReasoning(o1);
    assert "reasoning" in o1 ==> o2["reasoning"] == o1["reasoning"];
    hide FlattenCalls, FoldReasoning;
    assert forall k: string :: k != "tool_calls" ==> (k in Fill(o2) <==> k in o2) && (k in o2 ==> Fill(o2)[k] == o2[k]);
  }

  /** A nested call gives up its wrapper: its own name and arguments win, and whatever else stood outside stays. */
  lemma NestedCallExactly(call: Json, key: string)
    requires call.Obj? && "function" in call.fields
    ensures
      var o, r := call.fields, Flattened(call).fields;
      var inner: map<string, Json> := if o["function"].Obj? then o["function"].fields else map[];
      && "function" !in r && "type" !in r
      && (key == "name" || key == "arguments" ==>
            if key in inner then key in r && r[key] == inner[key] else (key in r <==> key in o) && (key in o ==> r[key] == o[key]))
      && (key != "name" && key != "arguments" && key != "function" && key != "type" ==>
            (key in r <==> key in o) && (key in o ==> r[key] == o[key]))
  {}

  // ------------------------------------------------------------------ the legacy shape

  function LegacyCall(c: ToolCall): Json {
    Obj(map["id" := Str(c.id), "type" := Str("function"),
            "function" := Obj(map["name" := Str(c.name), "arguments" := Str(c.arguments)])])
  }

  function LegacyCalls(cs: seq<ToolCall>): seq<Json> { seq(|cs|, i requires 0 <= i < |cs| => LegacyCall(cs[i])) }

  /** An assistant message as the legacy writer left it: a bare reasoning string, nested calls, no empty list. */
  function Legacy(content: Option<string>, calls: seq<ToolCall>, thinking: Option<string>): Json {
    Obj(With(With(With(map["role" := Str("assistant")], "content", TextValue(content)),
                  "tool_calls", if calls == [] then None else Some(Arr(LegacyCalls(calls)))),
             "reasoning_content", TextValue(thinking)))
  }

  /** The same message in the current shape. */
  function Modern(content: Option<string>, calls: seq<ToolCall>, thinking: Option<string>): Message {
    Assistant(content, calls, if thinking.Some? then Some(map["text" := Str(thinking.value)]) else None)
  }

  lemma LegacyCallFlattens(c: ToolCall)
    ensures Flattened(LegacyCall(c)) == CallValue(c)
  {
    assert LegacyCall(c).fields - {"function", "type"} == map["id" := Str(c.id)];
  }

  /** A legacy document normalises to what its current-shape equivalent is written as, for any number of calls. */
  lemma LegacyNormalizesToModern(content: Option<string>, calls: seq<ToolCall>, thinking: Option<string>)
    ensures Normalized(Legacy(content, calls, thinking)) == Write(Modern(content, calls, thinking))
    ensures Read(Legacy(content, calls, thinking)) == Some(Modern(content, calls, thinking))
  {
    assert FlattenedAll(LegacyCalls(calls)) == CallValues(calls) by {
      forall i | 0 <= i < |calls| ensures Flattened(LegacyCalls(calls)[i]) == CallValues(calls)[i] {
        LegacyCallFlattens(calls[i]);
      }
    }
    hide FlattenedAll, LegacyCalls, CallValues;
    var m := Modern(content, calls, thinking);
    assert Normalized(Legacy(content, calls, thinking)).fields == Write(m).fields;
    RoundTrip(m);
    NormalizeIsIdempotent(Legacy(content, calls, thinking));
  }
}
