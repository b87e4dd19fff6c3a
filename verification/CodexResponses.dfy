/** What the summaries of a Codex response say, told by the response itself: item by item and part by part. */
module CodexResponses {
  import opened Strings
  import opened CodexStream
  import Speech

  // ---------- one part, one item ----------

  /** A decoded object with these fields set to strings. */
  predicate Has(value: Value, kind: string, text: string) {
    value.Object? && StringField(value.fields, "type") == kind && StringField(value.fields, "text") == text
  }

  /** A part of an output message counts by its type and its text, and adds its text trimmed. */
  lemma PartSays(part: Value, kind: string, text: string)
    requires Has(part, kind, text)
    ensures (kind == "output_text" || kind == "text" || kind == "input_text") && Trim(text) != "" ==>
              PartTexts([part]) == [Trim(text)]
    ensures (kind != "output_text" && kind != "text" && kind != "input_text") || Trim(text) == "" ==>
              PartTexts([part]) == []
  {
    hide Trim, StringField;
    OnePart(part);
  }

  /** A chat part counts by its text alone. */
  lemma ChatPartSays(part: Value, kind: string, text: string)
    requires Has(part, kind, text)
    ensures ChoicePartTexts([part]) == if Trim(text) != "" then [Trim(text)] else []
  {
    hide Trim, StringField;
    OnePart(part);
  }

  lemma OnePart(part: Value)
    ensures PartTexts([part]) ==
            if TextPart(part) && Trim(StringField(part.fields, "text")) != ""
            then [Trim(StringField(part.fields, "text"))] else []
    ensures ChoicePartTexts([part]) ==
            if part.Object? && Trim(StringField(part.fields, "text")) != ""
            then [Trim(StringField(part.fields, "text"))] else []
  {
    hide Trim, StringField, TextPart;
    assert [part][..0] == [] && PartTexts([]) == [] && ChoicePartTexts([]) == [];
  }

  /** An output item is read by its type: a message for its texts, a function call as it stands. */
  lemma ItemSays(item: Value)
    requires item.Object?
    ensures StringField(item.fields, "type") == "message" ==>
              OutputTexts([item]) == MessageTexts(item.fields) && OutputCalls([item]) == []
    ensures StringField(item.fields, "type") == "function_call" ==>
              OutputTexts([item]) == [] && OutputCalls([item]) == [item.fields]
    ensures StringField(item.fields, "type") != "message" && StringField(item.fields, "type") != "function_call" ==>
              OutputTexts([item]) == [] && OutputCalls([item]) == []
  {
    hide StringField, MessageTexts;
    assert [item][..0] == [] && OutputTexts([]) == [] && OutputCalls([]) == [];
  }

  // ---------- lists ----------

  lemma {:induction false} PartsAppend(a: seq<Value>, b: seq<Value>)
    ensures PartTexts(a + b) == PartTexts(a) + PartTexts(b)
    ensures ChoicePartTexts(a + b) == ChoicePartTexts(a) + ChoicePartTexts(b)
  {
    hide Trim, StringField, TextPart;
    if b == [] {
      assert a + b == a;
    } else {
      var n := |b| - 1;
      assert (a + b)[..|a + b| - 1] == a + b[..n];
      PartsAppend(a, b[..n]);
    }
  }

  lemma OutputsLast(front: seq<Value>, last: Value)
    ensures OutputTexts(front + [last]) == OutputTexts(front) + OutputTexts([last])
    ensures OutputCalls(front + [last]) == OutputCalls(front) + OutputCalls([last])
    ensures OutputTexts([]) == [] && OutputCalls([]) == []
  {
    hide StringField, MessageTexts;
    assert (front + [last])[..|front|] == front && [last][..0] == [];
  }

  /** Lists are read from front to back, each entry for itself. */
  lemma {:induction false} OutputsAppend(a: seq<Value>, b: seq<Value>)
    ensures OutputTexts(a + b) == OutputTexts(a) + OutputTexts(b)
    ensures OutputCalls(a + b) == OutputCalls(a) + OutputCalls(b)
  {
    hide *;
    if b == [] {
      assert a + b == a;
      OutputsLast([], Null);
    } else {
      var front, last := b[..|b| - 1], b[|b| - 1];
      OutputsAppend(a, front);
      OutputsLast(front, last);
      OutputsLast(a + front, last);
      assert front + [last] == b && a + front + [last] == a + b;
    }
  }

  lemma ChoicesLast(front: seq<Value>, last: Value)
    ensures ChoicesTexts(front + [last]) == ChoicesTexts(front) + ChoicesTexts([last])
    ensures ChoicesCalls(front + [last]) == ChoicesCalls(front) + ChoicesCalls([last])
    ensures ChoicesTexts([]) == [] && ChoicesCalls([]) == []
  {
    hide ChoiceTexts, ChoiceCalls;
    assert (front + [last])[..|front|] == front && [last][..0] == [];
  }

  lemma {:induction false} ChoicesAppend(a: seq<Value>, b: seq<Value>)
    ensures ChoicesTexts(a + b) == ChoicesTexts(a) + ChoicesTexts(b)
    ensures ChoicesCalls(a + b) == ChoicesCalls(a) + ChoicesCalls(b)
  {
    hide *;
    if b == [] {
      assert a + b == a;
      ChoicesLast([], Null);
    } else {
      var front, last := b[..|b| - 1], b[|b| - 1];
      ChoicesAppend(a, front);
      ChoicesLast(front, last);
      ChoicesLast(a + front, last);
      assert front + [last] == b && a + front + [last] == a + b;
    }
  }

  // ---------- whole responses ----------

  /** Parts of one of the three text types, with just these texts. */
  predicate TypedParts(parts: seq<Value>, texts: seq<string>) {
    && |parts| == |texts|
    && forall i :: 0 <= i < |parts| ==>
         || Has(parts[i], "output_text", texts[i])
         || Has(parts[i], "text", texts[i])
         || Has(parts[i], "input_text", texts[i])
  }

  /** A message item with just these texts. */
  predicate MessageOf(item: Value, texts: seq<string>) {
    && item.Object? && StringField(item.fields, "type") == "message"
    && "content" in item.fields && item.fields["content"].Array?
    && TypedParts(item.fields["content"].items, texts)
  }

  function Trims(texts: seq<string>): string {
    if texts == [] then "" else Trim(texts[0]) + Trims(texts[1..])
  }

  function AllTrims(messages: seq<seq<string>>): string {
    if messages == [] then "" else Trims(messages[0]) + AllTrims(messages[1..])
  }

  lemma {:induction false} PartsSay(parts: seq<Value>, texts: seq<string>)
    requires TypedParts(parts, texts)
    ensures Concat(PartTexts(parts)) == Trims(texts)
  {
    hide Trim, Has;
    if parts != [] {
      PartsSay(parts[1..], texts[1..]);
      assert [parts[0]] + parts[1..] == parts;
      PartsAppend([parts[0]], parts[1..]);
      PartSaysTrim(parts[0], texts[0]);
      ConcatAppend(PartTexts([parts[0]]), PartTexts(parts[1..]));
    }
  }

  lemma PartSaysTrim(part: Value, text: string)
    requires Has(part, "output_text", text) || Has(part, "text", text) || Has(part, "input_text", text)
    ensures Concat(PartTexts([part])) == Trim(text)
  {
    hide Trim, Has, PartTexts;
    if Has(part, "output_text", text) {
      PartSays(part, "output_text", text);
    } else if Has(part, "text", text) {
      PartSays(part, "text", text);
    } else {
      PartSays(part, "input_text", text);
    }
    ConcatOne(Trim(text));
  }

  lemma ConcatOne(s: string)
    ensures Concat([s]) == s && Concat([]) == ""
  {
    assert [s][1..] == [] && s + "" == s;
  }

  lemma {:induction false} MessagesSay(output: seq<Value>, messages: seq<seq<string>>)
    requires |output| == |messages| && forall i :: 0 <= i < |output| ==> MessageOf(output[i], messages[i])
    ensures Concat(OutputTexts(output)) == AllTrims(messages) && OutputCalls(output) == []
  {
    hide Trim, TypedParts, Trims, PartTexts;
    if output != [] {
      MessagesSay(output[1..], messages[1..]);
      assert [output[0]] + output[1..] == output;
      OutputsAppend([output[0]], output[1..]);
      assert MessageOf(output[0], messages[0]);
      ItemSays(output[0]);
      PartsSay(output[0].fields["content"].items, messages[0]);
      ConcatAppend(OutputTexts([output[0]]), OutputTexts(output[1..]));
    }
  }

  /** The text of a response of messages: the texts of all their parts, each trimmed, one after the other. */
  lemma ResponseSays(body: Value, messages: seq<seq<string>>)
    requires body.Object? && "output" in body.fields && body.fields["output"].Array?
    requires var output := body.fields["output"].items;
             |output| == |messages| && forall i :: 0 <= i < |output| ==> MessageOf(output[i], messages[i])
    ensures ResponseText(body) == Trim(AllTrims(messages)) && ResponseCalls(body) == []
  {
    hide Trim, MessageOf, AllTrims, OutputTexts, OutputCalls;
    MessagesSay(body.fields["output"].items, messages);
  }

  /** Function calls are reported whole and in order. */
  lemma {:induction false} CallsAreListed(output: seq<Value>, calls: seq<Fields>)
    requires |output| == |calls|
    requires forall i :: 0 <= i < |output| ==>
               output[i].Object? && output[i].fields == calls[i]
               && StringField(output[i].fields, "type") == "function_call"
    ensures OutputCalls(output) == calls && OutputTexts(output) == []
  {
    hide StringField;
    if output != [] {
      CallsAreListed(output[1..], calls[1..]);
      assert [output[0]] + output[1..] == output && [calls[0]] + calls[1..] == calls;
      OutputsAppend([output[0]], output[1..]);
      ItemSays(output[0]);
    }
  }

  lemma {:induction false} ObjectsAreListed(items: seq<Value>, objects: seq<Fields>)
    requires |items| == |objects| && forall i :: 0 <= i < |items| ==> items[i].Object? && items[i].fields == objects[i]
    ensures ObjectsOf(items) == objects
  {
    if items != [] {
      var n := |items| - 1;
      ObjectsAreListed(items[..n], objects[..n]);
      assert objects[..n] + [objects[n]] == objects;
    }
  }

  /** A chat response of one choice: its content, if that is a string, and its calls in order. */
  lemma ChatSays(body: Value, message: Fields, text: string, calls: seq<Fields>)
    requires body.Object? && "output" !in body.fields
    requires "choices" in body.fields && body.fields["choices"].Array?
    requires var choices := body.fields["choices"].items;
             |choices| == 1 && choices[0].Object? && "message" in choices[0].fields
             && choices[0].fields["message"].Object? && choices[0].fields["message"].fields == message
    requires "content" in message && message["content"] == Text(text)
    requires "tool_calls" in message && message["tool_calls"].Array?
    requires var raw := message["tool_calls"].items;
             |raw| == |calls| && forall i :: 0 <= i < |raw| ==> raw[i].Object? && raw[i].fields == calls[i]
    ensures ResponseText(body) == Trim(text) && ResponseCalls(body) == calls
  {
    hide Trim, ObjectsOf, ChoiceTexts, ChoiceCalls;
    var choice := body.fields["choices"].items[0];
    assert body.fields["choices"].items == [choice];
    OneChoice(choice);
    OneChoiceSays(choice, message, text, calls);
    ConcatOne(text);
    TrimBlank(text);
  }

  lemma OneChoice(choice: Value)
    ensures ChoicesTexts([choice]) == ChoiceTexts(choice) && ChoicesCalls([choice]) == ChoiceCalls(choice)
  {
    hide ChoiceTexts, ChoiceCalls;
    assert [choice][..0] == [] && ChoicesTexts([]) == [] && ChoicesCalls([]) == [];
  }

  lemma OneChoiceSays(choice: Value, message: Fields, text: string, calls: seq<Fields>)
    requires choice.Object? && "message" in choice.fields
    requires choice.fields["message"].Object? && choice.fields["message"].fields == message
    requires "content" in message && message["content"] == Text(text)
    requires "tool_calls" in message && message["tool_calls"].Array?
    requires var raw := message["tool_calls"].items;
             |raw| == |calls| && forall i :: 0 <= i < |raw| ==> raw[i].Object? && raw[i].fields == calls[i]
    ensures ChoiceTexts(choice) == (if Trim(text) != "" then [text] else []) && ChoiceCalls(choice) == calls
  {
    hide Trim, ObjectsOf;
    ObjectsAreListed(message["tool_calls"].items, calls);
  }

  lemma TrimBlank(text: string)
    ensures Trim(text) == "" ==> Trim("") == Trim(text)
  {
    TrimFixed("");
    hide Trim;
  }

  /** The ordinary response: one message with one part of type `output_text`. */
  lemma {:induction false} OrdinaryResponseExample()
    ensures
      var part := Object(map["type" := Text("output_text"), "text" := Text("Hi")], "");
      var item := Object(map["type" := Text("message"), "content" := Array([part], "")], "");
      ResponseText(Object(map["output" := Array([item], "")], "")) == "Hi"
  {
    var part := Object(map["type" := Text("output_text"), "text" := Text("Hi")], "");
    var item := Object(map["type" := Text("message"), "content" := Array([part], "")], "");
    assert Has(part, "output_text", "Hi") && MessageOf(item, ["Hi"]);
    hide Trim, MessageOf, AllTrims, ResponseText;
    ResponseSays(Object(map["output" := Array([item], "")], ""), [["Hi"]]);
    OneTrim("Hi");
    TrimFixed("Hi");
  }

  /** A number where a text belongs is read as it prints. */
  lemma {:induction false} NumberTextExample()
    ensures
      var part := Object(map["type" := Text("text"), "text" := Scalar("42")], "");
      var item := Object(map["type" := Text("message"), "content" := Array([part], "")], "");
      ResponseText(Object(map["output" := Array([item], "")], "")) == "42"
  {
    var part := Object(map["type" := Text("text"), "text" := Scalar("42")], "");
    var item := Object(map["type" := Text("message"), "content" := Array([part], "")], "");
    assert Has(part, "text", "42") && MessageOf(item, ["42"]);
    hide Trim, MessageOf, AllTrims, ResponseText;
    ResponseSays(Object(map["output" := Array([item], "")], ""), [["42"]]);
    OneTrim("42");
    TrimFixed("42");
  }

  lemma OneTrim(text: string)
    ensures AllTrims([[text]]) == Trim(text)
  {
    hide Trim;
    var all := [[text]];
    assert all[1..] == [] && AllTrims([]) == "" && [text][1..] == [] && Trims([]) == "";
    assert Trim(text) + "" == Trim(text);
  }

  // ---------- frames ----------

  /** What each frame reports, told by the type it names. */
  lemma FramesByType(p: Progress, frame: Fields)
    ensures
      var kind := StringField(frame, "type");
      && (kind == "response.output_text.delta" ==>
            FrameText(p, frame) == StringField(frame, "delta") && FrameCalls(frame) == []
            && After(p, frame) == Progress(p.text + StringField(frame, "delta"), p.completed))
      && (kind == "response.output_text.done" ==>
            FrameText(p, frame) == Trim(if p.text == "" then StringField(frame, "text") else p.text)
            && FrameCalls(frame) == []
            && After(p, frame).text == (if p.text == "" then StringField(frame, "text") else p.text)
            && After(p, frame).completed == p.completed)
      && (kind == "response.completed" && "response" in frame ==>
            After(p, frame).completed && FrameCalls(frame) == ResponseCalls(frame["response"])
            && (ResponseText(frame["response"]) != "" ==> FrameText(p, frame) == ResponseText(frame["response"]))
            && (ResponseText(frame["response"]) == "" ==> FrameText(p, frame) == Trim(p.text)))
      && (kind == "response.completed" && "response" !in frame ==>
            After(p, frame) == Progress(p.text, true) && FrameText(p, frame) == Trim(p.text))
      && (kind != "response.completed" ==> After(p, frame).completed == p.completed)
  {
    hide Trim, StringField, OutputTexts, OutputCalls, ChoicesTexts, ChoicesCalls;
  }

  /** An item frame, whether it announces the item or ends it, reports the item's own text and calls. */
  lemma ItemFrames(p: Progress, frame: Fields)
    requires StringField(frame, "type") == "response.output_item.added"
             || StringField(frame, "type") == "response.output_item.done"
    requires "item" in frame && frame["item"].Object?
    ensures
      var item := frame["item"].fields;
      && (StringField(item, "type") == "function_call" ==> FrameText(p, frame) == "" && FrameCalls(frame) == [item])
      && (StringField(item, "type") == "message" ==>
            FrameText(p, frame) == Trim(Concat(MessageTexts(item))) && FrameCalls(frame) == [])
      && After(p, frame).completed == p.completed
      && After(p, frame).text == if p.text == "" then FrameText(p, frame) else p.text
  {
    TrimFixed("");
    hide Trim, StringField, OutputTexts, OutputCalls, MessageTexts;
    ItemSays(frame["item"]);
    ConcatOne("");
  }

  /** A body is complete by its type, or by its status in any letter case. */
  lemma {:induction false} CompletedBodies()
    ensures ResponseCompleted(Object(map["type" := Text("response.completed")], ""))
    ensures ResponseCompleted(Object(map["status" := Text("Completed")], ""))
    ensures !ResponseCompleted(Object(map["status" := Text("incomplete")], ""))
  {
    hide Speech.Lower;
    var given, low := "Completed", Speech.Lower("Completed");
    assert |low| == 9 && low[0] == 'c' && forall i :: 1 <= i < 9 ==> low[i] == given[i];
    assert low == "completed";
    assert |Speech.Lower("incomplete")| == 10 && |Speech.Lower("")| == 0;
  }
}
