/**
  * Two summaries of one Codex response stream: the incremental one over WebSocket frames and the batch
  * one over a recorded event stream.
  */
module CodexStream {
  import opened Strings
  import Speech

  // ---------- decoded JSON ----------

  /**
    * A decoded value; `shown` is how Go's `%v` prints one that is not a string. `ObjectList` is the Go
    * slice of maps that the batch form builds itself: it is not the slice of values that decoding gives,
    * and type assertions tell them apart.
    */
  datatype Value =
    | Null
    | Text(text: string)
    | Scalar(shown: string)
    | Array(items: seq<Value>, shown: string)
    | Object(fields: Fields, shown: string)
    | ObjectList(objects: seq<Fields>)

  type Fields = map<string, Value>

  function StringField(m: Fields, key: string): string {
    if key !in m then ""
    else match m[key]
      case Null => ""
      case Text(text) => text
      case Scalar(shown) => shown
      case Array(_, shown) => shown
      case Object(_, shown) => shown
      case ObjectList(_) => ""
  }

  // ---------- text and calls of a response ----------

  predicate TextPart(part: Value) {
    part.Object? && StringField(part.fields, "type") in {"output_text", "text", "input_text"}
  }

  function PartTexts(parts: seq<Value>): seq<string> {
    if parts == [] then []
    else
      var last := parts[|parts| - 1];
      PartTexts(parts[..|parts| - 1])
      + (if TextPart(last) && Trim(StringField(last.fields, "text")) != ""
         then [Trim(StringField(last.fields, "text"))] else [])
  }

  function MessageTexts(message: Fields): seq<string> {
    if "content" in message && message["content"].Array? then PartTexts(message["content"].items) else []
  }

  method ExtractMessageText(message: Fields) returns (parts: seq<string>)
    ensures parts == MessageTexts(message)
  {
    if "content" !in message || !message["content"].Array? || message["content"].items == [] {
      return [];
    }
    hide Trim;
    var content := message["content"].items;
    parts := [];
    for i := 0 to |content|
      invariant parts == PartTexts(content[..i])
    {
      assert content[..i + 1][..i] == content[..i];
      if !content[i].Object? { continue; }
      var item := content[i].fields;
      if StringField(item, "type") in {"output_text", "text", "input_text"} {
        var text := Trim(StringField(item, "text"));
        if text != "" {
          parts := parts + [text];
        }
      }
    }
    assert content[..|content|] == content;
  }

  function OutputTexts(output: seq<Value>): seq<string> {
    if output == [] then []
    else
      var last := output[|output| - 1];
      OutputTexts(output[..|output| - 1])
      + (if last.Object? && StringField(last.fields, "type") == "message" then MessageTexts(last.fields) else [])
  }

  function OutputCalls(output: seq<Value>): seq<Fields> {
    if output == [] then []
    else
      var last := output[|output| - 1];
      OutputCalls(output[..|output| - 1])
      + (if last.Object? && StringField(last.fields, "type") == "function_call" then [last.fields] else [])
  }

  method SummarizeResponseOutput(output: seq<Value>) returns (text: string, calls: seq<Fields>)
    ensures text == Trim(Concat(OutputTexts(output))) && calls == OutputCalls(output)
  {
    hide Trim, MessageTexts, StringField;
    var parts: seq<string> := [];
    calls := [];
    for i := 0 to |output|
      invariant parts == OutputTexts(output[..i]) && calls == OutputCalls(output[..i])
    {
      assert output[..i + 1][..i] == output[..i];
      if !output[i].Object? { continue; }
      var item := output[i].fields;
      var kind := StringField(item, "type");
      if kind == "function_call" {
        calls := calls + [item];
      } else if kind == "message" {
        var more := ExtractMessageText(item);
        parts := parts + more;
      }
    }
    assert output[..|output|] == output;
    text := Trim(Concat(parts));
  }

  /** The text parts of a chat choice: a non-blank string as it stands, or the trimmed texts of its parts. */
  function ChoicePartTexts(parts: seq<Value>): seq<string> {
    if parts == [] then []
    else
      var last := parts[|parts| - 1];
      ChoicePartTexts(parts[..|parts| - 1])
      + (if last.Object? && Trim(StringField(last.fields, "text")) != ""
         then [Trim(StringField(last.fields, "text"))] else [])
  }

  function ChoiceTexts(choice: Value): seq<string> {
    if !choice.Object? || "message" !in choice.fields || !choice.fields["message"].Object? then []
    else
      var message := choice.fields["message"].fields;
      if "content" !in message then []
      else if message["content"].Text?
        then (if Trim(message["content"].text) != "" then [message["content"].text] else [])
      else if message["content"].Array? then ChoicePartTexts(message["content"].items)
      else []
  }

  function ObjectsOf(items: seq<Value>): seq<Fields> {
    if items == [] then []
    else ObjectsOf(items[..|items| - 1])
         + (if items[|items| - 1].Object? then [items[|items| - 1].fields] else [])
  }

  function ChoiceCalls(choice: Value): seq<Fields> {
    if !choice.Object? || "message" !in choice.fields || !choice.fields["message"].Object? then []
    else
      var message := choice.fields["message"].fields;
      if "tool_calls" in message && message["tool_calls"].Array? then ObjectsOf(message["tool_calls"].items) else []
  }

  function ChoicesTexts(choices: seq<Value>): seq<string> {
    if choices == [] then [] else ChoicesTexts(choices[..|choices| - 1]) + ChoiceTexts(choices[|choices| - 1])
  }

  function ChoicesCalls(choices: seq<Value>): seq<Fields> {
    if choices == [] then [] else ChoicesCalls(choices[..|choices| - 1]) + ChoiceCalls(choices[|choices| - 1])
  }

  /** The calls loop and the content switch of `summarizeChatChoices`, for one message. */
  method SummarizeChatMessage(choice: Value) returns (parts: seq<string>, calls: seq<Fields>)
    requires choice.Object? && "message" in choice.fields && choice.fields["message"].Object?
    ensures parts == ChoiceTexts(choice) && calls == ChoiceCalls(choice)
  {
    hide Trim, StringField;
    var message := choice.fields["message"].fields;
    parts, calls := [], [];
    if "tool_calls" in message && message["tool_calls"].Array? {
      var raw := message["tool_calls"].items;
      for j := 0 to |raw|
        invariant calls == ObjectsOf(raw[..j])
      {
        assert raw[..j + 1][..j] == raw[..j];
        if raw[j].Object? {
          calls := calls + [raw[j].fields];
        }
      }
      assert raw[..|raw|] == raw;
    }
    if "content" in message {
      match message["content"] {
        case Text(content) =>
          if Trim(content) != "" {
            parts := parts + [content];
          }
        case Array(content, _) =>
          for j := 0 to |content|
            invariant parts == ChoicePartTexts(content[..j])
          {
            assert content[..j + 1][..j] == content[..j];
            if !content[j].Object? { continue; }
            var t := Trim(StringField(content[j].fields, "text"));
            if t != "" {
              parts := parts + [t];
            }
          }
          assert content[..|content|] == content;
        case _ =>
      }
    }
  }

  method SummarizeChatChoices(choices: seq<Value>) returns (text: string, calls: seq<Fields>)
    ensures text == Trim(Concat(ChoicesTexts(choices))) && calls == ChoicesCalls(choices)
  {
    hide Trim;
    var parts: seq<string> := [];
    calls := [];
    for i := 0 to |choices|
      invariant parts == ChoicesTexts(choices[..i]) && calls == ChoicesCalls(choices[..i])
    {
      assert choices[..i + 1][..i] == choices[..i];
      if !choices[i].Object? { continue; }
      if "message" !in choices[i].fields || !choices[i].fields["message"].Object? { continue; }
      var more, moreCalls := SummarizeChatMessage(choices[i]);
      parts := parts + more;
      calls := calls + moreCalls;
    }
    assert choices[..|choices|] == choices;
    text := Trim(Concat(parts));
  }

  /** `summarizeDecodedResponse`: an output list, or else a choices list, or else nothing. */
  function ResponseText(body: Value): string {
    if !body.Object? then ""
    else if "output" in body.fields && body.fields["output"].Array?
      then Trim(Concat(OutputTexts(body.fields["output"].items)))
    else if "choices" in body.fields && body.fields["choices"].Array?
      then Trim(Concat(ChoicesTexts(body.fields["choices"].items)))
    else ""
  }

  function ResponseCalls(body: Value): seq<Fields> {
    if !body.Object? then []
    else if "output" in body.fields && body.fields["output"].Array? then OutputCalls(body.fields["output"].items)
    else if "choices" in body.fields && body.fields["choices"].Array? then ChoicesCalls(body.fields["choices"].items)
    else []
  }

  method SummarizeDecodedResponse(body: Value) returns (text: string, calls: seq<Fields>)
    ensures text == ResponseText(body) && calls == ResponseCalls(body)
  {
    hide Trim, OutputTexts, OutputCalls, ChoicesTexts, ChoicesCalls;
    if !body.Object? {
      return "", [];
    }
    if "output" in body.fields && body.fields["output"].Array? {
      text, calls := SummarizeResponseOutput(body.fields["output"].items);
      return;
    }
    if "choices" in body.fields && body.fields["choices"].Array? {
      text, calls := SummarizeChatChoices(body.fields["choices"].items);
      return;
    }
    return "", [];
  }

  /** A part that only the chat form reads: it has text, but of none of the three types. */
  predicate Untyped(part: Value) {
    part.Object? && Trim(StringField(part.fields, "text")) != "" && !TextPart(part)
  }

  lemma {:induction false} PartsAgree(parts: seq<Value>)
    ensures |PartTexts(parts)| <= |ChoicePartTexts(parts)|
    ensures PartTexts(parts) == ChoicePartTexts(parts) <==> forall i :: 0 <= i < |parts| ==> !Untyped(parts[i])
    ensures |PartTexts(parts)| == |ChoicePartTexts(parts)| ==> PartTexts(parts) == ChoicePartTexts(parts)
  {
    hide Trim, StringField;
    if parts != [] {
      var n := |parts| - 1;
      PartsAgree(parts[..n]);
      assert Untyped(parts[n]) ==> |PartTexts(parts)| < |ChoicePartTexts(parts)|;
      assert forall i :: 0 <= i < n ==> parts[..n][i] == parts[i];
    }
  }

  /**
    * One message, read as an output item and as a chat choice: a list of parts gives the same texts exactly
    * when no part has text of some other type; a plain string is text in the chat form only.
    */
  lemma MessageFormsAgree(message: Fields)
    requires "content" in message
    ensures
      var chat := ChoiceTexts(Object(map["message" := Object(message, "")], ""));
      MessageTexts(message) == chat <==>
      match message["content"]
      case Array(parts, _) => forall i :: 0 <= i < |parts| ==> !Untyped(parts[i])
      case Text(text) => Trim(text) == ""
      case _ => true
  {
    hide Trim, Untyped, PartTexts, ChoicePartTexts;
    if message["content"].Array? {
      PartsAgree(message["content"].items);
    }
  }

  lemma ResponseTextTrimmed(body: Value)
    ensures Trimmed(ResponseText(body))
  {
    TrimFixed("");
  }

  // ---------- frames ----------

  datatype Kind = TextDelta | TextDone | Item | Completed | Other

  function KindOf(frame: Fields): Kind {
    var t := StringField(frame, "type");
    if t == "response.output_text.delta" then TextDelta
    else if t == "response.output_text.done" then TextDone
    else if t == "response.output_item.added" || t == "response.output_item.done" then Item
    else if t == "response.completed" then Completed
    else Other
  }

  /** The response that an item frame is summarised as: its one item is the whole output. */
  function ItemResponse(frame: Fields): Value {
    if "item" in frame && frame["item"].Object? then Object(map["output" := Array([frame["item"]], "")], "") else Null
  }

  function CompletedResponse(frame: Fields): Value {
    if "response" in frame then frame["response"] else Null
  }

  // ---------- the incremental form ----------

  datatype Progress = Progress(text: string, completed: bool)

  const START := Progress("", false)

  /** What a frame would write into the empty text. */
  function Offer(frame: Fields): string {
    match KindOf(frame)
    case TextDelta => StringField(frame, "delta")
    case TextDone => StringField(frame, "text")
    case Item => ResponseText(ItemResponse(frame))
    case Completed => ResponseText(CompletedResponse(frame))
    case Other => ""
  }

  function After(p: Progress, frame: Fields): Progress {
    Progress(
      if KindOf(frame) == TextDelta then p.text + StringField(frame, "delta")
      else if p.text == "" then Offer(frame) else p.text,
      p.completed || KindOf(frame) == Completed)
  }

  function FrameText(p: Progress, frame: Fields): string {
    match KindOf(frame)
    case TextDelta => StringField(frame, "delta")
    case TextDone => Trim(After(p, frame).text)
    case Item => Offer(frame)
    case Completed => if Offer(frame) == "" then Trim(p.text) else Offer(frame)
    case Other => ResponseText(Object(frame, ""))
  }

  function FrameCalls(frame: Fields): seq<Fields> {
    match KindOf(frame)
    case Item => ResponseCalls(ItemResponse(frame))
    case Completed => ResponseCalls(CompletedResponse(frame))
    case Other => ResponseCalls(Object(frame, ""))
    case _ => []
  }

  class ResponseStreamState {
    var text: string
    var completed: bool

    ghost function Contents(): Progress
      reads this
    {
      Progress(text, completed)
    }

    constructor ()
      ensures Contents() == START
    {
      text, completed := "", false;
    }

    /** One frame: the text and calls to report, and whether the response is complete. */
    method SummarizeResponseFrame(body: Value) returns (summary: string, calls: seq<Fields>, done: bool)
      modifies this
      ensures !body.Object? ==> Contents() == old(Contents()) && summary == "" && calls == [] && !done
      ensures body.Object? ==>
                && Contents() == After(old(Contents()), body.fields)
                && summary == FrameText(old(Contents()), body.fields)
                && calls == FrameCalls(body.fields)
                && (done <==> KindOf(body.fields) == Completed)
    {
      hide Trim, ResponseText, ResponseCalls, StringField, KindOf, ItemResponse, CompletedResponse;
      if !body.Object? {
        return "", [], false;
      }
      var root := body.fields;
      match KindOf(root) {
        case TextDelta =>
          var delta := StringField(root, "delta");
          assert text + "" == text;
          if delta != "" {
            text := text + delta;
          }
          return delta, [], false;
        case TextDone =>
          var t := StringField(root, "text");
          if t != "" && text == "" {
            text := t;
          }
          return Trim(text), [], false;
        case Item =>
          summary, calls, done := AddItem(root);
          return;
        case Completed =>
          var t;
          t, calls := SummarizeDecodedResponse(CompletedResponse(root));
          completed := true;
          CompletedTrims(root);
          if t == "" {
            t := text;
          } else if text == "" {
            text := t;
          }
          return Trim(t), calls, true;
        case Other =>
          OtherSummary(root, body);
          summary, calls := SummarizeDecodedResponse(body);
          return summary, calls, false;
      }
    }

    method AddItem(root: Fields) returns (summary: string, calls: seq<Fields>, done: bool)
      requires KindOf(root) == Item
      modifies this
      ensures Contents() == After(old(Contents()), root)
      ensures summary == FrameText(old(Contents()), root) && calls == FrameCalls(root) && !done
    {
      hide Trim, StringField, KindOf, OutputTexts, OutputCalls;
      if "item" !in root || !root["item"].Object? {
        return "", [], false;
      }
      summary, calls := SummarizeDecodedResponse(ItemResponse(root));
      if summary != "" && text == "" {
        text := summary;
      }
      return summary, calls, false;
    }
  }

  lemma CompletedTrims(frame: Fields)
    ensures Trim(ResponseText(CompletedResponse(frame))) == ResponseText(CompletedResponse(frame))
  {
    ResponseTextTrimmed(CompletedResponse(frame));
    TrimFixed(ResponseText(CompletedResponse(frame)));
  }

  lemma OtherSummary(root: Fields, body: Value)
    requires body.Object? && body.fields == root
    ensures ResponseText(Object(root, "")) == ResponseText(body)
        && ResponseCalls(Object(root, "")) == ResponseCalls(body)
  {
  }

  /** The state after a run of frames. */
  function Fed(p: Progress, frames: seq<Fields>): Progress
    decreases |frames|
  {
    if frames == [] then p else Fed(After(p, frames[0]), frames[1..])
  }

  // ---------- the batch form ----------

  /** What a frame adds to a text that collects deltas, done texts or both. */
  function Piece(frame: Fields, delta: bool, done: bool): string {
    if delta && KindOf(frame) == TextDelta then StringField(frame, "delta")
    else if done && KindOf(frame) == TextDone then StringField(frame, "text")
    else ""
  }

  function Gather(frames: seq<Fields>, delta: bool, done: bool): string {
    if frames == [] then "" else Piece(frames[0], delta, done) + Gather(frames[1..], delta, done)
  }

  function Deltas(frames: seq<Fields>): string {
    Gather(frames, true, false)
  }

  function DoneTexts(frames: seq<Fields>): string {
    Gather(frames, false, true)
  }

  /** The batch form writes deltas and done texts one after the other. */
  function BatchText(frames: seq<Fields>): string {
    Gather(frames, true, true)
  }

  lemma {:induction false} GatherLast(frames: seq<Fields>, last: Fields, delta: bool, done: bool)
    ensures Gather(frames + [last], delta, done) == Gather(frames, delta, done) + Piece(last, delta, done)
  {
    hide Piece;
    var all := frames + [last];
    if frames == [] {
      assert all[0] == last && all[1..] == [];
      assert Gather([], delta, done) == "";
      assert Piece(last, delta, done) + "" == "" + Piece(last, delta, done);
    } else {
      assert all[0] == frames[0] && all[1..] == frames[1..] + [last];
      GatherLast(frames[1..], last, delta, done);
    }
  }

  function BatchItems(frames: seq<Fields>): seq<Fields> {
    if frames == [] then []
    else
      var last := frames[|frames| - 1];
      BatchItems(frames[..|frames| - 1])
      + (if KindOf(last) == Item && "item" in last && last["item"].Object? then [last["item"].fields] else [])
  }

  function BatchResponse(frames: seq<Fields>): Value {
    if frames == [] then Null
    else
      var last := frames[|frames| - 1];
      if KindOf(last) == Completed && "response" in last
      then last["response"] else BatchResponse(frames[..|frames| - 1])
  }

  predicate BatchCompleted(frames: seq<Fields>) {
    exists i :: 0 <= i < |frames| && KindOf(frames[i]) == Completed
  }

  function FinalResponse(frames: seq<Fields>): Value {
    if BatchResponse(frames) == Null
    then Object(map["object" := Text("response"), "output" := ObjectList(BatchItems(frames))], "")
    else BatchResponse(frames)
  }

  predicate ResponseCompleted(body: Value) {
    body.Object? &&
    (StringField(body.fields, "type") == "response.completed" ||
     Speech.Lower(StringField(body.fields, "status")) == "completed")
  }

  datatype Summary = Summary(body: Value, text: string, calls: seq<Fields>, completed: bool)

  function BatchSummary(frames: seq<Fields>): Summary {
    var response := FinalResponse(frames);
    Summary(response,
            if ResponseText(response) == "" && BatchText(frames) != ""
            then Trim(BatchText(frames)) else ResponseText(response),
            ResponseCalls(response),
            BatchCompleted(frames) || ResponseCompleted(response))
  }

  method SummarizeEventStream(events: seq<Fields>) returns (summary: Summary)
    ensures summary == BatchSummary(events)
  {
    hide Trim, ResponseText, ResponseCalls, StringField, KindOf, ResponseCompleted;
    var finalResponse := Null;
    var items: seq<Fields> := [];
    var text := "";
    var completed := false;
    for i := 0 to |events|
      invariant finalResponse == BatchResponse(events[..i]) && items == BatchItems(events[..i])
      invariant text == BatchText(events[..i]) && (completed <==> BatchCompleted(events[..i]))
    {
      var event := events[i];
      assert events[..i + 1][..i] == events[..i] && events[..i + 1][i] == event;
      CompletedGrows(events[..i], event);
      GatherLast(events[..i], event, true, true);
      assert events[..i] + [event] == events[..i + 1];
      assert text + "" == text;
      match KindOf(event) {
        case TextDelta => text := text + StringField(event, "delta");
        case TextDone => text := text + StringField(event, "text");
        case Item =>
          if "item" in event && event["item"].Object? {
            items := items + [event["item"].fields];
          }
        case Completed =>
          completed := true;
          if "response" in event {
            finalResponse := event["response"];
          }
        case Other =>
      }
    }
    assert events[..|events|] == events;
    if finalResponse == Null {
      finalResponse := Object(map["object" := Text("response"), "output" := ObjectList(items)], "");
    }
    var assistant, calls := SummarizeDecodedResponse(finalResponse);
    if assistant == "" && |text| != 0 {
      assistant := Trim(text);
    }
    return Summary(finalResponse, assistant, calls, completed || ResponseCompleted(finalResponse));
  }

  lemma CompletedGrows(frames: seq<Fields>, last: Fields)
    ensures BatchCompleted(frames + [last]) <==> BatchCompleted(frames) || KindOf(last) == Completed
  {
    hide KindOf;
    var all := frames + [last];
    if BatchCompleted(frames) {
      var i :| 0 <= i < |frames| && KindOf(frames[i]) == Completed;
      assert all[i] == frames[i];
    }
    assert all[|frames|] == last;
    if BatchCompleted(all) {
      var i :| 0 <= i < |all| && KindOf(all[i]) == Completed;
      assert i < |frames| ==> frames[i] == all[i];
    }
  }
}
