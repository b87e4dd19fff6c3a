/** Gemini telemetry records as events in time order. */
module Gemini {
  import opened Strings
  import opened Subjects

  // ---------- records and events ----------

  /** Attribute values as they print; a missing one prints as the empty text. */
  type Attributes = map<string, string>

  function Attr(attrs: Attributes, key: string): string {
    if key in attrs then attrs[key] else ""
  }

  /** What the output messages of an `llm_call` hold. */
  datatype Output = Undecodable | Decoded(text: string, visible: bool, toolCall: bool)

  /** `clock` is the clock reading when the record is normalized, for records without a time of their own. */
  datatype LogRecord = LogRecord(time: Option<int>, body: string, attrs: Attributes, clock: int)
  datatype Span = Span(name: string, start: Option<int>, end: Option<int>, attrs: Attributes, output: Output,
                       clock: int)

  datatype Batch<R> = Batch(attrs: Attributes, scopes: seq<seq<R>>)
  datatype Payload = Payload(logs: seq<Batch<LogRecord>>, spans: seq<Batch<Span>>)

  datatype Event = Event(kind: EventKind, role: string, session: string, time: int, detail: map<string, string>)

  function RoleFrom(override: string, attrs: Attributes): (role: string)
    ensures role != ""
  {
    if override != "" then override
    else if Attr(attrs, "instance.role") != "" then Attr(attrs, "instance.role")
    else "gemini"
  }

  function OrElse(time: Option<int>, other: int): int {
    match time case Some(t) => t case None => other
  }

  function LogEvents(override: string, resource: Attributes, record: LogRecord): seq<Event> {
    var attrs := resource + record.attrs;
    var role, session := RoleFrom(override, attrs), Attr(attrs, "session.id");
    var time := OrElse(record.time, record.clock);
    var name := if Trim(record.body) != "" then Trim(record.body) else Attr(attrs, "event.name");
    if name == "gemini_cli.user_prompt" then
      [ Event(LlmRequest, role, session, time, map["event_name" := name, "prompt" := Attr(attrs, "prompt")]),
        Event(AgentBusy, role, session, time, map["reason" := "user_prompt"])]
    else if name == "gemini_cli.tool_call" then
      [ Event(ToolCall, role, session, time,
              map["event_name" := name, "function_name" := Attr(attrs, "function_name"),
                  "function_args" := Attr(attrs, "function_args"), "decision" := Attr(attrs, "decision"),
                  "success" := Attr(attrs, "success"), "tool_type" := Attr(attrs, "tool_type")]),
        Event(AgentTooling, role, session, time,
          map["reason" := "tool_call", "function_name" := Attr(attrs, "function_name")])]
    else []
  }

  /** `None` when the output messages do not decode. */
  function SpanEvents(override: string, resource: Attributes, span: Span): Option<seq<Event>> {
    var attrs := resource + span.attrs;
    var role, session := RoleFrom(override, attrs), Attr(attrs, "session.id");
    var time := OrElse(span.end, OrElse(span.start, span.clock));
    if span.name == "tool_call" then
      Some([Event(ToolResult, role, session, time,
                  map["name" := Attr(attrs, "request.name"), "call_id" := Attr(attrs, "request.callId"),
                      "command" := Attr(attrs, "request.args.command"),
                      "description" := Attr(attrs, "request.args.description"), "status" := Attr(attrs, "status")])])
    else if span.name == "llm_call" && Attr(attrs, "gen_ai.output.messages") != "" then
      match span.output
      case Undecodable => None
      case Decoded(text, visible, toolCall) =>
        if toolCall then Some([Event(AgentTooling, role, session, time, map["reason" := "llm_output_tool_call"])])
        else if !visible then Some([])
        else Some([Event(LlmResponse, role, session, time, map["text" := text]),
                   Event(AgentDone, role, session, time, map["reason" := "final_llm_call"])])
    else Some([])
  }

  /** The three kinds of pairs a record can give. */
  predicate IsPair(first: EventKind, second: EventKind) {
    || (first == LlmRequest && second == AgentBusy)
    || (first == ToolCall && second == AgentTooling)
    || (first == LlmResponse && second == AgentDone)
  }

  /** What one record gives: at most a pair, at one time, for one role that is never empty. */
  predicate OneRecord(group: seq<Event>) {
    && |group| <= 2
    && (forall i :: 0 <= i < |group| ==> group[i].role != "" && !Unrouted(group[i].kind, group[i].role))
    && (|group| == 2 ==> group[0].time == group[1].time && group[0].role == group[1].role
                         && group[0].session == group[1].session && IsPair(group[0].kind, group[1].kind))
  }

  lemma {:induction false} LogIsOneRecord(override: string, resource: Attributes, record: LogRecord)
    ensures OneRecord(LogEvents(override, resource, record))
  {
    hide Trim;
  }

  lemma {:induction false} SpanIsOneRecord(override: string, resource: Attributes, span: Span)
    ensures SpanEvents(override, resource, span).Some? ==> OneRecord(SpanEvents(override, resource, span).value)
  {
  }

  // ---------- what a record says ----------

  /** A record's own attributes come before those of its resource. */
  function Read(resource: Attributes, own: Attributes, key: string): string {
    if key in own then own[key] else if key in resource then resource[key] else ""
  }

  /** Events of one record: the override's role, or the attributed one, or "gemini", and one session and time. */
  predicate From(group: seq<Event>, override: string, resource: Attributes, own: Attributes, time: int) {
    var attributed := Read(resource, own, "instance.role");
    forall i :: 0 <= i < |group| ==>
      && group[i].time == time && group[i].session == Read(resource, own, "session.id")
      && (override != "" ==> group[i].role == override)
      && (override == "" && attributed != "" ==> group[i].role == attributed)
      && (override == "" && attributed == "" ==> group[i].role == "gemini")
  }

  lemma MergedReads(resource: Attributes, own: Attributes, key: string)
    ensures Attr(resource + own, key) == Read(resource, own, key)
  {
  }

  /** A prompt: the request with its text, and an agent that is busy. */
  predicate PromptPair(group: seq<Event>, resource: Attributes, own: Attributes) {
    && |group| == 2 && group[0].kind == LlmRequest && group[1].kind == AgentBusy
    && group[0].detail == map["event_name" := "gemini_cli.user_prompt", "prompt" := Read(resource, own, "prompt")]
    && group[1].detail == map["reason" := "user_prompt"]
  }

  /** A tool call: the call with what was attributed to it, and an agent that is tooling. */
  predicate ToolCallPair(group: seq<Event>, resource: Attributes, own: Attributes) {
    && |group| == 2 && group[0].kind == ToolCall && group[1].kind == AgentTooling
    && group[0].detail ==
         map["event_name" := "gemini_cli.tool_call", "function_name" := Read(resource, own, "function_name"),
             "function_args" := Read(resource, own, "function_args"), "decision" := Read(resource, own, "decision"),
             "success" := Read(resource, own, "success"), "tool_type" := Read(resource, own, "tool_type")]
    && group[1].detail == map["reason" := "tool_call", "function_name" := Read(resource, own, "function_name")]
  }

  /** A log record is named by its body, and else by an attribute. */
  function NameOf(resource: Attributes, record: LogRecord): string {
    if Trim(record.body) != "" then Trim(record.body) else Read(resource, record.attrs, "event.name")
  }

  lemma LogComesFrom(override: string, resource: Attributes, record: LogRecord)
    ensures From(LogEvents(override, resource, record), override, resource, record.attrs,
                 if record.time.Some? then record.time.value else record.clock)
  {
    hide Attr, Trim, Read;
    MergedReads(resource, record.attrs, "instance.role");
    MergedReads(resource, record.attrs, "session.id");
  }

  lemma PromptSays(override: string, resource: Attributes, record: LogRecord)
    requires NameOf(resource, record) == "gemini_cli.user_prompt"
    ensures PromptPair(LogEvents(override, resource, record), resource, record.attrs)
  {
    hide Attr, Trim, Read, RoleFrom;
    MergedReads(resource, record.attrs, "event.name");
    MergedReads(resource, record.attrs, "prompt");
  }

  lemma ToolCallSays(override: string, resource: Attributes, record: LogRecord)
    requires NameOf(resource, record) == "gemini_cli.tool_call"
    ensures ToolCallPair(LogEvents(override, resource, record), resource, record.attrs)
  {
    hide Attr, Trim, Read, RoleFrom;
    MergedReads(resource, record.attrs, "event.name");
    MergedReads(resource, record.attrs, "function_name");
    MergedReads(resource, record.attrs, "function_args");
    MergedReads(resource, record.attrs, "decision");
    MergedReads(resource, record.attrs, "success");
    MergedReads(resource, record.attrs, "tool_type");
  }

  lemma OtherNameSays(override: string, resource: Attributes, record: LogRecord)
    requires NameOf(resource, record) != "gemini_cli.user_prompt" && NameOf(resource, record) != "gemini_cli.tool_call"
    ensures LogEvents(override, resource, record) == []
  {
    hide Attr, Trim, Read, RoleFrom;
    MergedReads(resource, record.attrs, "event.name");
  }

  /** A log record by its name, which its body gives before its attributes do, and at its own time if it has one. */
  lemma {:induction false} LogSays(override: string, resource: Attributes, record: LogRecord)
    ensures
      var group, name := LogEvents(override, resource, record), NameOf(resource, record);
      && From(group, override, resource, record.attrs, if record.time.Some? then record.time.value else record.clock)
      && (name == "gemini_cli.user_prompt" ==> PromptPair(group, resource, record.attrs))
      && (name == "gemini_cli.tool_call" ==> ToolCallPair(group, resource, record.attrs))
      && (name != "gemini_cli.user_prompt" && name != "gemini_cli.tool_call" ==> group == [])
  {
    hide *;
    LogComesFrom(override, resource, record);
    if NameOf(resource, record) == "gemini_cli.user_prompt" {
      PromptSays(override, resource, record);
    } else if NameOf(resource, record) == "gemini_cli.tool_call" {
      ToolCallSays(override, resource, record);
    } else {
      OtherNameSays(override, resource, record);
    }
    assert "gemini_cli.user_prompt"[11] != "gemini_cli.tool_call"[11];
  }

  /** A finished tool. */
  predicate ToolResultOf(group: seq<Event>, resource: Attributes, own: Attributes) {
    && |group| == 1 && group[0].kind == ToolResult
    && group[0].detail ==
         map["name" := Read(resource, own, "request.name"), "call_id" := Read(resource, own, "request.callId"),
             "command" := Read(resource, own, "request.args.command"),
             "description" := Read(resource, own, "request.args.description"),
             "status" := Read(resource, own, "status")]
  }

  /** What a model's output gives: more tooling, nothing to see, or the response that ends the turn. */
  predicate Answered(group: seq<Event>, output: Output) {
    && (output.Decoded? && output.toolCall ==>
          |group| == 1 && group[0].kind == AgentTooling && group[0].detail == map["reason" := "llm_output_tool_call"])
    && (output.Decoded? && !output.toolCall && !output.visible ==> group == [])
    && (output.Decoded? && !output.toolCall && output.visible ==>
          |group| == 2 && group[0].kind == LlmResponse && group[1].kind == AgentDone
          && group[0].detail == map["text" := output.text] && group[1].detail == map["reason" := "final_llm_call"])
  }

  lemma SpanComesFrom(override: string, resource: Attributes, span: Span)
    ensures SpanEvents(override, resource, span).Some? ==>
              From(SpanEvents(override, resource, span).value, override, resource, span.attrs,
                   if span.end.Some? then span.end.value
                   else if span.start.Some? then span.start.value else span.clock)
  {
    hide Attr, Read;
    MergedReads(resource, span.attrs, "instance.role");
    MergedReads(resource, span.attrs, "session.id");
  }

  lemma ToolSpanSays(override: string, resource: Attributes, span: Span)
    requires span.name == "tool_call"
    ensures SpanEvents(override, resource, span).Some?
    ensures ToolResultOf(SpanEvents(override, resource, span).value, resource, span.attrs)
  {
    hide Attr, Read, RoleFrom;
    MergedReads(resource, span.attrs, "request.name");
    MergedReads(resource, span.attrs, "request.callId");
    MergedReads(resource, span.attrs, "request.args.command");
    MergedReads(resource, span.attrs, "request.args.description");
    MergedReads(resource, span.attrs, "status");
  }

  lemma ModelSpanSays(override: string, resource: Attributes, span: Span)
    requires span.name != "tool_call"
    ensures
      var result := SpanEvents(override, resource, span);
      var called := span.name == "llm_call" && Read(resource, span.attrs, "gen_ai.output.messages") != "";
      && (!called ==> result == Some([]))
      && (called && span.output.Undecodable? ==> result.None?)
      && (called && span.output.Decoded? ==> result.Some? && Answered(result.value, span.output))
  {
    hide Attr, Read, RoleFrom;
    MergedReads(resource, span.attrs, "gen_ai.output.messages");
  }

  /** A span by its name, at its end, or else its start, or else the reading of the clock. */
  lemma {:induction false} SpanSays(override: string, resource: Attributes, span: Span)
    ensures
      var result := SpanEvents(override, resource, span);
      var called := span.name == "llm_call" && Read(resource, span.attrs, "gen_ai.output.messages") != "";
      && (result.None? <==> called && span.output.Undecodable?)
      && (result.Some? ==>
            From(result.value, override, resource, span.attrs,
                 if span.end.Some? then span.end.value
                 else if span.start.Some? then span.start.value else span.clock))
      && (span.name == "tool_call" ==> ToolResultOf(result.value, resource, span.attrs))
      && (called && result.Some? ==> Answered(result.value, span.output))
      && (span.name != "tool_call" && !called ==> result == Some([]))
  {
    hide *;
    SpanComesFrom(override, resource, span);
    if span.name == "tool_call" {
      ToolSpanSays(override, resource, span);
      assert "tool_call"[0] != "llm_call"[0];
    } else {
      ModelSpanSays(override, resource, span);
    }
  }

  // ---------- flattening ----------

  function Flatten<T>(groups: seq<seq<T>>): seq<T> {
    if groups == [] then [] else Flatten(groups[..|groups| - 1]) + groups[|groups| - 1]
  }

  /** Where a group starts in the flat list. */
  function Offset<T>(groups: seq<seq<T>>, g: nat): nat
    requires g <= |groups|
  {
    |Flatten(groups[..g])|
  }

  lemma {:induction false} GroupAt<T>(groups: seq<seq<T>>, g: nat)
    requires g < |groups|
    ensures Offset(groups, g) + |groups[g]| <= |Flatten(groups)|
    ensures Flatten(groups)[Offset(groups, g)..Offset(groups, g) + |groups[g]|] == groups[g]
  {
    var n := |groups| - 1;
    if g == n {
    } else {
      GroupAt(groups[..n], g);
      assert groups[..n][..g] == groups[..g];
    }
  }

  // ---------- the stable sort ----------

  /** The strict order that a stable sort puts positions in. */
  predicate Before(events: seq<Event>, a: nat, b: nat)
    requires a < |events| && b < |events|
  {
    events[a].time < events[b].time || (events[a].time == events[b].time && a < b)
  }

  predicate Within(order: seq<nat>, n: nat) {
    forall i :: 0 <= i < |order| ==> order[i] < n
  }

  /** A list of all positions, each once because the order is strict, earlier times first, ties as they came. */
  ghost predicate StableOrder(events: seq<Event>, order: seq<nat>) {
    && |order| == |events| && Within(order, |events|)
    && (forall i, j :: 0 <= i < j < |order| ==> Before(events, order[i], order[j]))
    && (forall x: nat :: x < |events| ==> x in order)
  }

  function Arranged(events: seq<Event>, order: seq<nat>): (r: seq<Event>)
    requires Within(order, |events|)
    ensures |r| == |order| && forall i :: 0 <= i < |r| ==> r[i] == events[order[i]]
  {
    seq(|order|, i requires 0 <= i < |order| => events[order[i]])
  }

  /** Where the next event goes: after all that are not later. */
  method Slot(sorted: seq<Event>, event: Event) returns (k: nat)
    requires forall i, j :: 0 <= i < j < |sorted| ==> sorted[i].time <= sorted[j].time
    ensures k <= |sorted|
    ensures forall i :: 0 <= i < k ==> sorted[i].time <= event.time
    ensures forall i :: k <= i < |sorted| ==> event.time < sorted[i].time
  {
    k := |sorted|;
    while k > 0 && event.time < sorted[k - 1].time
      invariant k <= |sorted|
      invariant forall i :: k <= i < |sorted| ==> event.time < sorted[i].time
    {
      k := k - 1;
    }
  }

  /** The library's stable sort by time; `order` says where each event came from. */
  method SortStable(events: seq<Event>) returns (sorted: seq<Event>, ghost order: seq<nat>)
    ensures StableOrder(events, order) && sorted == Arranged(events, order)
    ensures multiset(sorted) == multiset(events)
  {
    hide StableOrder, Arranged;
    sorted, order := [], [];
    EmptyOrder();
    for n := 0 to |events|
      invariant StableOrder(events[..n], order) && Within(order, n) && sorted == Arranged(events[..n], order)
      invariant multiset(sorted) == multiset(events[..n])
    {
      SortedTimes(events[..n], order);
      var k := Slot(sorted, events[n]);
      assert events[..n + 1] == events[..n] + [events[n]];
      Inserted(events[..n], order, events[n], k);
      InsertedOnce(sorted, events[n], k);
      sorted := sorted[..k] + [events[n]] + sorted[k..];
      order := order[..k] + [n] + order[k..];
    }
    assert events[..|events|] == events;
  }

  lemma InsertedOnce(sorted: seq<Event>, event: Event, k: nat)
    requires k <= |sorted|
    ensures multiset(sorted[..k] + [event] + sorted[k..]) == multiset(sorted) + multiset{event}
  {
    assert sorted == sorted[..k] + sorted[k..];
  }

  lemma EmptyOrder()
    ensures StableOrder([], []) && Arranged([], []) == []
  {
  }

  lemma SortedTimes(events: seq<Event>, order: seq<nat>)
    requires StableOrder(events, order)
    ensures forall i, j :: 0 <= i < j < |order| ==> Arranged(events, order)[i].time <= Arranged(events, order)[j].time
  {
  }

  lemma Inserted(events: seq<Event>, order: seq<nat>, event: Event, k: nat)
    requires StableOrder(events, order) && k <= |order|
    requires forall i :: 0 <= i < k ==> Arranged(events, order)[i].time <= event.time
    requires forall i :: k <= i < |order| ==> event.time < Arranged(events, order)[i].time
    ensures
      var order' := order[..k] + [|events|] + order[k..];
      var sorted := Arranged(events, order);
      && StableOrder(events + [event], order')
      && Arranged(events + [event], order') == sorted[..k] + [event] + sorted[k..]
  {
    var order' := order[..k] + [|events|] + order[k..];
    forall x: nat | x < |events| + 1
      ensures x in order'
    {
      InsertedCovers(events, order, k, x);
    }
    forall i: nat, j: nat | i < j < |order'|
      ensures Before(events + [event], order'[i], order'[j])
    {
      InsertedInOrder(events, order, event, k, i, j);
    }
  }

  lemma InsertedInOrder(events: seq<Event>, order: seq<nat>, event: Event, k: nat, i: nat, j: nat)
    requires StableOrder(events, order) && k <= |order| && i < j <= |order|
    requires forall i :: 0 <= i < k ==> Arranged(events, order)[i].time <= event.time
    requires forall i :: k <= i < |order| ==> event.time < Arranged(events, order)[i].time
    ensures
      var order' := order[..k] + [|events|] + order[k..];
      order'[i] <= |events| && order'[j] <= |events| && Before(events + [event], order'[i], order'[j])
  {
    var order' := order[..k] + [|events|] + order[k..];
    var sorted := Arranged(events, order);
    var i', j' := if i < k then i else i - 1, if j < k then j else j - 1;
    assert i != k ==> order'[i] == order[i'] && (events + [event])[order'[i]] == sorted[i'];
    assert j != k ==> order'[j] == order[j'] && (events + [event])[order'[j]] == sorted[j'];
    assert i != k && j != k ==> Before(events, order[i'], order[j']);
  }

  lemma InsertedCovers(events: seq<Event>, order: seq<nat>, k: nat, x: nat)
    requires StableOrder(events, order) && k <= |order| && x <= |events|
    ensures x in order[..k] + [|events|] + order[k..]
  {
    var order' := order[..k] + [|events|] + order[k..];
    if x < |events| {
      assert x in order;
      var i :| 0 <= i < |order| && order[i] == x;
      assert order'[if i < k then i else i + 1] == x;
    } else {
      assert order'[k] == x;
    }
  }

  /** Where two stable orders agree so far, the next position of one does not come before that of the other. */
  lemma NotBeforeIts(events: seq<Event>, a: seq<nat>, b: seq<nat>, m: nat)
    requires StableOrder(events, a) && StableOrder(events, b) && m < |events|
    requires forall i :: 0 <= i < m ==> a[i] == b[i]
    ensures !Before(events, a[m], b[m])
  {
    assert a[m] in b;
    var j :| 0 <= j < |b| && b[j] == a[m];
  }

  lemma {:induction false} SamePrefix(events: seq<Event>, a: seq<nat>, b: seq<nat>, n: nat)
    requires StableOrder(events, a) && StableOrder(events, b) && n <= |events|
    ensures forall i :: 0 <= i < n ==> a[i] == b[i]
  {
    if n > 0 {
      SamePrefix(events, a, b, n - 1);
      NotBeforeIts(events, a, b, n - 1);
      NotBeforeIts(events, b, a, n - 1);
    }
  }

  /** There is only one stable order, so it does not matter how the library finds it. */
  lemma StableOrderIsUnique(events: seq<Event>, a: seq<nat>, b: seq<nat>)
    requires StableOrder(events, a) && StableOrder(events, b)
    ensures a == b
  {
    hide StableOrder;
    assert |a| == |b| == |events| by { SameLength(events, a); SameLength(events, b); }
    SamePrefix(events, a, b, |events|);
  }

  lemma SameLength(events: seq<Event>, order: seq<nat>)
    requires StableOrder(events, order)
    ensures |order| == |events|
  {
  }

  lemma EarlierFirst(events: seq<Event>, order: seq<nat>, i: nat, j: nat)
    requires StableOrder(events, order) && i < |order| && j < |order| && Before(events, order[i], order[j])
    ensures i < j
  {
  }

  lemma NextInOrder(events: seq<Event>, order: seq<nat>, i: nat, j: nat)
    requires StableOrder(events, order) && i < j < |order| && !Before(events, order[i + 1], order[j])
    ensures j == i + 1
  {
  }

  lemma NothingBetween(events: seq<Event>, a: nat, m: nat)
    requires a + 1 < |events| && m < |events| && events[a].time == events[a + 1].time && Before(events, a, m)
    ensures !Before(events, m, a + 1)
  {
  }

  /** Neighbours with the same time stay neighbours. */
  lemma NeighboursStay(events: seq<Event>, order: seq<nat>, a: nat) returns (i: nat)
    requires StableOrder(events, order) && a + 1 < |events| && events[a].time == events[a + 1].time
    ensures i + 1 < |order| && order[i] == a && order[i + 1] == a + 1
  {
    assert a in order && a + 1 in order;
    i :| i < |order| && order[i] == a;
    var j :| 0 <= j < |order| && order[j] == a + 1;
    EarlierFirst(events, order, i, j);
    assert Before(events, order[i], order[i + 1]);
    NothingBetween(events, a, order[i + 1]);
    NextInOrder(events, order, i, j);
  }

  // ---------- the whole payload ----------

  /** Each record with the attributes of its resource, in payload order. */
  function OfScope<R>(resource: Attributes, records: seq<R>): seq<(Attributes, R)> {
    if records == [] then [] else OfScope(resource, records[..|records| - 1]) + [(resource, records[|records| - 1])]
  }

  function OfResource<R>(resource: Attributes, scopes: seq<seq<R>>): seq<(Attributes, R)> {
    if scopes == [] then [] else OfResource(resource, scopes[..|scopes| - 1]) + OfScope(resource, scopes[|scopes| - 1])
  }

  function Tagged<R>(batches: seq<Batch<R>>): seq<(Attributes, R)> {
    if batches == [] then []
    else Tagged(batches[..|batches| - 1]) + OfResource(batches[|batches| - 1].attrs, batches[|batches| - 1].scopes)
  }

  function LogGroups(override: string, logs: seq<(Attributes, LogRecord)>): (groups: seq<seq<Event>>)
    ensures |groups| == |logs|
  {
    if logs == [] then []
    else LogGroups(override, logs[..|logs| - 1]) + [LogEvents(override, logs[|logs| - 1].0, logs[|logs| - 1].1)]
  }

  function SpanGroups(override: string, spans: seq<(Attributes, Span)>): Option<seq<seq<Event>>> {
    if spans == [] then Some([])
    else
      var front := SpanGroups(override, spans[..|spans| - 1]);
      var last := SpanEvents(override, spans[|spans| - 1].0, spans[|spans| - 1].1);
      if front.None? || last.None? then None else Some(front.value + [last.value])
  }

  /** What each record gives, logs first. */
  function Groups(override: string, payload: Payload): Option<seq<seq<Event>>> {
    match SpanGroups(override, Tagged(payload.spans))
    case None => None
    case Some(spans) => Some(LogGroups(override, Tagged(payload.logs)) + spans)
  }

  lemma LogGroupsLast(override: string, logs: seq<(Attributes, LogRecord)>, log: (Attributes, LogRecord))
    ensures Flatten(LogGroups(override, logs + [log])) ==
            Flatten(LogGroups(override, logs)) + LogEvents(override, log.0, log.1)
  {
    hide LogEvents;
    assert (logs + [log])[..|logs|] == logs;
    var groups, last := LogGroups(override, logs), LogEvents(override, log.0, log.1);
    assert (groups + [last])[..|groups|] == groups;
  }

  lemma SpanGroupsLast(override: string, spans: seq<(Attributes, Span)>, span: (Attributes, Span))
    ensures
      var front, last := SpanGroups(override, spans), SpanEvents(override, span.0, span.1);
      SpanGroups(override, spans + [span]) ==
      if front.None? || last.None? then None else Some(front.value + [last.value])
  {
    hide SpanEvents;
    assert (spans + [span])[..|spans|] == spans;
  }

  lemma {:induction false} SpanFailureStays(override: string, front: seq<(Attributes, Span)>,
                                            rest: seq<(Attributes, Span)>)
    requires SpanGroups(override, front).None?
    ensures SpanGroups(override, front + rest).None?
  {
    hide SpanEvents;
    if rest == [] {
      assert front + rest == front;
    } else {
      SpanFailureStays(override, front, rest[..|rest| - 1]);
      assert (front + rest)[..|front + rest| - 1] == front + rest[..|rest| - 1];
    }
  }

  lemma {:induction false} FlattenAppend<T>(a: seq<seq<T>>, b: seq<seq<T>>)
    ensures Flatten(a + b) == Flatten(a) + Flatten(b)
  {
    if b == [] {
      assert a + b == a;
    } else {
      FlattenAppend(a, b[..|b| - 1]);
      assert (a + b)[..|a + b| - 1] == a + b[..|b| - 1];
    }
  }

  function LogList(override: string, logs: seq<(Attributes, LogRecord)>): seq<Event> {
    Flatten(LogGroups(override, logs))
  }

  function SpanList(override: string, spans: seq<(Attributes, Span)>): Option<seq<Event>> {
    match SpanGroups(override, spans)
    case None => None
    case Some(groups) => Some(Flatten(groups))
  }

  lemma SpanListLast(override: string, spans: seq<(Attributes, Span)>, span: (Attributes, Span))
    ensures
      var front, last := SpanList(override, spans), SpanEvents(override, span.0, span.1);
      SpanList(override, spans + [span]) == if front.None? || last.None? then None else Some(front.value + last.value)
  {
    hide SpanEvents;
    SpanGroupsLast(override, spans, span);
    var front, last := SpanGroups(override, spans), SpanEvents(override, span.0, span.1);
    if front.Some? && last.Some? {
      assert (front.value + [last.value])[..|front.value|] == front.value;
    }
  }

  lemma SpanListFails(override: string, front: seq<(Attributes, Span)>, rest: seq<(Attributes, Span)>)
    requires SpanList(override, front).None?
    ensures SpanList(override, front + rest).None?
  {
    SpanFailureStays(override, front, rest);
  }

  lemma NothingYet(override: string)
    ensures LogList(override, []) == [] && SpanList(override, []) == Some([])
  {
  }

  /** The two inner loops over the logs of one resource; `seen` is what the outer loop has been through. */
  method AppendLogs(override: string, batch: Batch<LogRecord>, before: seq<Event>,
                    ghost seen: seq<(Attributes, LogRecord)>)
    returns (events: seq<Event>)
    requires before == LogList(override, seen)
    ensures events == LogList(override, seen + OfResource(batch.attrs, batch.scopes))
  {
    hide LogEvents, LogList, OfResource, OfScope;
    events := before;
    ghost var all := seen;
    OfNothing(batch.attrs, batch.scopes);
    assert seen + [] == seen;
    for s := 0 to |batch.scopes|
      invariant all == seen + OfResource(batch.attrs, batch.scopes[..s]) && events == LogList(override, all)
    {
      var records := batch.scopes[s];
      ghost var start := all;
      OfNothing(batch.attrs, [records]);
      assert start + [] == start;
      for r := 0 to |records|
        invariant all == start + OfScope(batch.attrs, records[..r]) && events == LogList(override, all)
      {
        LogGroupsLast(override, all, (batch.attrs, records[r]));
        LogListIs(override, all);
        LogListIs(override, all + [(batch.attrs, records[r])]);
        OfScopeLast(batch.attrs, records, r);
        assert all + [(batch.attrs, records[r])] == start + OfScope(batch.attrs, records[..r + 1]);
        events := events + LogEvents(override, batch.attrs, records[r]);
        all := all + [(batch.attrs, records[r])];
      }
      assert records[..|records|] == records;
      OfResourceLast(batch.attrs, batch.scopes, s);
      assert all == seen + OfResource(batch.attrs, batch.scopes[..s + 1]);
    }
    assert batch.scopes[..|batch.scopes|] == batch.scopes;
  }

  lemma OfNothing<R>(resource: Attributes, scopes: seq<seq<R>>)
    ensures OfResource(resource, scopes[..0]) == []
    ensures forall s :: 0 <= s < |scopes| ==> OfScope(resource, scopes[s][..0]) == []
    ensures Tagged<R>([]) == []
  {
  }

  lemma OfScopeLast<R>(resource: Attributes, records: seq<R>, r: nat)
    requires r < |records|
    ensures OfScope(resource, records[..r + 1]) == OfScope(resource, records[..r]) + [(resource, records[r])]
  {
    assert records[..r + 1][..r] == records[..r];
  }

  lemma OfResourceLast<R>(resource: Attributes, scopes: seq<seq<R>>, s: nat)
    requires s < |scopes|
    ensures OfResource(resource, scopes[..s + 1]) == OfResource(resource, scopes[..s]) + OfScope(resource, scopes[s])
  {
    assert scopes[..s + 1][..s] == scopes[..s];
  }

  lemma TaggedLast<R>(batches: seq<Batch<R>>, b: nat)
    requires b < |batches|
    ensures Tagged(batches[..b + 1]) == Tagged(batches[..b]) + OfResource(batches[b].attrs, batches[b].scopes)
  {
    assert batches[..b + 1][..b] == batches[..b];
  }

  lemma LogListIs(override: string, logs: seq<(Attributes, LogRecord)>)
    ensures LogList(override, logs) == Flatten(LogGroups(override, logs))
  {
  }

  /** The two inner loops over the spans of one resource; the first output that does not decode ends them. */
  method AppendSpans(override: string, batch: Batch<Span>, before: seq<Event>, ghost seen: seq<(Attributes, Span)>)
    returns (events: Option<seq<Event>>)
    requires SpanList(override, seen) == Some(before)
    ensures events == SpanList(override, seen + OfResource(batch.attrs, batch.scopes))
  {
    hide SpanEvents, SpanList, OfResource, OfScope;
    var out := before;
    ghost var all := seen;
    OfNothing(batch.attrs, batch.scopes);
    assert seen + [] == seen;
    for s := 0 to |batch.scopes|
      invariant all == seen + OfResource(batch.attrs, batch.scopes[..s]) && SpanList(override, all) == Some(out)
    {
      var spans := batch.scopes[s];
      ghost var start := all;
      OfNothing(batch.attrs, [spans]);
      assert start + [] == start;
      OfResourceLast(batch.attrs, batch.scopes, s);
      for r := 0 to |spans|
        invariant all == start + OfScope(batch.attrs, spans[..r]) && SpanList(override, all) == Some(out)
      {
        SpanListLast(override, all, (batch.attrs, spans[r]));
        OfScopeLast(batch.attrs, spans, r);
        assert all + [(batch.attrs, spans[r])] == start + OfScope(batch.attrs, spans[..r + 1]);
        all := all + [(batch.attrs, spans[r])];
        var normalized := SpanEvents(override, batch.attrs, spans[r]);
        if normalized.None? {
          SpansSplit(batch, s, r);
          ghost var rest := OfResource(batch.attrs, batch.scopes)[|all| - |seen|..];
          assert all + rest == seen + OfResource(batch.attrs, batch.scopes);
          SpanListFails(override, all, rest);
          return None;
        }
        out := out + normalized.value;
      }
      assert spans[..|spans|] == spans;
      assert all == seen + OfResource(batch.attrs, batch.scopes[..s + 1]);
    }
    assert batch.scopes[..|batch.scopes|] == batch.scopes;
    return Some(out);
  }

  lemma {:induction false} ScopePrefix<R>(resource: Attributes, records: seq<R>, r: nat)
    requires r <= |records|
    ensures OfScope(resource, records[..r]) <= OfScope(resource, records)
  {
    if r < |records| {
      ScopePrefix(resource, records[..|records| - 1], r);
      assert records[..|records| - 1][..r] == records[..r];
    } else {
      assert records[..r] == records;
    }
  }

  lemma {:induction false} ResourcePrefix<R>(resource: Attributes, scopes: seq<seq<R>>, s: nat)
    requires s <= |scopes|
    ensures OfResource(resource, scopes[..s]) <= OfResource(resource, scopes)
  {
    if s < |scopes| {
      ResourcePrefix(resource, scopes[..|scopes| - 1], s);
      assert scopes[..|scopes| - 1][..s] == scopes[..s];
    } else {
      assert scopes[..s] == scopes;
    }
  }

  lemma {:induction false} TaggedPrefix<R>(batches: seq<Batch<R>>, b: nat)
    requires b <= |batches|
    ensures Tagged(batches[..b]) <= Tagged(batches)
  {
    if b < |batches| {
      TaggedPrefix(batches[..|batches| - 1], b);
      assert batches[..|batches| - 1][..b] == batches[..b];
    } else {
      assert batches[..b] == batches;
    }
  }

  /** What the loops have seen by span `r` of scope `s` is a prefix of all the resource's spans. */
  lemma SpansSplit<R>(batch: Batch<R>, s: nat, r: nat)
    requires s < |batch.scopes| && r < |batch.scopes[s]|
    ensures OfResource(batch.attrs, batch.scopes[..s]) + OfScope(batch.attrs, batch.scopes[s][..r + 1])
            <= OfResource(batch.attrs, batch.scopes)
  {
    hide OfResource, OfScope;
    ScopePrefix(batch.attrs, batch.scopes[s], r + 1);
    OfResourceLast(batch.attrs, batch.scopes, s);
    ResourcePrefix(batch.attrs, batch.scopes, s + 1);
  }

  /**
    * `NormalizePayload`: logs, then spans, flat, then sorted by time. One output that does not decode
    * fails the payload.
    */
  method NormalizePayload(override: string, payload: Payload)
    returns (events: Option<seq<Event>>, ghost order: seq<nat>)
    ensures events.Some? <==> Groups(override, payload).Some?
    ensures events.Some? ==>
              var flat := Flatten(Groups(override, payload).value);
              && StableOrder(flat, order) && events.value == Arranged(flat, order)
              && multiset(events.value) == multiset(flat)
  {
    hide LogEvents, SpanEvents, Tagged, StableOrder, Arranged, OfResource, LogList, SpanList;
    order := [];
    OfNothing<LogRecord>(map[], []);
    OfNothing<Span>(map[], []);
    NothingYet(override);
    var logs: seq<Event> := [];
    for b := 0 to |payload.logs|
      invariant logs == LogList(override, Tagged(payload.logs[..b]))
    {
      TaggedLast(payload.logs, b);
      logs := AppendLogs(override, payload.logs[b], logs, Tagged(payload.logs[..b]));
    }
    assert payload.logs[..|payload.logs|] == payload.logs;
    var spans: seq<Event> := [];
    for b := 0 to |payload.spans|
      invariant SpanList(override, Tagged(payload.spans[..b])) == Some(spans)
    {
      TaggedLast(payload.spans, b);
      var more := AppendSpans(override, payload.spans[b], spans, Tagged(payload.spans[..b]));
      if more.None? {
        TaggedPrefix(payload.spans, b + 1);
        ghost var done := Tagged(payload.spans[..b + 1]);
        assert done + Tagged(payload.spans)[|done|..] == Tagged(payload.spans);
        SpanListFails(override, done, Tagged(payload.spans)[|done|..]);
        GroupsAre(override, payload);
        return None, [];
      }
      spans := more.value;
    }
    assert payload.spans[..|payload.spans|] == payload.spans;
    GroupsAre(override, payload);
    var sorted;
    sorted, order := SortStable(logs + spans);
    return Some(sorted), order;
  }

  lemma GroupsAre(override: string, payload: Payload)
    ensures Groups(override, payload).Some? <==> SpanList(override, Tagged(payload.spans)).Some?
    ensures Groups(override, payload).Some? ==>
              Flatten(Groups(override, payload).value) ==
              LogList(override, Tagged(payload.logs)) + SpanList(override, Tagged(payload.spans)).value
  {
    hide SpanGroups, LogGroups, Flatten, Tagged;
    match SpanGroups(override, Tagged(payload.spans)) {
      case None =>
      case Some(spans) => FlattenAppend(LogGroups(override, Tagged(payload.logs)), spans);
    }
  }

  // ---------- every record in its place ----------

  lemma {:induction false} ScopeIs<R>(resource: Attributes, records: seq<R>)
    ensures |OfScope(resource, records)| == |records|
    ensures forall i :: 0 <= i < |records| ==> OfScope(resource, records)[i] == (resource, records[i])
  {
    if records != [] {
      ScopeIs(resource, records[..|records| - 1]);
    }
  }

  /** Each record gives its own events. */
  lemma {:induction false} GroupOfLog(override: string, logs: seq<(Attributes, LogRecord)>, i: nat)
    requires i < |logs|
    ensures LogGroups(override, logs)[i] == LogEvents(override, logs[i].0, logs[i].1)
  {
    hide LogEvents;
    if i < |logs| - 1 {
      GroupOfLog(override, logs[..|logs| - 1], i);
    }
  }

  lemma {:induction false} GroupOfSpan(override: string, spans: seq<(Attributes, Span)>, i: nat)
    requires i < |spans| && SpanGroups(override, spans).Some?
    ensures |SpanGroups(override, spans).value| == |spans|
    ensures SpanEvents(override, spans[i].0, spans[i].1) == Some(SpanGroups(override, spans).value[i])
  {
    hide SpanEvents;
    var n := |spans| - 1;
    if i < n {
      GroupOfSpan(override, spans[..n], i);
    } else if n > 0 {
      GroupOfSpan(override, spans[..n], 0);
    }
  }

  /** A record comes after those of earlier batches, earlier scopes and earlier places, with its own resource. */
  lemma TaggedAt<R>(batches: seq<Batch<R>>, b: nat, s: nat, r: nat) returns (k: nat)
    requires b < |batches| && s < |batches[b].scopes| && r < |batches[b].scopes[s]|
    ensures k == |Tagged(batches[..b])| + |OfResource(batches[b].attrs, batches[b].scopes[..s])| + r
    ensures k < |Tagged(batches)| && Tagged(batches)[k] == (batches[b].attrs, batches[b].scopes[s][r])
  {
    hide Tagged, OfResource;
    var batch := batches[b];
    ScopeIs(batch.attrs, batch.scopes[s]);
    TaggedPrefix(batches, b + 1);
    TaggedLast(batches, b);
    ResourcePrefix(batch.attrs, batch.scopes, s + 1);
    OfResourceLast(batch.attrs, batch.scopes, s);
    k := |Tagged(batches[..b])| + |OfResource(batch.attrs, batch.scopes[..s])| + r;
  }

  lemma {:induction false} ResourceFrom<R>(resource: Attributes, scopes: seq<seq<R>>, k: nat) returns (s: nat, r: nat)
    requires k < |OfResource(resource, scopes)|
    ensures s < |scopes| && r < |scopes[s]|
    ensures OfResource(resource, scopes)[k] == (resource, scopes[s][r])
    ensures k == |OfResource(resource, scopes[..s])| + r
  {
    var n := |scopes| - 1;
    var front := OfResource(resource, scopes[..n]);
    if k < |front| {
      s, r := ResourceFrom(resource, scopes[..n], k);
      assert scopes[..n][..s] == scopes[..s];
    } else {
      s, r := n, k - |front|;
      ScopeIs(resource, scopes[n]);
    }
  }

  /** And nothing else is in the list. */
  lemma {:induction false} TaggedFrom<R>(batches: seq<Batch<R>>, k: nat) returns (b: nat, s: nat, r: nat)
    requires k < |Tagged(batches)|
    ensures b < |batches| && s < |batches[b].scopes| && r < |batches[b].scopes[s]|
    ensures Tagged(batches)[k] == (batches[b].attrs, batches[b].scopes[s][r])
    ensures k == |Tagged(batches[..b])| + |OfResource(batches[b].attrs, batches[b].scopes[..s])| + r
  {
    var n := |batches| - 1;
    var front := Tagged(batches[..n]);
    hide OfResource;
    if k < |front| {
      b, s, r := TaggedFrom(batches[..n], k);
      assert batches[..n][..b] == batches[..b];
    } else {
      b := n;
      s, r := ResourceFrom(batches[n].attrs, batches[n].scopes, k - |front|);
    }
  }

  // ---------- what comes out ----------

  /** A model call whose output messages are there but do not decode. */
  predicate Fails(resource: Attributes, span: Span) {
    span.name == "llm_call" && Attr(resource + span.attrs, "gen_ai.output.messages") != "" && span.output.Undecodable?
  }

  /** A payload fails exactly when one of its spans does. */
  lemma {:induction false} PayloadFails(override: string, spans: seq<(Attributes, Span)>)
    ensures SpanGroups(override, spans).None? <==> exists s :: 0 <= s < |spans| && Fails(spans[s].0, spans[s].1)
  {
    if spans != [] {
      var front, last := spans[..|spans| - 1], spans[|spans| - 1];
      PayloadFails(override, front);
      assert SpanEvents(override, last.0, last.1).None? <==> Fails(last.0, last.1);
      hide Fails, SpanEvents;
      assert forall s :: 0 <= s < |front| ==> front[s] == spans[s];
    }
  }

  lemma {:induction false} LogGroupsAreRecords(override: string, logs: seq<(Attributes, LogRecord)>)
    ensures forall g :: 0 <= g < |logs| ==> OneRecord(LogGroups(override, logs)[g])
  {
    hide LogEvents, OneRecord;
    if logs != [] {
      LogGroupsAreRecords(override, logs[..|logs| - 1]);
      LogIsOneRecord(override, logs[|logs| - 1].0, logs[|logs| - 1].1);
    }
  }

  lemma {:induction false} SpanGroupsAreRecords(override: string, spans: seq<(Attributes, Span)>)
    requires SpanGroups(override, spans).Some?
    ensures forall g :: 0 <= g < |SpanGroups(override, spans).value| ==> OneRecord(SpanGroups(override, spans).value[g])
  {
    hide SpanEvents, OneRecord;
    if spans != [] {
      SpanGroupsAreRecords(override, spans[..|spans| - 1]);
      SpanIsOneRecord(override, spans[|spans| - 1].0, spans[|spans| - 1].1);
    }
  }

  /**
    * However the records' times interleave, the pair that one record gives comes out side by side and in
    * order, as one of the three known pairs.
    */
  lemma {:induction false} PairsStayTogether(override: string, payload: Payload, order: seq<nat>, g: nat)
    returns (i: nat)
    requires Groups(override, payload).Some?
    requires StableOrder(Flatten(Groups(override, payload).value), order)
    requires g < |Groups(override, payload).value| && |Groups(override, payload).value[g]| == 2
    ensures
      var groups := Groups(override, payload).value;
      var sorted := Arranged(Flatten(groups), order);
      && i + 1 < |sorted| && order[i] == Offset(groups, g) && order[i + 1] == Offset(groups, g) + 1
      && [sorted[i], sorted[i + 1]] == groups[g]
      && IsPair(sorted[i].kind, sorted[i + 1].kind)
  {
    hide LogGroups, SpanGroups, StableOrder, Tagged, Flatten, Offset, IsPair, Arranged, Unrouted;
    var groups := Groups(override, payload).value;
    LogGroupsAreRecords(override, Tagged(payload.logs));
    SpanGroupsAreRecords(override, Tagged(payload.spans));
    assert OneRecord(groups[g]);
    GroupAt(groups, g);
    var flat, at := Flatten(groups), Offset(groups, g);
    assert flat[at..at + 2][0] == flat[at] && flat[at..at + 2][1] == flat[at + 1];
    i := NeighboursStay(flat, order, at);
    ArrangedAt(flat, order, i);
    ArrangedAt(flat, order, i + 1);
  }

  lemma ArrangedAt(events: seq<Event>, order: seq<nat>, i: nat)
    requires StableOrder(events, order) && i < |order|
    ensures Within(order, |events|) && |Arranged(events, order)| == |order|
        && Arranged(events, order)[i] == events[order[i]]
  {
  }
}
