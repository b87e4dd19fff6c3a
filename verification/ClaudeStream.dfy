/** Folding the events of a streamed Claude response back into one message. */
module ClaudeStream {
  import opened Strings

  // ---------- decoded events ----------

  /** `input` is the field's JSON text when the start event carries one. */
  datatype Content = Content(kind: string, id: string, name: string, text: string, input: Option<string>)

  datatype Delta = TextDelta(text: string) | JsonDelta(partial: string) | OtherDelta

  datatype Head = Head(id: string, kind: string, role: string, model: string, stop: string)

  /** `None` stands for a field that is missing or not an object. */
  datatype Event =
    | MessageStart(message: Option<Head>)
    | BlockStart(index: int, content: Option<Content>)
    | BlockDelta(index: int, delta: Option<Delta>)
    | MessageDelta(stop: Option<string>)
    | OtherEvent

  // ---------- the message ----------

  datatype Block = Block(kind: string, id: string, name: string, text: string, input: string)

  datatype ContentBlock = TextBlock(text: string) | ToolBlock(id: string, name: string, input: Option<string>)

  datatype Envelope = Envelope(id: string, kind: string, role: string, model: string, stop: string)

  /** The JSON library: which texts are valid, and how a text is encoded as a JSON string. */
  datatype Json = Json(valid: string -> bool, encode: string -> string)

  const NEW_BLOCK := Block("", "", "", "", "")
  const NEW_ENVELOPE := Envelope("", "message", "assistant", "", "")

  function ValueOr(value: string, fallback: string): string {
    if value != "" then value else fallback
  }

  function Finalize(json: Json, raw: string): Option<string> {
    var trimmed := Trim(raw);
    if trimmed == "" then None
    else if json.valid(trimmed) then Some(trimmed)
    else Some(json.encode(trimmed))
  }

  /** The event names a block and carries something for it. */
  predicate Touches(e: Event, index: int) {
    (e.BlockStart? && e.index == index && e.content.Some?) || (e.BlockDelta? && e.index == index && e.delta.Some?)
  }

  function Started(b: Block, c: Content): Block {
    Block(ValueOr(c.kind, b.kind), ValueOr(c.id, b.id), ValueOr(c.name, b.name), b.text + c.text,
          if c.input.Some? then c.input.value else b.input)
  }

  function Extended(b: Block, d: Delta): Block {
    match d
    case TextDelta(text) => b.(text := b.text + text)
    case JsonDelta(partial) => b.(input := b.input + partial)
    case OtherDelta => b
  }

  function Touched(b: Block, e: Event): Block
    requires e.BlockStart? || e.BlockDelta?
  {
    if e.BlockStart? then (if e.content.Some? then Started(b, e.content.value) else b)
    else if e.delta.Some? then Extended(b, e.delta.value) else b
  }

  function Addressed(env: Envelope, e: Event): Envelope {
    match e
    case MessageStart(Some(m)) =>
      Envelope(m.id, ValueOr(m.kind, env.kind), ValueOr(m.role, env.role), m.model, ValueOr(m.stop, env.stop))
    case MessageDelta(Some(stop)) => env.(stop := ValueOr(stop, env.stop))
    case _ => env
  }

  // ---------- what the loop computes ----------

  /** The block at one index after the events, or none if no event touched it. */
  function BlockAt(events: seq<Event>, index: int): Option<Block> {
    if events == [] then None
    else
      var before, e := BlockAt(events[..|events| - 1], index), events[|events| - 1];
      if Touches(e, index) then Some(Touched(if before.Some? then before.value else NEW_BLOCK, e)) else before
  }

  function EnvelopeOf(events: seq<Event>): Envelope {
    if events == [] then NEW_ENVELOPE else Addressed(EnvelopeOf(events[..|events| - 1]), events[|events| - 1])
  }

  function Indexes(events: seq<Event>): set<int> {
    if events == [] then {}
    else
      var e := events[|events| - 1];
      Indexes(events[..|events| - 1])
        + (if (e.BlockStart? || e.BlockDelta?) && Touches(e, e.index) then {e.index} else {})
  }

  /** A finished block's place in the message; blocks of other kinds leave none. */
  function Finished(json: Json, b: Block): seq<ContentBlock> {
    if b.kind == "text" then [TextBlock(b.text)]
    else if b.kind == "tool_use" then [ToolBlock(b.id, b.name, Finalize(json, b.input))]
    else []
  }

  predicate Ascending(indexes: seq<int>) {
    forall i, j :: 0 <= i < j < |indexes| ==> indexes[i] < indexes[j]
  }

  function ContentOf(json: Json, events: seq<Event>, indexes: seq<int>): seq<ContentBlock> {
    if indexes == [] then []
    else
      var n := |indexes| - 1;
      var b := BlockAt(events, indexes[n]);
      ContentOf(json, events, indexes[..n]) + (if b.Some? then Finished(json, b.value) else [])
  }

  method SortInts(values: set<int>) returns (sorted: seq<int>)
    ensures Ascending(sorted) && forall x :: x in sorted <==> x in values
  {
    sorted := [];
    var rest := values;
    while rest != {}
      invariant rest <= values && Ascending(sorted)
      invariant forall x :: x in sorted <==> x in values && x !in rest
      invariant forall i, y :: 0 <= i < |sorted| && y in rest ==> sorted[i] < y
      decreases rest
    {
      Least(rest, Member(rest));
      var m :| m in rest && forall x :: x in rest ==> m <= x;
      sorted := sorted + [m];
      rest := rest - {m};
    }
  }

  ghost function Member<T>(s: set<T>): (x: T)
    requires s != {}
    ensures x in s
  {
    var x :| x in s; x
  }

  lemma {:induction false} Least(s: set<int>, a: int)
    requires a in s
    ensures exists m :: m in s && forall x :: x in s ==> m <= x
    decreases s
  {
    if b :| b in s && b < a {
      Least(s - {a}, b);
      var m :| m in s - {a} && forall x :: x in s - {a} ==> m <= x;
      assert m in s;
      forall x | x in s ensures m <= x {
        assert x == a || x in s - {a};
      }
    } else {
      assert forall x :: x in s ==> a <= x;
    }
  }

  /** The block map after the events; its keys are also the set of indexes to put in order. */
  ghost predicate Folded(events: seq<Event>, blocks: map<int, Block>) {
    && blocks.Keys == Indexes(events)
    && (forall k :: BlockAt(events, k) == if k in blocks then Some(blocks[k]) else None)
  }

  lemma BlockAfter(front: seq<Event>, e: Event, index: int)
    ensures BlockAt(front + [e], index) ==
            if Touches(e, index)
            then Some(Touched(if BlockAt(front, index).Some? then BlockAt(front, index).value else NEW_BLOCK, e))
            else BlockAt(front, index)
  {
    assert (front + [e])[..|front|] == front;
  }

  lemma FoldOn(events: seq<Event>, i: nat, blocks: map<int, Block>, index: int)
    requires i < |events| && Folded(events[..i], blocks) && Touches(events[i], index)
    ensures var b := if index in blocks then blocks[index] else NEW_BLOCK;
            Folded(events[..i + 1], blocks[index := Touched(b, events[i])])
  {
    hide Touched, BlockAt;
    assert events[..i + 1] == events[..i] + [events[i]];
    assert (events[..i] + [events[i]])[..i] == events[..i];
    var b := if index in blocks then blocks[index] else NEW_BLOCK;
    var blocks' := blocks[index := Touched(b, events[i])];
    forall k ensures BlockAt(events[..i + 1], k) == if k in blocks' then Some(blocks'[k]) else None {
      BlockAfter(events[..i], events[i], k);
    }
  }

  lemma FoldPast(events: seq<Event>, i: nat, blocks: map<int, Block>)
    requires i < |events| && Folded(events[..i], blocks) && forall k :: !Touches(events[i], k)
    ensures Folded(events[..i + 1], blocks)
  {
    hide Touched, BlockAt;
    assert events[..i + 1] == events[..i] + [events[i]];
    assert (events[..i] + [events[i]])[..i] == events[..i];
    forall k ensures BlockAt(events[..i + 1], k) == if k in blocks then Some(blocks[k]) else None {
      BlockAfter(events[..i], events[i], k);
    }
  }

  method FoldEvents(events: seq<Event>) returns (envelope: Envelope, blocks: map<int, Block>)
    ensures envelope == EnvelopeOf(events) && Folded(events, blocks)
  {
    hide Folded;
    envelope := NEW_ENVELOPE;
    blocks := map[];
    NothingFolded();
    for i := 0 to |events|
      invariant envelope == EnvelopeOf(events[..i])
      invariant Folded(events[..i], blocks)
    {
      assert events[..i + 1][..i] == events[..i];
      match events[i] {
        case MessageStart(message) =>
          FoldPast(events, i, blocks);
          if message.None? { continue; }
          var m := message.value;
          envelope := Envelope(m.id, ValueOr(m.kind, envelope.kind), ValueOr(m.role, envelope.role), m.model,
                               if m.stop != "" then m.stop else envelope.stop);
        case BlockStart(index, content) =>
          if content.None? { FoldPast(events, i, blocks); continue; }
          FoldOn(events, i, blocks, index);
          var c := content.value;
          var block := if index in blocks then blocks[index] else NEW_BLOCK;
          assert block.text + "" == block.text;
          block := block.(kind := ValueOr(c.kind, block.kind));
          if c.id != "" { block := block.(id := c.id); }
          if c.name != "" { block := block.(name := c.name); }
          if c.text != "" { block := block.(text := block.text + c.text); }
          if c.input.Some? { block := block.(input := c.input.value); }
          blocks := blocks[index := block];
        case BlockDelta(index, delta) =>
          if delta.None? { FoldPast(events, i, blocks); continue; }
          FoldOn(events, i, blocks, index);
          var block := if index in blocks then blocks[index] else NEW_BLOCK;
          match delta.value {
            case TextDelta(text) => block := block.(text := block.text + text);
            case JsonDelta(partial) => block := block.(input := block.input + partial);
            case OtherDelta =>
          }
          blocks := blocks[index := block];
        case MessageDelta(stop) =>
          FoldPast(events, i, blocks);
          if stop.None? { continue; }
          if stop.value != "" { envelope := envelope.(stop := stop.value); }
        case OtherEvent =>
          FoldPast(events, i, blocks);
      }
    }
    assert events[..|events|] == events;
  }

  lemma NothingFolded()
    ensures Folded([], map[])
  {
  }

  method ParseStreamingResponse(json: Json, events: seq<Event>)
    returns (envelope: Envelope, content: seq<ContentBlock>, ghost indexes: seq<int>)
    ensures envelope == EnvelopeOf(events)
    ensures Ascending(indexes) && forall k :: k in indexes <==> k in Indexes(events)
    ensures content == ContentOf(json, events, indexes)
  {
    hide Trim;
    var blocks;
    envelope, blocks := FoldEvents(events);
    var sorted := SortInts(blocks.Keys);
    indexes := sorted;
    content := [];
    for i := 0 to |sorted|
      invariant content == ContentOf(json, events, sorted[..i])
    {
      assert sorted[..i + 1][..i] == sorted[..i];
      var index := sorted[i];
      assert index in sorted;
      var block := blocks[index];
      if block.kind == "text" {
        content := content + [TextBlock(block.text)];
      } else if block.kind == "tool_use" {
        content := content + [ToolBlock(block.id, block.name, Finalize(json, block.input))];
      }
    }
    assert sorted[..|sorted|] == sorted;
  }

  // ---------- interleaving does not matter ----------

  /** The events for one index, in their order. */
  function Project(events: seq<Event>, index: int): seq<Event> {
    if events == [] then []
    else Project(events[..|events| - 1], index)
         + (if Touches(events[|events| - 1], index) then [events[|events| - 1]] else [])
  }

  lemma {:induction false} BlockFromProjection(events: seq<Event>, index: int)
    ensures BlockAt(events, index) == BlockAt(Project(events, index), index)
    ensures index in Indexes(events) <==> Project(events, index) != []
    ensures BlockAt(events, index).Some? <==> Project(events, index) != []
  {
    hide Touched;
    if events != [] {
      var front, e := events[..|events| - 1], events[|events| - 1];
      BlockFromProjection(front, index);
      var p := Project(front, index);
      if Touches(e, index) {
        assert (p + [e])[..|p|] == p && (p + [e])[|p|] == e;
      } else {
        assert p + [] == p;
      }
    }
  }

  lemma {:induction false} AscendingUnique(a: seq<int>, b: seq<int>)
    requires Ascending(a) && Ascending(b) && forall x :: x in a <==> x in b
    ensures a == b
  {
    if a == [] || b == [] {
      SameEmptiness(a, b);
    } else {
      var m, n := |a| - 1, |b| - 1;
      assert a[m] in a && b[n] in b;
      assert a[m] in b && b[n] in a;
      assert a[m] <= b[n] && b[n] <= a[m];
      var fa, fb := a[..m], b[..n];
      forall z ensures z in fa <==> z in fb {
        WithoutLast(a, z);
        WithoutLast(b, z);
      }
      AscendingUnique(fa, fb);
      assert a == fa + [a[m]] && b == fb + [b[n]];
    }
  }

  lemma FirstIsShared(a: seq<int>, b: seq<int>)
    requires b != [] && forall x :: x in a <==> x in b
    ensures b[0] in a
  {
    var x := b[0];
    assert x in b;
  }

  lemma SameEmptiness(a: seq<int>, b: seq<int>)
    requires forall x :: x in a <==> x in b
    ensures a == [] <==> b == []
  {
    if b != [] { FirstIsShared(a, b); }
    if a != [] { FirstIsShared(b, a); }
  }

  lemma WithoutLast(a: seq<int>, z: int)
    requires a != [] && Ascending(a)
    ensures z in a[..|a| - 1] <==> z in a && z != a[|a| - 1]
  {
    assert a == a[..|a| - 1] + [a[|a| - 1]];
  }

  lemma {:induction false} ContentFromProjections(json: Json, events: seq<Event>, others: seq<Event>, indexes: seq<int>)
    requires forall k :: Project(events, k) == Project(others, k)
    ensures ContentOf(json, events, indexes) == ContentOf(json, others, indexes)
  {
    if indexes != [] {
      ContentFromProjections(json, events, others, indexes[..|indexes| - 1]);
      BlockFromProjection(events, indexes[|indexes| - 1]);
      BlockFromProjection(others, indexes[|indexes| - 1]);
    }
  }

  /** Two streams that agree block by block give the same content, however their blocks are interleaved. */
  lemma InterleavingIsIrrelevant(json: Json, events: seq<Event>, others: seq<Event>, a: seq<int>, b: seq<int>)
    requires forall k :: Project(events, k) == Project(others, k)
    requires Ascending(a) && forall k :: k in a <==> k in Indexes(events)
    requires Ascending(b) && forall k :: k in b <==> k in Indexes(others)
    ensures a == b && ContentOf(json, events, a) == ContentOf(json, others, b)
  {
    forall k ensures k in a <==> k in b {
      BlockFromProjection(events, k);
      BlockFromProjection(others, k);
    }
    AscendingUnique(a, b);
    ContentFromProjections(json, events, others, a);
  }

  // ---------- fragmentation does not matter ----------

  datatype Original = TextOriginal(text: string) | ToolOriginal(id: string, name: string, input: string)

  function TextIn(e: Event): string {
    if e.BlockDelta? && e.delta.Some? && e.delta.value.TextDelta? then e.delta.value.text else ""
  }

  function PartialIn(e: Event): string {
    if e.BlockDelta? && e.delta.Some? && e.delta.value.JsonDelta? then e.delta.value.partial else ""
  }

  function TextsOf(deltas: seq<Event>): string {
    if deltas == [] then "" else TextsOf(deltas[..|deltas| - 1]) + TextIn(deltas[|deltas| - 1])
  }

  function PartialsOf(deltas: seq<Event>): string {
    if deltas == [] then "" else PartialsOf(deltas[..|deltas| - 1]) + PartialIn(deltas[|deltas| - 1])
  }

  lemma DeltaAfter(deltas: seq<Event>, e: Event)
    ensures TextsOf(deltas + [e]) == TextsOf(deltas) + TextIn(e)
    ensures PartialsOf(deltas + [e]) == PartialsOf(deltas) + PartialIn(e)
  {
    assert (deltas + [e])[..|deltas|] == deltas;
  }

  /** One start event and then deltas, all for one index. */
  predicate OneBlock(events: seq<Event>, index: int) {
    && events != [] && events[0].BlockStart? && events[0].index == index && events[0].content.Some?
    && forall i :: 1 <= i < |events| ==> events[i].BlockDelta? && events[i].index == index && events[i].delta.Some?
  }

  /** The JSON text of the start's input field, if it carries one. */
  function InputAtStart(events: seq<Event>): string {
    if events != [] && events[0].BlockStart? && events[0].content.Some? && events[0].content.value.input.Some?
    then events[0].content.value.input.value else ""
  }

  /** A block's deltas add up: only the concatenation of its fragments is left of them. */
  lemma {:induction false} DeltasAddUp(events: seq<Event>, index: int)
    requires OneBlock(events, index)
    ensures var c := events[0].content.value;
            BlockAt(events, index) ==
            Some(Block(c.kind, c.id, c.name, c.text + TextsOf(events[1..]),
              InputAtStart(events) + PartialsOf(events[1..])))
  {
    hide BlockAt, TextsOf, PartialsOf, Touched;
    var n := |events| - 1;
    if n == 0 {
      assert events == [] + [events[0]] && events[1..] == [];
      BlockAfter([], events[0], index);
      assert BlockAt([], index).None? by { NothingThere(index); }
      StartAlone(events[0], index);
    } else {
      DeltasAddUp(events[..n], index);
      OneMoreDelta(events[..n], events[n], index);
      assert events[..n] + [events[n]] == events;
    }
  }

  lemma NothingThere(index: int)
    ensures BlockAt([], index).None?
  {
  }

  lemma OneMoreDelta(front: seq<Event>, e: Event, index: int)
    requires OneBlock(front, index) && e.BlockDelta? && e.index == index && e.delta.Some?
    requires BlockAt(front, index).Some?
    ensures
      var b, after := BlockAt(front, index).value, front + [e];
      && BlockAt(after, index) == Some(b.(text := b.text + TextIn(e), input := b.input + PartialIn(e)))
      && InputAtStart(after) == InputAtStart(front)
      && (forall lead :: lead + TextsOf(after[1..]) == lead + TextsOf(front[1..]) + TextIn(e))
      && (forall lead :: lead + PartialsOf(after[1..]) == lead + PartialsOf(front[1..]) + PartialIn(e))
  {
    TouchedByDelta(BlockAt(front, index).value, e);
    BlockAfter(front, e, index);
    DeltaAfter(front[1..], e);
    hide BlockAt, TextsOf, PartialsOf, Touched, TextIn, PartialIn;
    assert (front + [e])[1..] == front[1..] + [e];
    forall lead
      ensures lead + TextsOf((front + [e])[1..]) == lead + TextsOf(front[1..]) + TextIn(e)
      ensures lead + PartialsOf((front + [e])[1..]) == lead + PartialsOf(front[1..]) + PartialIn(e)
    {
      Appends(lead, TextsOf(front[1..]), TextIn(e));
      Appends(lead, PartialsOf(front[1..]), PartialIn(e));
    }
  }

  /** A fragment only extends its block, by its text or its partial input. */
  lemma TouchedByDelta(b: Block, e: Event)
    requires e.BlockDelta? && e.delta.Some?
    ensures Touched(b, e) == b.(text := b.text + TextIn(e), input := b.input + PartialIn(e))
  {
    assert b.text + "" == b.text && b.input + "" == b.input;
  }

  lemma Appends(a: string, b: string, c: string)
    ensures a + (b + c) == a + b + c
  {
  }

  lemma StartAlone(e: Event, index: int)
    requires OneBlock([e], index)
    ensures var c := e.content.value;
            Touched(NEW_BLOCK, e) ==
              Block(c.kind, c.id, c.name, c.text + TextsOf([]), InputAtStart([e]) + PartialsOf([]))
  {
    var c := e.content.value;
    assert [e][0] == e;
    assert "" + c.text == c.text + "";
    assert InputAtStart([e]) + "" == InputAtStart([e]);
  }

  /**
    * The start event and the fragments spell the original block. A tool's input comes in the fragments, or
    * with the start when the fragments are blank.
    */
  predicate Spells(events: seq<Event>, index: int, original: Original) {
    && OneBlock(events, index)
    && var c := events[0].content.value;
       match original
       case TextOriginal(text) => c.kind == "text" && c.text + TextsOf(events[1..]) == text
       case ToolOriginal(id, name, input) =>
         && c.kind == "tool_use" && c.id == id && c.name == name
         && input == if !Blank(PartialsOf(events[1..])) then PartialsOf(events[1..]) else InputAtStart(events)
  }

  /** The JSON library as used here: encoding as a string adds at least the quotes. */
  ghost predicate Quotes(json: Json) {
    forall s :: |json.encode(s)| >= |s| + 2
  }

  /** The block as the message should show it. */
  function Shown(original: Original): ContentBlock {
    match original
    case TextOriginal(text) => TextBlock(text)
    case ToolOriginal(id, name, input) => ToolBlock(id, name, if input == "" then None else Some(input))
  }

  predicate WellInput(json: Json, original: Original) {
    original.ToolOriginal? ==> Trimmed(original.input) && (original.input != "" ==> json.valid(original.input))
  }

  /** The input field on the start event, if any, is trimmed JSON text. */
  predicate WellStart(events: seq<Event>) {
    events != [] && events[0].BlockStart? && events[0].content.Some? && events[0].content.value.input.Some? ==>
      events[0].content.value.input.value != "" && Trimmed(events[0].content.value.input.value)
  }

  /** The input comes from one side only: the start carries none, or the fragments are blank. */
  predicate OneSided(events: seq<Event>) {
    && events != [] && events[0].BlockStart? && events[0].content.Some?
    && (events[0].content.value.input.None? || Blank(PartialsOf(events[1..])))
  }

  /**
    * A block survives its journey exactly when it is a text block or its input comes from one side only:
    * an input at the start, even an empty object, is put in front of the fragments and spoils them.
    */
  lemma BlockSurvives(json: Json, events: seq<Event>, index: int, original: Original)
    requires Quotes(json) && Spells(events, index, original) && WellInput(json, original) && WellStart(events)
    ensures BlockAt(events, index).Some?
    ensures Finished(json, BlockAt(events, index).value) == [Shown(original)] <==>
            original.TextOriginal? || OneSided(events)
  {
    DeltasAddUp(events, index);
    hide TextsOf, PartialsOf, BlockAt, Finalize, Trimmed, Blank;
    if original.ToolOriginal? {
      FinalizeSides(json, InputAtStart(events), PartialsOf(events[1..]));
    }
  }

  /** What becomes of an input in two parts, each trimmed or, for the second, blank. */
  lemma FinalizeSides(json: Json, lead: string, partials: string)
    requires Trimmed(lead) && (Trimmed(partials) || Blank(partials))
    ensures Blank(partials) && lead == "" ==> Finalize(json, lead + partials) == None
    ensures Blank(partials) && lead != "" && json.valid(lead) ==> Finalize(json, lead + partials) == Some(lead)
    ensures !Blank(partials) && lead == "" && json.valid(partials) ==> Finalize(json, lead + partials) == Some(partials)
    ensures !Blank(partials) && lead != "" ==>
              var raw := lead + partials;
              Finalize(json, raw) == Some(if json.valid(raw) then raw else json.encode(raw))
  {
    TrimSides(lead, partials);
    hide Trim, Trimmed, Blank;
    assert lead == "" ==> lead + partials == partials;
  }

  lemma TrimSides(lead: string, partials: string)
    requires Trimmed(lead) && (Trimmed(partials) || Blank(partials))
    ensures Trim(lead + partials) == if Blank(partials) then lead else lead + partials
    ensures !Blank(partials) ==> partials != ""
  {
    if Blank(partials) {
      TrimCore("", lead, partials);
      assert "" + lead + partials == lead + partials;
    } else {
      TrimFixed(lead + partials);
    }
  }

  /** An input that comes from both sides is shown as the two put together, as it is or quoted. */
  lemma InputSpoiled(json: Json, events: seq<Event>, index: int, original: Original)
    requires Spells(events, index, original) && original.ToolOriginal?
    requires WellInput(json, original) && WellStart(events) && !OneSided(events)
    ensures BlockAt(events, index).Some?
    ensures
      var raw := InputAtStart(events) + original.input;
      Finished(json, BlockAt(events, index).value) ==
      [ToolBlock(original.id, original.name, Some(if json.valid(raw) then raw else json.encode(raw)))]
  {
    DeltasAddUp(events, index);
    hide TextsOf, PartialsOf, BlockAt, Finalize, Trimmed, Blank;
    FinalizeSides(json, InputAtStart(events), PartialsOf(events[1..]));
  }

  /** An empty object at the start and an input in two fragments: what comes out is one quoted string. */
  lemma SpoiledInputExample(json: Json, events: seq<Event>)
    requires json.valid("{\"a\":1}") && !json.valid("{}" + "{\"a\":1}")
    requires events == [ BlockStart(0, Some(Content("tool_use", "t", "n", "", Some("{}")))),
                         BlockDelta(0, Some(JsonDelta("{\"a\":"))), BlockDelta(0, Some(JsonDelta("1}")))]
    ensures Spells(events, 0, ToolOriginal("t", "n", "{\"a\":1}"))
    ensures BlockAt(events, 0).Some?
    ensures Finished(json, BlockAt(events, 0).value) == [ToolBlock("t", "n", Some(json.encode("{}" + "{\"a\":1}")))]
  {
    var input := "{\"a\":1}";
    assert Trimmed("{}") && Trimmed(input) && !Blank(input) by { assert !IsSpace(input[0]); }
    hide PartialsOf, TextsOf, BlockAt, Finalize, Trimmed, Blank, Finished;
    TwoPartials(events);
    assert PartialsOf(events[1..]) == input;
    InputSpoiled(json, events, 0, ToolOriginal("t", "n", input));
  }

  lemma TwoPartials(events: seq<Event>)
    requires |events| == 3
    ensures PartialsOf(events[1..]) == PartialIn(events[1]) + PartialIn(events[2])
  {
    hide PartialIn;
    var fragments := events[1..];
    assert fragments == [events[1]] + [events[2]];
    assert [events[1]][..0] == [];
    assert PartialsOf([events[1]]) == "" + PartialIn(events[1]) == PartialIn(events[1]);
    assert fragments[..1] == [events[1]];
  }

  /** The originals in index order, as the message should show them. */
  function ShownAll(blocks: map<int, Original>, indexes: seq<int>): seq<ContentBlock>
    requires forall i :: 0 <= i < |indexes| ==> indexes[i] in blocks
  {
    if indexes == [] then []
    else
      ShownAll(blocks, indexes[..|indexes| - 1]) + [Shown(blocks[indexes[|indexes| - 1]])]
  }

  lemma {:induction false} ContentRestored(json: Json, events: seq<Event>, blocks: map<int, Original>,
                                           indexes: seq<int>)
    requires Quotes(json)
    requires forall k :: k in blocks ==> Spells(Project(events, k), k, blocks[k]) && WellInput(json, blocks[k])
    requires forall k :: k in blocks && blocks[k].ToolOriginal? ==>
        OneSided(Project(events, k)) && WellStart(Project(events, k))
    requires forall i :: 0 <= i < |indexes| ==> indexes[i] in blocks
    ensures ContentOf(json, events, indexes) == ShownAll(blocks, indexes)
  {
    hide Spells, WellInput, WellStart, OneSided, Finished, Shown, BlockAt, Quotes;
    if indexes != [] {
      var n := |indexes| - 1;
      var k := indexes[n];
      ContentRestored(json, events, blocks, indexes[..n]);
      BlockFromProjection(events, k);
      if blocks[k].ToolOriginal? {
        assert OneSided(Project(events, k)) && WellStart(Project(events, k));
        BlockSurvives(json, Project(events, k), k, blocks[k]);
      } else {
        TextSurvives(json, Project(events, k), k, blocks[k]);
      }
    }
  }

  lemma TextSurvives(json: Json, events: seq<Event>, index: int, original: Original)
    requires Spells(events, index, original) && original.TextOriginal?
    ensures BlockAt(events, index).Some? && Finished(json, BlockAt(events, index).value) == [Shown(original)]
  {
    DeltasAddUp(events, index);
  }

  /**
    * Reassembly. Let every block be sent as one start and any number of fragments, the fragments of
    * different blocks interleaved and mixed with other events at will. If each tool's input comes with its
    * start or in its fragments but not in both, the message shows the original blocks, in index order.
    */
  lemma StreamRestoresMessage(json: Json, events: seq<Event>, blocks: map<int, Original>, indexes: seq<int>)
    requires Quotes(json)
    requires forall k :: k in blocks ==> Spells(Project(events, k), k, blocks[k]) && WellInput(json, blocks[k])
    requires forall k :: k in blocks && blocks[k].ToolOriginal? ==>
        OneSided(Project(events, k)) && WellStart(Project(events, k))
    requires forall k :: k !in blocks ==> Project(events, k) == []
    requires Ascending(indexes) && forall k :: k in indexes <==> k in Indexes(events)
    ensures forall k :: k in indexes <==> k in blocks
    ensures forall i :: 0 <= i < |indexes| ==> indexes[i] in blocks
    ensures ContentOf(json, events, indexes) == ShownAll(blocks, indexes)
  {
    forall k ensures k in indexes <==> k in blocks {
      BlockFromProjection(events, k);
    }
    assert forall i :: 0 <= i < |indexes| ==> indexes[i] in indexes;
    ContentRestored(json, events, blocks, indexes);
  }

  /**
    * A second start for an index goes on with its block: what it names is replaced, its text is put behind, and an
    * input field takes the place of all input so far.
    */
  lemma StartAgain(events: seq<Event>, index: int, c: Content)
    requires BlockAt(events, index).Some?
    ensures
      var b, after := BlockAt(events, index).value, BlockAt(events + [BlockStart(index, Some(c))], index);
      && after.Some? && after.value.text == b.text + c.text
      && (c.kind != "" ==> after.value.kind == c.kind) && (c.kind == "" ==> after.value.kind == b.kind)
      && (c.id != "" ==> after.value.id == c.id) && (c.id == "" ==> after.value.id == b.id)
      && (c.name != "" ==> after.value.name == c.name) && (c.name == "" ==> after.value.name == b.name)
      && (c.input.Some? ==> after.value.input == c.input.value) && (c.input.None? ==> after.value.input == b.input)
  {
    hide BlockAt;
    BlockAfter(events, BlockStart(index, Some(c)), index);
  }

  // ---------- the stop reason ----------

  function StopIn(e: Event): string {
    match e
    case MessageStart(Some(m)) => m.stop
    case MessageDelta(Some(stop)) => stop
    case _ => ""
  }

  /** The message keeps the last non-empty stop reason of the stream. */
  lemma {:induction false} LastStopWins(events: seq<Event>, i: nat)
    requires i < |events| && StopIn(events[i]) != ""
    requires forall j :: i < j < |events| ==> StopIn(events[j]) == ""
    ensures EnvelopeOf(events).stop == StopIn(events[i])
  {
    var n := |events| - 1;
    if i < n {
      LastStopWins(events[..n], i);
      assert StopIn(events[n]) == "";
    }
  }

  lemma {:induction false} NoStopNoReason(events: seq<Event>)
    requires forall j :: 0 <= j < |events| ==> StopIn(events[j]) == ""
    ensures EnvelopeOf(events).stop == ""
  {
    if events != [] {
      NoStopNoReason(events[..|events| - 1]);
      assert StopIn(events[|events| - 1]) == "";
    }
  }

  // ---------- the rest of the envelope ----------

  predicate Starts(e: Event) {
    e.MessageStart? && e.message.Some?
  }

  /** The message has the id and the model of the last start, even where that leaves them out. */
  lemma {:induction false} LastStartNames(events: seq<Event>, i: nat)
    requires i < |events| && Starts(events[i])
    requires forall j :: i < j < |events| ==> !Starts(events[j])
    ensures EnvelopeOf(events).id == events[i].message.value.id
    ensures EnvelopeOf(events).model == events[i].message.value.model
  {
    var n := |events| - 1;
    if i < n {
      LastStartNames(events[..n], i);
      assert !Starts(events[n]);
    }
  }

  lemma {:induction false} NoStartNoNames(events: seq<Event>)
    requires forall j :: 0 <= j < |events| ==> !Starts(events[j])
    ensures EnvelopeOf(events) == Envelope("", "message", "assistant", "", EnvelopeOf(events).stop)
  {
    if events != [] {
      NoStartNoNames(events[..|events| - 1]);
      assert !Starts(events[|events| - 1]);
    }
  }

  /** The role and the kind are those of the last start that gives them, and else an assistant's message. */
  lemma {:induction false} LastRoleWins(events: seq<Event>, i: nat)
    requires i < |events| && Starts(events[i])
    requires forall j :: i < j < |events| && Starts(events[j]) ==> events[j].message.value.role == ""
    ensures events[i].message.value.role != "" ==> EnvelopeOf(events).role == events[i].message.value.role
    ensures events[i].message.value.role == "" ==> EnvelopeOf(events).role == EnvelopeOf(events[..i]).role
  {
    var n := |events| - 1;
    if i < n {
      LastRoleWins(events[..n], i);
      assert events[..n][..i] == events[..i];
      assert Starts(events[n]) ==> events[n].message.value.role == "";
    }
  }

  lemma {:induction false} LastKindWins(events: seq<Event>, i: nat)
    requires i < |events| && Starts(events[i])
    requires forall j :: i < j < |events| && Starts(events[j]) ==> events[j].message.value.kind == ""
    ensures events[i].message.value.kind != "" ==> EnvelopeOf(events).kind == events[i].message.value.kind
    ensures events[i].message.value.kind == "" ==> EnvelopeOf(events).kind == EnvelopeOf(events[..i]).kind
  {
    var n := |events| - 1;
    if i < n {
      LastKindWins(events[..n], i);
      assert events[..n][..i] == events[..i];
      assert Starts(events[n]) ==> events[n].message.value.kind == "";
    }
  }
}
