/**
  * When the incremental and the batch summary of one Codex response say the same.
  */
module CodexAgreement {
  import opened Strings
  import opened CodexStream
  import Speech

  /** The text of the first frame that offers any, unless that is a delta. */
  function FirstText(frames: seq<Fields>): string {
    if frames == [] then ""
    else if Offer(frames[0]) != "" then (if KindOf(frames[0]) == TextDelta then "" else Offer(frames[0]))
    else FirstText(frames[1..])
  }

  lemma PieceOffer(frame: Fields)
    ensures Piece(frame, true, false) == if KindOf(frame) == TextDelta then Offer(frame) else ""
    ensures Piece(frame, false, true) == if KindOf(frame) == TextDone then Offer(frame) else ""
    ensures forall p: Progress :: After(p, frame).text ==
                                  if KindOf(frame) == TextDelta then p.text + Offer(frame)
                                  else if p.text == "" then Offer(frame) else p.text
  {
  }

  /** The incremental text is the lead, if there is one, and all the deltas. */
  lemma {:induction false} FedText(p: Progress, frames: seq<Fields>)
    ensures Fed(p, frames).text == (if p.text != "" then p.text else FirstText(frames)) + Deltas(frames)
    decreases |frames|
  {
    hide KindOf, Offer, After, Piece;
    if frames == [] {
      assert p.text + "" == p.text;
    } else {
      var q, d := After(p, frames[0]), Piece(frames[0], true, false);
      PieceOffer(frames[0]);
      FedText(q, frames[1..]);
      assert Deltas(frames) == d + Deltas(frames[1..]);
      assert p.text + d + Deltas(frames[1..]) == p.text + (d + Deltas(frames[1..]));
      assert "" + d == d && p.text + "" == p.text && "" + Deltas(frames[1..]) == Deltas(frames[1..]);
    }
  }

  lemma {:induction false} FedLast(p: Progress, frames: seq<Fields>, last: Fields)
    ensures Fed(p, frames + [last]) == After(Fed(p, frames), last)
    decreases |frames|
  {
    hide After;
    var all := frames + [last];
    if frames == [] {
      assert all[0] == last && all[1..] == [];
    } else {
      assert all[0] == frames[0] && all[1..] == frames[1..] + [last];
      FedLast(After(p, frames[0]), frames[1..], last);
    }
  }

  /** How many characters are not blank: trimming keeps the number, and it tells texts apart. */
  function Solid(s: string): nat {
    if s == "" then 0 else (if IsSpace(s[0]) then 0 else 1) + Solid(s[1..])
  }

  lemma {:induction false} SolidAdds(a: string, b: string)
    ensures Solid(a + b) == Solid(a) + Solid(b)
  {
    hide IsSpace;
    if a == "" {
      assert a + b == b;
    } else {
      SolidAdds(a[1..], b);
      assert (a + b)[0] == a[0] && (a + b)[1..] == a[1..] + b;
    }
  }

  lemma {:induction false} SolidBlank(s: string)
    ensures Solid(s) == 0 <==> Blank(s)
  {
    if s != "" {
      SolidBlank(s[1..]);
      assert s == [s[0]] + s[1..];
    }
  }

  lemma SolidTrim(s: string)
    ensures Solid(Trim(s)) == Solid(s)
  {
    hide Trim, Blank;
    var left, right := TrimSplits(s);
    SolidAdds(left + Trim(s), right);
    SolidAdds(left, Trim(s));
    SolidBlank(left);
    SolidBlank(right);
  }

  lemma {:induction false} SolidGather(frames: seq<Fields>)
    ensures Solid(BatchText(frames)) == Solid(Deltas(frames)) + Solid(DoneTexts(frames))
    ensures DoneTexts(frames) == "" ==> BatchText(frames) == Deltas(frames)
  {
    hide KindOf, StringField;
    if frames != [] {
      SolidGather(frames[1..]);
      var delta, done := Piece(frames[0], true, false), Piece(frames[0], false, true);
      var both := Piece(frames[0], true, true);
      assert (both == delta && done == "") || (both == done && delta == "");
      SolidAdds(delta, Deltas(frames[1..]));
      SolidAdds(done, DoneTexts(frames[1..]));
      SolidAdds(both, BatchText(frames[1..]));
      assert |DoneTexts(frames)| == |done| + |DoneTexts(frames[1..])|;
    }
  }

  lemma TrimmedEmpty()
    ensures Trimmed("") && Trim("") == ""
  {
  }

  // ---------- blank done texts ----------

  lemma TrimBetween(x: string, y: string)
    ensures Blank(x) ==> Trim(x + y) == Trim(y)
    ensures Blank(y) ==> Trim(x + y) == Trim(x)
  {
    var left, right := TrimSplits(x);
    var first, last := TrimSplits(y);
    hide Trim;
    if Blank(x) {
      TrimCore(x + first, Trim(y), last);
      assert x + y == x + first + Trim(y) + last;
    }
    if Blank(y) {
      TrimCore(left, Trim(x), right + y);
      assert x + y == left + Trim(x) + (right + y);
    }
  }

  lemma FromFirstSolid(x: string) returns (left: string)
    requires !Blank(x)
    ensures x == left + TrimLeft(x) && Blank(left)
    ensures TrimLeft(x) != "" && !IsSpace(TrimLeft(x)[0])
  {
    left := x[..Lead(x)];
  }

  lemma ToLastSolid(y: string) returns (right: string)
    requires !Blank(y)
    ensures y == TrimRight(y) + right && Blank(right)
    ensures TrimRight(y) != "" && !IsSpace(TrimRight(y)[|TrimRight(y)| - 1])
  {
    right := y[Core(y)..];
  }

  /** Blanks between two texts that are not blank stay when the whole is trimmed. */
  lemma BlanksInsideStay(x: string, w: string, y: string)
    requires !Blank(x) && !Blank(y)
    ensures |Trim(x + w + y)| == |TrimLeft(x)| + |w| + |TrimRight(y)|
  {
    hide Trim, TrimLeft, TrimRight, Blank;
    var left := FromFirstSolid(x);
    var right := ToLastSolid(y);
    Between(TrimLeft(x), w, TrimRight(y));
    TrimCore(left, TrimLeft(x) + w + TrimRight(y), right);
    assert x + w + y == left + (TrimLeft(x) + w + TrimRight(y)) + right;
  }

  lemma Between(a: string, w: string, b: string)
    requires a != "" && b != "" && !IsSpace(a[0]) && !IsSpace(b[|b| - 1])
    ensures Trimmed(a + w + b) && |a + w + b| == |a| + |w| + |b|
  {
    hide IsSpace;
    var all := a + w + b;
    assert all[0] == a[0] && all[|all| - 1] == b[|b| - 1];
  }

  /**
    * After a text `x`, every done text is blank, and those that are not empty come while there are only blanks
    * so far or only blanks to come.
    */
  predicate AtEdges(x: string, frames: seq<Fields>)
    decreases |frames|
  {
    frames == [] ||
    (var delta, done := Piece(frames[0], true, false), Piece(frames[0], false, true);
     && Blank(done) && (done == "" || Blank(x) || Blank(Deltas(frames[1..])))
     && AtEdges(x + delta, frames[1..]))
  }

  lemma {:induction false} EdgesAreBlank(x: string, frames: seq<Fields>)
    ensures AtEdges(x, frames) ==> Blank(DoneTexts(frames))
    ensures DoneTexts(frames) == "" ==> AtEdges(x, frames)
    decreases |frames|
  {
    hide Piece;
    if frames != [] {
      var delta, done := Piece(frames[0], true, false), Piece(frames[0], false, true);
      EdgesAreBlank(x + delta, frames[1..]);
      assert DoneTexts(frames) == done + DoneTexts(frames[1..]);
      assert |DoneTexts(frames)| == |done| + |DoneTexts(frames[1..])|;
    }
  }

  lemma PiecesApart(frames: seq<Fields>)
    requires frames != []
    ensures var delta, done := Piece(frames[0], true, false), Piece(frames[0], false, true);
            && (delta == "" || done == "")
            && Deltas(frames) == delta + Deltas(frames[1..]) && DoneTexts(frames) == done + DoneTexts(frames[1..])
            && BatchText(frames) == delta + done + BatchText(frames[1..])
  {
    hide StringField;
    var delta, done := Piece(frames[0], true, false), Piece(frames[0], false, true);
    assert delta + "" == delta && "" + done == done;
  }

  /** With blank done texts only, they change the trimmed text exactly when one of them is not at an edge. */
  lemma {:induction false} BlankDonesDecide(x: string, frames: seq<Fields>)
    requires Blank(DoneTexts(frames))
    ensures AtEdges(x, frames) ==> Trim(x + BatchText(frames)) == Trim(x + Deltas(frames))
    ensures !AtEdges(x, frames) ==> |Trim(x + BatchText(frames))| > |Trim(x + Deltas(frames))|
    decreases |frames|
  {
    hide Trim, Piece, Blank, Gather, TrimLeft, TrimRight;
    if frames == [] {
      NothingGathered();
    } else {
      PiecesApart(frames);
      var delta, done := Piece(frames[0], true, false), Piece(frames[0], false, true);
      var rest := frames[1..];
      BlankParts(done, DoneTexts(rest));
      BlankDonesDecide(x + delta, rest);
      SolidGather(rest);
      SolidBlank(BatchText(rest));
      SolidBlank(Deltas(rest));
      SolidBlank(DoneTexts(rest));
      OneBlankDone(x, delta, done, BatchText(rest), Deltas(rest));
    }
  }

  lemma NothingGathered()
    ensures BatchText([]) == "" == Deltas([])
  {
  }

  lemma BlankParts(a: string, b: string)
    requires Blank(a + b)
    ensures Blank(a) && Blank(b)
  {
    assert forall i :: 0 <= i < |a| ==> (a + b)[i] == a[i];
    assert forall i :: 0 <= i < |b| ==> (a + b)[|a| + i] == b[i];
  }

  /** One delta or one blank done text in front of what follows, with and without the done text. */
  lemma OneBlankDone(x: string, delta: string, done: string, batch: string, deltas: string)
    requires (delta == "" || done == "") && Blank(done) && (Blank(batch) <==> Blank(deltas))
    ensures x + delta + deltas == x + (delta + deltas)
    ensures var all := Trim(x + (delta + done + batch)); var less := Trim(x + delta + batch);
            if done == "" || Blank(x) || Blank(deltas) then all == less else |all| > |less|
  {
    hide Trim, Blank;
    assert x + delta + deltas == x + (delta + deltas);
    if done == "" {
      assert x + (delta + done + batch) == x + delta + batch;
    } else {
      assert x + (delta + done + batch) == x + done + batch && x + delta + batch == x + batch;
      BlankInTheMiddle(x, done, batch);
    }
  }

  lemma BlankInTheMiddle(x: string, w: string, y: string)
    requires Blank(w) && w != ""
    ensures if Blank(x) || Blank(y) then Trim(x + w + y) == Trim(x + y) else |Trim(x + w + y)| > |Trim(x + y)|
  {
    BlankSums(x, w);
    BlankSums(w, y);
    hide Trim, TrimLeft, TrimRight, Blank;
    if Blank(x) {
      TrimBetween(x + w, y);
      TrimBetween(x, y);
    } else if Blank(y) {
      TrimBetween(x, w + y);
      TrimBetween(x, y);
      assert x + w + y == x + (w + y);
    } else {
      BlanksInsideStay(x, w, y);
      BlanksInsideStay(x, "", y);
      assert x + "" + y == x + y;
    }
  }

  lemma BlankSums(a: string, b: string)
    ensures Blank(a) && Blank(b) ==> Blank(a + b)
  {
  }

  /** Done texts leave the trimmed text as it is exactly when all of them are blank and at the edges. */
  lemma DonesDecide(x: string, frames: seq<Fields>)
    ensures Trim(x + BatchText(frames)) == Trim(x + Deltas(frames)) <==> AtEdges(x, frames)
  {
    hide Trim, Blank, Gather, AtEdges, Solid;
    EdgesAreBlank(x, frames);
    if Blank(DoneTexts(frames)) {
      BlankDonesDecide(x, frames);
    } else {
      SolidGather(frames);
      SolidBlank(DoneTexts(frames));
      SolidTrim(x + BatchText(frames));
      SolidTrim(x + Deltas(frames));
      SolidAdds(x, BatchText(frames));
      SolidAdds(x, Deltas(frames));
    }
  }

  // ---------- the first frame with text ----------

  /** The first frame that offers any text, or the end. */
  function Opener(frames: seq<Fields>): (i: nat)
    ensures i <= |frames|
  {
    if frames == [] || Offer(frames[0]) != "" then 0 else Opener(frames[1..]) + 1
  }

  /** The first text comes from an item or an earlier completed response. */
  predicate LedByItem(frames: seq<Fields>) {
    Opener(frames) < |frames| && KindOf(frames[Opener(frames)]) in {Item, Completed}
  }

  predicate LedByDone(frames: seq<Fields>) {
    Opener(frames) < |frames| && KindOf(frames[Opener(frames)]) == TextDone
  }

  /** Frames in front of the first one with text add nothing. */
  lemma {:induction false} OpenerSkips(frames: seq<Fields>)
    ensures var i := Opener(frames);
            && FirstText(frames) == (if i < |frames| && KindOf(frames[i]) != TextDelta then Offer(frames[i]) else "")
            && (i < |frames| ==> Offer(frames[i]) != "" && KindOf(frames[i]) != Other)
            && BatchText(frames) == BatchText(frames[i..]) && Deltas(frames) == Deltas(frames[i..])
  {
    hide Offer, KindOf, Piece;
    if frames == [] || Offer(frames[0]) != "" {
      assert frames[0..] == frames;
      if frames != [] { OtherOffersNothing(frames[0]); }
    } else {
      OpenerSkips(frames[1..]);
      var i := Opener(frames);
      assert frames[i..] == frames[1..][i - 1..];
      PieceOffer(frames[0]);
      PiecesApart(frames);
      assert "" + "" + BatchText(frames[1..]) == BatchText(frames[1..])
        && "" + Deltas(frames[1..]) == Deltas(frames[1..]);
    }
  }

  lemma OtherOffersNothing(frame: Fields)
    ensures KindOf(frame) == Other ==> Offer(frame) == ""
  {
  }

  /** The done texts that the batch form would have to do without: all, or all but the one that leads. */
  predicate DonesAtEdges(frames: seq<Fields>) {
    if LedByDone(frames) then AtEdges(FirstText(frames), frames[Opener(frames) + 1..]) else AtEdges("", frames)
  }

  lemma UnledTexts(frames: seq<Fields>)
    requires !LedByItem(frames)
    ensures Trim(FirstText(frames) + Deltas(frames)) == Trim(BatchText(frames)) <==> DonesAtEdges(frames)
  {
    hide Trim, Gather, AtEdges, Offer, KindOf, Piece, FirstText;
    OpenerSkips(frames);
    if LedByDone(frames) {
      var i := Opener(frames);
      var tail := frames[i..];
      assert tail[0] == frames[i] && tail[1..] == frames[i + 1..];
      PiecesApart(tail);
      PieceOffer(frames[i]);
      DonesDecide(FirstText(frames), frames[i + 1..]);
      assert "" + FirstText(frames) == FirstText(frames) && "" + Deltas(frames[i + 1..]) == Deltas(frames[i + 1..]);
    } else {
      DonesDecide("", frames);
      assert "" + BatchText(frames) == BatchText(frames) && "" + Deltas(frames) == Deltas(frames);
    }
  }

  lemma LedTexts(frames: seq<Fields>)
    requires LedByItem(frames)
    ensures Trimmed(FirstText(frames)) && FirstText(frames) != ""
    ensures DoneTexts(frames) == "" ==> Trim(FirstText(frames) + Deltas(frames)) != Trim(BatchText(frames))
    ensures Deltas(frames) == "" ==>
              Trim(FirstText(frames) + Deltas(frames)) == FirstText(frames) && BatchText(frames) == DoneTexts(frames)
  {
    hide *;
    LedIsTrimmed(frames);
    OnlyDones(frames);
    TrimFixed(FirstText(frames));
    assert FirstText(frames) + "" == FirstText(frames);
    MoreSolid(FirstText(frames), Deltas(frames));
    SolidGather(frames);
  }

  lemma LedIsTrimmed(frames: seq<Fields>)
    requires LedByItem(frames)
    ensures Trimmed(FirstText(frames)) && FirstText(frames) != ""
  {
    hide Trim, Trimmed, Gather, Offer, FirstText, ResponseText;
    OpenerSkips(frames);
    var frame := frames[Opener(frames)];
    OffersResponse(frame);
    ResponseTextTrimmed(ItemResponse(frame));
    ResponseTextTrimmed(CompletedResponse(frame));
  }

  /** Something that is not blank in front of a text shows when the whole is trimmed. */
  lemma MoreSolid(x: string, y: string)
    requires Trimmed(x) && x != ""
    ensures Trim(x + y) != Trim(y)
  {
    if Blank(x) { TrimmedBlank(x); }
    hide Trim, Trimmed, Blank;
    SolidTrim(x + y);
    SolidTrim(y);
    SolidAdds(x, y);
    SolidBlank(x);
  }

  lemma OffersResponse(frame: Fields)
    ensures KindOf(frame) == Item ==> Offer(frame) == ResponseText(ItemResponse(frame))
    ensures KindOf(frame) == Completed ==> Offer(frame) == ResponseText(CompletedResponse(frame))
  {
  }

  lemma {:induction false} OnlyDones(frames: seq<Fields>)
    ensures Deltas(frames) == "" ==> BatchText(frames) == DoneTexts(frames)
  {
    hide Piece;
    if frames != [] {
      PiecesApart(frames);
      OnlyDones(frames[1..]);
      var delta, done := Piece(frames[0], true, false), Piece(frames[0], false, true);
      assert |Deltas(frames)| == |delta| + |Deltas(frames[1..])|;
      assert "" + done == done;
    }
  }

  // ---------- the two forms ----------

  /** The response that the batch form ends up with: that of the last frame, or else an earlier one's. */
  function FinalOf(frames: seq<Fields>, last: Fields): Value {
    if "response" in last then last["response"] else BatchResponse(frames)
  }

  /** The texts and calls of the two forms when the stream ends with a completed frame. */
  lemma FinalTexts(frames: seq<Fields>, last: Fields)
    requires KindOf(last) == Completed
    ensures FrameText(Fed(START, frames), last) ==
            var t := ResponseText(CompletedResponse(last));
            if t == "" then Trim(FirstText(frames) + Deltas(frames)) else t
    ensures BatchSummary(frames + [last]).text ==
            var t := ResponseText(FinalOf(frames, last)); if t == "" then Trim(BatchText(frames)) else t
    ensures BatchSummary(frames + [last]).calls == ResponseCalls(FinalOf(frames, last))
    ensures FrameCalls(last) == ResponseCalls(CompletedResponse(last))
    ensures "response" in last ==> FinalOf(frames, last) == CompletedResponse(last)
    ensures "response" !in last ==>
        ResponseText(CompletedResponse(last)) == "" && ResponseCalls(CompletedResponse(last)) == []
    ensures BatchSummary(frames + [last]).completed && Fed(START, frames + [last]).completed
  {
    hide Trim, OutputTexts, ChoicesTexts, OutputCalls, ChoicesCalls, StringField, FirstText, Gather, BatchItems, KindOf;
    var all := frames + [last];
    assert all[|all| - 1] == last && all[..|all| - 1] == frames;
    FedText(START, frames);
    FedLast(START, frames, last);
    GatherLast(frames, last, true, true);
    assert BatchText(frames) + "" == BatchText(frames);
    CompletedGrows(frames, last);
    TrimmedEmpty();
    assert BatchResponse(all) == FinalOf(frames, last);
    assert BatchResponse(all) == Null ==>
      ResponseText(FinalResponse(all)) == "" && ResponseCalls(FinalResponse(all)) == [];
  }

  /** The last frame brings no response, but an earlier one with text counts for the batch form. */
  predicate Silent(frames: seq<Fields>, last: Fields) {
    "response" !in last && ResponseText(BatchResponse(frames)) != ""
  }

  /**
    * On a stream ending in a completed frame the two forms agree on completion, and on the calls exactly when
    * the frame brings the response itself or no earlier one brought calls. They agree on the text whenever the
    * frame's response has any. If only an earlier response has any, they agree exactly when what was written
    * says the same; when that response itself was the first text, exactly when only blanks followed. Otherwise:
    * if no item or earlier response brought the first text, they agree exactly when all done texts, or all after
    * the one that brought it, are blank and at the edges of the text, because the batch form says them again;
    * if one did, they differ when there are no done texts, since the batch form never says it, and when there
    * are no deltas they agree exactly when the done texts are the same text. What is left, an item first and then
    * both deltas and done texts, depends on what these say.
    */
  lemma {:induction false} IncrementalRefinesBatch(frames: seq<Fields>, last: Fields)
    requires KindOf(last) == Completed
    ensures
      var final := ResponseText(CompletedResponse(last));
      var earlier := BatchResponse(frames);
      var step, batch := FrameText(Fed(START, frames), last), BatchSummary(frames + [last]);
      && Fed(START, frames + [last]).completed && batch.completed
      && (FrameCalls(last) == batch.calls <==> "response" in last || ResponseCalls(earlier) == [])
      && (final != "" ==> step == final && batch.text == final)
      && (Silent(frames, last) ==>
           && (step == batch.text <==> Trim(FirstText(frames) + Deltas(frames)) == ResponseText(earlier))
           && (FirstText(frames) == ResponseText(earlier) ==> (step == batch.text <==> Blank(Deltas(frames)))))
      && (!Silent(frames, last) ==>
           && (!LedByItem(frames) ==> (step == batch.text <==> final != "" || DonesAtEdges(frames)))
           && (LedByItem(frames) && DoneTexts(frames) == "" ==> (step == batch.text <==> final != ""))
           && (LedByItem(frames) && Deltas(frames) == "" ==>
                (step == batch.text <==> final != "" || FirstText(frames) == Trim(DoneTexts(frames)))))
      && (final == "" && FirstText(frames) == "" ==> step == Trim(Deltas(frames)))
  {
    hide *;
    FinalTexts(frames, last);
    SilentMeans(frames, last);
    assert "" + Deltas(frames) == Deltas(frames);
    if Silent(frames, last) {
      ResponseTextTrimmed(BatchResponse(frames));
      OnlyBlanksFollow(ResponseText(BatchResponse(frames)), Deltas(frames));
    } else if LedByItem(frames) {
      LedTexts(frames);
    } else {
      UnledTexts(frames);
    }
  }

  lemma SilentMeans(frames: seq<Fields>, last: Fields)
    ensures Silent(frames, last) <==> "response" !in last && ResponseText(BatchResponse(frames)) != ""
    ensures "response" !in last ==> FinalOf(frames, last) == BatchResponse(frames)
  {
    hide ResponseText, BatchResponse;
  }

  lemma OnlyBlanksFollow(x: string, y: string)
    requires Trimmed(x)
    ensures Trim(x + y) == x <==> Blank(y)
  {
    TrimFixed(x);
    TrimBetween(x, y);
    hide Trim, Trimmed, Blank;
    SolidTrim(x + y);
    SolidAdds(x, y);
    SolidBlank(y);
  }

  /** A response with a call and then a completed frame without one: only the batch form reports the call. */
  lemma SilentCompletionExample(call: Fields)
    requires StringField(call, "type") == "function_call"
    ensures
      var response := Object(map["output" := Array([Object(call, "")], "")], "");
      var first := map["type" := Text("response.completed"), "response" := response];
      var last := map["type" := Text("response.completed")];
      FrameCalls(last) == [] && BatchSummary([first, last]).calls == [call]
  {
    hide Speech.Lower;
    var response := Object(map["output" := Array([Object(call, "")], "")], "");
    var first := map["type" := Text("response.completed"), "response" := response];
    var last := map["type" := Text("response.completed")];
    assert KindOf(first) == Completed && KindOf(last) == Completed;
    OneCall(call);
    hide OutputCalls, OutputTexts, KindOf, StringField, FrameText, FrameCalls, BatchSummary, Fed;
    FinalTexts([first], last);
    assert [first] + [last] == [first, last];
    assert [first][|[first]| - 1] == first;
  }

  lemma OneCall(call: Fields)
    requires StringField(call, "type") == "function_call"
    ensures OutputCalls([Object(call, "")]) == [call]
  {
    hide StringField;
    assert OutputCalls([]) == [];
    assert [Object(call, "")][..0] == [];
  }

  /** Without done texts, or with just the one that leads, the forms agree; with a solid one more they do not. */
  lemma DonesAtEdgesPlain(frames: seq<Fields>)
    ensures !LedByDone(frames) ==>
              && (DoneTexts(frames) == "" ==> DonesAtEdges(frames))
              && (DonesAtEdges(frames) ==> Blank(DoneTexts(frames)))
    ensures LedByDone(frames) ==>
              var more := DoneTexts(frames[Opener(frames) + 1..]);
              && (more == "" ==> DonesAtEdges(frames)) && (DonesAtEdges(frames) ==> Blank(more))
  {
    hide AtEdges, Blank, Gather, FirstText;
    if LedByDone(frames) {
      EdgesAreBlank(FirstText(frames), frames[Opener(frames) + 1..]);
    } else {
      EdgesAreBlank("", frames);
    }
  }

  lemma TrimmedBlank(s: string)
    requires Trimmed(s) && Blank(s)
    ensures s == ""
  {
  }

  /**
    * Without a completed response the batch form builds a body around the items it collected, but the list
    * it stores there is not of the type that it then asks for: no item's text or call ever shows.
    */
  lemma {:induction false} CollectedItemsAreLost(events: seq<Fields>)
    requires BatchResponse(events) == Null
    ensures BatchSummary(events).text == Trim(BatchText(events)) && BatchSummary(events).calls == []
    ensures BatchSummary(events).completed <==> BatchCompleted(events)
  {
    hide Trim, BatchText, BatchItems, BatchCompleted, Speech.Lower;
    TrimmedEmpty();
    NothingLowers();
  }

  lemma NothingLowers()
    ensures Speech.Lower("") == ""
  {
  }

  lemma EchoFrames(delta: Fields, done: Fields, last: Fields)
    requires delta == map["type" := Text("response.output_text.delta"), "delta" := Text("Hi")]
    requires done == map["type" := Text("response.output_text.done"), "text" := Text("Hi")]
    requires last == map["type" := Text("response.completed"), "response" := Null]
    ensures Piece(delta, true, true) == "Hi" && Piece(delta, true, false) == "Hi" && Offer(delta) == "Hi"
    ensures Piece(done, true, true) == "Hi" && Piece(done, true, false) == ""
    ensures KindOf(delta) == TextDelta && KindOf(last) == Completed
    ensures "response" in last && ResponseText(CompletedResponse(last)) == ""
  {
    hide ResponseText, OutputTexts, ChoicesTexts;
    assert ResponseText(Null) == "" by { NullSaysNothing(); }
  }

  lemma NullSaysNothing()
    ensures ResponseText(Null) == ""
  {
  }

  /** A stream of one message item: the frame shows its text, the batch form never does. */
  lemma LostItemExample(message: Fields)
    requires StringField(message, "type") == "message" && Trim(Concat(MessageTexts(message))) != ""
    ensures
      var frame := map["type" := Text("response.output_item.done"), "item" := Object(message, "")];
      FrameText(START, frame) == Trim(Concat(MessageTexts(message))) && BatchSummary([frame]).text == ""
  {
    hide *;
    var frame := map["type" := Text("response.output_item.done"), "item" := Object(message, "")];
    ItemIsShown(message, frame);
    OneItemFrame(frame);
    CollectedItemsAreLost([frame]);
    TrimmedEmpty();
  }

  lemma ItemIsShown(message: Fields, frame: Fields)
    requires StringField(message, "type") == "message"
    requires frame == map["type" := Text("response.output_item.done"), "item" := Object(message, "")]
    ensures KindOf(frame) == Item && FrameText(START, frame) == Trim(Concat(MessageTexts(message)))
  {
    OneMessage(message);
    hide Trim, MessageTexts, OutputTexts, OutputCalls, ChoicesTexts;
  }

  lemma OneItemFrame(frame: Fields)
    requires KindOf(frame) == Item
    ensures BatchText([frame]) == "" && BatchResponse([frame]) == Null
  {
    hide KindOf, StringField;
    assert [frame][1..] == [] && Gather([], true, true) == "" && BatchText([frame]) == "" + "";
    assert [frame][..0] == [] && BatchResponse([]) == Null;
  }

  lemma OneMessage(message: Fields)
    requires StringField(message, "type") == "message"
    ensures OutputTexts([Object(message, "")]) == MessageTexts(message)
  {
    hide StringField, MessageTexts;
    assert [Object(message, "")][..0] == [] && OutputTexts([]) == [];
    assert [] + MessageTexts(message) == MessageTexts(message);
  }

  /** A delta, the same text done, and a response with no text: one form says "Hi" and the other "HiHi". */
  lemma {:induction false} EchoExample()
    ensures
      var delta := map["type" := Text("response.output_text.delta"), "delta" := Text("Hi")];
      var done := map["type" := Text("response.output_text.done"), "text" := Text("Hi")];
      var last := map["type" := Text("response.completed"), "response" := Null];
      FrameText(Fed(START, [delta, done]), last) == "Hi" && BatchSummary([delta, done, last]).text == "HiHi"
  {
    var delta := map["type" := Text("response.output_text.delta"), "delta" := Text("Hi")];
    var done := map["type" := Text("response.output_text.done"), "text" := Text("Hi")];
    var last := map["type" := Text("response.completed"), "response" := Null];
    EchoFrames(delta, done, last);
    hide Piece, Offer, KindOf, Trim, CompletedResponse, FrameText, BatchSummary, Fed, BatchResponse, ResponseText;
    TrimFixed("Hi");
    TrimFixed("HiHi");
    assert [delta, done] + [last] == [delta, done, last];
    assert [delta, done][1..] == [done] && [done][1..] == [];
    assert Gather([done], true, true) == "Hi" && Gather([done], true, false) == "";
    assert BatchText([delta, done]) == "HiHi" && FirstText([delta, done]) + Deltas([delta, done]) == "Hi";
    FinalTexts([delta, done], last);
  }
}
