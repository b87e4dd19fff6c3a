/** Server-sent events as the Claude and Codex adapters read them. */
module Sse {
  import opened Strings

  // ---------- lines ----------

  function DropCr(line: string): string {
    if line != "" && line[|line| - 1] == '\r' then line[..|line| - 1] else line
  }

  function MapDropCr(lines: seq<string>): (r: seq<string>)
    ensures |r| == |lines| && forall i :: 0 <= i < |r| ==> r[i] == DropCr(lines[i])
  {
    if lines == [] then [] else [DropCr(lines[0])] + MapDropCr(lines[1..])
  }

  /** `bufio.ScanLines`: newline-terminated lines, a non-empty rest, and one carriage return dropped from each. */
  function Lines(body: string): seq<string> {
    var parts := Split(body, '\n');
    MapDropCr(if parts[|parts| - 1] == "" then parts[..|parts| - 1] else parts)
  }

  // ---------- grouping and decoding ----------

  const DATA := "data:"

  predicate IsData(line: string) {
    |line| >= 5 && line[..5] == DATA
  }

  function DataOf(line: string): string
    requires IsData(line)
  {
    Trim(line[5..])
  }

  function Emit(pending: seq<string>): seq<string> {
    if pending == [] then [] else [Join(pending, "\n")]
  }

  /** The raw texts that get flushed, given the data lines still pending. */
  function Raws(pending: seq<string>, lines: seq<string>): seq<string>
    decreases |lines|
  {
    if lines == [] then Emit(pending)
    else if lines[0] == "" then Emit(pending) + Raws([], lines[1..])
    else if IsData(lines[0]) then Raws(pending + [DataOf(lines[0])], lines[1..])
    else Raws(pending, lines[1..])
  }

  /** What flush passes over: the end marker, and for Claude also an empty text. */
  predicate Skipped(raw: string, skipEmpty: bool) {
    raw == "[DONE]" || (skipEmpty && raw == "")
  }

  /** Decoding in order; the first text that does not decode fails the whole stream. */
  function DecodeAll<T>(decode: string -> Option<T>, raws: seq<string>, skipEmpty: bool): Option<seq<T>> {
    if raws == [] then Some([])
    else
      var front := DecodeAll(decode, raws[..|raws| - 1], skipEmpty);
      var last := raws[|raws| - 1];
      if front.None? then None
      else if Skipped(last, skipEmpty) then front
      else if decode(last).None? then None
      else Some(front.value + [decode(last).value])
  }

  function Parsed<T>(decode: string -> Option<T>, body: string, skipEmpty: bool): Option<seq<T>> {
    DecodeAll(decode, Raws([], Lines(body)), skipEmpty)
  }

  lemma {:induction false} FailureStays<T>(decode: string -> Option<T>, front: seq<string>, rest: seq<string>,
                                           skipEmpty: bool)
    requires DecodeAll(decode, front, skipEmpty).None?
    ensures DecodeAll(decode, front + rest, skipEmpty).None?
  {
    if rest == [] {
      assert front + rest == front;
    } else {
      var n := |rest| - 1;
      assert (front + rest)[..|front + rest| - 1] == front + rest[..n];
      FailureStays(decode, front, rest[..n], skipEmpty);
    }
  }

  /** One flush appended to what was flushed before. */
  lemma DecodeLast<T>(decode: string -> Option<T>, front: seq<string>, raw: string, skipEmpty: bool)
    ensures DecodeAll(decode, front + [raw], skipEmpty) ==
            var before := DecodeAll(decode, front, skipEmpty);
            if before.None? then None
            else if Skipped(raw, skipEmpty) then before
            else if decode(raw).None? then None
            else Some(before.value + [decode(raw).value])
  {
    assert (front + [raw])[..|front|] == front;
  }

  lemma BeforeReading<T>(decode: string -> Option<T>, lines: seq<string>, skipEmpty: bool)
    ensures DecodeAll(decode, [], skipEmpty) == Some([])
    ensures Raws([], lines) == [] + Raws([], lines[0..])
  {
    assert lines[0..] == lines;
  }

  lemma RawsAt(pending: seq<string>, lines: seq<string>, i: nat)
    requires i < |lines|
    ensures Raws(pending, lines[i..]) ==
            if lines[i] == "" then Emit(pending) + Raws([], lines[i + 1..])
            else if IsData(lines[i]) then Raws(pending + [DataOf(lines[i])], lines[i + 1..])
            else Raws(pending, lines[i + 1..])
  {
    hide IsData, DataOf, Join;
    assert lines[i..][0] == lines[i] && lines[i..][1..] == lines[i + 1..];
  }

  lemma RawsEnd(pending: seq<string>, lines: seq<string>)
    ensures Raws(pending, lines[|lines|..]) == Emit(pending)
  {
    assert lines[|lines|..] == [];
  }

  /** The `flush` closure: the pending data lines, if any, are decoded as one text and added. */
  method Flush<T>(decode: string -> Option<T>, pending: seq<string>, out: seq<T>, skipEmpty: bool,
                  ghost done: seq<string>)
    returns (events: Option<seq<T>>)
    requires DecodeAll(decode, done, skipEmpty) == Some(out)
    ensures events == DecodeAll(decode, done + Emit(pending), skipEmpty)
  {
    hide DecodeAll, Skipped, Join;
    assert done + [] == done;
    if |pending| == 0 {
      return Some(out);
    }
    var raw := Join(pending, "\n");
    DecodeLast(decode, done, raw, skipEmpty);
    if Skipped(raw, skipEmpty) {
      return Some(out);
    }
    var value := decode(raw);
    return if value.None? then None else Some(out + [value.value]);
  }

  /**
    * The scanning loop. `done` is what has been flushed; the loop stops at the first text that does not
    * decode, and a last event needs no closing blank line.
    */
  method ParseSse<T>(decode: string -> Option<T>, body: string, skipEmpty: bool) returns (events: Option<seq<T>>)
    ensures events == Parsed(decode, body, skipEmpty)
  {
    hide Lines, IsData, DataOf, Emit, Raws, DecodeAll;
    var lines := Lines(body);
    var out: seq<T> := [];
    var dataLines: seq<string> := [];
    ghost var done: seq<string> := [];
    BeforeReading(decode, lines, skipEmpty);
    for i := 0 to |lines|
      invariant Raws([], lines) == done + Raws(dataLines, lines[i..])
      invariant DecodeAll(decode, done, skipEmpty) == Some(out)
    {
      var line := lines[i];
      RawsAt(dataLines, lines, i);
      if line == "" {
        var flushed := Flush(decode, dataLines, out, skipEmpty, done);
        ghost var rest := Raws([], lines[i + 1..]);
        assert Raws([], lines) == done + Emit(dataLines) + rest;
        done := done + Emit(dataLines);
        dataLines := [];
        if flushed.None? {
          FailureStays(decode, done, rest, skipEmpty);
          return None;
        }
        out := flushed.value;
        continue;
      }
      if IsData(line) {
        dataLines := dataLines + [DataOf(line)];
      }
    }
    RawsEnd(dataLines, lines);
    events := Flush(decode, dataLines, out, skipEmpty, done);
  }

  // ---------- printing ----------

  /** A line of a printed event: a piece of the payload with blanks around it, or something else. */
  datatype Entry = Data(left: string, text: string, right: string) | Noise(line: string)

  /** Lines up to and including the blank ones that follow; a frame without data is a comment. */
  datatype Frame = Frame(entries: seq<Entry>, blanks: seq<string>)

  predicate ValidEntry(e: Entry) {
    match e
    case Data(left, text, right) =>
      Trimmed(text) && Blank(left) && Blank(right) && '\n' !in left && '\n' !in text && '\n' !in right
    case Noise(line) => '\n' !in line && DropCr(line) != "" && !IsData(DropCr(line))
  }

  predicate ValidFrame(f: Frame, last: bool) {
    && (forall i :: 0 <= i < |f.entries| ==> ValidEntry(f.entries[i]))
    && (forall i :: 0 <= i < |f.blanks| ==> f.blanks[i] == "" || f.blanks[i] == "\r")
    && (f.blanks == [] ==> last)
  }

  /** Only the last frame may lack its blank line. */
  predicate ValidStream(frames: seq<Frame>) {
    forall i :: 0 <= i < |frames| ==> ValidFrame(frames[i], i == |frames| - 1)
  }

  function EntryLine(e: Entry): string {
    match e
    case Data(left, text, right) => "data:" + (left + text + right)
    case Noise(line) => line
  }

  function EntryLines(entries: seq<Entry>): seq<string> {
    if entries == [] then [] else [EntryLine(entries[0])] + EntryLines(entries[1..])
  }

  function StreamLines(frames: seq<Frame>): seq<string> {
    if frames == [] then [] else EntryLines(frames[0].entries) + frames[0].blanks + StreamLines(frames[1..])
  }

  /** The lines as one text; without `closed` the last line is left without its newline. */
  function Print(frames: seq<Frame>, closed: bool): string {
    Join(StreamLines(frames), "\n") + (if closed && StreamLines(frames) != [] then "\n" else "")
  }

  function Payload(entries: seq<Entry>): seq<string> {
    if entries == [] then []
    else (if entries[0].Data? then [entries[0].text] else []) + Payload(entries[1..])
  }

  /** The payloads of the frames that hold data. */
  function Payloads(frames: seq<Frame>): seq<string> {
    if frames == [] then []
    else (if Payload(frames[0].entries) == [] then [] else [Join(Payload(frames[0].entries), "\n")])
         + Payloads(frames[1..])
  }

  // ---------- print then parse ----------

  /** A carriage return dropped from a padded text comes out of the padding. */
  lemma DropCrPadding(left: string, text: string, right: string) returns (l: string, r: string)
    requires Trimmed(text) && Blank(left) && Blank(right)
    ensures DropCr(left + text + right) == l + text + r && Blank(l) && Blank(r)
  {
    var rest := left + text + right;
    l, r := left, right;
    if rest == "" || rest[|rest| - 1] != '\r' {
    } else if right != "" {
      r := right[..|right| - 1];
      assert rest[..|rest| - 1] == l + text + r;
    } else if text == "" {
      assert rest == left;
      l := left[..|left| - 1];
      assert rest[..|rest| - 1] == l + text + r;
    }
  }

  lemma DropCrBehind(head: string, rest: string)
    requires head != "" && head[|head| - 1] != '\r'
    ensures DropCr(head + rest) == head + DropCr(rest)
  {
    assert rest == "" ==> head + rest == head;
    assert rest != "" ==> (head + rest)[..|head + rest| - 1] == head + rest[..|rest| - 1];
  }

  lemma DataLineReads(e: Entry)
    requires e.Data? && ValidEntry(e)
    ensures IsData(DropCr(EntryLine(e))) && DataOf(DropCr(EntryLine(e))) == e.text
    ensures DropCr(EntryLine(e)) != ""
  {
    hide Trim, Trimmed, Blank, DropCr;
    var l, r := DropCrPadding(e.left, e.text, e.right);
    DropCrBehind(DATA, e.left + e.text + e.right);
    TrimCore(l, e.text, r);
    var line := DATA + (l + e.text + r);
    assert line[..5] == DATA && line[5..] == l + e.text + r;
  }

  lemma {:induction false} EntriesRead(pending: seq<string>, entries: seq<Entry>, rest: seq<string>)
    requires forall i :: 0 <= i < |entries| ==> ValidEntry(entries[i])
    ensures Raws(pending, MapDropCr(EntryLines(entries)) + rest) == Raws(pending + Payload(entries), rest)
    decreases |entries|
  {
    var lines := MapDropCr(EntryLines(entries)) + rest;
    if entries == [] {
      assert lines == rest && pending + [] == pending;
    } else {
      var e := entries[0];
      assert lines[0] == DropCr(EntryLine(e));
      assert MapDropCr(EntryLines(entries))[1..] == MapDropCr(EntryLines(entries[1..])) by {
        assert EntryLines(entries)[1..] == EntryLines(entries[1..]);
      }
      assert lines[1..] == MapDropCr(EntryLines(entries[1..])) + rest;
      if e.Data? {
        DataLineReads(e);
        hide IsData, DataOf, DropCr, EntryLine;
        EntriesRead(pending + [e.text], entries[1..], rest);
        assert pending + [e.text] + Payload(entries[1..]) == pending + Payload(entries);
      } else {
        EntriesRead(pending, entries[1..], rest);
        assert Payload(entries) == Payload(entries[1..]);
      }
    }
  }

  lemma {:induction false} BlanksRead(pending: seq<string>, blanks: seq<string>, rest: seq<string>)
    requires forall i :: 0 <= i < |blanks| ==> blanks[i] == "" || blanks[i] == "\r"
    ensures Raws(pending, MapDropCr(blanks) + rest) ==
            if blanks == [] then Raws(pending, rest) else Emit(pending) + Raws([], rest)
    decreases |blanks|
  {
    var lines := MapDropCr(blanks) + rest;
    if blanks == [] {
      assert lines == rest;
    } else {
      assert lines[0] == "" && lines[1..] == MapDropCr(blanks[1..]) + rest;
      BlanksRead([], blanks[1..], rest);
      assert Emit([]) == [];
      assert [] + Raws([], rest) == Raws([], rest);
    }
  }

  lemma {:induction false} MapDropCrAppend(a: seq<string>, b: seq<string>)
    ensures MapDropCr(a + b) == MapDropCr(a) + MapDropCr(b)
  {
  }

  lemma {:induction false} FramesRead(frames: seq<Frame>)
    requires ValidStream(frames)
    ensures Raws([], MapDropCr(StreamLines(frames))) == Payloads(frames)
    decreases |frames|
  {
    hide MapDropCr, Raws, EntryLines, ValidEntry, Payload;
    if frames == [] {
      NothingRead();
    } else {
      var f := frames[0];
      assert ValidFrame(f, 0 == |frames| - 1);
      var rest := MapDropCr(StreamLines(frames[1..]));
      FrameRead(f, rest);
      MapDropCrAppend(EntryLines(f.entries) + f.blanks, StreamLines(frames[1..]));
      TailValid(frames);
      FramesRead(frames[1..]);
      if f.blanks == [] {
        NothingRead();
      }
    }
  }

  lemma NothingRead()
    ensures MapDropCr([]) == [] && Raws([], []) == []
    ensures forall pending :: Raws(pending, []) == Emit(pending)
  {
  }

  lemma TailValid(frames: seq<Frame>)
    requires ValidStream(frames) && frames != []
    ensures ValidStream(frames[1..])
  {
    hide ValidFrame;
    assert forall i :: 0 <= i < |frames[1..]| ==> frames[1..][i] == frames[i + 1];
  }

  lemma FrameRead(f: Frame, rest: seq<string>)
    requires exists last :: ValidFrame(f, last)
    ensures Raws([], MapDropCr(EntryLines(f.entries) + f.blanks) + rest) ==
            if f.blanks == [] then Raws(Payload(f.entries), rest) else Emit(Payload(f.entries)) + Raws([], rest)
  {
    hide MapDropCr, Raws, EntryLines, ValidEntry, Payload;
    var lines, blanks := MapDropCr(EntryLines(f.entries)), MapDropCr(f.blanks);
    MapDropCrAppend(EntryLines(f.entries), f.blanks);
    assert MapDropCr(EntryLines(f.entries) + f.blanks) + rest == lines + (blanks + rest);
    EntriesRead([], f.entries, blanks + rest);
    assert [] + Payload(f.entries) == Payload(f.entries);
    BlanksRead(Payload(f.entries), f.blanks, rest);
  }

  lemma {:induction false} EntryLinesPlain(entries: seq<Entry>)
    requires forall i :: 0 <= i < |entries| ==> ValidEntry(entries[i])
    ensures forall i :: 0 <= i < |EntryLines(entries)| ==> '\n' !in EntryLines(entries)[i]
  {
    if entries != [] {
      EntryLinesPlain(entries[1..]);
      assert ValidEntry(entries[0]);
      assert '\n' !in DATA;
    }
  }

  lemma {:induction false} StreamLinesPlain(frames: seq<Frame>)
    requires ValidStream(frames)
    ensures forall i :: 0 <= i < |StreamLines(frames)| ==> '\n' !in StreamLines(frames)[i]
  {
    if frames != [] {
      assert ValidFrame(frames[0], 0 == |frames| - 1);
      EntryLinesPlain(frames[0].entries);
      TailValid(frames);
      StreamLinesPlain(frames[1..]);
    }
  }

  lemma LinesOfClosed(lines: seq<string>)
    requires lines != [] && forall i :: 0 <= i < |lines| ==> '\n' !in lines[i]
    ensures Lines(Join(lines, "\n") + "\n") == MapDropCr(lines)
  {
    SplitJoin(lines, '\n');
    SplitWhole("", '\n');
    SplitAppend(Join(lines, "\n"), "", '\n');
    hide Join, Split, MapDropCr;
    assert Join(lines, "\n") + ['\n'] + "" == Join(lines, "\n") + "\n";
    assert (lines + [""])[..|lines|] == lines;
  }

  lemma LinesOfOpen(lines: seq<string>)
    requires lines != [] && lines[|lines| - 1] != "" && forall i :: 0 <= i < |lines| ==> '\n' !in lines[i]
    ensures Lines(Join(lines, "\n")) == MapDropCr(lines)
  {
    SplitJoin(lines, '\n');
    hide Join, Split, MapDropCr;
  }

  lemma LinesOfPrint(lines: seq<string>, closed: bool)
    requires forall i :: 0 <= i < |lines| ==> '\n' !in lines[i]
    requires closed || lines == [] || lines[|lines| - 1] != ""
    ensures Lines(Join(lines, "\n") + (if closed && lines != [] then "\n" else "")) == MapDropCr(lines)
  {
    LinesOfNothing();
    hide Lines, MapDropCr, Join;
    if lines == [] {
    } else if closed {
      LinesOfClosed(lines);
    } else {
      LinesOfOpen(lines);
      assert Join(lines, "\n") + "" == Join(lines, "\n");
    }
  }

  lemma LinesOfNothing()
    ensures Lines(Join([], "\n") + "") == [] && MapDropCr([]) == []
  {
    assert Split("", '\n') == [""] && "" + "" == "";
  }

  /**
    * Printed streams read back: whatever blanks surround the data, whatever other lines and extra blank
    * lines stand between, with or without carriage returns, and although the last event may lack its
    * closing blank line and even its newline, each frame's payload arrives, once and in order.
    */
  lemma {:induction false} PrintedStreamReadsBack<T>(decode: string -> Option<T>, frames: seq<Frame>, closed: bool,
                                                     skipEmpty: bool)
    requires ValidStream(frames)
    requires closed || StreamLines(frames) == [] || StreamLines(frames)[|StreamLines(frames)| - 1] != ""
    ensures Parsed(decode, Print(frames, closed), skipEmpty) == DecodeAll(decode, Payloads(frames), skipEmpty)
  {
    hide Lines, Raws, MapDropCr, Join, DecodeAll, ValidStream;
    StreamLinesPlain(frames);
    LinesOfPrint(StreamLines(frames), closed);
    FramesRead(frames);
  }

  /** A closing blank line is never needed, unlike in section 9.2.6 of the WHATWG HTML standard. */
  lemma {:induction false} ClosingBlankIsOptional(pending: seq<string>, lines: seq<string>)
    ensures Raws(pending, lines + [""]) == Raws(pending, lines)
    decreases |lines|
  {
    if lines == [] {
      assert [] + [""] == [""] && [""][1..] == [];
      assert Raws([], []) == [];
    } else {
      assert (lines + [""])[0] == lines[0] && (lines + [""])[1..] == lines[1..] + [""];
      hide IsData, DataOf;
      if lines[0] == "" {
        ClosingBlankIsOptional([], lines[1..]);
      } else if IsData(lines[0]) {
        ClosingBlankIsOptional(pending + [DataOf(lines[0])], lines[1..]);
      } else {
        ClosingBlankIsOptional(pending, lines[1..]);
      }
    }
  }

  // ---------- what a flushed text gives ----------

  /**
    * Text by text: the end marker is passed over by both readers and the empty text by the Claude reader only; every
    * other text is one more event, or fails the stream if it does not decode.
    */
  lemma TextGives<T>(decode: string -> Option<T>, front: seq<string>, raw: string, skipEmpty: bool)
    requires DecodeAll(decode, front, skipEmpty).Some?
    ensures
      var before, after := DecodeAll(decode, front, skipEmpty), DecodeAll(decode, front + [raw], skipEmpty);
      && (raw == "[DONE]" ==> after == before)
      && (raw == "" && skipEmpty ==> after == before)
      && (raw != "[DONE]" && (raw != "" || !skipEmpty) && decode(raw).None? ==> after.None?)
      && (raw != "[DONE]" && (raw != "" || !skipEmpty) && decode(raw).Some? ==>
            after == Some(before.value + [decode(raw).value]))
  {
    hide DecodeAll;
    DecodeLast(decode, front, raw, skipEmpty);
  }

  /** With nothing to pass over and nothing that fails, a stream gives its decoded texts in order. */
  lemma {:induction false} PlainTexts<T>(decode: string -> Option<T>, raws: seq<string>, values: seq<T>,
                                         skipEmpty: bool)
    requires |raws| == |values|
    requires forall i :: 0 <= i < |raws| ==>
               raws[i] != "" && raws[i] != "[DONE]" && decode(raws[i]) == Some(values[i])
    ensures DecodeAll(decode, raws, skipEmpty) == Some(values)
    ensures DecodeAll(decode, raws + ["[DONE]"], skipEmpty) == Some(values)
  {
    if raws != [] {
      var n := |raws| - 1;
      PlainTexts(decode, raws[..n], values[..n], skipEmpty);
      assert values[..n] + [values[n]] == values;
    }
    DecodeLast(decode, raws, "[DONE]", skipEmpty);
  }

  // ---------- the two readers ----------

  lemma {:induction false} ReadersOnRaws<T>(decode: string -> Option<T>, raws: seq<string>)
    requires decode("").None?
    ensures DecodeAll(decode, raws, false) == if "" in raws then None else DecodeAll(decode, raws, true)
  {
    if raws != [] {
      var front := raws[..|raws| - 1];
      assert raws == front + [raws[|raws| - 1]];
      ReadersOnRaws(decode, front);
    }
  }

  /**
    * The Codex reader does not pass over an event with empty data, so it fails on exactly the bodies that
    * hold one and are otherwise fine; on all others the two readers agree.
    */
  lemma {:induction false} ReadersAgree<T>(decode: string -> Option<T>, body: string)
    requires decode("").None?
    ensures Parsed(decode, body, false) == Parsed(decode, body, true) <==>
            "" !in Raws([], Lines(body)) || Parsed(decode, body, true).None?
  {
    ReadersOnRaws(decode, Raws([], Lines(body)));
  }

  /** One event with empty data: the Codex reader fails on it, the Claude reader passes over it. */
  lemma EmptyDataExample<T>(decode: string -> Option<T>)
    requires decode("").None?
    ensures Parsed(decode, "data:\n\n", false) == None && Parsed(decode, "data:\n\n", true) == Some([])
  {
    EmptyDataLines();
    assert Raws([], ["data:", ""]) == [""] by { EmptyDataRaws(); }
    DecodeLast(decode, [], "", false);
    DecodeLast(decode, [], "", true);
    assert [] + [""] == [""];
    hide Lines, Raws;
  }

  lemma EmptyDataLines()
    ensures Lines("data:\n\n") == ["data:", ""]
  {
    assert "data:\n\n" == "data:" + ['\n'] + ("" + ['\n'] + "");
    SplitAppend("data:", "" + ['\n'] + "", '\n');
    SplitAppend("", "", '\n');
    SplitWhole("data:", '\n');
    SplitWhole("", '\n');
    var parts := Split("data:\n\n", '\n');
    assert parts == ["data:", "", ""] && parts[..2] == ["data:", ""];
    assert ["data:", ""][1..] == [""] && [""][1..] == [];
  }

  lemma EmptyDataRaws()
    ensures Raws([], ["data:", ""]) == [""]
  {
    assert "data:"[..5] == DATA && "data:"[5..] == "";
    TrimFixed("");
    var lines := ["data:", ""];
    assert lines[1..] == [""] && [""][1..] == [];
    assert Raws([""], [""]) == Emit([""]) + Raws([], []) && Raws([], []) == [];
    assert [] + [DataOf("data:")] == [""];
    assert Emit([""]) + [] == [""];
  }
}
