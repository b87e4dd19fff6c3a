/** Turning assistant text into speech: cleaning, summarising and cutting into chunks. */
module Speech {
  import opened Strings

  const CONCISE_LIMIT := 220
  const NORMAL_LIMIT := 650

  // ---------- cleaning ----------

  /** What the `\s` class of Go's regular expressions takes; unlike TrimSpace it leaves out the vertical tab. */
  predicate Collapsible(c: char) {
    c == ' ' || c == '\t' || c == '\n' || c == '\U{000C}' || c == '\r'
  }

  predicate Marker(c: char) {
    c == '|' || c == '*' || c == '_' || c == '#' || c == '>'
  }

  function BlankMarkers(s: string): (r: string)
    ensures |r| == |s| && forall i :: 0 <= i < |s| ==> r[i] == if Marker(s[i]) then ' ' else s[i]
  {
    if s == "" then "" else [if Marker(s[0]) then ' ' else s[0]] + BlankMarkers(s[1..])
  }

  /** Each run of collapsible characters becomes one space. */
  function Collapse(s: string): string {
    if s == "" then ""
    else if !Collapsible(s[0]) then [s[0]] + Collapse(s[1..])
    else if |s| > 1 && Collapsible(s[1]) then Collapse(s[1..])
    else " " + Collapse(s[1..])
  }

  /** The stages of `Clean` that follow its pattern rewrites. */
  function Tidy(s: string): string {
    Trim(Collapse(BlankMarkers(s)))
  }

  /** `Clean`, with the rewrites of code fences, inline code, headings and bullets given as `rewrite`. */
  function Clean(rewrite: string -> string, s: string): string {
    Tidy(rewrite(s))
  }

  /** What cleaning leaves: single spaces only, no markers, no blank ends. */
  predicate IsTidy(s: string) {
    Trimmed(s) && Single(s)
  }

  predicate Single(s: string) {
    && (forall i :: 0 <= i < |s| ==> !Marker(s[i]) && (Collapsible(s[i]) ==> s[i] == ' '))
    && (forall i :: 0 <= i < |s| - 1 ==> !(s[i] == ' ' && s[i + 1] == ' '))
  }

  lemma {:induction false} CollapseIsSingle(s: string)
    requires forall i :: 0 <= i < |s| ==> !Marker(s[i])
    ensures Single(Collapse(s))
    ensures s != "" ==> Collapse(s) != "" && (Collapse(s)[0] == ' ' <==> Collapsible(s[0]))
  {
    if s != "" {
      CollapseIsSingle(s[1..]);
    }
  }

  lemma CleanIsTidy(rewrite: string -> string, s: string)
    ensures IsTidy(Clean(rewrite, s))
  {
    var c := Collapse(BlankMarkers(rewrite(s)));
    CollapseIsSingle(BlankMarkers(rewrite(s)));
    var left, right := TrimSplits(c);
    var t := Trim(c);
    assert forall i :: 0 <= i < |t| ==> t[i] == c[|left| + i];
  }

  lemma {:induction false} CollapseKeeps(s: string)
    requires Single(s)
    ensures Collapse(s) == s
  {
    if s != "" {
      assert Single(s[1..]) by {
        assert forall i :: 0 <= i < |s| - 1 ==> s[1..][i] == s[i + 1];
      }
      CollapseKeeps(s[1..]);
      assert s == [s[0]] + s[1..];
    }
  }

  /** The final stages settle in one pass: tidy text is a fixed point of them, and only tidy text is. */
  lemma TidyFixedPoint(s: string)
    ensures Tidy(s) == s <==> IsTidy(s)
  {
    if IsTidy(s) {
      assert BlankMarkers(s) == s;
      CollapseKeeps(s);
      TrimFixed(s);
    } else {
      CleanIsTidy((x: string) => x, s);
      assert Clean((x: string) => x, s) == Tidy(s);
    }
  }

  /** The characters of a text that are neither blank nor markers. */
  function Ink(s: string): string {
    if s == "" then "" else (if IsSpace(s[0]) || Marker(s[0]) then "" else [s[0]]) + Ink(s[1..])
  }

  lemma {:induction false} InkAppend(a: string, b: string)
    ensures Ink(a + b) == Ink(a) + Ink(b)
  {
    hide IsSpace, Marker;
    if a == "" {
      assert a + b == b;
    } else {
      assert (a + b)[1..] == a[1..] + b;
      InkAppend(a[1..], b);
    }
  }

  lemma {:induction false} InkBlank(s: string)
    requires Blank(s)
    ensures Ink(s) == ""
  {
    if s != "" {
      InkBlank(s[1..]);
    }
  }

  lemma {:induction false} InkMarkers(s: string)
    ensures Ink(BlankMarkers(s)) == Ink(s)
  {
    if s != "" {
      InkMarkers(s[1..]);
      assert BlankMarkers(s)[1..] == BlankMarkers(s[1..]);
    }
  }

  lemma {:induction false} InkCollapse(s: string)
    ensures Ink(Collapse(s)) == Ink(s)
  {
    if s != "" {
      InkCollapse(s[1..]);
      var head := if Collapsible(s[0]) then " " else [s[0]];
      assert (head + Collapse(s[1..]))[1..] == Collapse(s[1..]);
    }
  }

  /** The final stages of cleaning lose blanks and markers only: all other characters stay, in order. */
  lemma {:induction false} TidyKeepsInk(s: string)
    ensures Ink(Tidy(s)) == Ink(s)
  {
    hide Trim, Ink, Blank, Collapse, BlankMarkers;
    var c := Collapse(BlankMarkers(s));
    var left, right := TrimSplits(c);
    InkMarkers(s);
    InkCollapse(BlankMarkers(s));
    InkAppend(left + Trim(c), right);
    InkAppend(left, Trim(c));
    InkBlank(left);
    InkBlank(right);
    assert "" + Ink(Trim(c)) + "" == Ink(Trim(c));
  }

  // ---------- cleaning, by words ----------

  /** What stands between the words of a text: white space as Go's `\s` has it, and the five markers. */
  predicate Between(c: char) {
    c in {' ', '\t', '\n', '\r', '\U{000C}', '|', '*', '_', '#', '>'}
  }

  /** The maximal runs of other characters. */
  function Words(s: string): (words: seq<string>)
    ensures s != "" && !Between(s[0]) ==> words != []
    ensures forall i :: 0 <= i < |words| ==> words[i] != "" && forall c :: c in words[i] ==> !Between(c)
  {
    if s == "" then []
    else if Between(s[0]) then Words(s[1..])
    else if |s| == 1 || Between(s[1]) then [[s[0]]] + Words(s[1..])
    else
      var rest := Words(s[1..]);
      [[s[0]] + rest[0]] + rest[1..]
  }

  /** How the words stand in the collapsed text. */
  function Padded(s: string): string
    requires s != ""
  {
    if Words(s) == [] then " "
    else (if Between(s[0]) then " " else "") + Join(Words(s), " ") + (if Between(s[|s| - 1]) then " " else "")
  }

  lemma {:induction false} CollapseWords(s: string)
    requires s != ""
    ensures Collapse(BlankMarkers(s)) == Padded(s)
  {
    hide Collapse, BlankMarkers, Padded;
    if |s| == 1 {
      OneWord(s);
    } else {
      CollapseWords(s[1..]);
      CollapseStep(s);
      PaddedStep(s);
    }
  }

  lemma OneWord(s: string)
    requires |s| == 1
    ensures Collapse(BlankMarkers(s)) == Padded(s)
  {
    hide Collapsible, Marker, Between;
    BetweenOrKept(s[0]);
    assert s[1..] == "" && BlankMarkers("") == "" && Collapse("") == "" && Words("") == [];
    assert [s[0]] == s && BlankMarkers(s)[1..] == "";
  }

  lemma CollapseStep(s: string)
    requires |s| > 1
    ensures var rest := Collapse(BlankMarkers(s[1..]));
            Collapse(BlankMarkers(s)) ==
            if !Between(s[0]) then [s[0]] + rest else if Between(s[1]) then rest else " " + rest
  {
    hide Collapsible, Marker, Between;
    BetweenOrKept(s[0]);
    BetweenOrKept(s[1]);
    assert BlankMarkers(s)[1..] == BlankMarkers(s[1..]);
  }

  lemma PaddedStep(s: string)
    requires |s| > 1
    ensures var rest := Padded(s[1..]);
            Padded(s) == if !Between(s[0]) then [s[0]] + rest else if Between(s[1]) then rest else " " + rest
  {
    hide Between, Words, Join;
    WordsStep(s);
    var t, last := s[1..], Between(s[|s| - 1]);
    assert t[0] == s[1] && t[|t| - 1] == s[|s| - 1];
    if !Between(s[0]) {
      JoinStep(s);
      if Words(t) == [] {
        assert Padded(s) == "" + [s[0]] + " " == [s[0]] + " ";
      } else {
        PadLeft([s[0]], Between(s[1]), Join(Words(t), " "), last);
      }
    } else if Words(t) != [] && !Between(s[1]) {
      PadLeft(" ", false, Join(Words(t), " "), last);
    }
  }

  lemma PadLeft(head: string, lead: bool, middle: string, last: bool)
    ensures var l, r := if lead then " " else "", if last then " " else "";
            "" + (head + l + middle) + r == head + (l + middle + r) && head + middle + r == head + ("" + middle + r)
  {
    var l, r := if lead then " " else "", if last then " " else "";
    assert "" + (head + l + middle) + r == head + (l + middle + r);
  }

  lemma WordsStep(s: string)
    requires |s| > 1
    ensures var rest := Words(s[1..]);
            && (Between(s[0]) ==> Words(s) == rest)
            && (!Between(s[0]) && Between(s[1]) ==> Words(s) == [[s[0]]] + rest)
            && (!Between(s[0]) && !Between(s[1]) ==> rest != [] && Words(s) == [[s[0]] + rest[0]] + rest[1..])
            && (rest == [] ==> AllBetween(s[1..]))
  {
    hide Between;
    if Words(s[1..]) == [] {
      NoWords(s[1..]);
    }
  }

  lemma JoinStep(s: string)
    requires |s| > 1 && !Between(s[0])
    ensures Words(s) != []
    ensures var rest := Words(s[1..]);
            Join(Words(s), " ") ==
            if rest == [] then [s[0]] else [s[0]] + (if Between(s[1]) then " " else "") + Join(rest, " ")
  {
    hide Between, Words, Join;
    WordsStep(s);
    var rest := Words(s[1..]);
    if Between(s[1]) {
      JoinFront([s[0]], rest);
    } else {
      JoinInto(s[0], rest);
    }
  }

  lemma JoinFront(word: string, rest: seq<string>)
    ensures Join([word] + rest, " ") == if rest == [] then word else word + " " + Join(rest, " ")
  {
    assert ([word] + rest)[1..] == rest;
  }

  lemma JoinInto(c: char, rest: seq<string>)
    requires rest != []
    ensures Join([[c] + rest[0]] + rest[1..], " ") == [c] + "" + Join(rest, " ")
  {
    hide Join;
    JoinFront([c] + rest[0], rest[1..]);
    JoinFront(rest[0], rest[1..]);
    assert [rest[0]] + rest[1..] == rest;
    if |rest| > 1 {
      assert [c] + rest[0] + " " + Join(rest[1..], " ") == [c] + "" + (rest[0] + " " + Join(rest[1..], " "));
    }
  }

  predicate AllBetween(s: string) {
    forall i :: 0 <= i < |s| ==> Between(s[i])
  }

  lemma {:induction false} NoWords(s: string)
    requires Words(s) == []
    ensures AllBetween(s)
  {
    hide Between;
    if s != "" {
      NoWords(s[1..]);
      assert s == [s[0]] + s[1..];
    }
  }

  lemma BetweenOrKept(c: char)
    ensures Between(c) <==> Collapsible(if Marker(c) then ' ' else c)
    ensures !Between(c) ==> !Marker(c)
  {
  }

  /** The final stages in one line: the words of the text with one space between any two, trimmed. */
  lemma {:induction false} TidyIsWords(s: string)
    ensures Tidy(s) == Trim(Join(Words(s), " "))
  {
    if s != "" {
      CollapseWords(s);
      var middle := Join(Words(s), " ");
      var left, right := if Between(s[0]) then " " else "", if Between(s[|s| - 1]) then " " else "";
      hide Collapse, BlankMarkers, Words, Join, Between, TrimLeft, TrimRight;
      if Words(s) == [] {
        BlankTrims(" ");
        BlankTrims("");
        assert middle == "" by { JoinNothing(); }
      } else {
        TrimPadded(left, middle, right);
      }
    }
  }

  lemma BlankTrims(s: string)
    requires s == "" || s == " "
    ensures Trim(s) == ""
  {
    TrimCore(s, "", "");
    hide Trim;
    assert s + "" + "" == s;
  }

  lemma {:induction false} TrimPadded(left: string, middle: string, right: string)
    requires Blank(left) && Blank(right)
    ensures Trim(left + middle + right) == Trim(middle)
  {
    hide Trim;
    var a, b := TrimSplits(middle);
    TrimCore(left + a, Trim(middle), b + right);
    assert left + a + Trim(middle) + (b + right) == left + middle + right;
  }

  // ---------- chunks ----------

  /** The last place of a character of the class, or -1. */
  function LastIndex(s: string, chars: set<char>): (k: int)
    ensures -1 <= k < |s|
    ensures k >= 0 ==> s[k] in chars
    ensures forall i :: k < i < |s| ==> s[i] !in chars
  {
    if s == "" then -1
    else if s[|s| - 1] in chars then |s| - 1
    else LastIndex(s[..|s| - 1], chars)
  }

  const STOPS := {'.', '!', '?', ';'}

  function CutAt(value: string, limit: nat): (cut: nat)
    requires 1 <= limit < |value|
    ensures 1 <= cut <= limit
  {
    var stop := LastIndex(value[..limit], STOPS);
    var cut := if stop < limit / 2 then LastIndex(value[..limit], {' '}) else stop;
    if cut <= 0 then limit else cut
  }

  /** A stop past the middle of the window. */
  predicate StopAt(value: string, limit: nat, i: nat) {
    && 1 <= i < limit && i < |value| && limit / 2 <= i
    && (value[i] == '.' || value[i] == '!' || value[i] == '?' || value[i] == ';')
  }

  predicate SpaceAt(value: string, limit: nat, i: nat) {
    1 <= i < limit && i < |value| && value[i] == ' '
  }

  /**
    * Where a cut falls: before the last full stop, exclamation mark, question mark or semicolon of the window that is
    * past its middle; or else before the last space after the start; or else at the limit, in the middle of a word.
    */
  lemma CutFalls(value: string, limit: nat)
    requires 1 <= limit < |value|
    ensures
      var cut := CutAt(value, limit);
      || (StopAt(value, limit, cut) && forall i: nat :: StopAt(value, limit, i) ==> i <= cut)
      || ((forall i: nat :: !StopAt(value, limit, i))
          && SpaceAt(value, limit, cut) && forall i: nat :: SpaceAt(value, limit, i) ==> i <= cut)
      || (cut == limit && forall i: nat :: !StopAt(value, limit, i) && !SpaceAt(value, limit, i))
  {
    var window := value[..limit];
    assert forall i :: 0 <= i < limit ==> window[i] == value[i];
    var stop, space := LastIndex(window, STOPS), LastIndex(window, {' '});
    assert forall i: nat :: StopAt(value, limit, i) ==> window[i] in STOPS && i <= stop;
    assert forall i: nat :: SpaceAt(value, limit, i) ==> window[i] in {' '} && i <= space;
    if stop >= 1 && limit / 2 <= stop {
      assert StopAt(value, limit, stop);
    } else if space >= 1 {
      assert SpaceAt(value, limit, space);
    }
  }

  /** What the cutting loop produces from a text. */
  function Pieces(value: string, limit: nat): seq<string>
    requires limit >= 1
    decreases |value|
  {
    if value == "" then []
    else if |value| <= limit then [Trim(value)]
    else
      var cut := CutAt(value, limit);
      [Trim(value[..cut])] + Pieces(Trim(value[cut..]), limit)
  }

  /** The chunks of a cleaned text. */
  function Chunks(clean: string, limit: int): seq<string> {
    if clean == "" then []
    else if limit <= 0 || |clean| <= limit then [clean]
    else Pieces(clean, limit)
  }

  method Chunk(rewrite: string -> string, text: string, limit: int) returns (parts: seq<string>)
    ensures parts == Chunks(Clean(rewrite, text), limit)
  {
    var value := Clean(rewrite, text);
    if value == "" {
      return [];
    }
    if limit <= 0 || |value| <= limit {
      return [value];
    }
    parts := [];
    ghost var clean := value;
    while |value| > 0
      invariant parts + Pieces(value, limit) == Pieces(clean, limit)
      decreases |value|
    {
      if |value| <= limit {
        assert Pieces(value, limit) == [Trim(value)];
        parts := parts + [Trim(value)];
        break;
      }
      var cut := LastIndex(value[..limit], STOPS);
      if cut < limit / 2 {
        cut := LastIndex(value[..limit], {' '});
      }
      if cut <= 0 {
        cut := limit;
      }
      assert cut == CutAt(value, limit);
      PieceThenRest(parts, value, limit);
      parts := parts + [Trim(value[..cut])];
      value := Trim(value[cut..]);
    }
  }

  lemma PieceThenRest(parts: seq<string>, value: string, limit: nat)
    requires 1 <= limit < |value|
    ensures var cut := CutAt(value, limit);
            parts + Pieces(value, limit) == parts + [Trim(value[..cut])] + Pieces(Trim(value[cut..]), limit)
  {
  }

  lemma FirstPieceFits(value: string, cut: nat)
    requires Trimmed(value) && 1 <= cut < |value|
    ensures 1 <= |Trim(value[..cut])| <= cut && Trimmed(Trim(value[..cut])) && Trimmed(Trim(value[cut..]))
  {
    TrimKeepsFirst(value[..cut]);
    hide Trim, Trimmed;
  }

  lemma {:induction false} PiecesFit(value: string, limit: nat)
    requires limit >= 1 && Trimmed(value)
    ensures forall i :: 0 <= i < |Pieces(value, limit)| ==>
              1 <= |Pieces(value, limit)[i]| <= limit && Trimmed(Pieces(value, limit)[i])
    decreases |value|
  {
    hide Trim, Trimmed, CutAt;
    if |value| > limit {
      var cut := CutAt(value, limit);
      FirstPieceFits(value, cut);
      PiecesFit(Trim(value[cut..]), limit);
    } else {
      TrimFixed(value);
    }
  }

  lemma TrimKeepsFirst(s: string)
    requires s != "" && !IsSpace(s[0])
    ensures Trim(s) != "" && Trim(s) == TrimRight(s)
  {
    assert Lead(s) == 0;
    assert s[0..] == s;
    assert Core(s) > 0;
  }

  lemma TrimKeepsLast(s: string)
    requires s != "" && !IsSpace(s[|s| - 1])
    ensures Trim(s) != "" && Trim(s) == TrimLeft(s)
  {
    assert Lead(s) < |s|;
    var t := TrimLeft(s);
    assert t[|t| - 1] == s[|s| - 1];
    assert Core(t) == |t|;
  }

  /** Chunks and the gaps between them, put back in order. */
  function Weave(parts: seq<string>, gaps: seq<string>): string
    requires |parts| == |gaps| + 1
  {
    if gaps == [] then parts[0] else parts[0] + gaps[0] + Weave(parts[1..], gaps[1..])
  }

  /** Blank, and at most one space exactly when it holds no vertical tab. */
  predicate Gap(g: string) {
    Blank(g) && ((g == "" || g == " ") <==> '\U{000B}' !in g)
  }

  lemma TwoSpaces(g: string)
    requires |g| >= 2 && forall i :: 0 <= i < |g| ==> g[i] == ' '
    ensures !Single(g)
  {
    assert g[0] == ' ' && g[1] == ' ';
  }

  lemma SingleWithin(value: string, from: nat, to: nat)
    requires Single(value) && from <= to <= |value|
    ensures Single(value[from..to])
    ensures Blank(value[from..to]) ==> Gap(value[from..to])
  {
    var g := value[from..to];
    assert forall i :: 0 <= i < |g| ==> g[i] == value[from + i];
    if Blank(g) && '\U{000B}' !in g {
      assert forall i :: 0 <= i < |g| ==> g[i] in g && g[i] == ' ';
      if |g| >= 2 {
        TwoSpaces(g);
      }
    }
  }

  lemma CutShape(value: string, cut: nat) returns (from: nat, to: nat)
    requires Trimmed(value) && 1 <= cut < |value|
    ensures from <= cut <= to < |value|
    ensures Trim(value[..cut]) == value[..from] && Trim(value[cut..]) == value[to..]
    ensures Blank(value[from..to])
  {
    var a, b := value[..cut], value[cut..];
    TrimKeepsFirst(a);
    assert b[|b| - 1] == value[|value| - 1];
    TrimKeepsLast(b);
    from, to := Core(a), cut + Lead(b);
    assert Blank(a[from..]) && Blank(b[..to - cut]) && Trim(b) == b[to - cut..];
    hide *;
    assert value[cut..][to - cut..] == value[to..] && value[..cut][..from] == value[..from];
    Seam(value, from, cut, to);
    BlankPair(a[from..], b[..to - cut]);
  }

  lemma Seam(value: string, from: nat, cut: nat, to: nat)
    requires from <= cut <= to <= |value|
    ensures value[..cut][from..] + value[cut..][..to - cut] == value[from..to]
  {
  }

  lemma BlankPair(a: string, b: string)
    requires Blank(a) && Blank(b)
    ensures Blank(a + b)
  {
  }

  lemma CutGap(value: string, cut: nat) returns (gap: string)
    requires Trimmed(value) && Single(value) && 1 <= cut < |value|
    ensures Gap(gap)
    ensures value == Trim(value[..cut]) + gap + Trim(value[cut..])
    ensures var rest := Trim(value[cut..]); rest != "" && Single(rest)
  {
    hide Trim, Trimmed, Gap, Single;
    var from, to := CutShape(value, cut);
    gap := value[from..to];
    SingleWithin(value, from, to);
    SingleWithin(value, to, |value|);
    assert value[to..] == value[to..|value|];
  }

  lemma WeaveOne(part: string, gap: string, parts: seq<string>, gaps: seq<string>)
    requires |parts| == |gaps| + 1
    ensures Weave([part] + parts, [gap] + gaps) == part + gap + Weave(parts, gaps)
  {
    assert ([part] + parts)[1..] == parts && ([gap] + gaps)[1..] == gaps;
  }

  lemma {:induction false} PiecesWeave(value: string, limit: nat) returns (gaps: seq<string>)
    requires limit >= 1 && value != "" && Trimmed(value) && Single(value)
    ensures |Pieces(value, limit)| == |gaps| + 1
    ensures Weave(Pieces(value, limit), gaps) == value
    ensures forall i :: 0 <= i < |gaps| ==> Gap(gaps[i])
    decreases |value|
  {
    hide Trim, Single, Trimmed, Gap;
    if |value| <= limit {
      TrimFixed(value);
      gaps := [];
    } else {
      var cut := CutAt(value, limit);
      var gap := CutGap(value, cut);
      var next := Trim(value[cut..]);
      var rest := PiecesWeave(next, limit);
      gaps := [gap] + rest;
      WeaveOne(Trim(value[..cut]), gap, Pieces(next, limit), rest);
    }
  }

  /**
    * Chunking loses only blanks at the cuts: each chunk is a non-empty trimmed text within the limit,
    * and the chunks with their gaps give the cleaned text back. A gap is at most one space if and only if
    * it holds no vertical tab, which cleaning keeps but trimming removes.
    */
  lemma {:induction false} ChunksConserve(rewrite: string -> string, text: string, limit: int)
    requires Clean(rewrite, text) != ""
    ensures var clean := Clean(rewrite, text); var parts := Chunks(clean, limit);
            && (forall i :: 0 <= i < |parts| ==>
                 parts[i] != "" && Trimmed(parts[i]) && (limit >= 1 ==> |parts[i]| <= limit))
            && (exists gaps :: |parts| == |gaps| + 1 && Weave(parts, gaps) == clean
                               && forall i :: 0 <= i < |gaps| ==> Gap(gaps[i]))
  {
    var clean := Clean(rewrite, text);
    CleanIsTidy(rewrite, text);
    if limit <= 0 || |clean| <= limit {
      assert Weave([clean], []) == clean;
    } else {
      PiecesFit(clean, limit);
      var gaps := PiecesWeave(clean, limit);
    }
  }

  /** With a vertical tab more than one space can vanish at a cut. */
  lemma {:induction false} WideGapExample(rewrite: string -> string)
    requires forall s :: rewrite(s) == s
    ensures var text := "a \U{000B} b";
            Clean(rewrite, text) == text && Chunks(text, 2) == ["a", "b"]
  {
    var text := "a \U{000B} b";
    WideGapTidy(text);
    WideGapPieces(text);
    hide *;
    assert Clean(rewrite, text) == text && Chunks(text, 2) == Pieces(text, 2) by {
      WideGapClean(rewrite, text);
    }
  }

  lemma WideGapTidy(text: string)
    requires text == "a \U{000B} b"
    ensures Tidy(text) == text
  {
    assert IsTidy(text);
    TidyFixedPoint(text);
  }

  lemma WideGapClean(rewrite: string -> string, text: string)
    requires |text| > 2 && rewrite(text) == text && Tidy(text) == text
    ensures Clean(rewrite, text) == text && Chunks(text, 2) == Pieces(text, 2)
  {
    hide Tidy, Pieces;
  }

  lemma WideGapPieces(text: string)
    requires text == "a \U{000B} b"
    ensures Pieces(text, 2) == ["a", "b"]
  {
    WideGapCut(text);
    assert text[..1] == "a" && text[1..] == " \U{000B} " + "b" + "";
    assert Blank(" \U{000B} ");
    TrimCore(" \U{000B} ", "b", "");
    TrimFixed("a");
    TrimFixed("b");
    hide Trim, CutAt;
    PieceThenRest([], text, 2);
    assert Pieces("b", 2) == ["b"];
    assert [] + Pieces(text, 2) == Pieces(text, 2);
  }

  lemma WideGapCut(text: string)
    requires text == "a \U{000B} b"
    ensures CutAt(text, 2) == 1
  {
    assert text[..2] == "a ";
    assert LastIndex("a ", STOPS) == -1 by { assert "a "[..1] == "a"; }
  }

  lemma ShortCutIsSpace(value: string, limit: nat)
    requires 1 <= limit < |value| && CutAt(value, limit) < limit / 2
    ensures value[CutAt(value, limit)] == ' '
    ensures forall i :: CutAt(value, limit) < i < limit ==> value[i] != ' '
  {
    var window := value[..limit];
    assert forall i :: 0 <= i < limit ==> window[i] == value[i];
  }

  lemma TrimTail(value: string, cut: nat)
    requires Trimmed(value) && cut < |value|
    ensures var shift := cut + Lead(value[cut..]);
            shift < |value| && Trim(value[cut..]) == value[shift..] && Blank(value[cut..shift])
  {
    var tail := value[cut..];
    assert tail[..Lead(tail)] == value[cut..cut + Lead(tail)];
    assert tail[|tail| - 1] == value[|value| - 1];
    TrimKeepsLast(tail);
  }

  /** A cut in the first half of the window means the rest of the window has no space to cut at early again. */
  lemma {:induction false} ShortCutThenFar(value: string, limit: nat)
    requires 1 <= limit < |value| && Trimmed(value)
    requires CutAt(value, limit) < limit / 2
    ensures var rest := Trim(value[CutAt(value, limit)..]);
            |rest| > limit ==> |value| - |rest| + CutAt(rest, limit) >= limit / 2
    ensures var cut := CutAt(value, limit); var rest := Trim(value[cut..]);
            |rest| > limit && Single(value) && '\U{000B}' !in value[cut..|value| - |rest|] ==>
              CutAt(rest, limit) >= limit / 2
  {
    hide Trim, Trimmed, CutAt, IsSpace;
    var cut := CutAt(value, limit);
    ShortCutIsSpace(value, limit);
    TrimTail(value, cut);
    var shift := cut + Lead(value[cut..]);
    var rest := Trim(value[cut..]);
    assert |rest| == |value| - shift;
    if Single(value) {
      SingleWithin(value, cut, shift);
    }
    if |rest| > limit && CutAt(rest, limit) < limit / 2 {
      ShortCutIsSpace(rest, limit);
      assert value[shift + CutAt(rest, limit)] == ' ';
    }
  }

  lemma LastPiece(value: string, limit: nat)
    requires limit >= 1 && |value| <= limit
    ensures |Pieces(value, limit)| == if value == "" then 0 else 1
  {
  }

  lemma NextPiece(value: string, limit: nat)
    requires 1 <= limit < |value| && Trimmed(value)
    ensures var rest := Trim(value[CutAt(value, limit)..]);
            1 <= |rest| <= |value| - CutAt(value, limit) && Trimmed(rest)
            && |Pieces(value, limit)| == 1 + |Pieces(rest, limit)|
  {
    var tail := value[CutAt(value, limit)..];
    assert tail[|tail| - 1] == value[|value| - 1];
    TrimKeepsLast(tail);
  }

  /** One or two cuts use up half a limit of text. */
  lemma HalfUsed(n: nat, pieces: nat, half: nat, length: nat, rest: nat)
    requires 1 <= n <= 2 && pieces * half <= 2 * rest + half && rest + half <= length
    ensures (n + pieces) * half <= 2 * length + half
  {
    assert (n + pieces) * half == n * half + pieces * half;
    assert n * half <= 2 * half;
  }

  /**
    * The number of chunks is linear in the length over half the limit, because a short cut is always
    * followed by one that makes up for it.
    */
  lemma {:induction false} ChunkCountBound(value: string, limit: nat)
    requires limit >= 1 && Trimmed(value)
    ensures |Pieces(value, limit)| * (limit / 2) <= 2 * |value| + limit / 2
    ensures |Pieces(value, limit)| <= |value|
    decreases |value|
  {
    hide Trim, Trimmed, Pieces, CutAt;
    var half := limit / 2;
    if |value| <= limit {
      LastPiece(value, limit);
    } else {
      NextPiece(value, limit);
      var cut := CutAt(value, limit);
      var rest := Trim(value[cut..]);
      ChunkCountBound(rest, limit);
      if cut >= half {
        HalfUsed(1, |Pieces(rest, limit)|, half, |value|, |rest|);
      } else if |rest| <= limit {
        LastPiece(rest, limit);
      } else {
        ShortCutThenFar(value, limit);
        NextPiece(rest, limit);
        var last := Trim(rest[CutAt(rest, limit)..]);
        ChunkCountBound(last, limit);
        HalfUsed(2, |Pieces(last, limit)|, half, |value|, |last|);
      }
    }
  }

  // ---------- summaries ----------

  predicate SentenceEnd(c: char) {
    c == '.' || c == '!' || c == '?'
  }

  function RunLength(s: string): (k: nat)
    ensures k <= |s| && (forall i :: 0 <= i < k ==> !SentenceEnd(s[i])) && (k < |s| ==> SentenceEnd(s[k]))
  {
    if s == "" || SentenceEnd(s[0]) then 0 else RunLength(s[1..]) + 1
  }

  /** `strings.FieldsFunc` on sentence ends: the maximal runs without one. */
  function Fields(s: string): (fields: seq<string>)
    ensures forall i :: 0 <= i < |fields| ==>
              fields[i] != "" && forall c :: c in fields[i] ==> c != '.' && c != '!' && c != '?'
    decreases |s|
  {
    if s == "" then []
    else if SentenceEnd(s[0]) then Fields(s[1..])
    else [s[..RunLength(s)]] + Fields(s[RunLength(s)..])
  }

  function WithoutEnds(s: string): string {
    if s == "" then ""
    else (if s[0] == '.' || s[0] == '!' || s[0] == '?' then "" else [s[0]]) + WithoutEnds(s[1..])
  }

  lemma {:induction false} WithoutEndsRun(s: string, k: nat)
    requires k <= |s| && forall i :: 0 <= i < k ==> !SentenceEnd(s[i])
    ensures WithoutEnds(s) == s[..k] + WithoutEnds(s[k..])
  {
    if k > 0 {
      WithoutEndsRun(s[1..], k - 1);
      assert s[1..][k - 1..] == s[k..] && s[..k] == [s[0]] + s[1..][..k - 1];
    } else {
      assert s[0..] == s && s[..0] == "";
    }
  }

  /** Splitting into sentences drops the sentence ends and nothing else. */
  lemma {:induction false} FieldsConserve(s: string)
    ensures Concat(Fields(s)) == WithoutEnds(s)
    decreases |s|
  {
    if s != "" {
      if SentenceEnd(s[0]) {
        FieldsConserve(s[1..]);
      } else {
        var k := RunLength(s);
        FieldsConserve(s[k..]);
        WithoutEndsRun(s, k);
        assert ([s[..k]] + Fields(s[k..]))[1..] == Fields(s[k..]);
      }
    }
  }

  /** The non-blank sentences, trimmed and closed with a full stop. */
  function Closed(sentences: seq<string>): (out: seq<string>)
    ensures |out| <= |sentences|
  {
    if sentences == [] then []
    else (if Trim(sentences[0]) == "" then [] else [Trim(sentences[0]) + "."]) + Closed(sentences[1..])
  }

  function Take<T>(s: seq<T>, count: nat): seq<T> {
    if |s| <= count then s else s[..count]
  }

  function Opening(value: string, count: int): string {
    if count <= 0 then "" else Trim(Join(Closed(Take(Fields(value), count)), " "))
  }

  lemma {:induction false} ClosedAppend(a: seq<string>, b: seq<string>)
    ensures Closed(a + b) == Closed(a) + Closed(b)
  {
    hide *;
    if a == [] {
      NoSentences();
      assert a + b == b;
      assert [] + Closed(b) == Closed(b);
    } else {
      ClosedAppend(a[1..], b);
      assert [a[0]] + a[1..] == a && [a[0]] + (a[1..] + b) == a + b;
      ClosedCons(a[0], a[1..]);
      ClosedCons(a[0], a[1..] + b);
    }
  }

  lemma ClosedCons(sentence: string, rest: seq<string>)
    ensures Closed([sentence] + rest) == (if Trim(sentence) == "" then [] else [Trim(sentence) + "."]) + Closed(rest)
  {
    hide Trim;
    assert ([sentence] + rest)[1..] == rest;
  }

  lemma ClosedNext(sentences: seq<string>, i: nat)
    requires i < |sentences|
    ensures Closed(sentences[..i + 1]) ==
            Closed(sentences[..i]) + (if Trim(sentences[i]) == "" then [] else [Trim(sentences[i]) + "."])
  {
    hide Trim;
    assert sentences[..i + 1] == sentences[..i] + [sentences[i]];
    ClosedAppend(sentences[..i], [sentences[i]]);
    assert [sentences[i]][1..] == [] && Closed([]) == [];
  }

  method FirstSentences(value: string, count: int) returns (opening: string)
    ensures opening == Opening(value, count)
  {
    if count <= 0 {
      return "";
    }
    var sentences := Fields(value);
    if |sentences| == 0 {
      TrimFixed("");
      return "";
    }
    if |sentences| > count {
      sentences := sentences[..count];
    }
    var out := [];
    NoSentences();
    hide Trim, Fields, Closed, Join;
    for i := 0 to |sentences|
      invariant out == Closed(sentences[..i])
    {
      ClosedNext(sentences, i);
      var sentence := Trim(sentences[i]);
      if sentence == "" {
        continue;
      }
      out := out + [sentence + "."];
    }
    assert sentences[..|sentences|] == sentences;
    return Trim(Join(out, " "));
  }

  /** A closed sentence: one full stop at the very end, and no blank at either end. */
  predicate IsClosed(s: string) {
    && |s| >= 2 && s[|s| - 1] == '.'
    && Trimmed(s[..|s| - 1])
    && forall i :: 0 <= i < |s| - 1 ==> s[i] != '.' && s[i] != '!' && s[i] != '?'
  }

  lemma TrimIsClosed(sentence: string)
    requires forall c :: c in sentence ==> !SentenceEnd(c)
    requires Trim(sentence) != ""
    ensures IsClosed(Trim(sentence) + ".")
  {
    hide Trim, IsSpace;
    var t := Trim(sentence);
    var left, right := TrimSplits(sentence);
    assert forall i :: 0 <= i < |t| ==> t[i] == sentence[|left| + i] && t[i] in sentence;
    assert (t + ".")[..|t|] == t;
  }

  lemma {:induction false} ClosedAreClosed(sentences: seq<string>)
    requires forall i :: 0 <= i < |sentences| ==> forall c :: c in sentences[i] ==> !SentenceEnd(c)
    ensures forall i :: 0 <= i < |Closed(sentences)| ==> IsClosed(Closed(sentences)[i])
  {
    hide Trim, IsClosed, SentenceEnd;
    if sentences != [] {
      ClosedAreClosed(sentences[1..]);
      if Trim(sentences[0]) != "" {
        TrimIsClosed(sentences[0]);
      }
    }
  }

  lemma FieldsOfHead(head: string, rest: string)
    requires head != "" && forall i :: 0 <= i < |head| ==> !SentenceEnd(head[i])
    ensures Fields(head + "." + rest) == [head] + Fields(rest)
  {
    var text := head + "." + rest;
    HeadRun(head, rest);
    assert text[..|head|] == head && text[|head|..] == "." + rest;
    assert ("." + rest)[1..] == rest;
  }

  lemma ClosedOfHead(lead: string, s: string)
    requires (lead == "" || lead == " ") && IsClosed(s)
    ensures Closed([lead + s[..|s| - 1]]) == [s]
  {
    hide Trim;
    var body := s[..|s| - 1];
    TrimCore(lead, body, "");
    assert lead + body + "" == lead + body;
    assert s == body + ".";
    assert [lead + body][1..] == [] && Closed([]) == [];
  }

  /** What follows the first sentence's full stop in the joined text. */
  function AfterFirst(closed: seq<string>): string {
    if |closed| <= 1 then "" else " " + Join(closed[1..], " ")
  }

  lemma FirstOfJoined(lead: string, closed: seq<string>) returns (head: string)
    requires (lead == "" || lead == " ") && closed != [] && IsClosed(closed[0])
    ensures head == lead + closed[0][..|closed[0]| - 1] && head != ""
    ensures lead + Join(closed, " ") == head + "." + AfterFirst(closed)
    ensures forall i :: 0 <= i < |head| ==> !SentenceEnd(head[i])
  {
    var s := closed[0];
    head := lead + s[..|s| - 1];
    assert s == s[..|s| - 1] + ".";
  }

  /** Sentences behind a lead, split again, are the same sentences. */
  lemma {:induction false} Resplit(lead: string, closed: seq<string>)
    requires lead == "" || lead == " "
    requires closed != [] && forall i :: 0 <= i < |closed| ==> IsClosed(closed[i])
    ensures Closed(Fields(lead + Join(closed, " "))) == closed
    ensures |Fields(lead + Join(closed, " "))| == |closed|
    decreases |closed|
  {
    hide Trim, Fields, Closed, Join, IsClosed, SentenceEnd;
    var head := FirstOfJoined(lead, closed);
    var rest := AfterFirst(closed);
    FieldsOfHead(head, rest);
    ClosedOfHead(lead, closed[0]);
    ClosedAppend([head], Fields(rest));
    assert closed == [closed[0]] + closed[1..];
    if |closed| > 1 {
      Resplit(" ", closed[1..]);
    } else {
      NoSentences();
    }
  }

  lemma NoSentences()
    ensures Fields("") == [] && Closed([]) == []
  {
  }

  lemma {:induction false} HeadRun(head: string, rest: string)
    requires forall i :: 0 <= i < |head| ==> !SentenceEnd(head[i])
    ensures RunLength(head + "." + rest) == |head|
  {
    if head != "" {
      assert (head + "." + rest)[1..] == head[1..] + "." + rest;
      HeadRun(head[1..], rest);
    } else {
      assert (head + "." + rest)[0] == '.';
    }
  }

  lemma {:induction false} JoinedClosedTrimmed(closed: seq<string>)
    requires closed != [] && forall i :: 0 <= i < |closed| ==> IsClosed(closed[i])
    ensures Join(closed, " ") != "" && Trimmed(Join(closed, " ")) && Join(closed, " ")[0] == closed[0][0]
  {
    if |closed| > 1 {
      JoinedClosedTrimmed(closed[1..]);
    }
    assert closed[0][..|closed[0]| - 1][0] == closed[0][0];
  }

  lemma OpeningIsJoined(value: string, count: int)
    requires count > 0
    ensures var fields := Fields(value); var closed := Closed(if |fields| > count then fields[..count] else fields);
            && (forall i :: 0 <= i < |closed| ==> IsClosed(closed[i]))
            && Opening(value, count) == Join(closed, " ") && |closed| <= count
  {
    var fields := Fields(value);
    var taken := if |fields| > count then fields[..count] else fields;
    var closed := Closed(taken);
    TrimFixed("");
    JoinNothing();
    hide Trim, Fields, Closed, Join, IsClosed, Trimmed;
    assert Take(fields, count) == taken && Opening(value, count) == Trim(Join(closed, " "));
    ClosedAreClosed(taken);
    if closed != [] {
      JoinedClosedTrimmed(closed);
      TrimFixed(Join(closed, " "));
    }
  }

  /** A summary splits into just the sentences that were taken, so summarising it again changes nothing. */
  lemma OpeningIdempotent(value: string, count: int)
    ensures Opening(Opening(value, count), count) == Opening(value, count)
    ensures var fields := Fields(value);
            count > 0 ==>
              Closed(Fields(Opening(value, count))) == Closed(if |fields| > count then fields[..count] else fields)
  {
    if count > 0 {
      NoSentences();
      JoinNothing();
      hide Trim, Fields, Closed, Join, IsClosed, Take, Opening;
      var fields := Fields(value);
      var closed := Closed(if |fields| > count then fields[..count] else fields);
      OpeningIsJoined(value, count);
      OpeningIsJoined(Opening(value, count), count);
      if closed != [] {
        Resplit("", closed);
        assert "" + Join(closed, " ") == Join(closed, " ");
      }
    }
  }

  lemma {:induction false} ClosedHead(sentences: seq<string>, n: nat)
    requires |Closed(sentences)| == |sentences| && n <= |sentences|
    ensures Closed(sentences[..n]) == Closed(sentences)[..n]
  {
    hide Trim, Closed;
    ClosedAppend(sentences[..n], sentences[n..]);
    assert sentences[..n] + sentences[n..] == sentences;
  }

  /** Of a text of closed sentences the summary is the first of them, word for word. */
  lemma {:induction false} OpeningOfSentences(closed: seq<string>, count: int)
    requires count > 0 && closed != [] && forall i :: 0 <= i < |closed| ==> IsClosed(closed[i])
    ensures Opening(Join(closed, " "), count) == Join(if |closed| > count then closed[..count] else closed, " ")
  {
    hide Trim, Fields, Closed, Join, IsClosed;
    var text := Join(closed, " ");
    Resplit("", closed);
    assert "" + text == text;
    var n := if |closed| > count then count else |closed|;
    ClosedHead(Fields(text), n);
    assert Fields(text)[..|closed|] == Fields(text) && closed[..|closed|] == closed;
    JoinedClosedTrimmed(closed[..n]);
    TrimFixed(Join(closed[..n], " "));
  }

  lemma JoinNothing()
    ensures Join([], " ") == ""
  {
  }

  function Truncate(value: string, limit: int): string {
    var t := Trim(value);
    if limit <= 0 || |t| <= limit then t
    else if limit <= 3 then t[..limit]
    else Trim(t[..limit - 3]) + "..."
  }

  lemma {:induction false} TruncateBounds(value: string, limit: int)
    ensures limit > 0 ==> |Truncate(value, limit)| <= limit
    ensures Trim(Truncate(value, limit)) == "" <==> Trim(value) == ""
    ensures |Trim(value)| <= limit || limit <= 0 ==> Truncate(value, limit) == Trim(value)
  {
    var t := Trim(value);
    TrimFixed(t);
    if limit > 0 && |t| > limit {
      if limit <= 3 {
        TrimKeepsFirst(t[..limit]);
      } else {
        var r := Truncate(value, limit);
        TrimKeepsLast(r);
      }
    }
  }

  lemma BlankStart(left: string, rest: string)
    requires Blank(left)
    ensures left != "" ==> IsSpace((left + rest)[0])
  {
  }

  /** A text that is too long ends in three dots behind as much of its beginning as fits, less a blank end. */
  lemma {:induction false} TruncateShape(value: string, limit: int)
    requires 0 < limit < |Trim(value)|
    ensures limit <= 3 ==> Truncate(value, limit) == Trim(value)[..limit]
    ensures limit > 3 ==>
              var r := Truncate(value, limit);
              3 < |r| && r[|r| - 3..] == "..." && r[..|r| - 3] <= Trim(value)[..limit - 3]
              && Blank(Trim(value)[|r| - 3..limit - 3])
  {
    if limit > 3 {
      var t := Trim(value);
      var head := t[..limit - 3];
      TrimKeepsFirst(head);
      var left, right := TrimSplits(head);
      hide Trim;
      var r := Truncate(value, limit);
      BlankStart(left, Trim(head) + right);
      assert left + (Trim(head) + right) == head;
      assert r[..|r| - 3] == Trim(head) && head == Trim(head) + right;
      assert t[|r| - 3..limit - 3] == right;
    }
  }

  datatype Mode = Concise | Normal | Heavy

  /** `strings.ToLower` on ASCII text. */
  function Lower(s: string): (r: string)
    ensures |r| == |s|
    ensures forall i :: 0 <= i < |s| ==> r[i] == if 'A' <= s[i] <= 'Z' then s[i] - 'A' + 'a' else s[i]
  {
    if s == "" then "" else [if 'A' <= s[0] <= 'Z' then s[0] - 'A' + 'a' else s[0]] + Lower(s[1..])
  }

  function NormalizeMode(value: string): Mode {
    var mode := Lower(Trim(value));
    if mode == "concise" then Concise
    else if mode == "heavy" || mode == "high" then Heavy
    else Normal
  }

  datatype Result = Result(speech: string, summary: string)

  datatype Summarizer = Summarizer(conciseMax: int, normalMax: int)

  /** `NewSummarizer`: limits that are not positive become the defaults. */
  function NewSummarizer(conciseMax: int, normalMax: int): Summarizer {
    Summarizer(if conciseMax <= 0 then CONCISE_LIMIT else conciseMax,
               if normalMax <= 0 then NORMAL_LIMIT else normalMax)
  }

  function Shorten(clean: string, count: int, limit: int): string {
    var short := Opening(clean, count);
    Truncate(if short == "" then Truncate(clean, limit) else short, limit)
  }

  function Build(s: Summarizer, rewrite: string -> string, mode: string, text: string): Result {
    var clean := Clean(rewrite, text);
    if clean == "" then Result("", "")
    else match NormalizeMode(mode)
      case Heavy => Result(clean, Truncate(clean, s.normalMax))
      case Concise => var short := Shorten(clean, 1, s.conciseMax); Result(short, short)
      case Normal => var short := Shorten(clean, 3, s.normalMax); Result(short, short)
  }

  lemma ShortenBounds(clean: string, count: int, limit: int)
    requires limit > 0 && clean != "" && Trimmed(clean)
    ensures |Shorten(clean, count, limit)| <= limit && Trim(Shorten(clean, count, limit)) != ""
    ensures Opening(clean, count) != "" && |Opening(clean, count)| <= limit ==>
        Shorten(clean, count, limit) == Opening(clean, count)
  {
    TrimFixed(clean);
    TruncateBounds(clean, limit);
    var short := Opening(clean, count);
    TruncateBounds(if short == "" then Truncate(clean, limit) else short, limit);
    TrimFixed(short);
  }

  /** The limit in force: 220 characters for concise speech and 650 otherwise, unless configured. */
  function LimitOf(concise: bool, conciseMax: int, normalMax: int): (limit: int)
    ensures limit > 0
    ensures concise && conciseMax > 0 ==> limit == conciseMax
    ensures concise && conciseMax <= 0 ==> limit == 220
    ensures !concise && normalMax > 0 ==> limit == normalMax
    ensures !concise && normalMax <= 0 ==> limit == 650
  {
    var s := NewSummarizer(conciseMax, normalMax);
    if concise then s.conciseMax else s.normalMax
  }

  /**
    * A summary is blank exactly when the cleaned text is empty, for every mode; summaries, and speech
    * in every mode but heavy, stay within the configured or default limits; heavy speech is the whole text, and other
    * speech is the first sentence or the first three, if there are any and they fit.
    */
  lemma {:induction false} BuildBoundsAndKeeps(conciseMax: int, normalMax: int, rewrite: string -> string,
                                               mode: string, text: string)
    ensures var r := Build(NewSummarizer(conciseMax, normalMax), rewrite, mode, text);
            var name := Lower(Trim(mode));
            var clean := Clean(rewrite, text);
            var limit := LimitOf(name == "concise", conciseMax, normalMax);
            var opening := Opening(clean, if name == "concise" then 1 else 3);
            && (Trim(r.speech) == "" <==> clean == "")
            && (Trim(r.summary) == "" <==> clean == "")
            && |r.summary| <= limit
            && (if name == "heavy" || name == "high"
                then r.speech == clean && r.summary == Truncate(clean, limit)
                else r.speech == r.summary)
            && (name != "heavy" && name != "high" && opening != "" && |opening| <= limit ==> r.speech == opening)
            && (name != "heavy" && name != "high" && opening != "" ==> r.speech == Truncate(opening, limit))
  {
    var s := NewSummarizer(conciseMax, normalMax);
    var clean := Clean(rewrite, text);
    TrimFixed("");
    TrimFixed(clean);
    hide Trim, Trimmed, Clean, Truncate, Shorten, Opening, Lower;
    ShortenOpens(clean, 1, s.conciseMax);
    ShortenOpens(clean, 3, s.normalMax);
    if clean == "" {
      NothingToOpen();
    } else {
      match NormalizeMode(mode) {
        case Heavy => TruncateBounds(clean, s.normalMax);
        case Concise => ShortenBounds(clean, 1, s.conciseMax);
        case Normal => ShortenBounds(clean, 3, s.normalMax);
      }
    }
  }

  lemma ShortenOpens(clean: string, count: int, limit: int)
    ensures Opening(clean, count) != "" ==> Shorten(clean, count, limit) == Truncate(Opening(clean, count), limit)
  {
    hide Opening, Truncate;
  }

  lemma NothingToOpen()
    ensures Opening("", 1) == "" && Opening("", 3) == ""
    ensures forall limit :: Truncate("", limit) == ""
  {
    TrimFixed("");
    NoSentences();
    JoinNothing();
    hide Trim;
  }
}
