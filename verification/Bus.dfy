/** Subject patterns of the message bus: the overlap test behind `expandCompatibleStream`. */
module Bus {
  import opened Strings

  type Token = string
  type Pattern = seq<Token>

  // ---------- the algorithm ----------

  function SubjectPatternsOverlap(left: string, right: string): bool {
    left != "" && right != "" && TokensOverlap(Split(left, '.'), Split(right, '.'))
  }

  function TokensOverlap(left: Pattern, right: Pattern): bool {
    if left == [] && right == [] then true
    else if left == [] then MatchesEmptySuffix(right)
    else if right == [] then MatchesEmptySuffix(left)
    else if left[0] == ">" then |left| == 1 && CanMatchAny(right)
    else if right[0] == ">" then |right| == 1 && CanMatchAny(left)
    else if left[0] == "*" || right[0] == "*" || left[0] == right[0] then TokensOverlap(left[1..], right[1..])
    else false
  }

  function CanMatchAny(tokens: Pattern): bool {
    if tokens == [] then true
    else if tokens[0] == ">" then |tokens| == 1
    else CanMatchAny(tokens[1..])
  }

  function MatchesEmptySuffix(tokens: Pattern): bool {
    tokens == [] || (|tokens| == 1 && tokens[0] == ">")
  }

  method StreamSubjectsOverlap(left: seq<string>, right: seq<string>) returns (found: bool)
    ensures found <==> exists l, r :: l in left && r in right && SubjectPatternsOverlap(l, r)
  {
    if |left| == 0 || |right| == 0 {
      return false;
    }
    for i := 0 to |left|
      invariant forall l, r :: l in left[..i] && r in right ==> !SubjectPatternsOverlap(l, r)
    {
      for j := 0 to |right|
        invariant forall r :: r in right[..j] ==> !SubjectPatternsOverlap(left[i], r)
      {
        if SubjectPatternsOverlap(left[i], right[j]) {
          return true;
        }
      }
    }
    return false;
  }

  // ---------- what patterns mean ----------

  /** A published subject holds no wildcard token. */
  predicate Concrete(subject: seq<Token>) {
    forall i :: 0 <= i < |subject| ==> subject[i] != "*" && subject[i] != ">"
  }

  /**
    * The subjects a pattern stands for: `*` takes one token, a final `>` takes at least
    * `least` tokens, and a `>` that is not final matches nothing.
    */
  predicate Matches(pattern: Pattern, subject: seq<Token>, least: nat) {
    if pattern == [] then subject == []
    else if pattern[0] == ">" then |pattern| == 1 && |subject| >= least
    else subject != [] && (pattern[0] == "*" || pattern[0] == subject[0]) && Matches(pattern[1..], subject[1..], least)
  }

  /** Some concrete subject belongs to both patterns. */
  ghost predicate Meet(left: Pattern, right: Pattern, least: nat) {
    exists s :: Concrete(s) && Matches(left, s, least) && Matches(right, s, least)
  }

  // ---------- the overlap test is exact ----------

  lemma {:induction false} AnyWitness(tokens: Pattern) returns (s: seq<Token>)
    requires CanMatchAny(tokens)
    ensures Concrete(s) && Matches(tokens, s, 0)
  {
    if tokens == [] || tokens[0] == ">" {
      s := [];
    } else {
      var rest := AnyWitness(tokens[1..]);
      s := [if tokens[0] == "*" then "x" else tokens[0]] + rest;
    }
  }

  lemma {:induction false} MatchedCanMatch(tokens: Pattern, s: seq<Token>, least: nat)
    requires Matches(tokens, s, least)
    ensures CanMatchAny(tokens)
  {
    if tokens != [] && tokens[0] != ">" {
      MatchedCanMatch(tokens[1..], s[1..], least);
    }
  }

  lemma {:induction false} OverlapHasWitness(left: Pattern, right: Pattern) returns (s: seq<Token>)
    requires TokensOverlap(left, right)
    ensures Concrete(s) && Matches(left, s, 0) && Matches(right, s, 0)
  {
    if left == [] || right == [] {
      s := [];
    } else if left[0] == ">" {
      s := AnyWitness(right);
    } else if right[0] == ">" {
      s := AnyWitness(left);
    } else {
      var rest := OverlapHasWitness(left[1..], right[1..]);
      s := [if left[0] != "*" then left[0] else if right[0] != "*" then right[0] else "x"] + rest;
    }
  }

  lemma {:induction false} CommonSubjectOverlaps(left: Pattern, right: Pattern, s: seq<Token>, least: nat)
    requires Matches(left, s, least) && Matches(right, s, least)
    ensures TokensOverlap(left, right)
  {
    if left == [] || right == [] {
    } else if left[0] == ">" {
      MatchedCanMatch(right, s, least);
    } else if right[0] == ">" {
      MatchedCanMatch(left, s, least);
    } else {
      CommonSubjectOverlaps(left[1..], right[1..], s[1..], least);
    }
  }

  /** The test says yes exactly when the two patterns share a concrete subject. */
  lemma {:induction false} OverlapIsExact(left: Pattern, right: Pattern)
    ensures TokensOverlap(left, right) <==> Meet(left, right, 0)
  {
    if TokensOverlap(left, right) {
      var s := OverlapHasWitness(left, right);
    }
    if Meet(left, right, 0) {
      var s :| Concrete(s) && Matches(left, s, 0) && Matches(right, s, 0);
      CommonSubjectOverlaps(left, right, s, 0);
    }
  }

  /** The same on dotted text; the empty text is refused although it would split into one empty token. */
  lemma PatternsOverlapIsExact(left: string, right: string)
    ensures SubjectPatternsOverlap(left, right) <==>
            left != "" && right != "" && exists subject: string ::
              Concrete(Split(subject, '.'))
              && Matches(Split(left, '.'), Split(subject, '.'), 0)
              && Matches(Split(right, '.'), Split(subject, '.'), 0)
  {
    var l, r := Split(left, '.'), Split(right, '.');
    OverlapIsExact(l, r);
    if left != "" && right != "" && TokensOverlap(l, r) {
      var s := OverlapHasWitness(l, r);
      var t := DotFreeWitness(l, r, s);
      SplitJoin(t, '.');
      assert Split(Join(t, "."), '.') == t;
    }
  }

  /** A shared subject can be chosen non-empty and free of dots, so that it can be written as dotted text. */
  lemma {:induction false} DotFreeWitness(left: Pattern, right: Pattern, s: seq<Token>) returns (t: seq<Token>)
    requires left != [] && right != []
    requires forall i :: 0 <= i < |left| ==> '.' !in left[i]
    requires forall i :: 0 <= i < |right| ==> '.' !in right[i]
    requires Concrete(s) && Matches(left, s, 0) && Matches(right, s, 0)
    ensures Concrete(t) && Matches(left, t, 0) && Matches(right, t, 0)
    ensures t != [] && forall i :: 0 <= i < |t| ==> '.' !in t[i]
  {
    if left[0] == ">" && right[0] == ">" {
      t := ["x"];
    } else {
      var head := if left[0] != "*" && left[0] != ">" then left[0]
                  else if right[0] != "*" && right[0] != ">" then right[0] else "x";
      var l := if left[0] == ">" then left else left[1..];
      var r := if right[0] == ">" then right else right[1..];
      if (l == [] && r == []) || (l == [] && r == [">"]) || (l == [">"] && r == []) {
        t := [head];
      } else if s == [] {
        t := [head];
      } else {
        var rest := DotFreeWitness(l, r, s[1..]);
        t := [head] + rest;
      }
    }
  }

  // ---------- against the bus's own wildcard rule ----------

  /** `open` has no `>`, and `closed` is a compatible pattern that is one `>` longer. */
  predicate OneShort(open: Pattern, closed: Pattern) {
    && |closed| == |open| + 1
    && closed[|open|] == ">"
    && ">" !in open
    && TokensOverlap(open, closed[..|open|])
  }

  lemma {:induction false} OneShortTail(left: Pattern, right: Pattern)
    requires left != [] && right != [] && left[0] != ">" && right[0] != ">"
    requires left[0] == "*" || right[0] == "*" || left[0] == right[0]
    ensures OneShort(left, right) <==> OneShort(left[1..], right[1..])
  {
    if |right| == |left| + 1 {
      assert right[..|left|][1..] == right[1..][..|left| - 1];
      assert left == [left[0]] + left[1..];
    }
  }

  lemma {:induction false} FreeWitness(tokens: Pattern) returns (s: seq<Token>)
    requires CanMatchAny(tokens) && tokens != []
    ensures Concrete(s) && s != [] && Matches(tokens, s, 1)
  {
    if tokens[0] == ">" {
      s := ["x"];
    } else {
      var head := if tokens[0] == "*" then "x" else tokens[0];
      if tokens[1..] == [] {
        s := [head];
      } else {
        var rest := FreeWitness(tokens[1..]);
        s := [head] + rest;
      }
    }
  }

  lemma {:induction false} BusMeetsUnlessOneShort(left: Pattern, right: Pattern) returns (s: seq<Token>)
    requires TokensOverlap(left, right) && !OneShort(left, right) && !OneShort(right, left)
    ensures Concrete(s) && Matches(left, s, 1) && Matches(right, s, 1)
  {
    if left == [] || right == [] {
      assert left == [] ==> TokensOverlap(left, right[..0]);
      assert right == [] ==> TokensOverlap(right, left[..0]);
      s := [];
    } else if left[0] == ">" {
      s := FreeWitness(right);
    } else if right[0] == ">" {
      s := FreeWitness(left);
    } else {
      OneShortTail(left, right);
      OneShortTail(right, left);
      var rest := BusMeetsUnlessOneShort(left[1..], right[1..]);
      s := [if left[0] != "*" then left[0] else if right[0] != "*" then right[0] else "x"] + rest;
    }
  }

  lemma {:induction false} OneShortNeverMeets(open: Pattern, closed: Pattern, s: seq<Token>)
    requires OneShort(open, closed)
    requires Matches(open, s, 1)
    ensures !Matches(closed, s, 1)
  {
    if open != [] {
      assert open[0] != ">";
      if closed[0] != ">" {
        assert closed[..|open|][1..] == closed[1..][..|open| - 1];
        assert open == [open[0]] + open[1..];
        OneShortNeverMeets(open[1..], closed[1..], s[1..]);
      }
    }
  }

  /**
    * NATS wants at least one token under `>`. The overlap test is wrong about it for precisely the
    * pairs in which a pattern without `>` is one token shorter than a compatible one that ends in `>`.
    */
  lemma OverlapVersusBus(left: Pattern, right: Pattern)
    ensures Meet(left, right, 1) <==> TokensOverlap(left, right) && !OneShort(left, right) && !OneShort(right, left)
  {
    if Meet(left, right, 1) {
      var s :| Concrete(s) && Matches(left, s, 1) && Matches(right, s, 1);
      CommonSubjectOverlaps(left, right, s, 1);
      if OneShort(left, right) { OneShortNeverMeets(left, right, s); }
      if OneShort(right, left) { OneShortNeverMeets(right, left, s); }
    }
    if TokensOverlap(left, right) && !OneShort(left, right) && !OneShort(right, left) {
      var s := BusMeetsUnlessOneShort(left, right);
    }
  }

  /** The subject `a` is not under `a.>` on the bus, though the test takes the two to overlap. */
  lemma OneShortExample()
    ensures SubjectPatternsOverlap("a", "a.>") && !Meet(Split("a", '.'), Split("a.>", '.'), 1)
  {
    assert "a.>" == "a" + ['.'] + ">";
    SplitAppend("a", ">", '.');
    SplitWhole("a", '.');
    SplitWhole(">", '.');
    var open, closed := ["a"], ["a", ">"];
    assert open[1..] == [] && closed[1..] == [">"] && closed[..1] == ["a"];
    assert OneShort(open, closed);
    OverlapVersusBus(open, closed);
  }

  /** Known patterns: what a star takes and what an arrow takes. */
  lemma {:induction false} KnownPatterns()
    ensures TokensOverlap(["a", "*"], ["*", "b"]) && !TokensOverlap(["a", "b"], ["a", "c"])
    ensures !TokensOverlap(["a", "*"], ["a"]) && TokensOverlap(["a", ">"], ["a", "b", "c"])
    ensures Matches(["a", "*"], ["a", "b"], 1) && !Matches(["a", "*"], ["a", "b", "c"], 1)
    ensures Matches(["a", ">"], ["a", "b", "c"], 1) && !Matches(["a", ">"], ["a"], 1)
  {
    var star, pair, arrow := ["a", "*"], ["a", "b"], ["a", ">"];
    assert star[1..] == ["*"] && pair[1..] == ["b"] && arrow[1..] == [">"] && ["*", "b"][1..] == ["b"];
    assert ["a", "c"][1..] == ["c"] && ["a", "b", "c"][1..] == ["b", "c"] && ["a"][1..] == [];
    assert ["*"][1..] == [] && ["b"][1..] == [] && ["b", "c"][1..] == ["c"] && ["c"][1..] == [];
  }

  // ---------- merging subject lists ----------

  /** The list without repeats, each value at its first place. */
  function Distinct(subjects: seq<string>): seq<string> {
    if subjects == [] then []
    else
      var rest := Distinct(subjects[..|subjects| - 1]);
      var last := subjects[|subjects| - 1];
      if last in rest then rest else rest + [last]
  }

  method MergeSubjects(existing: seq<string>, required: seq<string>) returns (merged: seq<string>)
    ensures merged == Distinct(existing + required)
  {
    merged := [];
    var seen: set<string> := {};
    var all := existing + required;
    for i := 0 to |existing|
      invariant merged == Distinct(all[..i])
      invariant seen == set x | x in merged
    {
      assert all[..i + 1][..i] == all[..i];
      if existing[i] !in seen {
        seen := seen + {existing[i]};
        merged := merged + [existing[i]];
      }
    }
    for i := 0 to |required|
      invariant merged == Distinct(all[..|existing| + i])
      invariant seen == set x | x in merged
    {
      assert all[..|existing| + i + 1][..|existing| + i] == all[..|existing| + i];
      if required[i] !in seen {
        seen := seen + {required[i]};
        merged := merged + [required[i]];
      }
    }
    assert all[..|all|] == all;
  }

  /** Nothing is lost, nothing is added, nothing is repeated, and first occurrences keep their order. */
  lemma {:induction false} DistinctIsSound(subjects: seq<string>)
    ensures forall x :: x in Distinct(subjects) <==> x in subjects
    ensures forall i, j :: 0 <= i < j < |Distinct(subjects)| ==> Distinct(subjects)[i] != Distinct(subjects)[j]
    ensures forall i, j :: 0 <= i < j < |Distinct(subjects)| ==>
              FirstIndex(subjects, Distinct(subjects)[i]) < FirstIndex(subjects, Distinct(subjects)[j])
  {
    if subjects != [] {
      var n := |subjects| - 1;
      var front := subjects[..n];
      assert subjects == front + [subjects[n]];
      DistinctIsSound(front);
      forall x | x in front ensures FirstIndex(subjects, x) == FirstIndex(front, x) < n {
        FirstIndexOfPrefix(front, subjects[n], x);
      }
      if subjects[n] !in front {
        FirstIndexOfNew(front, subjects[n]);
      }
    }
  }

  /** The first place of a value, or the length when it is absent. */
  function FirstIndex(s: seq<string>, x: string): (k: nat)
    ensures k <= |s| && (k < |s| ==> s[k] == x) && x !in s[..k]
  {
    if s == [] || s[0] == x then 0
    else
      var k := FirstIndex(s[1..], x) + 1;
      assert s[..k] == [s[0]] + s[1..][..k - 1];
      k
  }

  lemma {:induction false} FirstIndexOfPrefix(s: seq<string>, last: string, x: string)
    requires x in s
    ensures FirstIndex(s + [last], x) == FirstIndex(s, x) < |s|
  {
    if s[0] != x {
      assert (s + [last])[1..] == s[1..] + [last];
      FirstIndexOfPrefix(s[1..], last, x);
    }
  }

  lemma {:induction false} FirstIndexOfNew(s: seq<string>, last: string)
    requires last !in s
    ensures FirstIndex(s + [last], last) == |s|
  {
    if s != [] {
      assert (s + [last])[1..] == s[1..] + [last];
      FirstIndexOfNew(s[1..], last);
    }
  }

  /** Widening a stream keeps every subject it captured and captures every required one. */
  lemma MergedCovers(existing: seq<string>, required: seq<string>, subject: seq<Token>, least: nat)
    ensures (exists p :: p in Distinct(existing + required) && Matches(Split(p, '.'), subject, least)) <==>
            (exists p :: p in existing && Matches(Split(p, '.'), subject, least)) ||
            (exists p :: p in required && Matches(Split(p, '.'), subject, least))
  {
    DistinctIsSound(existing + required);
  }
}
