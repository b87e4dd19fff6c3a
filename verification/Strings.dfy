/** The parts of Go's `strings` package that the pipeline relies on, over ASCII text. */
module Strings {

  datatype Option<+T> = None | Some(value: T)

  /** The ASCII characters that `strings.TrimSpace` removes. */
  predicate IsSpace(c: char) {
    c == ' ' || c == '\t' || c == '\n' || c == '\U{000B}' || c == '\U{000C}' || c == '\r'
  }

  predicate Blank(s: string) {
    forall i :: 0 <= i < |s| ==> IsSpace(s[i])
  }

  predicate Trimmed(s: string) {
    s == "" || (!IsSpace(s[0]) && !IsSpace(s[|s| - 1]))
  }

  /** The length of the longest blank prefix. */
  function Lead(s: string): (k: nat)
    ensures k <= |s| && Blank(s[..k])
    ensures k < |s| ==> !IsSpace(s[k])
  {
    if s != "" && IsSpace(s[0]) then
      var k := Lead(s[1..]) + 1;
      assert s[..k] == [s[0]] + s[1..][..k - 1];
      k
    else 0
  }

  /** The length of what is left without the longest blank suffix. */
  function Core(s: string): (n: nat)
    ensures n <= |s| && Blank(s[n..])
    ensures n > 0 ==> !IsSpace(s[n - 1])
  {
    if s != "" && IsSpace(s[|s| - 1]) then
      var n := Core(s[..|s| - 1]);
      assert s[n..] == s[..|s| - 1][n..] + [s[|s| - 1]];
      n
    else |s|
  }

  function TrimLeft(s: string): string {
    s[Lead(s)..]
  }

  function TrimRight(s: string): string {
    s[..Core(s)]
  }

  /** `strings.TrimSpace`. */
  function Trim(s: string): (r: string)
    ensures Trimmed(r) && |r| <= |s|
  {
    TrimRight(TrimLeft(s))
  }

  /** Trimming removes one blank run on each side and nothing else. */
  lemma {:induction false} TrimSplits(s: string) returns (left: string, right: string)
    ensures s == left + Trim(s) + right && Blank(left) && Blank(right)
  {
    var t := TrimLeft(s);
    left, right := s[..Lead(s)], t[Core(t)..];
  }

  lemma {:induction false} TrimFixed(s: string)
    requires Trimmed(s)
    ensures Trim(s) == s
  {
  }

  lemma {:induction false} TrimLeftSkips(left: string, s: string)
    requires Blank(left)
    ensures TrimLeft(left + s) == TrimLeft(s)
  {
    if left == "" {
      assert left + s == s;
    } else {
      assert (left + s)[1..] == left[1..] + s;
      TrimLeftSkips(left[1..], s);
      assert Lead(left + s) == Lead(left[1..] + s) + 1;
      assert (left + s)[Lead(left + s)..] == (left + s)[1..][Lead(left[1..] + s)..];
    }
  }

  lemma {:induction false} TrimRightSkips(s: string, right: string)
    requires Blank(right)
    ensures TrimRight(s + right) == TrimRight(s)
  {
    if right == "" {
      assert s + right == s;
    } else {
      var n := |right| - 1;
      assert (s + right)[..|s + right| - 1] == s + right[..n];
      TrimRightSkips(s, right[..n]);
      assert Core(s + right) == Core(s + right[..n]);
      assert (s + right)[..Core(s + right)] == (s + right[..n])[..Core(s + right)];
    }
  }

  /** The blanks around a core whose ends are not blank are exactly what trimming removes. */
  lemma {:induction false} TrimCore(left: string, core: string, right: string)
    requires Blank(left) && Blank(right) && Trimmed(core)
    ensures Trim(left + core + right) == core
  {
    if core == "" {
      assert left + core + right == left + right;
      TrimLeftSkips(left, right);
      TrimLeftSkips(right, "");
      assert right + "" == right;
    } else {
      assert left + core + right == left + (core + right);
      TrimLeftSkips(left, core + right);
      assert (core + right)[0] == core[0];
      assert TrimLeft(core + right) == core + right;
      TrimRightSkips(core, right);
    }
  }

  /** The six blanks go at both ends, and inner ones stay. */
  lemma {:induction false} KnownTrim()
    ensures Trim("\t\n\U{000B}\U{000C}\r Hi there \r\U{000C}\U{000B}\n\t") == "Hi there"
  {
    var left, right := "\t\n\U{000B}\U{000C}\r ", " \r\U{000C}\U{000B}\n\t";
    TrimCore(left, "Hi there", right);
    hide Trim;
    assert left + "Hi there" + right == "\t\n\U{000B}\U{000C}\r Hi there \r\U{000C}\U{000B}\n\t";
  }

  function Concat(parts: seq<string>): string {
    if parts == [] then "" else parts[0] + Concat(parts[1..])
  }

  lemma {:induction false} ConcatAppend(a: seq<string>, b: seq<string>)
    ensures Concat(a + b) == Concat(a) + Concat(b)
  {
    if a == [] {
      assert a + b == b;
    } else {
      ConcatAppend(a[1..], b);
      assert (a + b)[0] == a[0] && (a + b)[1..] == a[1..] + b;
    }
  }

  /** `strings.Join`. */
  function Join(parts: seq<string>, sep: string): string {
    if parts == [] then "" else if |parts| == 1 then parts[0] else parts[0] + sep + Join(parts[1..], sep)
  }

  /** `strings.Split` on a one-byte separator. */
  function Split(s: string, sep: char): (parts: seq<string>)
    ensures parts != []
    ensures forall i :: 0 <= i < |parts| ==> sep !in parts[i]
  {
    if s == "" then [""]
    else
      var rest := Split(s[1..], sep);
      if s[0] == sep then [""] + rest else [[s[0]] + rest[0]] + rest[1..]
  }

  lemma {:induction false} SplitAppend(a: string, b: string, sep: char)
    ensures Split(a + [sep] + b, sep) == Split(a, sep) + Split(b, sep)
  {
    var s := a + [sep] + b;
    if a == "" {
      assert s[1..] == b;
    } else {
      assert s[1..] == a[1..] + [sep] + b;
      SplitAppend(a[1..], b, sep);
    }
  }

  lemma {:induction false} SplitWhole(s: string, sep: char)
    requires sep !in s
    ensures Split(s, sep) == [s]
  {
    if s != "" {
      SplitWhole(s[1..], sep);
      assert [s[0]] + s[1..] == s;
    }
  }

  /** Splitting undoes joining when no part holds the separator. */
  lemma {:induction false} SplitJoin(parts: seq<string>, sep: char)
    requires parts != [] && forall i :: 0 <= i < |parts| ==> sep !in parts[i]
    ensures Split(Join(parts, [sep]), sep) == parts
  {
    SplitWhole(parts[0], sep);
    if |parts| > 1 {
      SplitJoin(parts[1..], sep);
      SplitAppend(parts[0], Join(parts[1..], [sep]), sep);
    }
  }

  /** Joining separator-free parts is injective, so an injective hash of the joined text identifies them. */
  lemma {:induction false} JoinInjective(a: seq<string>, b: seq<string>, sep: char)
    requires a != [] && forall i :: 0 <= i < |a| ==> sep !in a[i]
    requires b != [] && forall i :: 0 <= i < |b| ==> sep !in b[i]
    requires Join(a, [sep]) == Join(b, [sep])
    ensures a == b
  {
    SplitJoin(a, sep);
    SplitJoin(b, sep);
  }
}
