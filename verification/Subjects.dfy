/** Which bus subject an event is published on, and which stream pattern delivers it. */
module Subjects {
  import opened Strings
  import opened Bus

  datatype EventKind =
    | RegistryOnline | RegistryOffline
    | AgentWaiting | AgentBusy | AgentTooling | AgentDone | AgentError
    | LlmRequest | LlmResponse
    | ToolCall | ToolResult
    | Unknown(name: string)

  /** The fixed part of each subject the stream carries, as tokens. */
  function Stem(route: nat): (stem: seq<Token>)
    requires route < 7
  {
    match route
    case 0 => ["nexis", "registry", "online"]
    case 1 => ["nexis", "registry", "offline"]
    case 2 => ["nexis", "agent", "state"]
    case 3 => ["nexis", "llm"]
    case 4 => ["nexis", "tool"]
    case 5 => ["nexis", "task", "trigger"]
    case _ => ["nexis", "system", "error"]
  }

  const REGISTRY_ONLINE := Join(Stem(0), ".")
  const REGISTRY_OFFLINE := Join(Stem(1), ".")
  const AGENT_STATE := Join(Stem(2), ".")
  const LLM := Join(Stem(3), ".")
  const TOOL := Join(Stem(4), ".")
  const TASK_TRIGGER := Join(Stem(5), ".")
  const SYSTEM_ERROR := Join(Stem(6), ".")

  function SubjectForEvent(kind: EventKind, provider: string, role: string): string {
    match kind
    case RegistryOnline => REGISTRY_ONLINE
    case RegistryOffline => REGISTRY_OFFLINE
    case AgentWaiting | AgentBusy | AgentTooling | AgentDone => AGENT_STATE + "." + role
    case LlmRequest => LLM + "." + (provider + "." + (role + "." + "request"))
    case LlmResponse => LLM + "." + (provider + "." + (role + "." + "response"))
    case ToolCall => TOOL + "." + (provider + "." + (role + "." + "call"))
    case ToolResult => TOOL + "." + (provider + "." + (role + "." + "result"))
    case AgentError | Unknown(_) => if role != "" then SYSTEM_ERROR + "." + role else SYSTEM_ERROR
  }

  function StreamSubjects(): seq<string> {
    [REGISTRY_ONLINE, REGISTRY_OFFLINE, AGENT_STATE + ".>", LLM + ".>", TOOL + ".>", TASK_TRIGGER, SYSTEM_ERROR + ".>"]
  }

  /** What separates the fields of a publish command. */
  predicate Separator(c: char) {
    c == ' ' || c == '\t' || c == '\r' || c == '\n'
  }

  predicate Spaced(s: string) {
    exists i :: 0 <= i < |s| && Separator(s[i])
  }

  /** The text cannot stand in a subject: it has an empty token or a field separator. */
  predicate Unsendable(s: string) {
    "" in Split(s, '.') || Spaced(s)
  }

  /**
    * The bus's own rule: a subject with a separator in it breaks the publish command, one with an empty token is
    * routed nowhere, and a final `>` takes one or more. A published `*` or `>` is a token like any other.
    */
  predicate Delivers(pattern: string, subject: string) {
    !Unsendable(subject) && Matches(Split(pattern, '.'), Split(subject, '.'), 1)
  }

  /** How many subscriptions of the list fire for a subject. */
  function Deliveries(patterns: seq<string>, subject: string): nat {
    if patterns == [] then 0 else (if Delivers(patterns[0], subject) then 1 else 0) + Deliveries(patterns[1..], subject)
  }

  /** An error event without a role is published on the bare error subject, which no pattern covers. */
  predicate Unrouted(kind: EventKind, role: string) {
    (kind.AgentError? || kind.Unknown?) && role == ""
  }

  /**
    * The kind's subject shows a provider or role that cannot stand in it: one that is empty, begins or ends
    * with a dot, has two dots in a row, or has white space in it.
    */
  predicate Broken(kind: EventKind, provider: string, role: string) {
    match kind
    case RegistryOnline | RegistryOffline => false
    case AgentWaiting | AgentBusy | AgentTooling | AgentDone => Unsendable(role)
    case LlmRequest | LlmResponse | ToolCall | ToolResult => Unsendable(provider) || Unsendable(role)
    case AgentError | Unknown(_) => role != "" && Unsendable(role)
  }

  /** Where the pattern for a kind of event stands in the stream's list. */
  function Route(kind: EventKind): nat {
    match kind
    case RegistryOnline => 0
    case RegistryOffline => 1
    case AgentWaiting | AgentBusy | AgentTooling | AgentDone => 2
    case LlmRequest | LlmResponse => 3
    case ToolCall | ToolResult => 4
    case AgentError | Unknown(_) => 6
  }

  predicate OpenEnded(route: nat) {
    route in {2, 3, 4, 6}
  }

  lemma StemSplits(route: nat)
    requires route < 7
    ensures Split(Join(Stem(route), "."), '.') == Stem(route)
    ensures forall i :: 0 <= i < |Stem(route)| ==> Stem(route)[i] != "*" && Stem(route)[i] != ">"
  {
    assert forall i :: 0 <= i < |Stem(route)| ==> '.' !in Stem(route)[i];
    SplitJoin(Stem(route), '.');
  }

  lemma PatternTokens(route: nat)
    requires route < 7
    ensures Split(StreamSubjects()[route], '.') == Stem(route) + (if OpenEnded(route) then [">"] else [])
  {
    StemSplits(route);
    if OpenEnded(route) {
      SplitWhole(">", '.');
      assert StreamSubjects()[route] == Join(Stem(route), ".") + ['.'] + ">";
      SplitAppend(Join(Stem(route), "."), ">", '.');
    }
  }

  lemma SubjectTokens(kind: EventKind, provider: string, role: string) returns (rest: seq<Token>)
    ensures Split(SubjectForEvent(kind, provider, role), '.') == Stem(Route(kind)) + rest
    ensures rest == [] <==> Unrouted(kind, role) || !OpenEnded(Route(kind))
    ensures "" in rest || Spaced(SubjectForEvent(kind, provider, role)) <==> Broken(kind, provider, role)
  {
    StemIsPlain(Route(kind));
    StemSplits(Route(kind));
    var stem := Join(Stem(Route(kind)), ".");
    var tail := SubjectTail(kind, provider, role);
    if !OpenEnded(Route(kind)) || Unrouted(kind, role) {
      hide Join, Split, Stem, SubjectForEvent, Spaced;
      rest := [];
      assert Stem(Route(kind)) + rest == Stem(Route(kind));
    } else {
      hide Join, Split, Stem, SubjectForEvent, Route, OpenEnded, Unrouted, Broken, Spaced;
      SpacedSum(stem, tail);
      SplitAppend(stem, tail, '.');
      rest := Split(tail, '.');
    }
  }

  lemma SpacedSum(a: string, b: string)
    ensures Spaced(a + ['.'] + b) <==> Spaced(a) || Spaced(b)
  {
    var all := a + ['.'] + b;
    assert forall i :: 0 <= i < |a| ==> all[i] == a[i];
    assert forall i :: 0 <= i < |b| ==> all[|a| + 1 + i] == b[i];
    assert forall i :: |a| < i < |all| ==> all[i] == b[i - |a| - 1];
  }

  /** The fixed part of a subject has no separators. */
  lemma StemIsPlain(route: nat)
    requires route < 7
    ensures !Spaced(Join(Stem(route), "."))
  {
    assert forall i :: 0 <= i < |Stem(route)| ==> !Spaced(Stem(route)[i]);
    JoinIsPlain(Stem(route));
  }

  lemma {:induction false} JoinIsPlain(parts: seq<string>)
    requires forall i :: 0 <= i < |parts| ==> !Spaced(parts[i])
    ensures !Spaced(Join(parts, "."))
  {
    if |parts| > 1 {
      JoinIsPlain(parts[1..]);
      SpacedSum(parts[0], Join(parts[1..], "."));
      assert "." == ['.'];
    }
  }

  /** A tail of provider, role and word can be sent exactly when provider and role can. */
  lemma TailTokens(provider: string, role: string, word: string)
    requires word != "" && '.' !in word && !Spaced(word)
    ensures Unsendable(provider + "." + (role + "." + word)) <==> Unsendable(provider) || Unsendable(role)
  {
    SplitAppend(provider, role + "." + word, '.');
    SplitAppend(role, word, '.');
    SplitWhole(word, '.');
    SpacedSum(provider, role + "." + word);
    SpacedSum(role, word);
    hide Split, Spaced;
    assert "." == ['.'];
  }

  lemma WordsArePlain()
    ensures !Spaced("request") && !Spaced("response") && !Spaced("call") && !Spaced("result")
  {
  }

  /** What follows the fixed part of a subject, if anything does. */
  lemma SubjectTail(kind: EventKind, provider: string, role: string) returns (tail: string)
    ensures
      var stem := Join(Stem(Route(kind)), ".");
      SubjectForEvent(kind, provider, role) ==
      if !OpenEnded(Route(kind)) || Unrouted(kind, role) then stem else stem + ['.'] + tail
    ensures OpenEnded(Route(kind)) && !Unrouted(kind, role) ==>
              (Unsendable(tail) <==> Broken(kind, provider, role))
  {
    WordsArePlain();
    TailTokens(provider, role, "request");
    TailTokens(provider, role, "response");
    TailTokens(provider, role, "call");
    TailTokens(provider, role, "result");
    hide Join, Stem, Split, Unsendable;
    tail := match kind
      case LlmRequest => provider + "." + (role + "." + "request")
      case LlmResponse => provider + "." + (role + "." + "response")
      case ToolCall => provider + "." + (role + "." + "call")
      case ToolResult => provider + "." + (role + "." + "result")
      case _ => role;
    assert "." == ['.'];
  }

  lemma {:induction false} LiteralPrefix(stem: seq<Token>, tail: Pattern, subject: seq<Token>)
    requires forall i :: 0 <= i < |stem| ==> stem[i] != "*" && stem[i] != ">"
    ensures Matches(stem + tail, subject, 1) <==> stem <= subject && Matches(tail, subject[|stem|..], 1)
  {
    if stem == [] {
      assert stem + tail == tail;
    } else if subject != [] && subject[0] == stem[0] {
      assert (stem + tail)[1..] == stem[1..] + tail;
      LiteralPrefix(stem[1..], tail, subject[1..]);
      assert stem <= subject <==> stem[1..] <= subject[1..] by {
        assert stem == [stem[0]] + stem[1..] && subject == [subject[0]] + subject[1..];
      }
      assert stem[1..] <= subject[1..] ==> subject[1..][|stem| - 1..] == subject[|stem|..];
    }
  }

  lemma StemsDiffer(route: nat, other: nat, rest: seq<Token>)
    requires route < 7 && other < 7 && route != other
    ensures !(Stem(route) <= Stem(other) + rest)
  {
    assert Stem(route)[1] != Stem(other)[1] || (Stem(route)[2] != Stem(other)[2] && route < 2 && other < 2) by {
      assert |"registry"| == 8 && |"agent"| == 5 && |"llm"| == 3 && |"tool"| == |"task"| == 4 && |"system"| == 6;
      assert "tool"[1] != "task"[1];
      assert |"online"| == 6 && |"offline"| == 7;
    }
  }

  /** A pattern made of a stem, possibly ending in `>`, takes only subjects with that stem. */
  lemma StemMatches(route: nat, other: nat, rest: seq<Token>)
    requires route < 7 && other < 7 && (!OpenEnded(other) ==> rest == [])
    ensures Matches(Stem(route) + (if OpenEnded(route) then [">"] else []), Stem(other) + rest, 1) <==>
            route == other && (OpenEnded(route) ==> rest != [])
  {
    StemSplits(route);
    LiteralPrefix(Stem(route), if OpenEnded(route) then [">"] else [], Stem(other) + rest);
    if route == other {
      assert (Stem(other) + rest)[|Stem(route)|..] == rest;
    } else {
      StemsDiffer(route, other, rest);
    }
  }

  lemma StemHasTokens(route: nat)
    requires route < 7
    ensures "" !in Stem(route)
  {
    assert forall i :: 0 <= i < |Stem(route)| ==> |Stem(route)[i]| > 0;
  }

  /**
    * Each event reaches exactly the one pattern of its kind; the only events that reach none are errors
    * (or unknown kinds) without a role, and those whose provider or role breaks the subject.
    */
  lemma {:induction false} ExactlyOneRoute(kind: EventKind, provider: string, role: string, route: nat)
    requires route < 7
    ensures Delivers(StreamSubjects()[route], SubjectForEvent(kind, provider, role)) <==>
            route == Route(kind) && !Unrouted(kind, role) && !Broken(kind, provider, role)
  {
    var rest := SubjectTokens(kind, provider, role);
    PatternTokens(route);
    StemMatches(route, Route(kind), rest);
    StemHasTokens(Route(kind));
    hide Split, Stem, Matches, StreamSubjects, SubjectForEvent, Broken, Spaced;
    assert "" in Stem(Route(kind)) + rest <==> "" in rest;
  }

  lemma {:induction false} DeliveriesOf(patterns: seq<string>, subject: string, from: nat, route: int)
    requires from <= |patterns|
    requires forall i :: from <= i < |patterns| ==> (Delivers(patterns[i], subject) <==> i == route)
    ensures Deliveries(patterns[from..], subject) == if from <= route < |patterns| then 1 else 0
    decreases |patterns| - from
  {
    hide Delivers;
    if from < |patterns| {
      assert patterns[from..][1..] == patterns[from + 1..];
      DeliveriesOf(patterns, subject, from + 1, route);
    }
  }

  /**
    * Subscribing once per stream pattern calls the handler once per event, and never twice; it is not called
    * exactly for role-less errors and broken subjects.
    */
  lemma {:induction false} HandledOnce(kind: EventKind, provider: string, role: string)
    ensures Deliveries(StreamSubjects(), SubjectForEvent(kind, provider, role)) ==
            if Unrouted(kind, role) || Broken(kind, provider, role) then 0 else 1
  {
    hide Delivers, Deliveries, Broken, Split, SubjectForEvent;
    var subject := SubjectForEvent(kind, provider, role);
    var route := if Unrouted(kind, role) || Broken(kind, provider, role) then -1 else Route(kind);
    assert |StreamSubjects()| == 7;
    forall i: nat | i < 7
      ensures Delivers(StreamSubjects()[i], subject) <==> i == route
    {
      ExactlyOneRoute(kind, provider, role, i);
    }
    DeliveriesOf(StreamSubjects(), subject, 0, route);
    assert StreamSubjects()[0..] == StreamSubjects();
  }

  /**
    * Concrete events that nobody handles: a done agent whose capture is named with a blank or not at all, and a
    * role with two dots in a row.
    */
  lemma LostEventsExample(provider: string)
    ensures Deliveries(StreamSubjects(), SubjectForEvent(AgentDone, provider, "my project")) == 0
    ensures Deliveries(StreamSubjects(), SubjectForEvent(AgentDone, provider, "")) == 0
    ensures Deliveries(StreamSubjects(), SubjectForEvent(LlmRequest, provider, "a..b")) == 0
  {
    assert "a..b" == "a" + ['.'] + ("" + ['.'] + "b");
    SplitAppend("a", "" + ['.'] + "b", '.');
    SplitAppend("", "b", '.');
    assert "" in Split("", '.');
    assert Spaced("my project") by { assert Separator("my project"[2]); }
    hide Split, Deliveries, Spaced;
    HandledOnce(AgentDone, provider, "my project");
    HandledOnce(AgentDone, provider, "");
    HandledOnce(LlmRequest, provider, "a..b");
  }

  // ---------- in plain text ----------

  predicate DotMisplaced(s: string, i: nat) {
    i < |s| && s[i] == '.' && (i == |s| - 1 || s[i + 1] == '.')
  }

  lemma {:induction false} EmptyTokenBehind(s: string)
    ensures "" in Split(s, '.')[1..] <==> exists i: nat :: DotMisplaced(s, i)
  {
    if s != "" {
      var t := s[1..];
      var rest := Split(t, '.');
      EmptyTokenBehind(t);
      FirstToken(t);
      assert forall i: nat :: DotMisplaced(t, i) ==> DotMisplaced(s, i + 1);
      assert forall i: nat :: DotMisplaced(s, i) && i > 0 ==> DotMisplaced(t, i - 1);
      if s[0] == '.' {
        assert Split(s, '.')[1..] == rest;
        assert rest == [rest[0]] + rest[1..];
        assert rest[0] == "" <==> DotMisplaced(s, 0);
      } else {
        assert Split(s, '.')[1..] == rest[1..];
        assert !DotMisplaced(s, 0);
      }
    }
  }

  lemma FirstToken(s: string)
    ensures Split(s, '.')[0] == "" <==> s == "" || s[0] == '.'
  {
  }

  /** What cannot stand in a subject: nothing, a dot at either end, two dots in a row, or white space. */
  lemma {:induction false} UnsendableMeans(s: string)
    ensures Unsendable(s) <==>
            || s == "" || s[0] == '.' || s[|s| - 1] == '.'
            || (exists i :: 0 <= i < |s| - 1 && s[i] == '.' && s[i + 1] == '.')
            || (exists i :: 0 <= i < |s| && (s[i] == ' ' || s[i] == '\t' || s[i] == '\r' || s[i] == '\n'))
  {
    EmptyTokenBehind(s);
    FirstToken(s);
    hide Split;
    assert Split(s, '.') == [Split(s, '.')[0]] + Split(s, '.')[1..];
    if exists i: nat :: DotMisplaced(s, i) {
      var i: nat :| DotMisplaced(s, i);
    }
    if s != "" && s[|s| - 1] == '.' {
      assert DotMisplaced(s, |s| - 1);
    }
    if i :| 0 <= i < |s| - 1 && s[i] == '.' && s[i + 1] == '.' {
      assert DotMisplaced(s, i);
    }
  }

  lemma JoinThree(a: string, b: string, c: string)
    ensures Join([a, b, c], ".") == a + "." + (b + "." + c)
  {
    assert [a, b, c][1..] == [b, c] && [b, c][1..] == [c];
    assert Join([b, c], ".") == b + "." + Join([c], ".");
  }

  lemma StemTexts()
    ensures REGISTRY_ONLINE == "nexis.registry.online" && REGISTRY_OFFLINE == "nexis.registry.offline"
    ensures AGENT_STATE == "nexis.agent.state" && LLM == "nexis.llm" && TOOL == "nexis.tool"
    ensures TASK_TRIGGER == "nexis.task.trigger" && SYSTEM_ERROR == "nexis.system.error"
  {
    hide Join;
    StemsAsText();
    JoinThree("nexis", "registry", "online");
    JoinThree("nexis", "registry", "offline");
    JoinThree("nexis", "agent", "state");
    JoinThree("nexis", "task", "trigger");
    JoinThree("nexis", "system", "error");
  }

  /** The subjects as they are written. */
  lemma {:induction false} KnownSubjects(provider: string, role: string)
    ensures SubjectForEvent(RegistryOnline, provider, role) == "nexis.registry.online"
    ensures SubjectForEvent(RegistryOffline, provider, role) == "nexis.registry.offline"
    ensures SubjectForEvent(LlmRequest, provider, role) == "nexis.llm." + provider + "." + role + ".request"
    ensures SubjectForEvent(LlmResponse, provider, role) == "nexis.llm." + provider + "." + role + ".response"
    ensures SubjectForEvent(ToolCall, provider, role) == "nexis.tool." + provider + "." + role + ".call"
    ensures SubjectForEvent(ToolResult, provider, role) == "nexis.tool." + provider + "." + role + ".result"
  {
    hide Join, Stem;
    StemTexts();
    assert LLM + "." + (provider + "." + (role + "." + "request")) ==
        "nexis.llm." + provider + "." + role + ".request";
    assert LLM + "." + (provider + "." + (role + "." + "response")) ==
        "nexis.llm." + provider + "." + role + ".response";
    assert TOOL + "." + (provider + "." + (role + "." + "call")) == "nexis.tool." + provider + "." + role + ".call";
    assert TOOL + "." + (provider + "." + (role + "." + "result")) == "nexis.tool." + provider + "." + role + ".result";
  }

  lemma {:induction false} StateSubjects(kind: EventKind, provider: string, role: string)
    ensures kind == AgentWaiting || kind == AgentBusy || kind == AgentTooling || kind == AgentDone ==>
              SubjectForEvent(kind, provider, role) == "nexis.agent.state." + role
    ensures kind == AgentError || kind.Unknown? ==>
              SubjectForEvent(kind, provider, role) ==
              if role == "" then "nexis.system.error" else "nexis.system.error." + role
  {
    hide Join, Stem;
    StemTexts();
    assert AGENT_STATE + "." + role == "nexis.agent.state." + role;
    assert SYSTEM_ERROR + "." + role == "nexis.system.error." + role;
  }

  lemma {:induction false} KnownPatterns()
    ensures StreamSubjects() ==
            [ "nexis.registry.online", "nexis.registry.offline", "nexis.agent.state.>", "nexis.llm.>", "nexis.tool.>",
              "nexis.task.trigger", "nexis.system.error.>"]
  {
    hide Join, Stem;
    StemTexts();
    assert AGENT_STATE + ".>" == "nexis.agent.state.>" && LLM + ".>" == "nexis.llm.>" && TOOL + ".>" == "nexis.tool.>";
    assert SYSTEM_ERROR + ".>" == "nexis.system.error.>";
  }

  // ---------- what a subject tells ----------

  lemma FirstDot(p: string, a: string)
    requires '.' !in p
    ensures (p + "." + a)[0] == '.' <==> p == ""
  {
    assert p != "" ==> p[0] in p;
  }

  lemma {:induction false} HeadTells(p: string, a: string, q: string, b: string)
    requires '.' !in p && '.' !in q && p + "." + a == q + "." + b
    ensures p == q && a == b
  {
    var s, t := p + "." + a, q + "." + b;
    assert s[0] == '.' <==> p == "" by { FirstDot(p, a); }
    assert t[0] == '.' <==> q == "" by { FirstDot(q, b); }
    if p == "" || q == "" {
      assert s[1..] == t[1..];
      assert "" + "." + a == "." + a && ("." + a)[1..] == a && ("." + b)[1..] == b;
    } else {
      assert s[0] == p[0] && t[0] == q[0];
      assert s[1..] == p[1..] + "." + a && t[1..] == q[1..] + "." + b;
      HeadTells(p[1..], a, q[1..], b);
      assert p == [p[0]] + p[1..] && q == [q[0]] + q[1..];
    }
  }

  /** The last word of the subject of a model or tool event. */
  function Word(kind: EventKind): string {
    match kind
    case LlmRequest => "request"
    case LlmResponse => "response"
    case ToolCall => "call"
    case ToolResult => "result"
    case _ => ""
  }

  predicate Worded(kind: EventKind) {
    Word(kind) != ""
  }

  lemma WordTells(r: string, k: EventKind, q: string, l: EventKind)
    requires Worded(k) && Worded(l) && Route(k) == Route(l)
    requires r + "." + Word(k) == q + "." + Word(l)
    ensures k == l && r == q
  {
    var s, t := r + "." + Word(k), q + "." + Word(l);
    assert s[|s| - 1] == Word(k)[|Word(k)| - 1] && t[|t| - 1] == Word(l)[|Word(l)| - 1];
    assert k == l;
    assert s[..|r|] == r && t[..|q|] == q;
  }

  lemma WordedSubject(kind: EventKind, provider: string, role: string)
    requires Worded(kind)
    ensures SubjectForEvent(kind, provider, role) ==
            (if Route(kind) == 3 then LLM else TOOL) + "." + (provider + "." + (role + "." + Word(kind)))
    ensures Route(kind) == 3 || Route(kind) == 4
  {
  }

  lemma StemsAsText()
    ensures LLM == "nexis.llm" && TOOL == "nexis.tool"
  {
    assert Stem(3)[1..] == ["llm"] && Stem(4)[1..] == ["tool"];
  }

  /**
    * The subject of a model or tool event tells its kind, provider and role, whatever dots the role holds,
    * as long as provider names hold none.
    */
  lemma SubjectIdentifies(k: EventKind, p: string, r: string, l: EventKind, q: string, o: string)
    requires Worded(k) && Worded(l) && '.' !in p && '.' !in q
    requires SubjectForEvent(k, p, r) == SubjectForEvent(l, q, o)
    ensures k == l && p == q && r == o
  {
    WordedSubject(k, p, r);
    WordedSubject(l, q, o);
    StemsAsText();
    hide SubjectForEvent, Join;
    var a, b := p + "." + (r + "." + Word(k)), q + "." + (o + "." + Word(l));
    var s := SubjectForEvent(k, p, r);
    assert s[6] == if Route(k) == 3 then 'l' else 't';
    assert s[6] == if Route(l) == 3 then 'l' else 't';
    assert s[(if Route(k) == 3 then 10 else 11)..] == a;
    assert s[(if Route(k) == 3 then 10 else 11)..] == b;
    HeadTells(p, r + "." + Word(k), q, o + "." + Word(l));
    WordTells(r, k, o, l);
  }
}
