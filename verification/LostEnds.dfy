/** A run in which the end of a request is lost. */
module LostEnds {
  import opened Timestamps
  import opened Subjects
  import opened Store
  import opened Pipeline
  import opened JobSafety
  import opened DoneEvents

  /** The end of a request and an answer to it, both addressed to the processor, with keys of their own. */
  ghost predicate EndAndAnswer(cfg: Config, p: nat, end: Event, answer: Event) {
    && p in cfg.processors && MatchesCapture(cfg.processors[p], end) && MatchesCapture(cfg.processors[p], answer)
    && end.kind == AgentDone && answer.kind == LlmResponse && end.request == answer.request
    && EventKey(cfg, end) != "" && EventKey(cfg, answer) != "" && EventKey(cfg, end) != EventKey(cfg, answer)
    && AssistantText(cfg, answer) != ""
  }

  lemma EndAndAnswerParts(cfg: Config, p: nat, end: Event, answer: Event)
    requires EndAndAnswer(cfg, p, end, answer)
    ensures p in cfg.processors && MatchesCapture(cfg.processors[p], end) && MatchesCapture(cfg.processors[p], answer)
    ensures end.kind == AgentDone && answer.kind == LlmResponse
    ensures EventKey(cfg, end) != "" && EventKey(cfg, answer) != "" && EventKey(cfg, end) != EventKey(cfg, answer)
  {
    hide MatchesCapture, EventKey, AssistantText;
  }

  /** One more step of a run that has reached a known state. */
  lemma Reached(cfg: Config, front: seq<Action>, a: Action, s: State, s': State)
    requires Legal(cfg, front) && Run(cfg, front) == s && Enabled(cfg, s, a) && s' == Next(cfg, s, a)
    ensures Legal(cfg, front + [a]) && Run(cfg, front + [a]) == s'
  {
    assert (front + [a])[..|front|] == front;
    hide Next, Enabled;
  }

  lemma TakenUp(cfg: Config, s: State, h: nat, p: nat, e: Event)
    requires p in cfg.processors && MatchesCapture(cfg.processors[p], e) && EventKey(cfg, e) != ""
    requires h !in s.handlers && !EventKeyTaken(s.t, EventKey(cfg, e))
    ensures
      var mid := Next(cfg, s, Deliver(h, p, e));
      var end := Next(cfg, mid, Record(h, s.clock));
      && Enabled(cfg, s, Deliver(h, p, e)) && Enabled(cfg, mid, Record(h, s.clock))
      && end.t == Recorded(s.t, EventOf(InputOf(cfg, cfg.processors[p], e), s.clock)) && end.clock == s.clock
      && end.handlers == s.handlers[h := if e.kind == AgentDone then Waiting(p, e, s.t.lastEvent + 1) else Over]
  {
    hide MatchesCapture, EventKey, EventOf, InputOf, EventKeyTaken;
    var mid := Next(cfg, s, Deliver(h, p, e));
    assert mid.handlers == s.handlers[h := Received(p, e)] && mid.t == s.t && mid.clock == s.clock;
    assert Accepts(cfg, mid.t, cfg.processors[p], e);
  }

  lemma RowsOf(cfg: Config, p: nat, end: Event, answer: Event, now: Instant)
    requires EndAndAnswer(cfg, p, end, answer) && p in cfg.processors
    ensures
      var c, r := cfg.processors[p].capture, end.request;
      var first := EventOf(InputOf(cfg, cfg.processors[p], end), now);
      var second := EventOf(InputOf(cfg, cfg.processors[p], answer), now);
      && first.key == EventKey(cfg, end) && second.key == EventKey(cfg, answer)
      && !Answers(first, c, r) && Answers(second, c, r)
  {
    hide Format, EventKey, AssistantText, MatchesCapture;
  }

  /** The end is recorded and in nobody's hands, an answer to it is there, and there is no job. */
  ghost predicate LostIn(cfg: Config, s: State, p: nat, end: Event)
    requires p in cfg.processors
  {
    && EventKeyTaken(s.t, EventKey(cfg, end)) && !Owned(cfg, s, EventKey(cfg, end)) && s.t.jobs == map[]
    && exists id :: id in s.t.events && Answers(s.t.events[id], cfg.processors[p].capture, end.request)
  }

  /**
    * A run in which an end is lost: it is delivered and recorded, nobody answers in time, and the answer comes a
    * moment later.
    */
  lemma LostEndRun(cfg: Config, p: nat, end: Event, answer: Event) returns (actions: seq<Action>)
    requires EndAndAnswer(cfg, p, end, answer)
    ensures actions ==
        [Deliver(0, p, end), Record(0, cfg.start), Timeout(0), Deliver(1, p, answer), Record(1, cfg.start)]
    ensures Legal(cfg, actions) && p in cfg.processors && LostIn(cfg, Run(cfg, actions), p, end)
  {
    hide *;
    var now := cfg.start;
    EndAndAnswerParts(cfg, p, end, answer);
    var first, s1, s2, s3 := EndTimesOut(cfg, p, end, answer);
    var s4, s5 := AnswerComesLate(cfg, p, end, answer, first, s3);
    NothingRun(cfg);
    var r1 := [] + [Deliver(0, p, end)];
    var r2 := r1 + [Record(0, now)];
    var r3 := r2 + [Timeout(0)];
    var r4 := r3 + [Deliver(1, p, answer)];
    Reached(cfg, [], Deliver(0, p, end), Init(cfg), s1);
    Reached(cfg, r1, Record(0, now), s1, s2);
    Reached(cfg, r2, Timeout(0), s2, s3);
    Reached(cfg, r3, Deliver(1, p, answer), s3, s4);
    Reached(cfg, r4, Record(1, now), s4, s5);
    actions := r4 + [Record(1, now)];
  }

  lemma NothingRun(cfg: Config)
    ensures Legal(cfg, []) && Run(cfg, []) == Init(cfg)
  {
  }

  /** The end is recorded and its handler times out: only its row is left. */
  lemma EndTimesOut(cfg: Config, p: nat, end: Event, answer: Event)
    returns (first: EventRow, s1: State, s2: State, s3: State)
    requires EndAndAnswer(cfg, p, end, answer)
    ensures first == EventOf(InputOf(cfg, cfg.processors[p], end), cfg.start)
    ensures Enabled(cfg, Init(cfg), Deliver(0, p, end)) && s1 == Next(cfg, Init(cfg), Deliver(0, p, end))
    ensures Enabled(cfg, s1, Record(0, cfg.start)) && s2 == Next(cfg, s1, Record(0, cfg.start))
    ensures Enabled(cfg, s2, Timeout(0)) && s3 == Next(cfg, s2, Timeout(0))
    ensures s3.t.events == map[1 := first] && s3.t.lastEvent == 1 && s3.t.jobs == map[]
    ensures s3.handlers == map[0 := Over] && s3.clock == cfg.start
  {
    hide *;
    EndAndAnswerParts(cfg, p, end, answer);
    RowsOf(cfg, p, end, answer, cfg.start);
    first := EventOf(InputOf(cfg, cfg.processors[p], end), cfg.start);
    NobodyYet(cfg, end);
    FirstRow(first);
    TakenUp(cfg, Init(cfg), 0, p, end);
    s1 := Next(cfg, Init(cfg), Deliver(0, p, end));
    s2 := Next(cfg, s1, Record(0, cfg.start));
    s3 := TimedOut(cfg, s2, 0);
  }

  lemma NobodyYet(cfg: Config, e: Event)
    ensures var s := Init(cfg);
            s.t == EMPTY && s.handlers == map[] && s.clock == cfg.start && !EventKeyTaken(s.t, EventKey(cfg, e))
  {
    hide EventKey;
  }

  /** The answer is recorded when nobody waits for it any more. */
  lemma AnswerComesLate(cfg: Config, p: nat, end: Event, answer: Event, first: EventRow, s: State)
    returns (s4: State, s5: State)
    requires EndAndAnswer(cfg, p, end, answer) && first == EventOf(InputOf(cfg, cfg.processors[p], end), cfg.start)
    requires s.t.events == map[1 := first] && s.t.lastEvent == 1 && s.t.jobs == map[]
    requires s.handlers == map[0 := Over] && s.clock == cfg.start
    ensures Enabled(cfg, s, Deliver(1, p, answer)) && s4 == Next(cfg, s, Deliver(1, p, answer))
    ensures Enabled(cfg, s4, Record(1, cfg.start)) && s5 == Next(cfg, s4, Record(1, cfg.start))
    ensures LostIn(cfg, s5, p, end)
  {
    hide *;
    EndAndAnswerParts(cfg, p, end, answer);
    RowsOf(cfg, p, end, answer, cfg.start);
    var second := EventOf(InputOf(cfg, cfg.processors[p], answer), cfg.start);
    SecondRow(s.t, first, second);
    KeyIsFree(s.t, first, EventKey(cfg, answer));
    TakenUp(cfg, s, 1, p, answer);
    s4 := Next(cfg, s, Deliver(1, p, answer));
    s5 := Next(cfg, s4, Record(1, cfg.start));
    LostThen(cfg, p, end, first, second, s5);
  }

  lemma KeyIsFree(t: Tables, first: EventRow, key: string)
    requires t.events == map[1 := first] && first.key != key
    ensures !EventKeyTaken(t, key)
  {
  }

  lemma LostThen(cfg: Config, p: nat, end: Event, first: EventRow, second: EventRow, s: State)
    requires p in cfg.processors && first.key == EventKey(cfg, end)
    requires Answers(second, cfg.processors[p].capture, end.request)
    requires s.t.events == map[1 := first, 2 := second] && s.t.jobs == map[]
    requires s.handlers == map[0 := Over][1 := Over]
    ensures LostIn(cfg, s, p, end)
  {
    hide EventKey, Answers;
    assert s.t.events[1].key == EventKey(cfg, end) && s.t.events[2] == second;
  }

  lemma FirstRow(first: EventRow)
    ensures var t := Recorded(EMPTY, first); t.events == map[1 := first] && t.lastEvent == 1 && t.jobs == map[]
  {
  }

  lemma SecondRow(t: Tables, first: EventRow, second: EventRow)
    requires t.events == map[1 := first] && t.lastEvent == 1 && first.key != second.key
    ensures var t' := Recorded(t, second); t'.events == map[1 := first, 2 := second] && t'.jobs == t.jobs
  {
  }

  lemma TimedOut(cfg: Config, s: State, h: nat) returns (after: State)
    requires h in s.handlers && s.handlers[h].Waiting? && s.handlers[h].processor in cfg.processors
    requires forall k :: k in s.t.events ==>
                           !Answers(s.t.events[k], cfg.processors[s.handlers[h].processor].capture,
                             s.handlers[h].event.request)
    ensures Enabled(cfg, s, Timeout(h)) && after == Next(cfg, s, Timeout(h))
    ensures after.t == s.t && after.clock == s.clock && after.handlers == s.handlers[h := Over]
  {
    hide Answers;
    after := Next(cfg, s, Timeout(h));
  }
}
