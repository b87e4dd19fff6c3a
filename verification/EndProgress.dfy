/** What an answer and the end of its request can still come to, whatever has happened before. */
module EndProgress {
  import opened Strings
  import opened Timestamps
  import opened Subjects
  import opened Store
  import opened Pipeline
  import opened JobSafety
  import opened LostEnds
  import Progress

  // ---------- the query for the answer ----------

  /** One of finitely many answers comes before all others in the order of the query. */
  lemma {:induction false} LatestOf(events: map<nat, EventRow>, ids: set<nat>, a: nat) returns (m: nat)
    requires a in ids && ids <= events.Keys
    ensures m in ids && forall x :: x in ids && x != m ==> LaterEvent(events, m, x)
    decreases ids
  {
    hide RowBefore;
    m := a;
    if b: nat :| b in ids && b != a && LaterEvent(events, b, a) {
      m := LatestOf(events, ids - {a}, b);
      if m != b {
        LaterTransitive(events, m, b, a);
      }
      assert forall x :: x in ids && x != a ==> x in ids - {a};
    } else {
      forall x | x in ids && x != a ensures LaterEvent(events, a, x) {
        RowBeforeTotal(events[a].occurredAt, a, events[x].occurredAt, x);
      }
    }
  }

  /** A request with an answer has a latest one. */
  lemma SomeIsLatest(events: map<nat, EventRow>, capture: string, request: string, some: nat) returns (id: nat)
    requires some in events && Answers(events[some], capture, request)
    ensures IsLatest(events, capture, request, id)
  {
    hide LaterEvent, Answers;
    var ids := set k | k in events && Answers(events[k], capture, request);
    id := LatestOf(events, ids, some);
  }

  // ---------- single steps ----------

  lemma PollStep(cfg: Config, s: State, h: nat, found: nat)
    requires HandlerAt(s, h).Waiting? && HandlerAt(s, h).processor in cfg.processors
    requires IsLatest(s.t.events, cfg.processors[HandlerAt(s, h).processor].capture, HandlerAt(s, h).event.request,
                      found)
    ensures Enabled(cfg, s, Poll(h, Some(found))) && found in s.t.events && s.t.events[found].text.Some?
    ensures
      var w, s' := HandlerAt(s, h), Next(cfg, s, Poll(h, Some(found)));
      && s'.t == s.t && s'.clock == s.clock && s'.loops == s.loops
      && HandlerAt(s', h) == Ready(w.processor, w.event, w.record, found, s.t.events[found].text.value)
  {
    hide LaterEvent;
  }

  lemma CreateStep(cfg: Config, s: State, h: nat)
    requires HandlerAt(s, h).Ready? && HandlerAt(s, h).processor in cfg.processors
    ensures Enabled(cfg, s, Create(h, s.clock))
    ensures
      var r := HandlerAt(s, h);
      var p := cfg.processors[r.processor];
      Speaks(cfg, p, r.event.request, r.text) ==>
        Ordered(s.t, Next(cfg, s, Create(h, s.clock)).t, JobKey(cfg, p.capture, r.event.request, p.mode, p.backend))
  {
    hide Speaks, JobKey, SpeechFor, NextTables, NextHandlers, NextLoops, NextHistory, Ordered;
    var r := HandlerAt(s, h);
    CreateTables(cfg, s, h, s.clock);
    OrderRow(cfg, cfg.processors[r.processor], r, s.clock);
    NowHeld(s.t, OrderOf(cfg, cfg.processors[r.processor], r, s.clock));
  }

  lemma OrderRow(cfg: Config, p: Processor, r: Handler, at: Instant)
    requires r.Ready?
    ensures OrderOf(cfg, p, r, at).status == Queued
    ensures OrderOf(cfg, p, r, at).key == JobKey(cfg, p.capture, r.event.request, p.mode, p.backend)
  {
    hide JobKey, SpeechFor, Format;
  }

  /** A job with the key is there, and a queued one if there was none before. */
  ghost predicate Ordered(t: Tables, t': Tables, key: string) {
    && JobKeyTaken(t', key)
    && (!JobKeyTaken(t, key) ==> exists id :: IsQueued(t'.jobs, id) && t'.jobs[id].key == key)
  }

  lemma NowHeld(t: Tables, row: JobRow)
    requires row.status == Queued
    ensures Ordered(t, Enqueued(t, row), row.key)
  {
    var t' := Enqueued(t, row);
    if !JobKeyTaken(t, row.key) {
      assert IsQueued(t'.jobs, t.lastJob + 1) && t'.jobs[t.lastJob + 1].key == row.key;
    }
  }

  lemma HandlersKeepLoops(cfg: Config, s: State, a: Action)
    requires a.Deliver? || a.Record? || a.Poll? || a.Create?
    ensures Next(cfg, s, a).loops == s.loops
  {
    hide NextTables, NextHandlers, NextHistory;
  }

  lemma NewRow(t: Tables, row: EventRow)
    requires !EventKeyTaken(t, row.key)
    ensures Recorded(t, row).jobs == t.jobs
    ensures var t' := Recorded(t, row);
            t'.lastEvent == t.lastEvent + 1 && t'.lastEvent in t'.events && t'.events[t'.lastEvent] == row
    ensures forall key :: key != row.key && !EventKeyTaken(t, key) ==> !EventKeyTaken(Recorded(t, row), key)
    ensures forall id :: id in Recorded(t, row).events && id != t.lastEvent + 1 ==>
              id in t.events && Recorded(t, row).events[id] == t.events[id]
  {
  }

  // ---------- from any run ----------

  /** An answer that is there, or comes, gives something to say. */
  ghost predicate AllSpeak(cfg: Config, t: Tables, p: Processor, answer: Event) {
    && (forall id :: id in t.events && Answers(t.events[id], p.capture, answer.request) ==>
          Speaks(cfg, p, answer.request, t.events[id].text.value))
    && Speaks(cfg, p, answer.request, AssistantText(cfg, answer))
  }

  lemma TextOfAnswer(cfg: Config, p: Processor, answer: Event, now: Instant)
    ensures var row := EventOf(InputOf(cfg, p, answer), now);
            row.key == EventKey(cfg, answer)
            && (Answers(row, p.capture, answer.request) ==> row.text == Some(AssistantText(cfg, answer)))
  {
    hide Format, EventKey, AssistantText;
  }

  /** Where the two events have been recorded, the end waiting: whichever answer is found can be spoken. */
  lemma FoundSpeaks(cfg: Config, t: Tables, t': Tables, t'': Tables, p: Processor, end: EventRow, answer: Event,
                    now: Instant, found: nat)
    requires AllSpeak(cfg, t, p, answer)
    requires !EventKeyTaken(t, end.key) && t' == Recorded(t, end) && !Answers(end, p.capture, answer.request)
    requires !EventKeyTaken(t', EventKey(cfg, answer)) && t'' == Recorded(t', EventOf(InputOf(cfg, p, answer), now))
    requires found in t''.events && Answers(t''.events[found], p.capture, answer.request)
    ensures t''.events[found].text.Some? && Speaks(cfg, p, answer.request, t''.events[found].text.value)
  {
    hide Speaks, EventKey, AssistantText, EventKeyTaken, EventOf, InputOf, Recorded, Answers;
    TextOfAnswer(cfg, p, answer, now);
    NewRow(t, end);
    NewRow(t', EventOf(InputOf(cfg, p, answer), now));
    AnswerHasText(t''.events[found], p.capture, answer.request);
  }

  lemma AnswerHasText(row: EventRow, capture: string, request: string)
    requires Answers(row, capture, request)
    ensures row.text.Some?
  {
  }

  /** Two handlers: one takes the end and waits, the other the answer; then the first finds an answer and orders. */
  function EndThenAnswer(p: nat, end: Event, answer: Event, e: nat, a: nat, now: Instant, found: nat): seq<Action> {
    [ Deliver(e, p, end), Record(e, now), Deliver(a, p, answer), Record(a, now), Poll(e, Some(found)), Create(e, now)]
  }

  /**
    * From every run: an end and an answer that are new to the tables, and of which every answer found gives something
    * to say, can be handled so that the request's job is there.
    */
  lemma {:induction false} AnsweredEndCanBeQueued(cfg: Config, actions: seq<Action>, p: nat, end: Event, answer: Event,
                                                  e: nat, a: nat) returns (more: seq<Action>, found: nat)
    requires Legal(cfg, actions) && EndAndAnswer(cfg, p, end, answer) && p in cfg.processors
    requires e != a && e !in Run(cfg, actions).handlers && a !in Run(cfg, actions).handlers
    requires !EventKeyTaken(Run(cfg, actions).t, EventKey(cfg, end))
    requires !EventKeyTaken(Run(cfg, actions).t, EventKey(cfg, answer))
    requires AllSpeak(cfg, Run(cfg, actions).t, cfg.processors[p], answer)
    ensures more == EndThenAnswer(p, end, answer, e, a, Run(cfg, actions).clock, found) && Legal(cfg, actions + more)
    ensures
      var pr := cfg.processors[p];
      Ordered(Run(cfg, actions).t, Run(cfg, actions + more).t,
              JobKey(cfg, pr.capture, end.request, pr.mode, pr.backend))
    ensures Run(cfg, actions + more).loops == Run(cfg, actions).loops
  {
    hide *;
    var s0 := Run(cfg, actions);
    var now, pr := s0.clock, cfg.processors[p];
    EndAndAnswerParts(cfg, p, end, answer);
    SameRequest(cfg, p, end, answer);
    RowsOf(cfg, p, end, answer, now);
    var first, second := EventOf(InputOf(cfg, pr, end), now), EventOf(InputOf(cfg, pr, answer), now);
    TakenUp(cfg, s0, e, p, end);
    var s1 := Next(cfg, s0, Deliver(e, p, end));
    var s2 := Next(cfg, s1, Record(e, now));
    NewRow(s0.t, first);
    TakenUp(cfg, s2, a, p, answer);
    var s3 := Next(cfg, s2, Deliver(a, p, answer));
    var s4 := Next(cfg, s3, Record(a, now));
    NewRow(s2.t, second);
    StillWaits(s4, s2, e, a);
    found := SomeIsLatest(s4.t.events, pr.capture, end.request, s4.t.lastEvent);
    PollStep(cfg, s4, e, found);
    var s5 := Next(cfg, s4, Poll(e, Some(found)));
    LatestAnswersIt(s4.t.events, pr.capture, end.request, found);
    FoundSpeaks(cfg, s0.t, s2.t, s4.t, pr, first, answer, now, found);
    CreateStep(cfg, s5, e);
    var s6 := Next(cfg, s5, Create(e, now));
    SameJobs(s0.t, s5.t, s6.t, JobKey(cfg, pr.capture, end.request, pr.mode, pr.backend));
    HandlersKeepLoops(cfg, s0, Deliver(e, p, end));
    HandlersKeepLoops(cfg, s1, Record(e, now));
    HandlersKeepLoops(cfg, s2, Deliver(a, p, answer));
    HandlersKeepLoops(cfg, s3, Record(a, now));
    HandlersKeepLoops(cfg, s5, Create(e, now));
    var r1, r2 := actions + [Deliver(e, p, end)], actions + [Deliver(e, p, end)] + [Record(e, now)];
    Reached(cfg, actions, Deliver(e, p, end), s0, s1);
    Reached(cfg, r1, Record(e, now), s1, s2);
    Reached(cfg, r2, Deliver(a, p, answer), s2, s3);
    var r3 := r2 + [Deliver(a, p, answer)];
    Reached(cfg, r3, Record(a, now), s3, s4);
    var r4 := r3 + [Record(a, now)];
    Reached(cfg, r4, Poll(e, Some(found)), s4, s5);
    var r5 := r4 + [Poll(e, Some(found))];
    Reached(cfg, r5, Create(e, now), s5, s6);
    more := EndThenAnswer(p, end, answer, e, a, now, found);
    SixSteps(actions, p, end, answer, e, a, now, found);
  }

  lemma SameJobs(t: Tables, t5: Tables, t6: Tables, key: string)
    requires t5.jobs == t.jobs && Ordered(t5, t6, key)
    ensures Ordered(t, t6, key)
  {
  }

  lemma SameRequest(cfg: Config, p: nat, end: Event, answer: Event)
    requires EndAndAnswer(cfg, p, end, answer)
    ensures end.request == answer.request
  {
    hide MatchesCapture, EventKey, AssistantText;
  }

  lemma StillWaits(s4: State, s2: State, e: nat, a: nat)
    requires e != a && s4.handlers == s2.handlers[a := Over] && e in s2.handlers
    ensures HandlerAt(s4, e) == s2.handlers[e]
  {
  }

  lemma LatestAnswersIt(events: map<nat, EventRow>, capture: string, request: string, id: nat)
    requires IsLatest(events, capture, request, id)
    ensures id in events && Answers(events[id], capture, request)
  {
    hide Answers, LaterEvent;
  }

  lemma SixSteps(actions: seq<Action>, p: nat, end: Event, answer: Event, e: nat, a: nat, now: Instant, found: nat)
    ensures actions + EndThenAnswer(p, end, answer, e, a, now, found) ==
            actions + [Deliver(e, p, end)] + [Record(e, now)] + [Deliver(a, p, answer)] + [Record(a, now)]
            + [Poll(e, Some(found))] + [Create(e, now)]
  {
  }

  /** A job with the key has been spoken. */
  ghost predicate Heard(t: Tables, key: string) {
    exists id :: id in t.jobs && t.jobs[id].key == key && t.jobs[id].status == Done
  }

  /**
    * And from there on to the speaker: from every run with an idle loop, an end and its answer can come to be heard,
    * if the request has no job yet.
    */
  lemma {:induction false} AnsweredEndCanBeHeard(cfg: Config, actions: seq<Action>, p: nat, end: Event, answer: Event,
                                                 e: nat, a: nat, l: nat) returns (more: seq<Action>)
    requires Legal(cfg, actions) && EndAndAnswer(cfg, p, end, answer) && p in cfg.processors
    requires e != a && e !in Run(cfg, actions).handlers && a !in Run(cfg, actions).handlers
    requires !EventKeyTaken(Run(cfg, actions).t, EventKey(cfg, end))
    requires !EventKeyTaken(Run(cfg, actions).t, EventKey(cfg, answer))
    requires AllSpeak(cfg, Run(cfg, actions).t, cfg.processors[p], answer)
    requires l in cfg.owners && LoopAt(Run(cfg, actions), l).Idle?
    requires var pr := cfg.processors[p];
             !JobKeyTaken(Run(cfg, actions).t, JobKey(cfg, pr.capture, end.request, pr.mode, pr.backend))
    ensures Legal(cfg, actions + more)
    ensures var pr := cfg.processors[p];
            Heard(Run(cfg, actions + more).t, JobKey(cfg, pr.capture, end.request, pr.mode, pr.backend))
  {
    hide *;
    var pr := cfg.processors[p];
    var key := JobKey(cfg, pr.capture, end.request, pr.mode, pr.backend);
    var handled, found := AnsweredEndCanBeQueued(cfg, actions, p, end, answer, e, a);
    SameLoops(Run(cfg, actions), Run(cfg, actions + handled), l);
    var spoken, order := Progress.AllJobsCanBeSpoken(cfg, actions + handled, l);
    more := handled + spoken;
    assert actions + handled + spoken == actions + more;
    QueuedIsHeard(Run(cfg, actions).t, Run(cfg, actions + handled), Run(cfg, actions + more), order, key);
  }

  lemma SameLoops(s: State, s': State, l: nat)
    requires s'.loops == s.loops
    ensures LoopAt(s', l) == LoopAt(s, l)
  {
  }

  lemma QueuedIsHeard(t: Tables, s: State, s': State, order: seq<nat>, key: string)
    requires Ordered(t, s.t, key) && !JobKeyTaken(t, key) && Progress.AllSpoken(s, s', order)
    ensures Heard(s'.t, key)
  {
    hide JobKeyTaken, Progress.InClaimOrder, Progress.ClaimMarks;
    var id :| IsQueued(s.t.jobs, id) && s.t.jobs[id].key == key;
    assert Progress.SpokenRow(s.t.jobs[id], s'.t.jobs[id]);
  }
}
