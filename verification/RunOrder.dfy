/** What the sort keys of the store say about time, in any run. */
module RunOrder {
  import opened Timestamps
  import opened Store
  import opened Pipeline
  import opened JobSafety

  /** Every stamp that a query sorts by is the stamp of an instant, for a job one that is not past the clock. */
  ghost predicate AllStamped(t: Tables, clock: Instant) {
    && (forall id :: id in t.jobs ==> Stamped(t.jobs[id].queuedAt) && QueuedTime(t.jobs, id) <= clock)
    && (forall id :: id in t.events ==> Stamped(t.events[id].occurredAt))
  }

  /** The clock and the times that events claim stay below year 10000, where stamps no longer parse. */
  ghost predicate TimesInCalendar(cfg: Config, actions: seq<Action>) {
    && InCalendar(Run(cfg, actions).clock)
    && forall i :: 0 <= i < |actions| && actions[i].Deliver? ==> InCalendar(actions[i].e.timestamp)
  }

  lemma EarlierTimes(cfg: Config, actions: seq<Action>)
    requires Legal(cfg, actions) && actions != [] && TimesInCalendar(cfg, actions)
    ensures TimesInCalendar(cfg, actions[..|actions| - 1])
  {
    hide Run, Legal, InCalendar;
    var front := actions[..|actions| - 1];
    ClockAscends(cfg, actions);
    InCalendarDown(Run(cfg, front).clock, Run(cfg, actions).clock);
    assert forall i :: 0 <= i < |front| ==> front[i] == actions[i];
  }

  /** A new event row has the event's own time, or the time of the statement. */
  lemma NewEventIsStamped(cfg: Config, s: State, a: Action, id: nat)
    requires a.Record? && id in NextTables(cfg, s, a).events
    requires !(id in s.t.events && NextTables(cfg, s, a).events[id] == s.t.events[id])
    requires HandlerAt(s, a.h).Received? ==> InCalendar(HandlerAt(s, a.h).event.timestamp)
    requires InCalendar(a.at)
    ensures Stamped(NextTables(cfg, s, a).events[id].occurredAt)
  {
    hide Format, EventKey, AssistantText, MatchesCapture, EventKeyTaken, Stamped, InCalendar;
    StampIsStamped(a.at);
    if HandlerAt(s, a.h).Received? {
      StampIsStamped(HandlerAt(s, a.h).event.timestamp);
    }
  }

  lemma NewJobIsStamped(cfg: Config, s: State, a: Action, id: nat)
    requires a.Create? && id in NextTables(cfg, s, a).jobs && id !in s.t.jobs && InCalendar(a.at)
    ensures Stamped(NextTables(cfg, s, a).jobs[id].queuedAt) && QueuedTime(NextTables(cfg, s, a).jobs, id) == a.at
  {
    hide Format, JobKey, SpeechFor, JobKeyTaken, Stamped, InCalendar;
    StampIsStamped(a.at);
  }

  lemma StatementTime(cfg: Config, s: State, a: Action)
    requires Enabled(cfg, s, a) && (a.Record? || a.Create?) && InCalendar(s.clock)
    ensures InCalendar(a.at) && a.at <= s.clock
  {
    hide InCalendar;
    InCalendarDown(a.at, s.clock);
  }

  lemma StepKeepsStamps(cfg: Config, s: State, a: Action)
    requires Sound(s.t) && AllStamped(s.t, s.clock) && Enabled(cfg, s, a) && InCalendar(s.clock)
    requires forall h :: h in s.handlers && s.handlers[h].Received? ==> InCalendar(s.handlers[h].event.timestamp)
    ensures AllStamped(NextTables(cfg, s, a), Next(cfg, s, a).clock)
  {
    hide *;
    var t' := NextTables(cfg, s, a);
    StepClock(cfg, s, a);
    forall id | id in t'.jobs ensures Stamped(t'.jobs[id].queuedAt) && QueuedTime(t'.jobs, id) <= s.clock {
      JobStampStays(cfg, s, a, id);
    }
    forall id | id in t'.events ensures Stamped(t'.events[id].occurredAt) {
      EventStampStays(cfg, s, a, id);
    }
    StampedSoFar(t', s.clock, Next(cfg, s, a).clock);
  }

  lemma StampedSoFar(t: Tables, clock: Instant, later: Instant)
    requires forall id :: id in t.jobs ==> Stamped(t.jobs[id].queuedAt) && QueuedTime(t.jobs, id) <= clock
    requires forall id :: id in t.events ==> Stamped(t.events[id].occurredAt)
    requires clock <= later
    ensures AllStamped(t, later)
  {
    hide Stamped, QueuedTime;
  }

  lemma JobStampStays(cfg: Config, s: State, a: Action, id: nat)
    requires Sound(s.t) && AllStamped(s.t, s.clock) && Enabled(cfg, s, a) && InCalendar(s.clock)
        && id in NextTables(cfg, s, a).jobs
    ensures Stamped(NextTables(cfg, s, a).jobs[id].queuedAt) && QueuedTime(NextTables(cfg, s, a).jobs, id) <= s.clock
  {
    hide NextTables, Sound, Enabled, Stamped, InCalendar;
    StepGrows(cfg, s, a);
    if id in s.t.jobs {
      assert SameOrder(NextTables(cfg, s, a).jobs[id], s.t.jobs[id]);
    } else {
      StatementTime(cfg, s, a);
      NewJobIsStamped(cfg, s, a, id);
    }
  }

  lemma EventStampStays(cfg: Config, s: State, a: Action, id: nat)
    requires AllStamped(s.t, s.clock) && Enabled(cfg, s, a) && InCalendar(s.clock) && id in NextTables(cfg, s, a).events
    requires forall h :: h in s.handlers && s.handlers[h].Received? ==> InCalendar(s.handlers[h].event.timestamp)
    ensures Stamped(NextTables(cfg, s, a).events[id].occurredAt)
  {
    hide NextTables, Enabled, Stamped, InCalendar;
    EventsStay(cfg, s, a);
    if !(id in s.t.events && NextTables(cfg, s, a).events[id] == s.t.events[id]) {
      StatementTime(cfg, s, a);
      NewEventIsStamped(cfg, s, a, id);
    }
  }

  lemma ReceivedInCalendar(cfg: Config, actions: seq<Action>, s: State, h: nat)
    requires AllSourced(cfg, actions, s) && TimesInCalendar(cfg, actions) && h in s.handlers && s.handlers[h].Received?
    ensures InCalendar(s.handlers[h].event.timestamp)
  {
    hide InCalendar, Sourced, Run;
    var r := s.handlers[h];
    var i, g :| 0 <= i < |actions| && actions[i] == Deliver(g, r.processor, r.event);
  }

  /** In every run whose times stay in the calendar all sort keys are stamps. */
  lemma {:induction false} RunsAreStamped(cfg: Config, actions: seq<Action>)
    requires Legal(cfg, actions) && TimesInCalendar(cfg, actions)
    ensures AllStamped(Run(cfg, actions).t, Run(cfg, actions).clock)
  {
    hide Next, Enabled, AllStamped, AllSourced, Sound, InCalendar;
    if actions == [] {
      NothingStamped(cfg);
    } else {
      var front := actions[..|actions| - 1];
      EarlierTimes(cfg, actions);
      RunsAreStamped(cfg, front);
      RunsAreSourced(cfg, front);
      RunsAreSound(cfg, front);
      var s := Run(cfg, front);
      forall h | h in s.handlers && s.handlers[h].Received?
        ensures InCalendar(s.handlers[h].event.timestamp)
      {
        ReceivedInCalendar(cfg, front, s, h);
      }
      StepKeepsStamps(cfg, s, actions[|actions| - 1]);
      NextHasTables(cfg, s, actions[|actions| - 1]);
    }
  }

  lemma NothingStamped(cfg: Config)
    ensures AllStamped(Run(cfg, []).t, Run(cfg, []).clock)
  {
  }

  lemma NextHasTables(cfg: Config, s: State, a: Action)
    ensures Next(cfg, s, a).t == NextTables(cfg, s, a)
  {
    hide NextTables, NextLoops, NextHandlers, NextHistory;
  }

  /**
    * In every run, whatever the number of queued jobs: the next job to be claimed is the eldest if and only if
    * no queued stamp is swapped with its own, and the eldest is next under the same condition on it.
    */
  lemma {:induction false} ClaimsAreChronological(cfg: Config, actions: seq<Action>, id: nat)
    requires Legal(cfg, actions) && TimesInCalendar(cfg, actions) && IsQueued(Run(cfg, actions).t.jobs, id)
    ensures
      var jobs := Run(cfg, actions).t.jobs;
      && (IsNext(jobs, id) ==> (IsEldest(jobs, id) <==> Unswapped(jobs, id)))
      && (IsEldest(jobs, id) ==> (IsNext(jobs, id) <==> Unswapped(jobs, id)))
  {
    RunsAreStamped(cfg, actions);
    hide Run, Legal, InCalendar, Stamped, Unswapped, IsEldest, IsNext;
    ClaimIsOldest(Run(cfg, actions).t.jobs, id);
  }

  /**
    * In every run: the answer that a handler finds is the latest one in time if and only if the stamp of no other
    * answer to the request is swapped with its own. No answer is ever final, so the mark does not come into it.
    */
  lemma {:induction false} AnswersAreChronological(cfg: Config, actions: seq<Action>, capture: string, request: string,
                                                   id: nat)
    requires Legal(cfg, actions) && TimesInCalendar(cfg, actions)
    requires IsLatest(Run(cfg, actions).t.events, capture, request, id)
    ensures
      var events := Run(cfg, actions).t.events;
      (forall k :: k in events && Answers(events[k], capture, request) && k != id ==>
                     TimeBefore(OccurredTime(events, k), k, OccurredTime(events, id), id))
      <==>
      (forall k :: k in events && Answers(events[k], capture, request) ==>
                     !Swapped(OccurredTime(events, k), OccurredTime(events, id)))
  {
    RunsAreStamped(cfg, actions);
    RunsArePlain(cfg, actions);
    hide Run, Legal, InCalendar, Stamped, Swapped, TimeBefore, IsLatest, TimesInCalendar;
    var events := Run(cfg, actions).t.events;
    assert IsLatest(events, capture, request, id);
    LatestAnswers(events, capture, request, id);
    FoundIsNewest(events, capture, request, id);
  }

  lemma LatestAnswers(events: map<nat, EventRow>, capture: string, request: string, id: nat)
    requires IsLatest(events, capture, request, id)
    ensures id in events && Answers(events[id], capture, request)
  {
  }

  /** The delivered event that a row stands for, when it has a time of its own: the row has that time. */
  ghost predicate TellsOwnTime(cfg: Config, actions: seq<Action>, row: EventRow, e: Event) {
    && e.timestamp != ZERO_TIME && InCalendar(e.timestamp)
    && row.occurredAt == Format(e.timestamp)
    && exists k :: Delivered(actions, k, e) && RowOf(cfg, row, k, e)
  }

  /** A row read back: the time of its event if that has one, else an instant that is not past the clock. */
  ghost predicate TimeRead(cfg: Config, actions: seq<Action>, s: State, id: nat, e: Event)
    requires id in s.t.events
  {
    if e.timestamp == ZERO_TIME then OccurredTime(s.t.events, id) <= s.clock
    else TellsOwnTime(cfg, actions, s.t.events[id], e) && OccurredTime(s.t.events, id) == e.timestamp
  }

  /** Every recorded row tells the time of its event, however late it was recorded. */
  lemma {:induction false} RowsTellTime(cfg: Config, actions: seq<Action>, id: nat) returns (e: Event)
    requires Legal(cfg, actions) && TimesInCalendar(cfg, actions) && id in Run(cfg, actions).t.events
    ensures exists k :: Delivered(actions, k, e) && RowOf(cfg, Run(cfg, actions).t.events[id], k, e)
    ensures TimeRead(cfg, actions, Run(cfg, actions), id, e)
  {
    hide *;
    RunsAreSourced(cfg, actions);
    var k, e' := RowIsSourced(cfg, actions, Run(cfg, actions), id);
    DeliveredInCalendar(cfg, actions, k, e');
    ClockInCalendar(cfg, actions);
    RowTellsTime(cfg, actions, Run(cfg, actions), id, k, e');
    e := e';
  }

  lemma RowIsSourced(cfg: Config, actions: seq<Action>, s: State, id: nat) returns (k: nat, e: Event)
    requires AllSourced(cfg, actions, s) && id in s.t.events
    ensures Delivered(actions, k, e) && RowOf(cfg, s.t.events[id], k, e) && TimeOf(s.t.events[id], e, s.clock)
  {
    hide Delivered, RowOf, TimeOf;
    assert Sourced(cfg, actions, s.t.events[id], s.clock);
    k, e :| Delivered(actions, k, e) && RowOf(cfg, s.t.events[id], k, e) && TimeOf(s.t.events[id], e, s.clock);
  }

  lemma DeliveredInCalendar(cfg: Config, actions: seq<Action>, k: nat, e: Event)
    requires TimesInCalendar(cfg, actions) && Delivered(actions, k, e)
    ensures InCalendar(e.timestamp)
  {
    hide InCalendar, Run;
    var i, h :| 0 <= i < |actions| && actions[i] == Deliver(h, k, e);
  }

  lemma ClockInCalendar(cfg: Config, actions: seq<Action>)
    requires TimesInCalendar(cfg, actions)
    ensures InCalendar(Run(cfg, actions).clock)
  {
    hide InCalendar, Run;
  }

  lemma RowTellsTime(cfg: Config, actions: seq<Action>, s: State, id: nat, k: nat, e: Event)
    requires id in s.t.events && InCalendar(s.clock) && InCalendar(e.timestamp)
    requires Delivered(actions, k, e) && RowOf(cfg, s.t.events[id], k, e) && TimeOf(s.t.events[id], e, s.clock)
    ensures TimeRead(cfg, actions, s, id, e)
  {
    hide RowOf, Delivered, Format, InCalendar, ParseStored;
    if e.timestamp != ZERO_TIME {
      StampRoundTrip(e.timestamp);
    } else {
      var at: Instant :| at <= s.clock && s.t.events[id].occurredAt == Format(at);
      InCalendarDown(at, s.clock);
      StampRoundTrip(at);
    }
  }

  /** Each answer row stands for a delivered event with a time of its own. */
  ghost predicate Told(cfg: Config, actions: seq<Action>, capture: string, request: string, told: nat -> Event) {
    var events := Run(cfg, actions).t.events;
    forall k :: k in events && Answers(events[k], capture, request) ==>
                  TellsOwnTime(cfg, actions, events[k], told(k))
  }

  /**
    * The same in the times that the delivered answers claim: if each answer row stands for an event with a time of
    * its own, the found answer is the latest by those times if and only if no other answer's time is swapped with
    * its own. When the rows were recorded does not matter.
    */
  lemma {:induction false} AnswersAreChronologicalAsDelivered(
      cfg: Config, actions: seq<Action>, capture: string, request: string, id: nat, told: nat -> Event)
    requires Legal(cfg, actions) && TimesInCalendar(cfg, actions) && Told(cfg, actions, capture, request, told)
    requires IsLatest(Run(cfg, actions).t.events, capture, request, id)
    ensures
      var events := Run(cfg, actions).t.events;
      (forall k :: k in events && Answers(events[k], capture, request) && k != id ==>
                     TimeBefore(told(k).timestamp, k, told(id).timestamp, id))
      <==>
      (forall k :: k in events && Answers(events[k], capture, request) ==>
                     !Swapped(told(k).timestamp, told(id).timestamp))
  {
    hide *;
    var events := Run(cfg, actions).t.events;
    LatestAnswers(events, capture, request, id);
    AnswersAreChronological(cfg, actions, capture, request, id);
    forall k | k in events && Answers(events[k], capture, request)
      ensures OccurredTime(events, k) == told(k).timestamp
    {
      ToldTime(cfg, actions, capture, request, told, k);
    }
  }

  lemma ToldTime(cfg: Config, actions: seq<Action>, capture: string, request: string, told: nat -> Event, k: nat)
    requires Told(cfg, actions, capture, request, told) && k in Run(cfg, actions).t.events
    requires Answers(Run(cfg, actions).t.events[k], capture, request)
    ensures OccurredTime(Run(cfg, actions).t.events, k) == told(k).timestamp
  {
    hide Run, Answers, RowOf, Delivered, Format, InCalendar, ParseStored;
    StampRoundTrip(told(k).timestamp);
  }
}
