/** What every run of the pipeline keeps about events and jobs. */
module JobSafety {
  import opened Strings
  import opened Timestamps
  import opened Subjects
  import opened Store
  import opened Pipeline

  // ---------- row shape and unique keys ----------

  lemma StepKeepsSound(cfg: Config, s: State, a: Action)
    requires Sound(s.t) && Enabled(cfg, s, a)
    ensures Sound(NextTables(cfg, s, a))
  {
    hide Sound, Format, Claimed, MarkedDone, MarkedFailed, Retried, Reset, Recorded, Enqueued;
    match a {
      case Claim(_, at, next, _) => if next.Some? { UpdatesKeepSound(s.t, next.value, at, ""); }
      case MarkDone(l, at, _) => if LoopAt(s, l).Reciting? { UpdatesKeepSound(s.t, LoopAt(s, l).job, at, ""); }
      case MarkFailed(l, at, _) =>
        if LoopAt(s, l).Failing? { UpdatesKeepSound(s.t, LoopAt(s, l).job, at, LoopAt(s, l).failure); }
      case Retry(id) => UpdatesKeepSound(s.t, id, 0, "");
      case ResetInFlight => UpdatesKeepSound(s.t, 0, 0, "");
      case Record(h, at) =>
        var r := HandlerAt(s, h);
        if r.processor in cfg.processors {
          RecordKeepsSound(s.t, EventOf(InputOf(cfg, cfg.processors[r.processor], r.event), at));
        }
      case Create(h, at) =>
        var r := HandlerAt(s, h);
        if r.processor in cfg.processors {
          EnqueueKeepsSound(s.t,
            JobInputOf(cfg, cfg.processors[r.processor], r.event.request, r.response, r.record, r.text, at), at);
        }
      case Acquire(l, _) => LeasesKeepSound(s.t, NextTables(cfg, s, a));
      case Release(_, _) => LeasesKeepSound(s.t, NextTables(cfg, s, a));
      case Shutdown(_) => LeasesKeepSound(s.t, NextTables(cfg, s, a));
      case _ =>
    }
  }

  lemma LeasesKeepSound(t: Tables, t': Tables)
    requires Sound(t) && t' == t.(leases := t'.leases)
    ensures Sound(t')
  {
  }

  /** Rows keep their shape, and ids and keys stay unique, whatever interleaves, retries and resets included. */
  lemma {:induction false} RunsAreSound(cfg: Config, actions: seq<Action>)
    requires Legal(cfg, actions)
    ensures Sound(Run(cfg, actions).t)
  {
    if actions != [] {
      var front := actions[..|actions| - 1];
      RunsAreSound(cfg, front);
      StepKeepsSound(cfg, Run(cfg, front), actions[|actions| - 1]);
    }
  }

  // ---------- how tables grow ----------

  predicate EventsGrow(t: Tables, t': Tables) {
    forall id :: id in t.events ==> id in t'.events && t'.events[id] == t.events[id]
  }

  predicate OrdersStay(t: Tables, t': Tables) {
    forall id :: id in t.jobs ==> id in t'.jobs && SameOrder(t'.jobs[id], t.jobs[id])
  }

  /** Recorded events are final, and a job never loses or changes what it was ordered with. */
  lemma {:induction false} StepGrows(cfg: Config, s: State, a: Action)
    requires Sound(s.t) && Enabled(cfg, s, a)
    ensures EventsGrow(s.t, NextTables(cfg, s, a)) && OrdersStay(s.t, NextTables(cfg, s, a))
    ensures !a.Create? ==> NextTables(cfg, s, a).jobs.Keys == s.t.jobs.Keys
  {
    hide Format, InputOf, JobInputOf, Accepts, Speaks, IsNext, IsLatest, LeaseFree, RowBefore, EventsGrow, OrdersStay;
    NothingGrows(s.t);
    assert UniqueEvents(s.t) && UniqueJobs(s.t);
    hide Claimed, MarkedDone, MarkedFailed, Retried, Reset, Recorded, Enqueued, JobOf, EventOf, Worker.Script, Sound;
    match a {
      case Claim(_, at, next, _) => if next.Some? { UpdatesGrow(s.t, next.value, at, ""); }
      case MarkDone(l, at, _) => if LoopAt(s, l).Reciting? { UpdatesGrow(s.t, LoopAt(s, l).job, at, ""); }
      case MarkFailed(l, at, _) =>
        if LoopAt(s, l).Failing? { UpdatesGrow(s.t, LoopAt(s, l).job, at, LoopAt(s, l).failure); }
      case Retry(id) => UpdatesGrow(s.t, id, 0, "");
      case ResetInFlight => UpdatesGrow(s.t, 0, 0, "");
      case Record(h, at) =>
        var r := HandlerAt(s, h);
        if r.processor in cfg.processors {
          RecordGrows(s.t, EventOf(InputOf(cfg, cfg.processors[r.processor], r.event), at));
        }
      case Create(h, at) =>
        var r := HandlerAt(s, h);
        if r.processor in cfg.processors {
          EnqueueGrows(s.t,
            JobOf(JobInputOf(cfg, cfg.processors[r.processor], r.event.request, r.response, r.record, r.text, at), at));
        }
      case _ => LeasesGrow(s.t, NextTables(cfg, s, a));
    }
  }

  lemma NothingGrows(t: Tables)
    ensures Grows(t, t)
  {
  }

  lemma UpdateGrows(t: Tables, id: nat, row: JobRow)
    requires id in t.jobs && SameOrder(row, t.jobs[id])
    ensures Grows(t, t.(jobs := t.jobs[id := row]))
  {
  }

  lemma ResetGrows(t: Tables)
    ensures Grows(t, Reset(t))
  {
  }

  lemma UpdatesGrow(t: Tables, id: nat, at: Instant, failure: string)
    ensures id in t.jobs ==> Grows(t, Claimed(t, id, at))
    ensures Grows(t, MarkedDone(t, id, at)) && Grows(t, MarkedFailed(t, id, at, failure)) && Grows(t, Retried(t, id))
    ensures Grows(t, Reset(t))
  {
    ResetGrows(t);
    NothingGrows(t);
    hide Format, Grows;
    if id in t.jobs {
      UpdateGrows(t, id, ClaimedRow(t.jobs[id], at));
      UpdateGrows(t, id, DoneRow(t.jobs[id], at));
      UpdateGrows(t, id, FailedRow(t.jobs[id], at, failure));
      UpdateGrows(t, id, RetriedRow(t.jobs[id]));
    }
  }

  lemma RecordGrows(t: Tables, row: EventRow)
    requires UniqueEvents(t)
    ensures Grows(t, Recorded(t, row))
  {
  }

  lemma EnqueueGrows(t: Tables, row: JobRow)
    requires UniqueJobs(t)
    ensures EventsGrow(t, Enqueued(t, row)) && OrdersStay(t, Enqueued(t, row))
  {
  }

  lemma LeasesGrow(t: Tables, t': Tables)
    requires t' == t.(leases := t'.leases)
    ensures Grows(t, t')
  {
  }

  predicate Grows(t: Tables, t': Tables) {
    EventsGrow(t, t') && OrdersStay(t, t') && t'.jobs.Keys == t.jobs.Keys
  }

  // ---------- where jobs come from ----------

  /** The job speaks the summary of a recorded answer to its own request in its own capture. */
  predicate TracedTo(cfg: Config, t: Tables, job: JobRow, p: Processor) {
    && job.capture == p.capture && job.mode == p.mode && job.backend == p.backend
    && job.key == JobKey(cfg, job.capture, job.request, job.mode, job.backend)
    && job.event.Some? && job.event.value in t.events
    && Answers(t.events[job.event.value], job.capture, job.request)
    && job.speech == SpeechFor(cfg, p, t.events[job.event.value].text.value).speech
    && job.summary == (
      var summary := SpeechFor(cfg, p, t.events[job.event.value].text.value).summary;
      if summary == "" then None else Some(summary))
    && Trim(job.speech) != ""
  }

  ghost predicate Traced(cfg: Config, t: Tables, job: JobRow) {
    exists k :: k in cfg.processors && TracedTo(cfg, t, job, cfg.processors[k])
  }

  ghost predicate AllTraced(cfg: Config, t: Tables) {
    forall id :: id in t.jobs ==> Traced(cfg, t, t.jobs[id])
  }

  /** A handler that found its answer holds on to a recorded row. */
  predicate Informed(cfg: Config, t: Tables, h: Handler) {
    h.Ready? ==>
      && h.processor in cfg.processors
      && h.response in t.events && h.response >= 1
      && Answers(t.events[h.response], cfg.processors[h.processor].capture, h.event.request)
      && h.text == t.events[h.response].text.value
  }

  ghost predicate AllInformed(cfg: Config, s: State) {
    forall h :: h in s.handlers ==> Informed(cfg, s.t, s.handlers[h])
  }

  lemma TraceStays(cfg: Config, t: Tables, t': Tables, job: JobRow, job': JobRow)
    requires EventsGrow(t, t') && SameOrder(job', job) && Traced(cfg, t, job)
    ensures Traced(cfg, t', job')
  {
    hide SpeechFor, JobKey, Trim;
    var k :| k in cfg.processors && TracedTo(cfg, t, job, cfg.processors[k]);
    assert TracedTo(cfg, t', job', cfg.processors[k]);
  }

  lemma NewJobTraced(cfg: Config, t: Tables, job: JobRow, p: nat)
    requires UniqueJobs(t) && AllTraced(cfg, t) && p in cfg.processors && TracedTo(cfg, t, job, cfg.processors[p])
    ensures AllTraced(cfg, Enqueued(t, job))
  {
    EnqueueGrows(t, job);
    hide SpeechFor, JobKey, Trim, UniqueJobs, SameOrder;
    var t' := Enqueued(t, job);
    forall id | id in t'.jobs ensures Traced(cfg, t', t'.jobs[id]) {
      if id in t.jobs {
        assert SameOrder(t'.jobs[id], t.jobs[id]);
        TraceStays(cfg, t, t', t.jobs[id], t'.jobs[id]);
      } else {
        assert TracedTo(cfg, t', t'.jobs[id], cfg.processors[p]);
      }
    }
  }

  /** The job row that a ready handler orders. */
  function OrderOf(cfg: Config, p: Processor, r: Handler, at: Instant): JobRow
    requires r.Ready?
  {
    JobOf(JobInputOf(cfg, p, r.event.request, r.response, r.record, r.text, at), at)
  }

  lemma OrderIsTraced(cfg: Config, t: Tables, r: Handler, at: Instant)
    requires r.Ready? && Informed(cfg, t, r) && Speaks(cfg, cfg.processors[r.processor], r.event.request, r.text)
    ensures TracedTo(cfg, t, OrderOf(cfg, cfg.processors[r.processor], r, at), cfg.processors[r.processor])
  {
    hide JobKey, Trim, Format, SpeechFor;
  }

  lemma CreateTables(cfg: Config, s: State, h: nat, at: Instant)
    requires HandlerAt(s, h).Ready?
    ensures var r := HandlerAt(s, h);
            NextTables(cfg, s, Create(h, at)) ==
            if r.processor in cfg.processors && Speaks(cfg, cfg.processors[r.processor], r.event.request, r.text)
            then Enqueued(s.t, OrderOf(cfg, cfg.processors[r.processor], r, at)) else s.t
  {
    hide Speaks, JobOf, JobInputOf, Enqueued;
  }

  lemma StepKeepsTraces(cfg: Config, s: State, a: Action)
    requires Sound(s.t) && AllInformed(cfg, s) && AllTraced(cfg, s.t) && Enabled(cfg, s, a)
    ensures AllTraced(cfg, NextTables(cfg, s, a))
  {
    if a.Create? {
      var r := HandlerAt(s, a.h);
      CreateTables(cfg, s, a.h, a.at);
      hide NextTables, Enqueued, Speaks, TracedTo, OrderOf, Shaped, UniqueEvents;
      if r.processor in cfg.processors && Speaks(cfg, cfg.processors[r.processor], r.event.request, r.text) {
        OrderIsTraced(cfg, s.t, r, a.at);
        NewJobTraced(cfg, s.t, OrderOf(cfg, cfg.processors[r.processor], r, a.at), r.processor);
      }
    } else {
      hide SameOrder, Traced, EventsGrow, Sound, Enabled;
      StepGrows(cfg, s, a);
      hide NextTables;
      var t' := NextTables(cfg, s, a);
      forall id | id in t'.jobs ensures Traced(cfg, t', t'.jobs[id]) {
        assert id in s.t.jobs;
        TraceStays(cfg, s.t, t', s.t.jobs[id], t'.jobs[id]);
      }
    }
  }

  lemma StepKeepsInformed(cfg: Config, s: State, a: Action)
    requires Sound(s.t) && AllInformed(cfg, s) && Enabled(cfg, s, a)
    ensures AllInformed(cfg, Next(cfg, s, a))
  {
    hide NextTables, NextHandlers, NextLoops, NextHistory, Shaped, UniqueJobs, UniqueEvents, Enabled, Informed,
      EventsGrow;
    StepGrows(cfg, s, a);
    forall h | h in NextHandlers(cfg, s, a) ensures Informed(cfg, NextTables(cfg, s, a), NextHandlers(cfg, s, a)[h]) {
      StaysInformed(cfg, s, a, NextTables(cfg, s, a), h);
    }
  }

  lemma StaysInformed(cfg: Config, s: State, a: Action, t': Tables, h: nat)
    requires UniqueEvents(s.t) && AllInformed(cfg, s) && Enabled(cfg, s, a) && EventsGrow(s.t, t')
    requires h in NextHandlers(cfg, s, a)
    ensures Informed(cfg, t', NextHandlers(cfg, s, a)[h])
  {
    hide Accepts, LaterEvent, IsNext;
    if h in s.handlers && NextHandlers(cfg, s, a)[h] == s.handlers[h] {
      assert Informed(cfg, s.t, s.handlers[h]);
    }
  }

  lemma {:induction false} RunsAreTraced(cfg: Config, actions: seq<Action>)
    requires Legal(cfg, actions)
    ensures AllTraced(cfg, Run(cfg, actions).t) && AllInformed(cfg, Run(cfg, actions))
  {
    if actions != [] {
      var front := actions[..|actions| - 1];
      RunsAreTraced(cfg, front);
      RunsAreSound(cfg, front);
      StepKeepsTraces(cfg, Run(cfg, front), actions[|actions| - 1]);
      StepKeepsInformed(cfg, Run(cfg, front), actions[|actions| - 1]);
    }
  }

  /** At most one job per capture, request, mode and backend, in any run. */
  lemma {:induction false} OneJobPerRequest(cfg: Config, actions: seq<Action>, a: nat, b: nat)
    requires Legal(cfg, actions)
    requires a in Run(cfg, actions).t.jobs && b in Run(cfg, actions).t.jobs
    requires var x, y := Run(cfg, actions).t.jobs[a], Run(cfg, actions).t.jobs[b];
             x.capture == y.capture && x.request == y.request && x.mode == y.mode && x.backend == y.backend
    ensures a == b
  {
    hide Run, JobKey, SpeechFor, Trim;
    RunsAreSound(cfg, actions);
    RunsAreTraced(cfg, actions);
    var t := Run(cfg, actions).t;
    assert Traced(cfg, t, t.jobs[a]) && Traced(cfg, t, t.jobs[b]);
    assert t.jobs[a].key == t.jobs[b].key;
  }

  // ---------- which answer is taken ----------

  /** Only the end of a request is recorded as final, and only a response carries text. */
  ghost predicate PlainEvents(t: Tables) {
    forall id :: id in t.events ==>
      && (t.events[id].final <==> t.events[id].kind == AgentDone)
      && (t.events[id].text.Some? ==> t.events[id].kind == LlmResponse)
  }

  lemma EventsStay(cfg: Config, s: State, a: Action)
    ensures !a.Record? ==> NextTables(cfg, s, a).events == s.t.events
  {
    hide Format, LeaseFree, Speaks, JobOf, JobInputOf, JobKeyTaken;
  }

  lemma StepKeepsPlain(cfg: Config, s: State, a: Action)
    requires PlainEvents(s.t)
    ensures PlainEvents(NextTables(cfg, s, a))
  {
    hide Format, EventKey, Accepts, EventKeyTaken;
    EventsStay(cfg, s, a);
    if !a.Record? {
      hide NextTables;
    }
  }

  lemma {:induction false} RunsArePlain(cfg: Config, actions: seq<Action>)
    ensures PlainEvents(Run(cfg, actions).t)
  {
    hide NextTables, PlainEvents;
    if actions == [] {
      assert PlainEvents(EMPTY) by { NoEvents(); }
    } else {
      RunsArePlain(cfg, actions[..|actions| - 1]);
      StepKeepsPlain(cfg, Run(cfg, actions[..|actions| - 1]), actions[|actions| - 1]);
    }
  }

  lemma NoEvents()
    ensures PlainEvents(EMPTY)
  {
  }

  /**
    * The query puts final rows first, but in no run does an answer have the final mark: what a handler
    * finds is always the request's latest answer by stamp and id.
    */
  lemma {:induction false} AnswerIsNewest(cfg: Config, actions: seq<Action>, capture: string, request: string, id: nat,
                                          k: nat)
    requires IsLatest(Run(cfg, actions).t.events, capture, request, id)
    requires k in Run(cfg, actions).t.events && Answers(Run(cfg, actions).t.events[k], capture, request) && k != id
    ensures var events := Run(cfg, actions).t.events;
            !events[id].final && RowBefore(events[k].occurredAt, k, events[id].occurredAt, id)
  {
    RunsArePlain(cfg, actions);
    hide Run, RowBefore;
  }

  /** A step that fails, or that is no statement, writes no table; a process that dies leaves them as they are. */
  lemma OnlyStatementsWrite(cfg: Config, s: State, a: Action)
    requires || a.Tick? || a.ReadClock? || a.Speak? || a.Crash? || a.Deliver? || a.Poll? || a.Timeout? || a.Abandon?
             || ((a.Acquire? || a.Claim? || a.MarkDone? || a.MarkFailed? || a.Release?) && !a.ok)
    ensures Next(cfg, s, a).t == s.t
  {
    hide NextLoops, NextHandlers, NextHistory, Format;
  }

  // ---------- from the bus to the speaker ----------

  ghost predicate Delivered(actions: seq<Action>, k: nat, e: Event) {
    exists i, h :: 0 <= i < |actions| && actions[i] == Deliver(h, k, e)
  }

  /** The event is addressed to the capture: by its stable id, or by its role when it has none. */
  predicate AddressedTo(p: Processor, e: Event) {
    && (Trim(e.stableId) != "" ==> Trim(e.stableId) == p.capture)
    && (Trim(e.stableId) == "" ==> Trim(e.role) == p.name)
  }

  /** Every column of the row says what a delivered event of its capture said. */
  ghost predicate RowOf(cfg: Config, row: EventRow, k: nat, e: Event) {
    && k in cfg.processors && AddressedTo(cfg.processors[k], e)
    && row.capture == cfg.processors[k].capture && row.request == e.request && row.kind == e.kind
    && row.provider == e.provider && row.key == EventKey(cfg, e)
    && row.payload == (if e.payload == "" then "{}" else e.payload)
    && row.text == (if AssistantText(cfg, e) == "" then None else Some(AssistantText(cfg, e)))
    && (row.status == Some("done") <==> e.kind == AgentDone)
    && (row.status == Some("error") <==> e.kind == AgentError)
    && (row.status == Some("running") <==> e.kind != AgentDone && e.kind != AgentError)
    && (row.final <==> e.kind == AgentDone)
  }

  /** The row has the event's own time; an event without one gets that of its recording. */
  ghost predicate TimeOf(row: EventRow, e: Event, clock: Instant) {
    && (e.timestamp != ZERO_TIME ==> row.occurredAt == Format(e.timestamp))
    && (e.timestamp == ZERO_TIME ==> exists at: Instant :: at <= clock && row.occurredAt == Format(at))
  }

  /** What the assistant text of an event is: only a response with a payload has one, and it is tidy. */
  lemma AssistantTextMeans(cfg: Config, e: Event)
    ensures e.kind != LlmResponse || e.payload == "" ==> AssistantText(cfg, e) == ""
    ensures Speech.IsTidy(AssistantText(cfg, e))
    ensures e.kind == LlmResponse && e.payload != "" ==>
              Speech.Ink(AssistantText(cfg, e)) == Speech.Ink(cfg.rewrite(cfg.extract(e.payload)))
  {
    Speech.CleanIsTidy(cfg.rewrite, cfg.extract(e.payload));
    Speech.TidyKeepsInk(cfg.rewrite(cfg.extract(e.payload)));
    hide Speech.Tidy, Speech.Ink;
  }

  /** Stable ids count before roles. */
  lemma MatchIsAddress(p: Processor, e: Event)
    ensures MatchesCapture(p, e) <==> AddressedTo(p, e)
  {
    hide Trim;
  }

  ghost predicate Sourced(cfg: Config, actions: seq<Action>, row: EventRow, clock: Instant) {
    exists k, e :: Delivered(actions, k, e) && RowOf(cfg, row, k, e) && TimeOf(row, e, clock)
  }

  ghost predicate AllSourced(cfg: Config, actions: seq<Action>, s: State) {
    && (forall id :: id in s.t.events ==> Sourced(cfg, actions, s.t.events[id], s.clock))
    && (forall h :: h in s.handlers && s.handlers[h].Received? ==>
          s.handlers[h].processor in cfg.processors
          && Delivered(actions, s.handlers[h].processor, s.handlers[h].event))
  }

  lemma DeliveredGrows(actions: seq<Action>, last: Action, k: nat, e: Event)
    ensures Delivered(actions, k, e) ==> Delivered(actions + [last], k, e)
    ensures last.Deliver? && last.p == k && last.e == e ==> Delivered(actions + [last], k, e)
  {
    var all := actions + [last];
    assert all[|actions|] == last;
    if Delivered(actions, k, e) {
      var i, h :| 0 <= i < |actions| && actions[i] == Deliver(h, k, e);
      assert all[i] == Deliver(h, k, e);
    }
  }

  lemma SourcedGrows(cfg: Config, actions: seq<Action>, last: Action, row: EventRow, clock: Instant, later: Instant)
    requires Sourced(cfg, actions, row, clock) && clock <= later
    ensures Sourced(cfg, actions + [last], row, later)
  {
    hide Delivered, RowOf, Format;
    var k, e :| Delivered(actions, k, e) && RowOf(cfg, row, k, e) && TimeOf(row, e, clock);
    DeliveredGrows(actions, last, k, e);
    assert TimeOf(row, e, later);
  }

  /** What recording adds to the table, if anything, is the row of the received event. */
  lemma RecordedRow(cfg: Config, s: State, a: Action, id: nat)
    requires a.Record? && id in NextTables(cfg, s, a).events && a.at <= s.clock
    requires !(id in s.t.events && NextTables(cfg, s, a).events[id] == s.t.events[id])
    ensures HandlerAt(s, a.h).Received?
    ensures RowOf(cfg, NextTables(cfg, s, a).events[id], HandlerAt(s, a.h).processor, HandlerAt(s, a.h).event)
    ensures TimeOf(NextTables(cfg, s, a).events[id], HandlerAt(s, a.h).event, s.clock)
  {
    hide Format, EventKey, AssistantText, MatchesCapture, EventKeyTaken, AddressedTo;
    var r := HandlerAt(s, a.h);
    assert r.Received? && r.processor in cfg.processors;
    MatchIsAddress(cfg.processors[r.processor], r.event);
  }

  lemma StepReceives(cfg: Config, s: State, a: Action, h: nat)
    requires Enabled(cfg, s, a) && h in NextHandlers(cfg, s, a) && NextHandlers(cfg, s, a)[h].Received?
    ensures var r := NextHandlers(cfg, s, a)[h];
            || (h in s.handlers && s.handlers[h] == r)
            || (a == Deliver(h, r.processor, r.event) && r.processor in cfg.processors)
  {
    hide Accepts, IsNext, IsLatest, Answers;
  }

  lemma StepKeepsSourced(cfg: Config, actions: seq<Action>, s: State, a: Action)
    requires AllSourced(cfg, actions, s) && Enabled(cfg, s, a)
    ensures AllSourced(cfg, actions + [a], Next(cfg, s, a))
  {
    hide NextTables, NextHandlers, NextLoops, NextHistory, Enabled, Sourced, Delivered, RowOf, TimeOf;
    var s' := Next(cfg, s, a);
    EventsStay(cfg, s, a);
    StepClock(cfg, s, a);
    forall id | id in s'.t.events ensures Sourced(cfg, actions + [a], s'.t.events[id], s'.clock) {
      if id in s.t.events && s'.t.events[id] == s.t.events[id] {
        SourcedGrows(cfg, actions, a, s.t.events[id], s.clock, s'.clock);
      } else {
        RecordedRow(cfg, s, a, id);
        var r := HandlerAt(s, a.h);
        DeliveredGrows(actions, a, r.processor, r.event);
        SourcedBy(cfg, actions + [a], s'.t.events[id], r.processor, r.event, s.clock);
      }
    }
    forall h | h in s'.handlers && s'.handlers[h].Received?
      ensures s'.handlers[h].processor in cfg.processors
      ensures Delivered(actions + [a], s'.handlers[h].processor, s'.handlers[h].event)
    {
      StepReceives(cfg, s, a, h);
      DeliveredGrows(actions, a, s'.handlers[h].processor, s'.handlers[h].event);
    }
  }

  lemma SourcedBy(cfg: Config, actions: seq<Action>, row: EventRow, k: nat, e: Event, clock: Instant)
    requires Delivered(actions, k, e) && RowOf(cfg, row, k, e) && TimeOf(row, e, clock)
    ensures Sourced(cfg, actions, row, clock)
  {
    hide Delivered, RowOf, TimeOf;
  }

  /** The clock never goes back, and a statement's time is not past it. */
  lemma StepClock(cfg: Config, s: State, a: Action)
    requires Enabled(cfg, s, a)
    ensures s.clock <= Next(cfg, s, a).clock && (!a.Tick? ==> Next(cfg, s, a).clock == s.clock)
    ensures a.Record? || a.Create? ==> a.at <= s.clock
  {
    hide NextTables, NextLoops, NextHandlers, NextHistory;
  }

  /** Every recorded row stems from an event delivered earlier in the run and addressed to that capture. */
  lemma {:induction false} RunsAreSourced(cfg: Config, actions: seq<Action>)
    requires Legal(cfg, actions)
    ensures AllSourced(cfg, actions, Run(cfg, actions))
  {
    hide Next, Enabled, AllSourced;
    if actions == [] {
      assert AllSourced(cfg, [], Init(cfg)) by { NothingSourced(cfg); }
    } else {
      var front := actions[..|actions| - 1];
      RunsAreSourced(cfg, front);
      StepKeepsSourced(cfg, front, Run(cfg, front), actions[|actions| - 1]);
      assert front + [actions[|actions| - 1]] == actions;
    }
  }

  lemma NothingSourced(cfg: Config)
    ensures AllSourced(cfg, [], Init(cfg))
  {
  }

  /** The event is an answer to the job's request, and the job speaks its text in the job's own mode. */
  ghost predicate SpokenFor(cfg: Config, job: JobRow, k: nat, e: Event) {
    && k in cfg.processors && AddressedTo(cfg.processors[k], e) && cfg.processors[k].capture == job.capture
    && e.kind == LlmResponse && e.request == job.request && AssistantText(cfg, e) != ""
    && exists p :: p in cfg.processors && cfg.processors[p].capture == job.capture
                   && cfg.processors[p].mode == job.mode && cfg.processors[p].backend == job.backend
                   && job.speech == SpeechFor(cfg, cfg.processors[p], AssistantText(cfg, e)).speech
  }

  /**
    * End to end: whatever is queued in any run is the summary of the text of a model response that was
    * delivered in that run, for the same capture and the same request.
    */
  lemma {:induction false} JobsSpeakDeliveredAnswers(cfg: Config, actions: seq<Action>, id: nat)
    requires Legal(cfg, actions) && id in Run(cfg, actions).t.jobs
    ensures exists k, e :: Delivered(actions, k, e) && SpokenFor(cfg, Run(cfg, actions).t.jobs[id], k, e)
  {
    RunsAreTraced(cfg, actions);
    RunsAreSourced(cfg, actions);
    hide *;
    TracedJobs(cfg, Run(cfg, actions).t, id);
    AnswerIsSourced(cfg, actions, Run(cfg, actions), Run(cfg, actions).t.jobs[id]);
  }

  lemma TracedJobs(cfg: Config, t: Tables, id: nat)
    requires AllTraced(cfg, t) && id in t.jobs
    ensures Traced(cfg, t, t.jobs[id])
  {
    hide Traced;
  }

  lemma AnswerIsSourced(cfg: Config, actions: seq<Action>, s: State, job: JobRow)
    requires Traced(cfg, s.t, job) && AllSourced(cfg, actions, s)
    ensures exists k, e :: Delivered(actions, k, e) && SpokenFor(cfg, job, k, e)
  {
    hide Delivered, SpeechFor, AssistantText, AddressedTo, JobKey, EventKey, Trim, TimeOf;
    var p :| p in cfg.processors && TracedTo(cfg, s.t, job, cfg.processors[p]);
    var row := s.t.events[job.event.value];
    assert Sourced(cfg, actions, row, s.clock);
    var k, e :| Delivered(actions, k, e) && RowOf(cfg, row, k, e) && TimeOf(row, e, s.clock);
    assert SpokenFor(cfg, job, k, e);
  }

  // ---------- recording again ----------

  lemma GrowsOn(a: Tables, b: Tables, c: Tables)
    requires EventsGrow(a, b) && OrdersStay(a, b) && EventsGrow(b, c) && OrdersStay(b, c)
    ensures EventsGrow(a, c) && OrdersStay(a, c)
  {
  }

  lemma {:induction false} RunExtends(cfg: Config, actions: seq<Action>, more: seq<Action>)
    requires Legal(cfg, actions + more)
    ensures Legal(cfg, actions)
    ensures EventsGrow(Run(cfg, actions).t, Run(cfg, actions + more).t)
    ensures OrdersStay(Run(cfg, actions).t, Run(cfg, actions + more).t)
  {
    hide *;
    if more == [] {
      assert actions + more == actions;
      GrowsNot(Run(cfg, actions).t);
    } else {
      var n := |more| - 1;
      var front := actions + more[..n];
      assert front + [more[n]] == actions + more;
      OneMore(cfg, front, more[n]);
      RunExtends(cfg, actions, more[..n]);
      RunsAreSound(cfg, front);
      StepGrows(cfg, Run(cfg, front), more[n]);
      GrowsOn(Run(cfg, actions).t, Run(cfg, front).t, Run(cfg, actions + more).t);
    }
  }

  lemma GrowsNot(t: Tables)
    ensures EventsGrow(t, t) && OrdersStay(t, t)
  {
  }

  lemma OneMore(cfg: Config, front: seq<Action>, last: Action)
    requires Legal(cfg, front + [last])
    ensures Legal(cfg, front) && Enabled(cfg, Run(cfg, front), last)
    ensures Run(cfg, front + [last]) == Next(cfg, Run(cfg, front), last)
    ensures Run(cfg, front + [last]).t == NextTables(cfg, Run(cfg, front), last)
    ensures Run(cfg, front + [last]).handlers == NextHandlers(cfg, Run(cfg, front), last)
    ensures Run(cfg, front + [last]).loops == NextLoops(cfg, Run(cfg, front), last)
  {
    assert (front + [last])[..|front|] == front;
    hide Enabled, NextTables, NextHandlers, NextLoops, NextHistory;
  }

  /** A handler whose event's key is taken changes no table and ends at once. */
  lemma RepeatIsDropped(cfg: Config, s: State, h: nat, at: Instant)
    requires HandlerAt(s, h).Received? && EventKeyTaken(s.t, EventKey(cfg, HandlerAt(s, h).event))
    ensures NextTables(cfg, s, Record(h, at)) == s.t
    ensures NextHandlers(cfg, s, Record(h, at)) == s.handlers[h := Over]
  {
    hide MatchesCapture, EventKey, EventOf, InputOf, EventKeyTaken;
  }

  /**
    * An event that was recorded once is never recorded again: at any later point of any run, handling it
    * changes no table and ends its handler at once.
    */
  lemma {:induction false} ReplayChangesNothing(cfg: Config, actions: seq<Action>, more: seq<Action>, s: State, h: nat,
                                                at: Instant)
    requires Legal(cfg, actions + more) && s == Run(cfg, actions + more)
    requires HandlerAt(s, h).Received? && EventKeyTaken(Run(cfg, actions).t, EventKey(cfg, HandlerAt(s, h).event))
    ensures var s' := Next(cfg, s, Record(h, at)); s' == s.(handlers := s.handlers[h := Over])
  {
    RunExtends(cfg, actions, more);
    hide Run, Legal, EventKey, NextTables, NextHandlers, OrdersStay;
    var t := Run(cfg, actions).t;
    var id :| id in t.events && t.events[id].key == EventKey(cfg, HandlerAt(s, h).event);
    assert id in s.t.events;
    RepeatIsDropped(cfg, s, h, at);
  }

  // ---------- a new request always gets its job ----------

  predicate NulFree(s: string) {
    '\0' !in s
  }

  predicate NulFreeOrder(capture: string, request: string, mode: string, backend: string) {
    NulFree(capture) && NulFree(request) && NulFree(mode) && NulFree(backend)
  }

  ghost predicate Injective(f: string -> string) {
    forall x, y :: f(x) == f(y) ==> x == y
  }

  lemma JobKeysDiffer(cfg: Config, c1: string, r1: string, m1: string, b1: string, c2: string, r2: string, m2: string,
                      b2: string)
    requires Injective(cfg.hash) && NulFreeOrder(c1, r1, m1, b1) && NulFreeOrder(c2, r2, m2, b2)
    ensures JobKey(cfg, c1, r1, m1, b1) == JobKey(cfg, c2, r2, m2, b2) <==> c1 == c2 && r1 == r2 && m1 == m2 && b1 == b2
  {
    if JobKey(cfg, c1, r1, m1, b1) == JobKey(cfg, c2, r2, m2, b2) {
      JoinInjective([c1, r1, m1, b1], [c2, r2, m2, b2], '\0');
      assert [c1, r1, m1, b1][0] == [c2, r2, m2, b2][0] && [c1, r1, m1, b1][1] == [c2, r2, m2, b2][1];
      assert [c1, r1, m1, b1][2] == [c2, r2, m2, b2][2] && [c1, r1, m1, b1][3] == [c2, r2, m2, b2][3];
    }
  }

  /** Distinct events have distinct keys: nothing but a true repeat is dropped as one. */
  lemma {:induction false} EventKeysDiffer(cfg: Config, e: Event, f: Event)
    requires Injective(cfg.hash) && EventKey(cfg, e) == EventKey(cfg, f)
    requires forall i :: 0 <= i < 10 ==> NulFree(EventFields(e)[i]) && NulFree(EventFields(f)[i])
    requires InCalendar(e.timestamp) && InCalendar(f.timestamp)
    ensures e.(kind := f.kind) == f && KindText(e.kind) == KindText(f.kind)
  {
    JoinInjective(EventFields(e), EventFields(f), '\0');
    FieldsTell(e, f);
    FormatInjective(e.timestamp, f.timestamp);
  }

  lemma FieldsTell(e: Event, f: Event)
    requires EventFields(e) == EventFields(f)
    ensures Format(e.timestamp) == Format(f.timestamp) && KindText(e.kind) == KindText(f.kind)
    ensures e.(kind := f.kind, timestamp := f.timestamp) == f
  {
    hide Format, KindText;
    var x, y := EventFields(e), EventFields(f);
    assert x[0] == y[0] && x[1] == y[1] && x[2] == y[2] && x[3] == y[3] && x[4] == y[4];
    assert x[5] == y[5] && x[6] == y[6] && x[7] == y[7] && x[8] == y[8] && x[9] == y[9];
  }

  /** Captures, modes and backends of the processors and requests of the delivered events hold no NUL. */
  ghost predicate NulFreeInputs(cfg: Config, actions: seq<Action>) {
    && (forall k :: k in cfg.processors ==>
         NulFree(cfg.processors[k].capture) && NulFree(cfg.processors[k].mode) && NulFree(cfg.processors[k].backend))
    && (forall i :: 0 <= i < |actions| && actions[i].Deliver? ==> NulFree(actions[i].e.request))
  }

  lemma AnswerRequestIsNulFree(cfg: Config, actions: seq<Action>, s: State, id: nat)
    requires NulFreeInputs(cfg, actions) && AllSourced(cfg, actions, s) && id in s.t.events
    ensures NulFree(s.t.events[id].request)
  {
    hide AddressedTo, AssistantText, EventKey, NulFree, TimeOf;
    var row := s.t.events[id];
    assert Sourced(cfg, actions, row, s.clock);
    var k, e :| Delivered(actions, k, e) && RowOf(cfg, row, k, e) && TimeOf(row, e, s.clock);
    var i, h :| 0 <= i < |actions| && actions[i] == Deliver(h, k, e);
  }

  ghost predicate NulFreeJobs(t: Tables) {
    forall id :: id in t.jobs ==>
                   NulFreeOrder(t.jobs[id].capture, t.jobs[id].request, t.jobs[id].mode, t.jobs[id].backend)
  }

  lemma JobsAreNulFree(cfg: Config, actions: seq<Action>, s: State)
    requires NulFreeInputs(cfg, actions) && AllSourced(cfg, actions, s) && AllTraced(cfg, s.t)
    ensures NulFreeJobs(s.t)
  {
    hide SpeechFor, Trim, JobKey, AllSourced, NulFree;
    forall id | id in s.t.jobs
      ensures NulFreeOrder(s.t.jobs[id].capture, s.t.jobs[id].request, s.t.jobs[id].mode, s.t.jobs[id].backend)
    {
      assert Traced(cfg, s.t, s.t.jobs[id]);
      AnswerRequestIsNulFree(cfg, actions, s, s.t.jobs[id].event.value);
    }
  }

  /** The job for a request, a mode and a backend is in the table. */
  ghost predicate HasJob(t: Tables, capture: string, request: string, mode: string, backend: string) {
    exists id :: && id in t.jobs && t.jobs[id].capture == capture && t.jobs[id].request == request
                 && t.jobs[id].mode == mode && t.jobs[id].backend == backend
  }

  /**
    * After a handler's last step the request has its job, because no other order can hold its key: with an
    * injective hash that takes no more than that the process's own settings and the requests it was sent hold no NUL.
    */
  lemma {:induction false} AnsweredRequestHasJob(cfg: Config, actions: seq<Action>, h: nat, at: Instant)
    requires Legal(cfg, actions) && Injective(cfg.hash) && NulFreeInputs(cfg, actions)
    requires HandlerAt(Run(cfg, actions), h).Ready?
    requires var r := HandlerAt(Run(cfg, actions), h);
             r.processor in cfg.processors && Speaks(cfg, cfg.processors[r.processor], r.event.request, r.text)
    ensures var r := HandlerAt(Run(cfg, actions), h); var p := cfg.processors[r.processor];
            HasJob(NextTables(cfg, Run(cfg, actions), Create(h, at)), p.capture, r.event.request, p.mode, p.backend)
  {
    RunsAreTraced(cfg, actions);
    RunsAreSourced(cfg, actions);
    hide *;
    JobsAreNulFree(cfg, actions, Run(cfg, actions));
    OrderLands(cfg, actions, Run(cfg, actions), h, at);
  }

  lemma OrderLands(cfg: Config, actions: seq<Action>, s: State, h: nat, at: Instant)
    requires Injective(cfg.hash) && NulFreeInputs(cfg, actions) && NulFreeJobs(s.t)
    requires AllTraced(cfg, s.t) && AllInformed(cfg, s) && AllSourced(cfg, actions, s)
    requires HandlerAt(s, h).Ready?
    requires var r := HandlerAt(s, h);
             r.processor in cfg.processors && Speaks(cfg, cfg.processors[r.processor], r.event.request, r.text)
    ensures var r := HandlerAt(s, h); var p := cfg.processors[r.processor];
            HasJob(NextTables(cfg, s, Create(h, at)), p.capture, r.event.request, p.mode, p.backend)
  {
    CreateTables(cfg, s, h, at);
    hide NulFree, NextTables, Speaks, Enqueued, JobKey, SpeechFor, Format, AllTraced, AllSourced, Injective;
    var r := HandlerAt(s, h);
    var p := cfg.processors[r.processor];
    assert Informed(cfg, s.t, r);
    AnswerRequestIsNulFree(cfg, actions, s, r.response);
    var id := OrderIsHeld(cfg, s.t, OrderOf(cfg, p, r, at));
  }

  /** In traced tables an order's key is taken only by the same order. */
  lemma OrderIsHeld(cfg: Config, t: Tables, job: JobRow) returns (id: nat)
    requires Injective(cfg.hash) && AllTraced(cfg, t)
    requires NulFreeOrder(job.capture, job.request, job.mode, job.backend)
    requires job.key == JobKey(cfg, job.capture, job.request, job.mode, job.backend)
    requires NulFreeJobs(t)
    ensures id in Enqueued(t, job).jobs
    ensures var row := Enqueued(t, job).jobs[id];
            row.capture == job.capture && row.request == job.request && row.mode == job.mode
              && row.backend == job.backend
  {
    hide SpeechFor, Trim, JobKey, NulFreeOrder, Injective;
    var t' := Enqueued(t, job);
    if JobKeyTaken(t, job.key) {
      id :| id in t.jobs && t.jobs[id].key == job.key;
      var row := t.jobs[id];
      assert Traced(cfg, t, row);
      JobKeysDiffer(cfg, job.capture, job.request, job.mode, job.backend, row.capture, row.request, row.mode,
        row.backend);
      assert id in t'.jobs;
    } else {
      id := t.lastJob + 1;
    }
  }

  // ---------- claims ----------

  predicate Requeuing(m: Mark, job: nat) {
    m.RequeueOf? && job in m.jobs
  }

  function ClaimsOf(history: seq<Mark>, job: nat): nat {
    if history == [] then 0
    else ClaimsOf(history[..|history| - 1], job) + (if history[|history| - 1] == ClaimOf(job) then 1 else 0)
  }

  function RequeuesOf(history: seq<Mark>, job: nat): nat {
    if history == [] then 0
    else RequeuesOf(history[..|history| - 1], job) + (if Requeuing(history[|history| - 1], job) then 1 else 0)
  }

  predicate Claims(s: State, a: Action, job: nat) {
    a.Claim? && a.ok && a.next == Some(job) && job in s.t.jobs
  }

  lemma AttemptsStep(cfg: Config, s: State, a: Action, job: nat)
    requires UniqueJobs(s.t) && Enabled(cfg, s, a)
    ensures
      var t' := NextTables(cfg, s, a);
      && (job in s.t.jobs ==>
           job in t'.jobs
           && t'.jobs[job].attempts == s.t.jobs[job].attempts + (if Claims(s, a, job) then 1 else 0))
      && (job !in s.t.jobs && job in t'.jobs ==> t'.jobs[job].attempts == 0)
  {
    hide Format, InputOf, Accepts, Speaks, SpeechFor, JobKey, IsNext, IsLatest, LeaseFree;
  }

  /** Of one step: claims take the queue's jobs, requeues put others in, and nothing else does. */
  predicate QueueKept(s: State, t': Tables, a: Action, job: nat) {
    && (Claims(s, a, job) ==> IsQueued(s.t.jobs, job) && !IsQueued(t'.jobs, job))
    && (job in Requeues(s, a) ==> job in s.t.jobs && !IsQueued(s.t.jobs, job))
    && (job in s.t.jobs && job !in Requeues(s, a) && IsQueued(t'.jobs, job) ==> IsQueued(s.t.jobs, job))
  }

  lemma ClaimAndQueue(cfg: Config, s: State, a: Action, job: nat)
    requires Enabled(cfg, s, a) && a.Claim?
    ensures QueueKept(s, NextTables(cfg, s, a), a, job)
  {
    hide Retried, Reset, Claimed, MarkedDone, MarkedFailed, IsNext;
    if a.next.Some? {
      NextIsQueued(s.t.jobs, a.next.value);
      StatementsAndQueue(s.t, a.next.value, a.at, "", job);
    }
  }

  lemma MarkAndQueue(cfg: Config, s: State, a: Action, job: nat)
    requires Enabled(cfg, s, a) && (a.MarkDone? || a.MarkFailed?)
    ensures QueueKept(s, NextTables(cfg, s, a), a, job)
  {
    hide Retried, Reset, Claimed, MarkedDone, MarkedFailed;
    var loop := LoopAt(s, a.l);
    StatementsAndQueue(s.t, loop.job, a.at, if loop.Failing? then loop.failure else "", job);
  }

  lemma RequeueAndQueue(cfg: Config, s: State, a: Action, job: nat)
    requires a.Retry? || a.ResetInFlight?
    ensures QueueKept(s, NextTables(cfg, s, a), a, job)
  {
    hide Retried, Reset, Claimed, MarkedDone, MarkedFailed;
    StatementsAndQueue(s.t, if a.Retry? then a.id else 0, 0, "", job);
  }

  lemma CreateAndQueue(cfg: Config, s: State, a: Action, job: nat)
    requires UniqueJobs(s.t) && Enabled(cfg, s, a) && a.Create?
    ensures QueueKept(s, NextTables(cfg, s, a), a, job)
  {
    hide Enqueued, Speaks, OrderOf, NextTables, UniqueJobs;
    CreateTables(cfg, s, a.h, a.at);
    var r := HandlerAt(s, a.h);
    if r.processor in cfg.processors && job in s.t.jobs {
      InsertsAndQueue(s.t, OrderOf(cfg, cfg.processors[r.processor], r, a.at), job);
    }
  }

  lemma QueueStep(cfg: Config, s: State, a: Action, job: nat)
    requires UniqueJobs(s.t) && Enabled(cfg, s, a)
    ensures QueueKept(s, NextTables(cfg, s, a), a, job)
  {
    hide NextTables, Enabled, UniqueJobs, Requeues;
    if a.Claim? {
      ClaimAndQueue(cfg, s, a, job);
    } else if a.MarkDone? || a.MarkFailed? {
      MarkAndQueue(cfg, s, a, job);
    } else if a.Retry? || a.ResetInFlight? {
      RequeueAndQueue(cfg, s, a, job);
    } else if a.Create? {
      CreateAndQueue(cfg, s, a, job);
    } else {
      SameQueue(cfg, s, a);
    }
  }

  lemma NextIsQueued(jobs: map<nat, JobRow>, id: nat)
    requires IsNext(jobs, id)
    ensures IsQueued(jobs, id)
  {
  }

  /** What each statement does to a job's being queued. */
  lemma StatementsAndQueue(t: Tables, id: nat, at: Instant, why: string, job: nat)
    ensures id in t.jobs ==> (IsQueued(Claimed(t, id, at).jobs, job) <==> IsQueued(t.jobs, job) && job != id)
    ensures IsQueued(MarkedDone(t, id, at).jobs, job) <==> IsQueued(t.jobs, job) && job != id
    ensures IsQueued(MarkedFailed(t, id, at, why).jobs, job) <==> IsQueued(t.jobs, job) && job != id
    ensures IsQueued(Retried(t, id).jobs, job) <==> IsQueued(t.jobs, job) || (job == id && job in t.jobs)
    ensures IsQueued(Reset(t).jobs, job) <==> IsQueued(t.jobs, job) || (job in t.jobs && t.jobs[job].status == Speaking)
  {
    hide Format;
  }

  lemma InsertsAndQueue(t: Tables, row: JobRow, job: nat)
    requires UniqueJobs(t) && job in t.jobs
    ensures IsQueued(Enqueued(t, row).jobs, job) <==> IsQueued(t.jobs, job)
  {
    hide JobKeyTaken;
  }

  /** Steps that are no statement on the job table leave it alone. */
  lemma SameQueue(cfg: Config, s: State, a: Action)
    requires !a.Claim? && !a.MarkDone? && !a.MarkFailed? && !a.Retry? && !a.ResetInFlight? && !a.Create?
    ensures NextTables(cfg, s, a).jobs == s.t.jobs && Requeues(s, a) == {}
  {
    hide Format, LeaseFree, Accepts, EventOf, InputOf, EventKeyTaken;
  }

  /** What one step does to the claim state of one job. */
  lemma RowStep(cfg: Config, s: State, a: Action, job: nat)
    requires Sound(s.t) && Enabled(cfg, s, a)
    ensures
      var t' := NextTables(cfg, s, a);
      && (job in s.t.jobs ==>
           job in t'.jobs
           && t'.jobs[job].attempts == s.t.jobs[job].attempts + (if Claims(s, a, job) then 1 else 0))
      && (job !in s.t.jobs && job in t'.jobs ==> t'.jobs[job].attempts == 0)
      && (Claims(s, a, job) ==> IsQueued(s.t.jobs, job) && !IsQueued(t'.jobs, job))
      && (job in Requeues(s, a) ==> job in s.t.jobs && !IsQueued(s.t.jobs, job))
      && (job in s.t.jobs && job !in Requeues(s, a) && IsQueued(t'.jobs, job) ==> IsQueued(s.t.jobs, job))
  {
    AttemptsStep(cfg, s, a, job);
    QueueStep(cfg, s, a, job);
    hide NextTables, Enabled, Requeues, Claims;
  }

  /** Attempts count the claims, and a job is claimed at most once more often than it is queued again. */
  ghost predicate Ledger(s: State) {
    forall job: nat ::
      && ClaimsOf(s.history, job) == (if job in s.t.jobs then s.t.jobs[job].attempts else 0)
      && ClaimsOf(s.history, job) <= RequeuesOf(s.history, job)
           + (if job !in s.t.jobs || IsQueued(s.t.jobs, job) then 0 else 1)
  }

  lemma HistoryStep(s: State, a: Action, job: nat)
    ensures ClaimsOf(NextHistory(s, a), job) == ClaimsOf(s.history, job) + (if Claims(s, a, job) then 1 else 0)
    ensures RequeuesOf(NextHistory(s, a), job) == RequeuesOf(s.history, job) + (if job in Requeues(s, a) then 1 else 0)
  {
    hide Requeues;
    assert Requeues(s, a) != {} ==> a.Retry? || a.ResetInFlight? by { NoRequeue(s, a); }
    var h' := NextHistory(s, a);
    if h' != s.history {
      assert h'[..|h'| - 1] == s.history;
    }
  }

  lemma NoRequeue(s: State, a: Action)
    ensures Requeues(s, a) != {} ==> a.Retry? || a.ResetInFlight?
  {
  }

  lemma StepKeepsLedger(cfg: Config, s: State, a: Action)
    requires Sound(s.t) && Enabled(cfg, s, a) && Ledger(s)
    ensures Ledger(Next(cfg, s, a))
  {
    hide Sound, Enabled, Requeues, NextTables, NextHistory;
    forall job: nat
      ensures var s' := Next(cfg, s, a);
              && ClaimsOf(s'.history, job) == (if job in s'.t.jobs then s'.t.jobs[job].attempts else 0)
              && ClaimsOf(s'.history, job) <= RequeuesOf(s'.history, job)
                   + (if job !in s'.t.jobs || IsQueued(s'.t.jobs, job) then 0 else 1)
    {
      RowStep(cfg, s, a, job);
      HistoryStep(s, a, job);
    }
  }

  /** In any run a job's attempts are its claims, and never more than one plus its retries and resets. */
  lemma {:induction false} AttemptsAreClaims(cfg: Config, actions: seq<Action>)
    requires Legal(cfg, actions)
    ensures Ledger(Run(cfg, actions))
    ensures var s := Run(cfg, actions);
            forall job :: job in s.t.jobs ==>
              s.t.jobs[job].attempts == ClaimsOf(s.history, job) <= 1 + RequeuesOf(s.history, job)
  {
    if actions != [] {
      var front := actions[..|actions| - 1];
      AttemptsAreClaims(cfg, front);
      RunsAreSound(cfg, front);
      StepKeepsLedger(cfg, Run(cfg, front), actions[|actions| - 1]);
    }
  }

  /** Queued again somewhere strictly between two places of the history. */
  predicate RequeuedBetween(history: seq<Mark>, i: int, k: int, job: nat) {
    exists m :: i < m < k && 0 <= m < |history| && Requeuing(history[m], job)
  }

  /** Any two claims of one job have a requeue between them. */
  ghost predicate ClaimsApart(history: seq<Mark>) {
    forall i, k, job :: 0 <= i < k < |history| && history[i] == ClaimOf(job) && history[k] == ClaimOf(job)
                        ==> RequeuedBetween(history, i, k, job)
  }

  /** A claimed job is not queued until it is queued again. */
  ghost predicate ClaimsHold(s: State) {
    forall i, job :: 0 <= i < |s.history| && s.history[i] == ClaimOf(job)
                     && !RequeuedBetween(s.history, i, |s.history|, job)
                     ==> job in s.t.jobs && !IsQueued(s.t.jobs, job)
  }

  lemma BetweenGrows(history: seq<Mark>, last: Mark, i: int, job: nat)
    requires 0 <= i < |history|
    ensures RequeuedBetween(history + [last], i, |history| + 1, job) <==>
            RequeuedBetween(history, i, |history|, job) || Requeuing(last, job)
    ensures forall k :: i < k < |history| && RequeuedBetween(history, i, k, job) ==>
        RequeuedBetween(history + [last], i, k, job)
    ensures RequeuedBetween(history, i, |history|, job) ==> RequeuedBetween(history + [last], i, |history|, job)
  {
    var h' := history + [last];
    assert h'[|history|] == last;
    assert forall m :: 0 <= m < |history| ==> h'[m] == history[m];
  }

  /** The history grows by at most one mark, which tells what the step did to the job. */
  lemma HistoryTells(s: State, a: Action, job: nat)
    ensures
      var h, h' := s.history, NextHistory(s, a);
      && (h' == h || (|h'| == |h| + 1 && h' == h + [h'[|h|]]))
      && (Claims(s, a, job) <==> |h'| == |h| + 1 && h'[|h|] == ClaimOf(job))
      && (job in Requeues(s, a) <==> |h'| == |h| + 1 && Requeuing(h'[|h|], job))
  {
    NoRequeue(s, a);
  }

  lemma ClaimsHoldStep(cfg: Config, s: State, a: Action, i: int, job: nat)
    requires Sound(s.t) && Enabled(cfg, s, a) && ClaimsHold(s)
    requires var h' := NextHistory(s, a);
             0 <= i < |h'| && h'[i] == ClaimOf(job) && !RequeuedBetween(h', i, |h'|, job)
    ensures var t' := NextTables(cfg, s, a); job in t'.jobs && !IsQueued(t'.jobs, job)
  {
    hide Sound, Enabled, NextTables, NextHistory, Requeues, RequeuedBetween, Requeuing, Claims;
    var h, h' := s.history, NextHistory(s, a);
    HistoryTells(s, a, job);
    RowStep(cfg, s, a, job);
    if i < |h| && h' != h {
      BetweenGrows(h, h'[|h|], i, job);
    }
  }

  lemma ClaimsApartStep(cfg: Config, s: State, a: Action, i: int, k: int, job: nat)
    requires Sound(s.t) && Enabled(cfg, s, a) && ClaimsApart(s.history) && ClaimsHold(s)
    requires var h' := NextHistory(s, a); 0 <= i < k < |h'| && h'[i] == ClaimOf(job) && h'[k] == ClaimOf(job)
    ensures RequeuedBetween(NextHistory(s, a), i, k, job)
  {
    hide Sound, Enabled, NextTables, NextHistory, Requeues, RequeuedBetween, Requeuing, Claims;
    var h, h' := s.history, NextHistory(s, a);
    HistoryTells(s, a, job);
    if h' != h {
      BetweenGrows(h, h'[|h|], i, job);
      RowStep(cfg, s, a, job);
    }
  }

  lemma StepKeepsClaims(cfg: Config, s: State, a: Action)
    requires Sound(s.t) && Enabled(cfg, s, a) && ClaimsApart(s.history) && ClaimsHold(s)
    ensures ClaimsApart(Next(cfg, s, a).history) && ClaimsHold(Next(cfg, s, a))
  {
    hide Sound, Enabled, NextTables, NextHistory, NextLoops, NextHandlers, RequeuedBetween, IsQueued;
    var h' := NextHistory(s, a);
    forall i, job | 0 <= i < |h'| && h'[i] == ClaimOf(job) && !RequeuedBetween(h', i, |h'|, job)
      ensures var t' := NextTables(cfg, s, a); job in t'.jobs && !IsQueued(t'.jobs, job)
    {
      ClaimsHoldStep(cfg, s, a, i, job);
    }
    forall i, k, job | 0 <= i < k < |h'| && h'[i] == ClaimOf(job) && h'[k] == ClaimOf(job)
      ensures RequeuedBetween(h', i, k, job)
    {
      ClaimsApartStep(cfg, s, a, i, k, job);
    }
  }

  /** Exclusive claims over whole runs: between two claims of a job, a retry or reset queued it again. */
  lemma {:induction false} ClaimsAreExclusive(cfg: Config, actions: seq<Action>)
    requires Legal(cfg, actions)
    ensures ClaimsApart(Run(cfg, actions).history)
    ensures ClaimsHold(Run(cfg, actions))
  {
    if actions != [] {
      var front := actions[..|actions| - 1];
      ClaimsAreExclusive(cfg, front);
      RunsAreSound(cfg, front);
      StepKeepsClaims(cfg, Run(cfg, front), actions[|actions| - 1]);
    }
  }
}
