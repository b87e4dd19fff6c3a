/**
  * The whole pipeline as a state machine: event handlers, speaker loops, the operator's retry and the
  * startup reset act on one set of tables, one statement or transaction at a time, in any order.
  */
module Pipeline {
  import opened Strings
  import opened Timestamps
  import opened Subjects
  import opened Store
  import Speech
  import Worker

  // ---------- configuration ----------

  /** One event as it comes off the bus. */
  datatype Event = Event(
    kind: EventKind, provider: string, role: string, stableId: string, repoRoot: string, session: string,
    request: string, timestamp: Instant, payload: string, metadata: string)

  /** A capture process: it handles the events of one capture and queues speech in one mode and backend. */
  datatype Processor = Processor(capture: string, name: string, mode: string, backend: string,
                                 summarizer: Speech.Summarizer)

  /** A process's speech settings: the backend its worker asks for and its registry's default. */
  datatype Voice = Voice(backend: string, fallback: string)

  /**
    * `owners` gives each speaker loop its lease owner id and `voices` its speech settings; loops of one process
    * share both. `extract` finds the assistant text in a payload, `hash` makes the unique keys, `rewrite` is the
    * first half of cleaning.
    */
  datatype Config = Config(
    owners: map<nat, string>, voices: map<nat, Voice>, ttl: nat, start: Instant, rewrite: string -> string,
    processors: map<nat, Processor>, extract: string -> string, hash: string -> string)

  function OwnerOf(cfg: Config, loop: nat): string {
    if loop in cfg.owners then cfg.owners[loop] else ""
  }

  function SetupOf(cfg: Config, loop: nat): Worker.Setup {
    var voice := if loop in cfg.voices then cfg.voices[loop] else Voice("", "");
    Worker.Setup(cfg.rewrite, voice.backend, voice.fallback)
  }

  // ---------- events, keys and jobs ----------

  function KindText(kind: EventKind): string {
    match kind
    case RegistryOnline => "registry.online"
    case RegistryOffline => "registry.offline"
    case AgentWaiting => "agent.waiting"
    case AgentBusy => "agent.busy"
    case AgentTooling => "agent.tooling"
    case AgentDone => "agent.done"
    case AgentError => "agent.error"
    case LlmRequest => "llm.request"
    case LlmResponse => "llm.response"
    case ToolCall => "tool.call"
    case ToolResult => "tool.result"
    case Unknown(name) => name
  }

  function EventFields(e: Event): seq<string> {
    [KindText(e.kind), e.provider, e.role, e.stableId, e.repoRoot, e.session, e.request,
     Format(e.timestamp), e.payload, e.metadata]
  }

  function EventKey(cfg: Config, e: Event): string {
    cfg.hash(Join(EventFields(e), "\0"))
  }

  function JobKey(cfg: Config, capture: string, request: string, mode: string, backend: string): string {
    cfg.hash(Join([capture, request, mode, backend], "\0"))
  }

  predicate MatchesCapture(p: Processor, e: Event) {
    if Trim(e.stableId) != "" then Trim(e.stableId) == p.capture else Trim(e.role) == p.name
  }

  function AssistantText(cfg: Config, e: Event): string {
    if e.kind != LlmResponse || e.payload == "" then "" else Speech.Clean(cfg.rewrite, cfg.extract(e.payload))
  }

  function EventStatus(kind: EventKind): string {
    match kind
    case AgentDone => "done"
    case AgentError => "error"
    case _ => "running"
  }

  function InputOf(cfg: Config, p: Processor, e: Event): EventInput {
    EventInput(p.capture, e.request, e.kind, e.provider, if e.timestamp == ZERO_TIME then None else Some(e.timestamp),
               EventKey(cfg, e), if e.payload == "" then "{}" else e.payload,
               AssistantText(cfg, e), EventStatus(e.kind), e.kind == AgentDone)
  }

  function SpeechFor(cfg: Config, p: Processor, text: string): Speech.Result {
    Speech.Build(p.summarizer, cfg.rewrite, p.mode, text)
  }

  function ChooseEventId(primary: nat, fallback: nat): nat {
    if primary > 0 then primary else fallback
  }

  function JobInputOf(cfg: Config, p: Processor, request: string, response: nat, record: nat, text: string,
                      now: Instant): JobInput {
    JobInput(p.capture, request, ChooseEventId(response, record), p.mode, p.backend, Some(Queued),
             SpeechFor(cfg, p, text).speech, SpeechFor(cfg, p, text).summary,
             JobKey(cfg, p.capture, request, p.mode, p.backend), Some(now))
  }

  // ---------- states ----------

  /** A speaker loop inside one iteration; from `Holding` on it stands between acquire and release. */
  datatype Loop =
    | Idle
    | Timed(now: Instant)
    | Holding(expiry: Instant)
    | Reciting(expiry: Instant, job: nat, left: seq<string>)
    | Failing(expiry: Instant, job: nat, failure: string)
    | Leaving(expiry: Instant)

  predicate Holds(l: Loop) {
    !l.Idle? && !l.Timed?
  }

  /** One subscription callback inside `HandleEvent`. */
  datatype Handler =
    | Received(processor: nat, event: Event)
    | Waiting(processor: nat, event: Event, record: nat)
    | Ready(processor: nat, event: Event, record: nat, response: nat, text: string)
    | Over

  /** What the run remembers of a job: its claims, and the statements that queued it again. */
  datatype Mark = ClaimOf(job: nat) | RequeueOf(jobs: set<nat>)

  datatype State = State(
    t: Tables, clock: Instant, loops: map<nat, Loop>, handlers: map<nat, Handler>, history: seq<Mark>)

  function LoopAt(s: State, l: nat): Loop {
    if l in s.loops then s.loops[l] else Idle
  }

  function HandlerAt(s: State, h: nat): Handler {
    if h in s.handlers then s.handlers[h] else Over
  }

  function Init(cfg: Config): State {
    State(EMPTY, cfg.start, map[], map[], [])
  }

  // ---------- steps ----------

  /**
    * `ok: false` stands for a statement that the database driver reports as failed. A waiting handler that has
    * polled in vain for long enough ends with a last poll that finds nothing, `Timeout`; `Abandon` is a handler's
    * failed statement, or the end of its process.
    */
  datatype Action =
    | Tick(to: Instant)
    | ReadClock(l: nat)
    | Acquire(l: nat, ok: bool)
    | Claim(l: nat, at: Instant, next: Option<nat>, ok: bool)
    | Speak(l: nat, outcome: Option<string>)
    | MarkDone(l: nat, at: Instant, ok: bool)
    | MarkFailed(l: nat, at: Instant, ok: bool)
    | Release(l: nat, ok: bool)
    | Shutdown(l: nat)
    | Crash(l: nat)
    | Retry(id: nat)
    | ResetInFlight
    | Deliver(h: nat, p: nat, e: Event)
    | Record(h: nat, at: Instant)
    | Poll(h: nat, found: Option<nat>)
    | Timeout(h: nat)
    | Abandon(h: nat)
    | Create(h: nat, at: Instant)

  ghost predicate Enabled(cfg: Config, s: State, a: Action) {
    match a
    case Tick(to) => s.clock <= to
    case ReadClock(l) => l in cfg.owners && LoopAt(s, l).Idle?
    case Acquire(l, _) => LoopAt(s, l).Timed?
    case Claim(l, at, next, _) =>
      && LoopAt(s, l).Holding? && at <= s.clock
      && (next.Some? ==> IsNext(s.t.jobs, next.value))
      && (next.None? ==> forall k :: !IsQueued(s.t.jobs, k))
    case Speak(l, _) => LoopAt(s, l).Reciting? && LoopAt(s, l).left != []
    case MarkDone(l, at, _) => LoopAt(s, l).Reciting? && LoopAt(s, l).left == [] && at <= s.clock
    case MarkFailed(l, at, _) => LoopAt(s, l).Failing? && at <= s.clock
    case Release(l, _) => LoopAt(s, l).Leaving?
    case Shutdown(l) => l in cfg.owners && LoopAt(s, l).Idle?
    case Crash(l) => l in cfg.owners
    case Retry(_) => true
    case ResetInFlight => true
    case Deliver(h, p, _) => h !in s.handlers && p in cfg.processors
    case Record(h, at) => HandlerAt(s, h).Received? && at <= s.clock
    case Poll(h, found) =>
      && HandlerAt(s, h).Waiting? && HandlerAt(s, h).processor in cfg.processors
      && var w := HandlerAt(s, h); var p := cfg.processors[w.processor];
         if found.Some? then IsLatest(s.t.events, p.capture, w.event.request, found.value)
         else forall k :: k in s.t.events ==> !Answers(s.t.events[k], p.capture, w.event.request)
    case Timeout(h) =>
      && HandlerAt(s, h).Waiting? && HandlerAt(s, h).processor in cfg.processors
      && var w := HandlerAt(s, h); var p := cfg.processors[w.processor];
         forall k :: k in s.t.events ==> !Answers(s.t.events[k], p.capture, w.event.request)
    case Abandon(h) => !HandlerAt(s, h).Over?
    case Create(h, at) => HandlerAt(s, h).Ready? && at <= s.clock
  }

  /** Whether a delivered event goes into the table: it belongs to the capture and its key is new. */
  predicate Accepts(cfg: Config, t: Tables, p: Processor, e: Event) {
    MatchesCapture(p, e) && EventKey(cfg, e) != "" && !EventKeyTaken(t, EventKey(cfg, e))
  }

  /** Whether a found answer gives something to say. */
  predicate Speaks(cfg: Config, p: Processor, request: string, text: string) {
    Trim(SpeechFor(cfg, p, text).speech) != "" && JobKey(cfg, p.capture, request, p.mode, p.backend) != ""
  }

  function NextTables(cfg: Config, s: State, a: Action): Tables {
    match a
    case Acquire(l, ok) =>
      var loop := LoopAt(s, l);
      if ok && loop.Timed? then Leased(s.t, Worker.SPEAKER_LEASE, OwnerOf(cfg, l), loop.now, cfg.ttl) else s.t
    case Claim(l, at, next, ok) =>
      if ok && next.Some? && next.value in s.t.jobs then Claimed(s.t, next.value, at) else s.t
    case MarkDone(l, at, ok) => if ok && LoopAt(s, l).Reciting? then MarkedDone(s.t, LoopAt(s, l).job, at) else s.t
    case MarkFailed(l, at, ok) =>
      if ok && LoopAt(s, l).Failing? then MarkedFailed(s.t, LoopAt(s, l).job, at, LoopAt(s, l).failure) else s.t
    case Release(l, ok) => if ok then Released(s.t, Worker.SPEAKER_LEASE, OwnerOf(cfg, l)) else s.t
    case Shutdown(l) => Released(s.t, Worker.SPEAKER_LEASE, OwnerOf(cfg, l))
    case Retry(id) => Retried(s.t, id)
    case ResetInFlight => Reset(s.t)
    case Record(h, at) =>
      var r := HandlerAt(s, h);
      if r.Received? && r.processor in cfg.processors && Accepts(cfg, s.t, cfg.processors[r.processor], r.event)
      then Recorded(s.t, EventOf(InputOf(cfg, cfg.processors[r.processor], r.event), at))
      else s.t
    case Create(h, at) =>
      var r := HandlerAt(s, h);
      if r.Ready? && r.processor in cfg.processors && Speaks(cfg, cfg.processors[r.processor], r.event.request, r.text)
      then Enqueued(s.t,
             JobOf(JobInputOf(cfg, cfg.processors[r.processor], r.event.request, r.response, r.record, r.text, at), at))
      else s.t
    case _ => s.t
  }

  function NextLoop(cfg: Config, s: State, a: Action, loop: Loop): Loop {
    match a
    case ReadClock(_) => Timed(s.clock)
    case Acquire(l, ok) =>
      if ok && loop.Timed? && LeaseFree(s.t, Worker.SPEAKER_LEASE, OwnerOf(cfg, l), loop.now)
      then Holding(loop.now + cfg.ttl) else Idle
    case Claim(l, _, next, ok) =>
      if !Holds(loop) then loop
      else if ok && next.Some? && next.value in s.t.jobs
      then Reciting(loop.expiry, next.value, Worker.Script(SetupOf(cfg, l), s.t.jobs[next.value]))
      else Leaving(loop.expiry)
    case Speak(_, outcome) =>
      if !loop.Reciting? || loop.left == [] then loop
      else if outcome.Some? then Failing(loop.expiry, loop.job, outcome.value)
      else Reciting(loop.expiry, loop.job, loop.left[1..])
    case MarkDone(_, _, _) => if Holds(loop) then Leaving(loop.expiry) else loop
    case MarkFailed(_, _, _) => if Holds(loop) then Leaving(loop.expiry) else loop
    case Release(_, _) => Idle
    case Crash(_) => Idle
    case _ => loop
  }

  predicate OfLoop(a: Action) {
    || a.ReadClock? || a.Acquire? || a.Claim? || a.Speak? || a.MarkDone? || a.MarkFailed?
    || a.Release? || a.Shutdown? || a.Crash?
  }

  function NextLoops(cfg: Config, s: State, a: Action): map<nat, Loop> {
    if OfLoop(a) then s.loops[a.l := NextLoop(cfg, s, a, LoopAt(s, a.l))] else s.loops
  }

  function NextHandlers(cfg: Config, s: State, a: Action): map<nat, Handler> {
    match a
    case Deliver(h, p, e) => s.handlers[h := Received(p, e)]
    case Record(h, _) =>
      var r := HandlerAt(s, h);
      s.handlers[h :=
        if r.Received? && r.processor in cfg.processors && Accepts(cfg, s.t, cfg.processors[r.processor], r.event)
           && r.event.kind == AgentDone
        then Waiting(r.processor, r.event, s.t.lastEvent + 1) else Over]
    case Poll(h, found) =>
      var w := HandlerAt(s, h);
      if w.Waiting? && found.Some? && found.value in s.t.events && s.t.events[found.value].text.Some?
      then s.handlers[h := Ready(w.processor, w.event, w.record, found.value, s.t.events[found.value].text.value)]
      else s.handlers
    case Timeout(h) => s.handlers[h := Over]
    case Abandon(h) => s.handlers[h := Over]
    case Create(h, _) => s.handlers[h := Over]
    case _ => s.handlers
  }

  /** The jobs that a retry or a reset turns from something else into queued ones. */
  function Requeues(s: State, a: Action): set<nat> {
    match a
    case Retry(id) => if id in s.t.jobs && s.t.jobs[id].status != Queued then {id} else {}
    case ResetInFlight => set id | id in s.t.jobs && s.t.jobs[id].status == Speaking
    case _ => {}
  }

  function NextHistory(s: State, a: Action): seq<Mark> {
    if a.Claim? && a.ok && a.next.Some? && a.next.value in s.t.jobs then s.history + [ClaimOf(a.next.value)]
    else if a.Retry? || a.ResetInFlight? then s.history + [RequeueOf(Requeues(s, a))]
    else s.history
  }

  function Next(cfg: Config, s: State, a: Action): State {
    State(NextTables(cfg, s, a), if a.Tick? then a.to else s.clock,
          NextLoops(cfg, s, a), NextHandlers(cfg, s, a), NextHistory(s, a))
  }

  // ---------- runs ----------

  /** The state after a run, latest action last. */
  function Run(cfg: Config, actions: seq<Action>): State {
    if actions == [] then Init(cfg)
    else Next(cfg, Run(cfg, actions[..|actions| - 1]), actions[|actions| - 1])
  }

  ghost predicate Legal(cfg: Config, actions: seq<Action>) {
    actions == [] ||
    (Legal(cfg, actions[..|actions| - 1]) && Enabled(cfg, Run(cfg, actions[..|actions| - 1]), actions[|actions| - 1]))
  }

  lemma {:induction false} ClockAscends(cfg: Config, actions: seq<Action>)
    requires Legal(cfg, actions) && actions != []
    ensures Run(cfg, actions[..|actions| - 1]).clock <= Run(cfg, actions).clock
  {
    hide NextTables, NextLoops, NextHandlers, NextHistory;
  }
}
