/** The event, job and lease tables, and the statements that the pipeline runs on them. */
module Store {
  import opened Strings
  import opened Timestamps
  import opened Subjects

  // ---------- rows ----------

  datatype EventRow = EventRow(
    capture: string, request: string, kind: EventKind, provider: string, occurredAt: string,
    key: string, payload: string, text: Option<string>, status: Option<string>, final: bool)

  /** `Foreign` is any other text a caller could store in the status column. */
  datatype Status = Queued | Speaking | Done | Failed | Foreign(name: string)

  datatype JobRow = JobRow(
    capture: string, request: string, event: Option<nat>, mode: string, backend: string,
    status: Status, speech: string, summary: Option<string>, key: string,
    attempts: nat, lastError: Option<string>,
    queuedAt: string, startedAt: Option<string>, completedAt: Option<string>)

  datatype LeaseRow = LeaseRow(owner: string, expiresAt: string)

  /** `last*` is the highest id an AUTOINCREMENT column has handed out. */
  datatype Tables = Tables(
    events: map<nat, EventRow>, lastEvent: nat,
    jobs: map<nat, JobRow>, lastJob: nat,
    leases: map<string, LeaseRow>)

  const EMPTY := Tables(map[], 0, map[], 0, map[])

  function Nullable(s: string): Option<string> {
    if s == "" then None else Some(s)
  }

  datatype EventInput = EventInput(
    capture: string, request: string, kind: EventKind, provider: string, occurredAt: Option<Instant>,
    key: string, payload: string, text: string, status: string, final: bool)

  /** The row to insert; an absent time becomes the current one. */
  function EventOf(input: EventInput, now: Instant): EventRow {
    EventRow(input.capture, input.request, input.kind, input.provider,
             Format(if input.occurredAt.Some? then input.occurredAt.value else now),
             input.key, input.payload, Nullable(input.text), Nullable(input.status), input.final)
  }

  datatype JobInput = JobInput(
    capture: string, request: string, event: nat, mode: string, backend: string,
    status: Option<Status>, speech: string, summary: string, key: string, queuedAt: Option<Instant>)

  function JobOf(input: JobInput, now: Instant): JobRow {
    JobRow(input.capture, input.request, if input.event == 0 then None else Some(input.event),
           input.mode, input.backend,
           if input.status.Some? then input.status.value else Queued, input.speech, Nullable(input.summary), input.key,
           0, None, Format(if input.queuedAt.Some? then input.queuedAt.value else now), None, None)
  }

  // ---------- what each statement does to the tables ----------

  predicate EventKeyTaken(t: Tables, key: string) {
    exists id :: id in t.events && t.events[id].key == key
  }

  predicate JobKeyTaken(t: Tables, key: string) {
    exists id :: id in t.jobs && t.jobs[id].key == key
  }

  /** INSERT OR IGNORE under the unique key. */
  function Recorded(t: Tables, row: EventRow): Tables {
    if EventKeyTaken(t, row.key) then t
    else t.(events := t.events[t.lastEvent + 1 := row], lastEvent := t.lastEvent + 1)
  }

  function Enqueued(t: Tables, row: JobRow): Tables {
    if JobKeyTaken(t, row.key) then t
    else t.(jobs := t.jobs[t.lastJob + 1 := row], lastJob := t.lastJob + 1)
  }

  predicate LeaseFree(t: Tables, name: string, owner: string, now: Instant) {
    name !in t.leases || t.leases[name].owner == owner || ParseStored(t.leases[name].expiresAt) <= now
  }

  function Leased(t: Tables, name: string, owner: string, now: Instant, ttl: nat): Tables {
    if LeaseFree(t, name, owner, now)
    then t.(leases := t.leases[name := LeaseRow(owner, Format(now + ttl))])
    else t
  }

  function Released(t: Tables, name: string, owner: string): Tables {
    if name in t.leases && t.leases[name].owner == owner then t.(leases := t.leases - {name}) else t
  }

  /**
    * The three ways to a lease, and what taking it leaves: no row, a row of one's own, or a row that has expired,
    * whoever left it there. A row of another owner that has not expired stays as it is.
    */
  lemma LeaseIsTaken(t: Tables, name: string, owner: string, now: Instant, ttl: nat)
    ensures name !in t.leases ==>
              Leased(t, name, owner, now, ttl).leases == t.leases[name := LeaseRow(owner, Format(now + ttl))]
    ensures name in t.leases && t.leases[name].owner == owner ==>
              Leased(t, name, owner, now, ttl).leases == t.leases[name := LeaseRow(owner, Format(now + ttl))]
    ensures name in t.leases && ParseStored(t.leases[name].expiresAt) <= now ==>
              Leased(t, name, owner, now, ttl).leases == t.leases[name := LeaseRow(owner, Format(now + ttl))]
    ensures name in t.leases && t.leases[name].owner != owner && now < ParseStored(t.leases[name].expiresAt) ==>
              Leased(t, name, owner, now, ttl) == t
  {
    hide Format, ParseStored;
  }

  /** An expiry that does not parse counts as past, whoever left it, from year 1 on: day 366 of the calendar. */
  lemma UnreadableLeaseIsTaken(t: Tables, name: string, owner: string, now: Instant, ttl: nat)
    requires name in t.leases && Parse(t.leases[name].expiresAt).None? && 366 * DAY * SECOND <= now
    ensures Leased(t, name, owner, now, ttl).leases == t.leases[name := LeaseRow(owner, Format(now + ttl))]
  {
    hide Format, Parse;
    ZeroTimeIs();
  }

  /** A crashed process left its row; another one takes it once it has expired. */
  lemma CrashedLeaseExample(now: Instant, ttl: nat)
    ensures
      var t := EMPTY.(leases := map["speaker" := LeaseRow("pid-1", Format(0))]);
      "speaker" in Leased(t, "speaker", "pid-2", now, ttl).leases
      && Leased(t, "speaker", "pid-2", now, ttl).leases["speaker"] == LeaseRow("pid-2", Format(now + ttl))
  {
    FirstSecond(0);
    StampRoundTrip(0);
    hide Format, ParseStored, InCalendar;
    LeaseIsTaken(EMPTY.(leases := map["speaker" := LeaseRow("pid-1", Format(0))]), "speaker", "pid-2", now, ttl);
  }

  predicate IsQueued(jobs: map<nat, JobRow>, id: nat) {
    id in jobs && jobs[id].status == Queued
  }

  /** The claim query's order over two job rows. */
  predicate JobBefore(jobs: map<nat, JobRow>, a: nat, b: nat)
    requires a in jobs && b in jobs
  {
    RowBefore(jobs[a].queuedAt, a, jobs[b].queuedAt, b)
  }

  ghost predicate IsNext(jobs: map<nat, JobRow>, id: nat) {
    IsQueued(jobs, id) && forall k :: IsQueued(jobs, k) && k != id ==> JobBefore(jobs, id, k)
  }

  function ClaimedRow(job: JobRow, at: Instant): JobRow {
    job.(status := Speaking, startedAt := Some(Format(at)), attempts := job.attempts + 1)
  }

  function Claimed(t: Tables, id: nat, at: Instant): Tables
    requires id in t.jobs
  {
    t.(jobs := t.jobs[id := ClaimedRow(t.jobs[id], at)])
  }

  function DoneRow(job: JobRow, at: Instant): JobRow {
    job.(status := Done, completedAt := Some(Format(at)), lastError := None)
  }

  function MarkedDone(t: Tables, id: nat, at: Instant): Tables {
    if id in t.jobs then t.(jobs := t.jobs[id := DoneRow(t.jobs[id], at)]) else t
  }

  function FailedRow(job: JobRow, at: Instant, failure: string): JobRow {
    job.(status := Failed, completedAt := Some(Format(at)), lastError := Some(failure))
  }

  function MarkedFailed(t: Tables, id: nat, at: Instant, failure: string): Tables {
    if id in t.jobs then t.(jobs := t.jobs[id := FailedRow(t.jobs[id], at, failure)]) else t
  }

  function RetriedRow(job: JobRow): JobRow {
    job.(status := Queued, startedAt := None, completedAt := None, lastError := None)
  }

  function Retried(t: Tables, id: nat): Tables {
    if id in t.jobs then t.(jobs := t.jobs[id := RetriedRow(t.jobs[id])]) else t
  }

  function ResetRow(job: JobRow): JobRow {
    if job.status == Speaking then job.(status := Queued, startedAt := None) else job
  }

  function Reset(t: Tables): Tables {
    t.(jobs := map id | id in t.jobs :: ResetRow(t.jobs[id]))
  }

  /** The rows that may answer a finished request. */
  predicate Answers(row: EventRow, capture: string, request: string) {
    && row.capture == capture && row.request == request && row.kind == LlmResponse
    && row.text.Some? && row.text.value != ""
  }

  /** ORDER BY final DESC, occurred_at DESC, id DESC. */
  predicate LaterEvent(events: map<nat, EventRow>, a: nat, b: nat)
    requires a in events && b in events
  {
    || (events[a].final && !events[b].final)
    || (events[a].final == events[b].final && RowBefore(events[b].occurredAt, b, events[a].occurredAt, a))
  }

  ghost predicate IsLatest(events: map<nat, EventRow>, capture: string, request: string, id: nat) {
    && id in events && Answers(events[id], capture, request)
    && forall k :: k in events && Answers(events[k], capture, request) && k != id ==> LaterEvent(events, id, k)
  }

  // ---------- the order of rows ----------

  lemma RowBeforeTotal(stampA: string, a: nat, stampB: string, b: nat)
    ensures RowBefore(stampA, a, stampB, b) || RowBefore(stampB, b, stampA, a) || (stampA == stampB && a == b)
    ensures !(RowBefore(stampA, a, stampB, b) && RowBefore(stampB, b, stampA, a))
  {
    TextLessTotal(stampA, stampB);
    TextLessTotal(stampA, stampA);
  }

  lemma RowBeforeTransitive(stampA: string, a: nat, stampB: string, b: nat, stampC: string, c: nat)
    requires RowBefore(stampA, a, stampB, b) && RowBefore(stampB, b, stampC, c)
    ensures RowBefore(stampA, a, stampC, c)
  {
    if TextLess(stampA, stampB) && TextLess(stampB, stampC) {
      TextLessTransitive(stampA, stampB, stampC);
    }
  }

  lemma NextIsUnique(jobs: map<nat, JobRow>, a: nat, b: nat)
    requires IsNext(jobs, a) && IsNext(jobs, b)
    ensures a == b
  {
    RowBeforeTotal(jobs[a].queuedAt, a, jobs[b].queuedAt, b);
  }

  // ---------- the order in time ----------

  function QueuedTime(jobs: map<nat, JobRow>, id: nat): Instant
    requires id in jobs
  {
    ParseStored(jobs[id].queuedAt)
  }

  ghost predicate QueuedStamps(jobs: map<nat, JobRow>) {
    forall k :: IsQueued(jobs, k) ==> Stamped(jobs[k].queuedAt)
  }

  /** No other queued job is older; ids break ties. */
  ghost predicate IsEldest(jobs: map<nat, JobRow>, id: nat) {
    IsQueued(jobs, id)
    && forall k :: IsQueued(jobs, k) && k != id ==> TimeBefore(QueuedTime(jobs, id), id, QueuedTime(jobs, k), k)
  }

  /** No queued stamp is on the wrong side of this one. */
  ghost predicate Unswapped(jobs: map<nat, JobRow>, id: nat)
    requires id in jobs
  {
    forall k :: IsQueued(jobs, k) ==> !Swapped(QueuedTime(jobs, id), QueuedTime(jobs, k))
  }

  /**
    * Of the next job, the eldest job and the job with no swapped partner, any two are the third: the eldest is
    * claimed exactly when no queued stamp is swapped with its own, and the claimed one is the eldest exactly then.
    */
  lemma ClaimIsOldest(jobs: map<nat, JobRow>, id: nat)
    requires QueuedStamps(jobs) && IsQueued(jobs, id)
    ensures IsEldest(jobs, id) ==> (IsNext(jobs, id) <==> Unswapped(jobs, id))
    ensures IsNext(jobs, id) ==> (IsEldest(jobs, id) <==> Unswapped(jobs, id))
  {
    hide Stamped, Swapped, ParseStored, RowBefore, TimeBefore;
    forall k | IsQueued(jobs, k)
      ensures (JobBefore(jobs, id, k) <==> TimeBefore(QueuedTime(jobs, id), id, QueuedTime(jobs, k), k))
              <==> !Swapped(QueuedTime(jobs, id), QueuedTime(jobs, k))
    {
      StampedOrder(jobs[id].queuedAt, id, jobs[k].queuedAt, k);
    }
    NeverSwappedWithItself(QueuedTime(jobs, id));
  }

  /**
    * A younger job than the eldest is claimed exactly when some queued stamp is swapped with the eldest's, and
    * it is then one of those: a claim is never out of order by more than a second.
    */
  lemma ClaimTakesYounger(jobs: map<nat, JobRow>, elder: nat, id: nat)
    requires QueuedStamps(jobs) && IsEldest(jobs, elder) && IsNext(jobs, id)
    ensures id != elder <==> !Unswapped(jobs, elder)
    ensures id != elder ==> Swapped(QueuedTime(jobs, elder), QueuedTime(jobs, id))
  {
    ClaimIsOldest(jobs, elder);
    if id == elder {
    } else {
      if IsNext(jobs, elder) { NextIsUnique(jobs, id, elder); }
      StampedOrder(jobs[elder].queuedAt, elder, jobs[id].queuedAt, id);
      RowBeforeTotal(jobs[elder].queuedAt, elder, jobs[id].queuedAt, id);
      hide Stamped, Swapped, ParseStored, RowBefore, TimeBefore, Unswapped;
      assert JobBefore(jobs, id, elder);
    }
  }

  function OccurredTime(events: map<nat, EventRow>, id: nat): Instant
    requires id in events
  {
    ParseStored(events[id].occurredAt)
  }

  ghost predicate AnswerStamps(events: map<nat, EventRow>, capture: string, request: string) {
    forall k :: k in events && Answers(events[k], capture, request) ==> Stamped(events[k].occurredAt)
  }

  /** Final answers first, then the later one, ids breaking ties. */
  predicate LaterInTime(events: map<nat, EventRow>, a: nat, b: nat)
    requires a in events && b in events
  {
    || (events[a].final && !events[b].final)
    || (events[a].final == events[b].final && TimeBefore(OccurredTime(events, b), b, OccurredTime(events, a), a))
  }

  ghost predicate IsNewest(events: map<nat, EventRow>, capture: string, request: string, id: nat) {
    && id in events && Answers(events[id], capture, request)
    && forall k :: k in events && Answers(events[k], capture, request) && k != id ==> LaterInTime(events, id, k)
  }

  /** No answer of the same standing has a stamp on the wrong side of this one's. */
  ghost predicate UnswappedAnswer(events: map<nat, EventRow>, capture: string, request: string, id: nat)
    requires id in events
  {
    forall k :: k in events && Answers(events[k], capture, request) && events[k].final == events[id].final ==>
                  !Swapped(OccurredTime(events, k), OccurredTime(events, id))
  }

  /** Of the found answer, the newest answer and the answer with no swapped partner, any two are the third. */
  lemma FoundIsNewest(events: map<nat, EventRow>, capture: string, request: string, id: nat)
    requires AnswerStamps(events, capture, request) && id in events && Answers(events[id], capture, request)
    ensures IsNewest(events, capture, request, id) ==>
              (IsLatest(events, capture, request, id) <==> UnswappedAnswer(events, capture, request, id))
    ensures IsLatest(events, capture, request, id) ==>
              (IsNewest(events, capture, request, id) <==> UnswappedAnswer(events, capture, request, id))
  {
    hide Stamped, Swapped, ParseStored, RowBefore, TimeBefore, Answers;
    forall k | k in events && Answers(events[k], capture, request)
      ensures events[k].final == events[id].final ==>
                ((LaterEvent(events, id, k) <==> LaterInTime(events, id, k))
                 <==> !Swapped(OccurredTime(events, k), OccurredTime(events, id)))
      ensures events[k].final != events[id].final ==> (LaterEvent(events, id, k) <==> LaterInTime(events, id, k))
    {
      StampedOrder(events[k].occurredAt, k, events[id].occurredAt, id);
    }
    NeverSwappedWithItself(OccurredTime(events, id));
  }

  // ---------- the shape of job rows ----------

  predicate Shape(job: JobRow) {
    match job.status
    case Queued => job.startedAt.None? && job.completedAt.None? && job.lastError.None?
    case Speaking => job.startedAt.Some? && job.completedAt.None? && job.lastError.None? && job.attempts >= 1
    case Done => job.completedAt.Some? && job.lastError.None?
    case Failed => job.completedAt.Some? && job.lastError.Some?
    case Foreign(_) => false
  }

  predicate UniqueEvents(t: Tables) {
    && (forall id :: id in t.events ==> 1 <= id <= t.lastEvent)
    && (forall a, b :: a in t.events && b in t.events && t.events[a].key == t.events[b].key ==> a == b)
  }

  predicate UniqueJobs(t: Tables) {
    && (forall id :: id in t.jobs ==> 1 <= id <= t.lastJob)
    && (forall a, b :: a in t.jobs && b in t.jobs && t.jobs[a].key == t.jobs[b].key ==> a == b)
  }

  predicate Shaped(t: Tables) {
    forall id :: id in t.jobs ==> Shape(t.jobs[id])
  }

  predicate Sound(t: Tables) {
    UniqueEvents(t) && UniqueJobs(t) && Shaped(t)
  }

  /** The columns no statement ever changes once the row is in. */
  predicate SameOrder(a: JobRow, b: JobRow) {
    && a.capture == b.capture && a.request == b.request && a.event == b.event && a.mode == b.mode
    && a.backend == b.backend && a.speech == b.speech && a.summary == b.summary && a.key == b.key
    && a.queuedAt == b.queuedAt
  }

  /** One row update that leaves the order columns alone and is well shaped keeps the tables sound. */
  lemma UpdateKeepsSound(t: Tables, id: nat, row: JobRow)
    requires Sound(t) && id in t.jobs && SameOrder(row, t.jobs[id]) && Shape(row)
    ensures Sound(t.(jobs := t.jobs[id := row]))
  {
    var t' := t.(jobs := t.jobs[id := row]);
    assert forall k :: k in t'.jobs ==> k in t.jobs && t'.jobs[k].key == t.jobs[k].key;
  }

  lemma ResetKeepsSound(t: Tables)
    requires Sound(t)
    ensures Sound(Reset(t))
  {
    assert forall k :: k in t.jobs ==> Reset(t).jobs[k].key == t.jobs[k].key && Shape(Reset(t).jobs[k]);
  }

  /** Every statement the worker and the operator run keeps the shape of all rows and all unique keys. */
  lemma {:induction false} UpdatesKeepSound(t: Tables, id: nat, at: Instant, failure: string)
    requires Sound(t)
    ensures IsQueued(t.jobs, id) ==> Sound(Claimed(t, id, at))
    ensures Sound(MarkedDone(t, id, at))
    ensures Sound(MarkedFailed(t, id, at, failure))
    ensures Sound(Retried(t, id))
    ensures Sound(Reset(t))
  {
    hide Format, Sound;
    ResetKeepsSound(t);
    if id in t.jobs {
      SoundShape(t, id);
      UpdateKeepsSound(t, id, DoneRow(t.jobs[id], at));
      UpdateKeepsSound(t, id, FailedRow(t.jobs[id], at, failure));
      UpdateKeepsSound(t, id, RetriedRow(t.jobs[id]));
      if IsQueued(t.jobs, id) {
        UpdateKeepsSound(t, id, ClaimedRow(t.jobs[id], at));
      }
    }
  }

  lemma SoundShape(t: Tables, id: nat)
    requires Sound(t) && id in t.jobs
    ensures Shape(t.jobs[id])
  {
  }

  lemma {:induction false} RecordKeepsSound(t: Tables, row: EventRow)
    requires Sound(t)
    ensures Sound(Recorded(t, row))
  {
  }

  /** An inserted job is well shaped exactly when the caller asked for a queued one. */
  lemma EnqueueKeepsSound(t: Tables, input: JobInput, now: Instant)
    requires Sound(t)
    ensures Sound(Enqueued(t, JobOf(input, now))) <==>
            JobKeyTaken(t, input.key) || input.status == None || input.status == Some(Queued)
  {
    hide Format;
    var row := JobOf(input, now);
    var t' := Enqueued(t, row);
    if !JobKeyTaken(t, input.key) {
      assert t'.jobs[t.lastJob + 1] == row;
      assert Shape(row) <==> row.status == Queued;
      assert forall id :: id in t.jobs ==> id != t.lastJob + 1 && t'.jobs[id] == t.jobs[id];
    }
  }

  // ---------- the store ----------

  class Database {
    var events: map<nat, EventRow>
    var lastEvent: nat
    var jobs: map<nat, JobRow>
    var lastJob: nat
    var leases: map<string, LeaseRow>

    ghost function Contents(): Tables
      reads this
    {
      Tables(events, lastEvent, jobs, lastJob, leases)
    }

    constructor ()
      ensures Contents() == EMPTY
    {
      events, lastEvent, jobs, lastJob, leases := map[], 0, map[], 0, map[];
    }

    /** An empty key is an error; otherwise the row under the key comes back, and whether it is new. */
    method RecordEvent(input: EventInput, now: Instant) returns (r: Option<(nat, bool)>)
      modifies this
      ensures r == None <==> input.key == ""
      ensures r == None ==> Contents() == old(Contents())
      ensures r.Some? ==>
                && Contents() == Recorded(old(Contents()), EventOf(input, now))
                && r.value.0 in events && events[r.value.0].key == input.key
                && (r.value.1 <==> forall id :: id in old(events) ==> old(events)[id].key != input.key)
      ensures r.Some? && !r.value.1 ==> Contents() == old(Contents())
      ensures r.Some? && r.value.1 ==>
                var row := events[r.value.0];
                && events == old(events)[r.value.0 := row]
                && row.capture == input.capture && row.request == input.request
                && row.kind == input.kind && row.provider == input.provider
                && row.occurredAt == (if input.occurredAt.Some? then Format(input.occurredAt.value) else Format(now))
                && row.payload == input.payload && row.final == input.final
                && row.text == (if input.text == "" then None else Some(input.text))
                && row.status == (if input.status == "" then None else Some(input.status))
    {
      hide Format;
      if input.key == "" {
        return None;
      }
      var row := EventOf(input, now);
      if exists id :: id in events && events[id].key == row.key {
        var id :| id in events && events[id].key == row.key;
        return Some((id, false));
      }
      lastEvent := lastEvent + 1;
      events := events[lastEvent := row];
      return Some((lastEvent, true));
    }

    method LatestAssistantEvent(capture: string, request: string) returns (latest: Option<nat>)
      ensures latest.None? <==>
                forall k :: k in events && events[k].capture == capture && events[k].request == request ==>
                              events[k].kind != LlmResponse || events[k].text.None? || events[k].text == Some("")
      ensures latest.Some? ==> IsLatest(events, capture, request, latest.value)
    {
      latest := None;
      var rest := events.Keys;
      while rest != {}
        invariant rest <= events.Keys
        invariant latest.None? ==> forall k :: k in events && k !in rest ==> !Answers(events[k], capture, request)
        invariant latest.Some? ==>
                    && latest.value in events && Answers(events[latest.value], capture, request)
                    && forall k :: (k in events && k !in rest && Answers(events[k], capture, request)
                                    && k != latest.value) ==> LaterEvent(events, latest.value, k)
        decreases rest
      {
        var id :| id in rest;
        rest := rest - {id};
        if Answers(events[id], capture, request) {
          if latest.None? {
            latest := Some(id);
          } else {
            var best := latest.value;
            if id != best {
              RowBeforeTotal(events[id].occurredAt, id, events[best].occurredAt, best);
            }
            if LaterEvent(events, id, best) {
              forall k | k in events && k !in rest && Answers(events[k], capture, request) && k != id
                ensures LaterEvent(events, id, k)
              {
                if k != best {
                  LaterTransitive(events, id, best, k);
                }
              }
              latest := Some(id);
            }
          }
        }
      }
    }

    /** An empty key is an error; otherwise the row under the key comes back, and whether it is new. */
    method CreateTTSJob(input: JobInput, now: Instant) returns (r: Option<(nat, bool)>)
      modifies this
      ensures r == None <==> input.key == ""
      ensures r == None ==> Contents() == old(Contents())
      ensures r.Some? ==>
                && Contents() == Enqueued(old(Contents()), JobOf(input, now))
                && r.value.0 in jobs && jobs[r.value.0].key == input.key
                && (r.value.1 <==> forall id :: id in old(jobs) ==> old(jobs)[id].key != input.key)
      ensures r.Some? && !r.value.1 ==> Contents() == old(Contents())
      ensures r.Some? && r.value.1 ==>
                var row := jobs[r.value.0];
                && jobs == old(jobs)[r.value.0 := row]
                && row.capture == input.capture && row.request == input.request
                && row.event == (if input.event == 0 then None else Some(input.event))
                && row.mode == input.mode && row.backend == input.backend
                && row.status == (if input.status.Some? then input.status.value else Queued)
                && row.speech == input.speech
                && row.summary == (if input.summary == "" then None else Some(input.summary))
                && row.queuedAt == (if input.queuedAt.Some? then Format(input.queuedAt.value) else Format(now))
                && row.attempts == 0 && row.startedAt == row.completedAt == row.lastError == None
    {
      hide Format;
      if input.key == "" {
        return None;
      }
      var row := JobOf(input, now);
      if exists id :: id in jobs && jobs[id].key == row.key {
        var id :| id in jobs && jobs[id].key == row.key;
        return Some((id, false));
      }
      lastJob := lastJob + 1;
      jobs := jobs[lastJob := row];
      return Some((lastJob, true));
    }

    method AcquireLease(name: string, owner: string, ttl: nat, now: Instant) returns (acquired: bool)
      modifies this
      ensures Contents() == Leased(old(Contents()), name, owner, now, ttl)
      ensures name !in old(leases) ==> acquired
      ensures name in old(leases) && old(leases)[name].owner == owner ==> acquired
      ensures name in old(leases) && ParseStored(old(leases)[name].expiresAt) <= now ==> acquired
      ensures acquired && name in old(leases) && old(leases)[name].owner != owner ==>
                ParseStored(old(leases)[name].expiresAt) <= now
      ensures acquired ==> leases == old(leases)[name := LeaseRow(owner, Format(now + ttl))]
      ensures !acquired ==> Contents() == old(Contents())
    {
      hide Format, ParseStored;
      if name in leases {
        var current := leases[name];
        if current.owner != owner && ParseStored(current.expiresAt) > now {
          return false;
        }
      }
      leases := leases[name := LeaseRow(owner, Format(now + ttl))];
      return true;
    }

    method ReleaseLease(name: string, owner: string)
      modifies this
      ensures Contents() == Released(old(Contents()), name, owner)
      ensures name in old(leases) && old(leases)[name].owner == owner ==> leases == old(leases) - {name}
      ensures name !in old(leases) || old(leases)[name].owner != owner ==> leases == old(leases)
    {
      if name in leases && leases[name].owner == owner {
        leases := leases - {name};
      }
    }

    /** SELECT ... WHERE status = 'queued' ORDER BY queued_at, id LIMIT 1. */
    method FirstQueued() returns (first: Option<nat>)
      ensures first.None? <==> forall k :: !IsQueued(jobs, k)
      ensures first.None? ==> forall k :: k in jobs ==> jobs[k].status != Queued
      ensures first.Some? ==> IsNext(jobs, first.value)
    {
      first := None;
      var rest := jobs.Keys;
      while rest != {}
        invariant rest <= jobs.Keys
        invariant first.None? ==> forall k :: IsQueued(jobs, k) ==> k in rest
        invariant first.None? ==> forall k :: k in jobs && k !in rest ==> jobs[k].status != Queued
        invariant first.Some? ==>
                    && IsQueued(jobs, first.value)
                    && forall k :: IsQueued(jobs, k) && k !in rest && k != first.value ==>
                         JobBefore(jobs, first.value, k)
        decreases rest
      {
        var id :| id in rest;
        rest := rest - {id};
        if jobs[id].status == Queued {
          if first.None? {
            first := Some(id);
          } else {
            var best := first.value;
            if id != best {
              RowBeforeTotal(jobs[id].queuedAt, id, jobs[best].queuedAt, best);
            }
            if JobBefore(jobs, id, best) {
              forall k | IsQueued(jobs, k) && k !in rest && k != id
                ensures JobBefore(jobs, id, k)
              {
                if k != best {
                  RowBeforeTransitive(jobs[id].queuedAt, id, jobs[best].queuedAt, best, jobs[k].queuedAt, k);
                }
              }
              first := Some(id);
            }
          }
        }
      }
    }

    method ClaimNextQueuedJob(now: Instant) returns (claim: Option<nat>)
      modifies this
      ensures claim.None? <==> forall k :: !IsQueued(old(jobs), k)
      ensures claim.None? ==> Contents() == old(Contents())
      ensures claim.Some? ==>
                IsNext(old(jobs), claim.value) && Contents() == Claimed(old(Contents()), claim.value, now)
      ensures claim.Some? ==>
                var row := old(jobs)[claim.value];
                jobs == old(jobs)[claim.value := row.(
                  status := Speaking, startedAt := Some(Format(now)), attempts := row.attempts + 1)]
    {
      hide Format;
      claim := FirstQueued();
      if claim.Some? {
        jobs := jobs[claim.value := ClaimedRow(jobs[claim.value], now)];
      }
    }

    method MarkJobDone(id: nat, now: Instant)
      modifies this
      ensures Contents() == MarkedDone(old(Contents()), id, now)
      ensures id in old(jobs) ==>
                jobs == old(jobs)[id := old(jobs)[id].(
                  status := Done, completedAt := Some(Format(now)), lastError := None)]
    {
      hide Format;
      if id in jobs {
        jobs := jobs[id := DoneRow(jobs[id], now)];
      }
    }

    method MarkJobFailed(id: nat, failure: string, now: Instant)
      modifies this
      ensures Contents() == MarkedFailed(old(Contents()), id, now, failure)
      ensures id in old(jobs) ==>
                jobs == old(jobs)[id := old(jobs)[id].(
                  status := Failed, completedAt := Some(Format(now)), lastError := Some(failure))]
    {
      hide Format;
      if id in jobs {
        jobs := jobs[id := FailedRow(jobs[id], now, failure)];
      }
    }

    method RetryJob(id: nat)
      modifies this
      ensures Contents() == Retried(old(Contents()), id)
      ensures id in old(jobs) ==>
                jobs == old(jobs)[id := old(jobs)[id].(
                  status := Queued, startedAt := None, completedAt := None, lastError := None)]
    {
      if id in jobs {
        jobs := jobs[id := RetriedRow(jobs[id])];
      }
    }

    method ResetInFlightJobs()
      modifies this
      ensures Contents() == Reset(old(Contents())) && jobs.Keys == old(jobs).Keys
      ensures forall id :: id in jobs ==>
                if old(jobs)[id].status == Speaking
                then jobs[id] == old(jobs)[id].(status := Queued, startedAt := None)
                else jobs[id] == old(jobs)[id]
    {
      jobs := map id | id in jobs :: ResetRow(jobs[id]);
    }
  }

  lemma LaterTransitive(events: map<nat, EventRow>, a: nat, b: nat, c: nat)
    requires a in events && b in events && c in events
    requires LaterEvent(events, a, b) && LaterEvent(events, b, c)
    ensures LaterEvent(events, a, c)
  {
    if events[a].final == events[b].final == events[c].final {
      RowBeforeTransitive(events[c].occurredAt, c, events[b].occurredAt, b, events[a].occurredAt, a);
    }
  }

  lemma LatestIsUnique(events: map<nat, EventRow>, capture: string, request: string, a: nat, b: nat)
    requires IsLatest(events, capture, request, a) && IsLatest(events, capture, request, b)
    ensures a == b
  {
    RowBeforeTotal(events[a].occurredAt, a, events[b].occurredAt, b);
  }
}
