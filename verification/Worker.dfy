/** The speaker: take the lease, claim a job, speak its chunks, mark it and let the lease go. */
module Worker {
  import opened Strings
  import opened Timestamps
  import opened Store
  import Speech

  const SPEAKER_LEASE := "speaker"

  /** The wall clock; it never runs backwards. */
  class Clock {
    var now: Instant

    method Read() returns (t: Instant)
      modifies this
      ensures old(now) <= t == now
    {
      var step :| 0 <= step;
      now := now + step;
      t := now;
    }
  }

  /** One call to a speech backend, with its outcome: nothing, or the message of its failure. */
  datatype Utterance = Utterance(backend: string, text: string, failure: Option<string>)

  /** The speech backends: every call succeeds or fails as it likes, and is kept in the log. */
  class Registry {
    const fallback: string  // the configured default backend
    var log: seq<Utterance>

    method Speak(backend: string, text: string) returns (failure: Option<string>)
      modifies this
      ensures log == old(log) + [Utterance(backend, text, failure)]
    {
      var fails: bool := *;
      var message: string := *;
      failure := if fails then Some(message) else None;
      log := log + [Utterance(backend, text, failure)];
    }
  }

  // ---------- what a job should sound like ----------

  /** What decides the sound of a job: the text rewrites, the worker's backend and the registry's default. */
  datatype Setup = Setup(rewrite: string -> string, backend: string, fallback: string)

  function DefaultBackend(fallback: string): string {
    if Trim(fallback) == "" then "windows" else Speech.Lower(Trim(fallback))
  }

  function VoiceFor(setup: Setup, job: JobRow): string {
    if Trim(job.backend) != "" then Trim(job.backend)
    else if setup.backend != "" then setup.backend
    else DefaultBackend(setup.fallback)
  }

  function LimitFor(backend: string): nat {
    if Speech.Lower(backend) == "google" then 4500 else 3500
  }

  function NonBlank(texts: seq<string>): seq<string> {
    if texts == [] then []
    else (if Trim(texts[0]) == "" then [] else [texts[0]]) + NonBlank(texts[1..])
  }

  /** The chunks of a text; one that cleans to nothing is spoken as it stands. */
  function ChunksToSpeak(rewrite: string -> string, speech: string, limit: nat): seq<string> {
    var chunks := Speech.Chunks(Speech.Clean(rewrite, speech), limit);
    if chunks == [] then [Trim(speech)] else chunks
  }

  function Script(setup: Setup, job: JobRow): seq<string> {
    NonBlank(ChunksToSpeak(setup.rewrite, job.speech, LimitFor(VoiceFor(setup, job))))
  }

  /** Calls that follow the script: all of it if nothing fails, and else up to the first failing call. */
  predicate Recital(calls: seq<Utterance>, script: seq<string>, backend: string, failure: Option<string>) {
    && |calls| <= |script|
    && (forall i :: 0 <= i < |calls| ==> calls[i].backend == backend && calls[i].text == script[i])
    && (forall i :: 0 <= i < |calls| - 1 ==> calls[i].failure.None?)
    && if failure.None? then |calls| == |script| && (calls != [] ==> calls[|calls| - 1].failure.None?)
       else calls != [] && calls[|calls| - 1].failure == failure
  }

  lemma {:induction false} NonBlankAppend(a: seq<string>, b: seq<string>)
    ensures NonBlank(a + b) == NonBlank(a) + NonBlank(b)
  {
    hide Trim;
    if a == [] {
      assert a + b == b;
    } else {
      assert (a + b)[1..] == a[1..] + b;
      NonBlankAppend(a[1..], b);
    }
  }

  lemma NonBlankOne(text: string)
    ensures NonBlank([text]) == if Trim(text) == "" then [] else [text]
  {
    hide Trim;
    assert [text][1..] == [] && NonBlank([]) == [];
  }

  lemma NonBlankAround(front: seq<string>, text: string, back: seq<string>)
    ensures NonBlank(front + [text]) == if Trim(text) == "" then NonBlank(front) else NonBlank(front) + [text]
    ensures Trim(text) != "" ==> NonBlank(front + [text] + back) == NonBlank(front) + ([text] + NonBlank(back))
  {
    hide Trim, NonBlank;
    NonBlankOne(text);
    NonBlankAppend(front, [text]);
    NonBlankAppend(front + [text], back);
    assert NonBlank(front) + [] == NonBlank(front);
    assert NonBlank(front) + [text] + NonBlank(back) == NonBlank(front) + ([text] + NonBlank(back));
  }

  lemma CutAround(texts: seq<string>, i: nat)
    requires i < |texts|
    ensures texts[..i + 1] == texts[..i] + [texts[i]]
    ensures texts == texts[..i] + [texts[i]] + texts[i + 1..]
  {
  }

  lemma NonBlankAt(texts: seq<string>, i: nat)
    requires i < |texts|
    ensures NonBlank(texts[..i + 1]) ==
            if Trim(texts[i]) == "" then NonBlank(texts[..i]) else NonBlank(texts[..i]) + [texts[i]]
    ensures Trim(texts[i]) != "" ==> NonBlank(texts) == NonBlank(texts[..i]) + ([texts[i]] + NonBlank(texts[i + 1..]))
  {
    hide *;
    CutAround(texts, i);
    NonBlankAround(texts[..i], texts[i], texts[i + 1..]);
  }

  lemma RecitalGrows(calls: seq<Utterance>, script: seq<string>, rest: seq<string>, call: Utterance)
    requires Recital(calls, script, call.backend, None)
    ensures call.failure.None? ==> Recital(calls + [call], script + [call.text], call.backend, None)
    ensures call.failure.Some? ==> Recital(calls + [call], script + ([call.text] + rest), call.backend, call.failure)
  {
  }

  // ---------- what is heard ----------

  /** "google" in any mix of letter cases. */
  predicate Google(backend: string) {
    && |backend| == 6
    && backend[0] in {'g', 'G'} && backend[1] in {'o', 'O'} && backend[2] in {'o', 'O'}
    && backend[3] in {'g', 'G'} && backend[4] in {'l', 'L'} && backend[5] in {'e', 'E'}
  }

  /** The job's own backend comes first, then the worker's, then the registry's default, then "windows". */
  predicate InVoice(setup: Setup, job: JobRow, call: Utterance) {
    && (Trim(job.backend) != "" ==> call.backend == Trim(job.backend))
    && (Trim(job.backend) == "" && setup.backend != "" ==> call.backend == setup.backend)
    && (Trim(job.backend) == "" && setup.backend == "" ==>
          (Trim(setup.fallback) != "" ==> call.backend == Speech.Lower(Trim(setup.fallback)))
          && (Trim(setup.fallback) == "" ==> call.backend == "windows"))
  }

  predicate Fits(text: string, backend: string) {
    |text| <= (if Google(backend) then 4500 else 3500)
  }

  /** A cleaned text that fits is said in one call, and a longer one in calls that fit. */
  predicate InMeasure(setup: Setup, job: JobRow, calls: seq<Utterance>) {
    var clean := Speech.Clean(setup.rewrite, job.speech);
    forall i :: 0 <= i < |calls| ==>
      && Trim(calls[i].text) != ""
      && (clean == "" ==> |calls| == 1 && calls[i].text == Trim(job.speech))
      && (clean != "" ==> Fits(calls[i].text, calls[i].backend))
      && (clean != "" && Fits(clean, calls[i].backend) ==> |calls| == 1 && calls[i].text == clean)
  }

  /** The texts in order are the cleaned speech but for blanks between them, and only a failure ends them early. */
  ghost predicate InFull(setup: Setup, job: JobRow, calls: seq<Utterance>, done: bool) {
    var clean := Speech.Clean(setup.rewrite, job.speech);
    if clean == "" then done && Trim(job.speech) != "" ==> calls != []
    else exists parts, gaps ::
      && |parts| == |gaps| + 1 && Speech.Weave(parts, gaps) == clean
      && (forall i :: 0 <= i < |gaps| ==> Speech.Gap(gaps[i]))
      && |calls| <= |parts| && (forall i :: 0 <= i < |calls| ==> calls[i].text == parts[i])
      && (done ==> |calls| == |parts|)
  }

  /** What the calls for one job sound like. */
  ghost predicate Heard(setup: Setup, job: JobRow, calls: seq<Utterance>, done: bool) {
    && (forall i :: 0 <= i < |calls| ==> InVoice(setup, job, calls[i]))
    && InMeasure(setup, job, calls)
    && InFull(setup, job, calls, done)
  }

  lemma VoiceIsHeard(setup: Setup, job: JobRow, calls: seq<Utterance>, failure: Option<string>)
    requires Recital(calls, Script(setup, job), VoiceFor(setup, job), failure)
    ensures forall i :: 0 <= i < |calls| ==> InVoice(setup, job, calls[i])
  {
    hide Trim, Script, Speech.Lower;
  }

  lemma LimitByName(backend: string)
    ensures LimitFor(backend) == if Google(backend) then 4500 else 3500
  {
    GoogleInLower(backend, Speech.Lower(backend));
    hide Speech.Lower, Google;
  }

  lemma GoogleInLower(backend: string, low: string)
    requires |low| == |backend|
    requires forall i :: 0 <= i < |low| ==>
               low[i] == if 'A' <= backend[i] <= 'Z' then backend[i] - 'A' + 'a' else backend[i]
    ensures low == "google" <==> Google(backend)
  {
    var g := "google";
    assert low == g <==> |low| == 6 && forall i :: 0 <= i < 6 ==> low[i] == g[i];
  }

  lemma {:induction false} NonBlankKeeps(texts: seq<string>)
    requires forall i :: 0 <= i < |texts| ==> texts[i] != "" && Trimmed(texts[i])
    ensures NonBlank(texts) == texts
  {
    if texts != [] {
      TrimFixed(texts[0]);
      hide Trim, Trimmed;
      NonBlankKeeps(texts[1..]);
    }
  }

  /** A script of a text that leaves something to say is its chunks. */
  lemma ScriptIsChunks(setup: Setup, job: JobRow)
    ensures var clean := Speech.Clean(setup.rewrite, job.speech);
            clean != "" ==> Script(setup, job) == Speech.Chunks(clean, LimitFor(VoiceFor(setup, job)))
    ensures Speech.Clean(setup.rewrite, job.speech) == "" ==>
              Script(setup, job) == if Trim(job.speech) == "" then [] else [Trim(job.speech)]
  {
    var clean, limit := Speech.Clean(setup.rewrite, job.speech), LimitFor(VoiceFor(setup, job));
    hide Trim, Speech.Clean, VoiceFor, NonBlank, Trimmed, Speech.Pieces;
    if clean != "" {
      Speech.ChunksConserve(setup.rewrite, job.speech, limit);
      NonBlankKeeps(Speech.Chunks(clean, limit));
    } else {
      NonBlankOne(Trim(job.speech));
      TrimFixed(Trim(job.speech));
    }
  }

  lemma MeasureIsHeard(setup: Setup, job: JobRow, calls: seq<Utterance>, failure: Option<string>)
    requires Recital(calls, Script(setup, job), VoiceFor(setup, job), failure)
    ensures InMeasure(setup, job, calls)
  {
    hide Trim, Speech.Clean, Script, VoiceFor, LimitFor, Google, Speech.Pieces, Speech.Weave, Trimmed;
    var clean := Speech.Clean(setup.rewrite, job.speech);
    var limit := LimitFor(VoiceFor(setup, job));
    LimitByName(VoiceFor(setup, job));
    ScriptIsChunks(setup, job);
    if clean != "" {
      Speech.ChunksConserve(setup.rewrite, job.speech, limit);
      forall i | 0 <= i < |calls| ensures Trim(calls[i].text) != "" {
        TrimFixed(calls[i].text);
      }
      assert |clean| <= limit ==> Script(setup, job) == [clean];
    } else {
      TrimTwice(job.speech);
    }
  }

  lemma TrimTwice(s: string)
    ensures Trim(Trim(s)) == Trim(s)
  {
    TrimFixed(Trim(s));
    hide Trim;
  }

  lemma FullIsHeard(setup: Setup, job: JobRow, calls: seq<Utterance>, failure: Option<string>)
    requires Recital(calls, Script(setup, job), VoiceFor(setup, job), failure)
    ensures InFull(setup, job, calls, failure.None?)
  {
    hide Trim, Speech.Clean, Script, VoiceFor, LimitFor, Speech.Chunks, Speech.Weave, Speech.Gap, Trimmed;
    ScriptIsChunks(setup, job);
    if Speech.Clean(setup.rewrite, job.speech) != "" {
      Speech.ChunksConserve(setup.rewrite, job.speech, LimitFor(VoiceFor(setup, job)));
    }
  }

  /** Every recital of a job is heard as it should be. */
  lemma RecitalIsHeard(setup: Setup, job: JobRow, calls: seq<Utterance>, failure: Option<string>)
    requires Recital(calls, Script(setup, job), VoiceFor(setup, job), failure)
    ensures Heard(setup, job, calls, failure.None?)
  {
    hide Recital, Script, VoiceFor, InVoice, InMeasure, InFull;
    VoiceIsHeard(setup, job, calls, failure);
    MeasureIsHeard(setup, job, calls, failure);
    FullIsHeard(setup, job, calls, failure);
  }

  /**
    * Where the length bound ends: a speech that cleans to nothing is said as it stands, so all calls fit if and only
    * if there is something left to say or the raw text fits by itself.
    */
  lemma {:induction false} CallsFit(setup: Setup, job: JobRow, calls: seq<Utterance>)
    requires Recital(calls, Script(setup, job), VoiceFor(setup, job), None)
    ensures (forall i :: 0 <= i < |calls| ==> Fits(calls[i].text, calls[i].backend)) <==>
            Speech.Clean(setup.rewrite, job.speech) != "" || Fits(Trim(job.speech), VoiceFor(setup, job))
  {
    hide Trim, Speech.Clean, Script, VoiceFor, Fits;
    MeasureIsHeard(setup, job, calls, None);
    ScriptIsChunks(setup, job);
    BlankFits(VoiceFor(setup, job));
  }

  lemma BlankFits(backend: string)
    ensures Fits("", backend)
  {
    hide Google;
  }

  /** A job of another capture: it is said by the backend it asks for, whatever the worker's own is. */
  lemma {:induction false} JobVoiceExample(rewrite: string -> string, job: JobRow, calls: seq<Utterance>)
    requires job.backend == "google" && |Speech.Clean(rewrite, job.speech)| == 4000
    requires Heard(Setup(rewrite, "windows", ""), job, calls, true)
    ensures |calls| == 1 && calls[0].backend == "google" && calls[0].text == Speech.Clean(rewrite, job.speech)
  {
    hide Trim, Speech.Clean, Speech.Weave, Speech.Gap;
    TrimFixed("google");
    var setup := Setup(rewrite, "windows", "");
    assert InFull(setup, job, calls, true) && calls != [];
    assert InVoice(setup, job, calls[0]) && Google("google");
  }

  // ---------- draining ----------

  /** What one finished job row looks like beside the queued row it came from. */
  predicate Finished(before: JobRow, after: JobRow) {
    && SameOrder(after, before)
    && after.attempts == before.attempts + 1
    && (after.status == Done || after.status == Failed)
    && after.startedAt.Some? && after.completedAt.Some?
    && (after.lastError.Some? <==> after.status == Failed)
  }

  /** The row was claimed and marked between two readings of the clock. */
  ghost predicate FinishedWithin(row: JobRow, from: Instant, to: Instant) {
    exists a: Instant, b: Instant ::
      from <= a <= b <= to && row.startedAt == Some(Format(a)) && row.completedAt == Some(Format(b))
  }

  /** The row keeps the message of the call that failed. */
  predicate Performed(setup: Setup, before: JobRow, after: JobRow, calls: seq<Utterance>) {
    && Finished(before, after)
    && Recital(calls, Script(setup, before), VoiceFor(setup, before), after.lastError)
  }

  /** The tables when only the job rows changed and the speaker lease was given back. */
  function Quietly(t: Tables, jobs: map<nat, JobRow>): Tables {
    t.(jobs := jobs, leases := t.leases - {SPEAKER_LEASE})
  }

  /** One round of the worker: the next job is performed, and no other row changes. */
  ghost predicate Round(setup: Setup, t: Tables, t': Tables, id: nat, calls: seq<Utterance>) {
    && IsNext(t.jobs, id) && id in t'.jobs
    && t' == Quietly(t, t.jobs[id := t'.jobs[id]])
    && Performed(setup, t.jobs[id], t'.jobs[id], calls)
  }

  /** The given jobs in the order of the claim query, performed one after the other. */
  ghost predicate Played(setup: Setup, t: Tables, jobs: map<nat, JobRow>, order: seq<nat>, calls: seq<seq<Utterance>>) {
    && jobs.Keys == t.jobs.Keys
    && |calls| == |order|
    && (forall i :: 0 <= i < |order| ==> IsQueued(t.jobs, order[i]))
    && (forall i, j :: 0 <= i < j < |order| ==> JobBefore(t.jobs, order[i], order[j]))
    && (forall i :: 0 <= i < |order| ==> Performed(setup, t.jobs[order[i]], jobs[order[i]], calls[i]))
    && (forall id :: id in jobs && id !in order ==> jobs[id] == t.jobs[id])
  }

  /** Some queued jobs are played and the rest are still waiting behind them. */
  ghost predicate Playing(setup: Setup, t: Tables, jobs: map<nat, JobRow>, order: seq<nat>,
                          calls: seq<seq<Utterance>>) {
    && Played(setup, t, jobs, order, calls)
    && (forall id :: IsQueued(jobs, id) <==> IsQueued(t.jobs, id) && id !in order)
    && (forall i, id :: 0 <= i < |order| && IsQueued(jobs, id) ==> JobBefore(t.jobs, order[i], id))
  }

  /** Every queued job is played. */
  ghost predicate Drained(setup: Setup, t: Tables, jobs: map<nat, JobRow>, order: seq<nat>,
                          calls: seq<seq<Utterance>>) {
    && Played(setup, t, jobs, order, calls)
    && (forall id :: id in order <==> IsQueued(t.jobs, id))
  }

  lemma {:induction false} PlayNext(setup: Setup, t: Tables, jobs: map<nat, JobRow>, order: seq<nat>,
                                    calls: seq<seq<Utterance>>, id: nat, row: JobRow, said: seq<Utterance>)
    requires Playing(setup, t, jobs, order, calls)
    requires IsNext(jobs, id) && Performed(setup, jobs[id], row, said)
    ensures Playing(setup, t, jobs[id := row], order + [id], calls + [said])
  {
    hide Performed, RowBefore;
    PerformedIsOver(setup, jobs[id], row, said);
    var jobs', order' := jobs[id := row], order + [id];
    assert id !in order && jobs[id] == t.jobs[id];
    forall i | 0 <= i < |order'|
      ensures IsQueued(t.jobs, order'[i])
      ensures Performed(setup, t.jobs[order'[i]], jobs'[order'[i]], (calls + [said])[i])
      ensures forall k :: IsQueued(jobs', k) ==> JobBefore(t.jobs, order'[i], k)
    {
      if i < |order| {
        assert order'[i] == order[i] && order[i] != id;
        forall k | IsQueued(jobs', k) ensures JobBefore(t.jobs, order[i], k) {
          assert IsQueued(jobs, k);
        }
      } else {
        forall k | IsQueued(jobs', k) ensures JobBefore(t.jobs, id, k) {
          assert IsQueued(jobs, k) && JobBefore(jobs, id, k) && jobs[k] == t.jobs[k];
        }
      }
    }
  }

  /** One more round: what is played grows by one, and what is waiting shrinks. */
  lemma AfterRound(setup: Setup, t: Tables, before: Tables, after: Tables, order: seq<nat>, calls: seq<seq<Utterance>>,
                   id: nat, said: seq<Utterance>)
    requires Playing(setup, t, before.jobs, order, calls) && Round(setup, before, after, id, said)
    ensures Playing(setup, t, after.jobs, order + [id], calls + [said])
    ensures IsQueued(before.jobs, id) && !IsQueued(after.jobs, id)
    ensures forall k :: IsQueued(after.jobs, k) ==> IsQueued(before.jobs, k)
    ensures after == Quietly(before, after.jobs)
  {
    hide Performed, RowBefore, Playing;
    PlayNext(setup, t, before.jobs, order, calls, id, after.jobs[id], said);
    PerformedIsOver(setup, before.jobs[id], after.jobs[id], said);
  }

  /** Every performed job was heard as it should be. */
  ghost predicate AllHeard(setup: Setup, before: map<nat, JobRow>, after: map<nat, JobRow>, order: seq<nat>,
                           calls: seq<seq<Utterance>>) {
    && |calls| == |order|
    && forall i :: 0 <= i < |order| ==>
         && order[i] in before && order[i] in after
         && Heard(setup, before[order[i]], calls[i], after[order[i]].status == Done)
  }

  lemma PlayedIsHeard(setup: Setup, t: Tables, jobs: map<nat, JobRow>, order: seq<nat>, calls: seq<seq<Utterance>>)
    requires Playing(setup, t, jobs, order, calls)
    ensures AllHeard(setup, t.jobs, jobs, order, calls)
  {
    hide Performed, Heard, JobBefore;
    forall i | 0 <= i < |order|
      ensures Heard(setup, t.jobs[order[i]], calls[i], jobs[order[i]].status == Done)
    {
      PerformedIsHeard(setup, t.jobs[order[i]], jobs[order[i]], calls[i]);
    }
  }

  lemma PerformedIsHeard(setup: Setup, before: JobRow, after: JobRow, calls: seq<Utterance>)
    requires Performed(setup, before, after, calls)
    ensures Heard(setup, before, calls, after.status == Done)
  {
    hide Heard, Recital, Script, VoiceFor;
    RecitalIsHeard(setup, before, calls, after.lastError);
  }

  lemma NothingPlayed(setup: Setup, t: Tables)
    ensures Playing(setup, t, t.jobs, [], [])
  {
  }

  lemma AllPlayed(setup: Setup, t: Tables, jobs: map<nat, JobRow>, order: seq<nat>, calls: seq<seq<Utterance>>)
    requires Playing(setup, t, jobs, order, calls) && forall id :: !IsQueued(jobs, id)
    ensures Drained(setup, t, jobs, order, calls)
  {
    hide Performed, JobBefore;
  }

  lemma QuietlyTwice(t: Tables, jobs: map<nat, JobRow>, jobs': map<nat, JobRow>)
    ensures Quietly(Quietly(t, jobs), jobs') == Quietly(t, jobs')
  {
  }

  lemma PerformedIsOver(setup: Setup, before: JobRow, after: JobRow, said: seq<Utterance>)
    requires Performed(setup, before, after, said)
    ensures after.status == Done || after.status == Failed
  {
  }

  function Flatten(calls: seq<seq<Utterance>>): seq<Utterance> {
    if calls == [] then [] else calls[0] + Flatten(calls[1..])
  }

  lemma {:induction false} FlattenAppend(calls: seq<seq<Utterance>>, last: seq<Utterance>)
    ensures Flatten(calls + [last]) == Flatten(calls) + last
  {
    if calls == [] {
      assert calls + [last] == [last] && Flatten([last]) == last + Flatten([]);
    } else {
      assert (calls + [last])[1..] == calls[1..] + [last];
      FlattenAppend(calls[1..], last);
    }
  }

  /** Claiming a queued row and then marking it leaves a finished row. */
  lemma {:induction false} ClaimThenMark(queued: JobRow, start: Instant, end: Instant, failure: Option<string>)
    requires queued.status == Queued
    ensures Finished(queued, MarkedRow(ClaimedRow(queued, start), end, failure))
    ensures MarkedRow(ClaimedRow(queued, start), end, failure).status == if failure.None? then Done else Failed
    ensures MarkedRow(ClaimedRow(queued, start), end, failure).lastError == failure
    ensures forall from: Instant, to: Instant :: from <= start <= end <= to ==>
              FinishedWithin(MarkedRow(ClaimedRow(queued, start), end, failure), from, to)
  {
    hide Format;
  }

  function MarkedRow(job: JobRow, at: Instant, failure: Option<string>): JobRow {
    if failure.None? then DoneRow(job, at) else FailedRow(job, at, failure.value)
  }

  /** The statements of one round, taken together. */
  lemma RoundTables(t: Tables, owner: string, ttl: nat, now: Instant, id: nat, start: Instant, end: Instant,
                    failure: Option<string>)
    requires LeaseFree(t, SPEAKER_LEASE, owner, now) && id in t.jobs
    ensures var c := Claimed(Leased(t, SPEAKER_LEASE, owner, now, ttl), id, start);
            var m := if failure.None? then MarkedDone(c, id, end) else MarkedFailed(c, id, end, failure.value);
            Released(m, SPEAKER_LEASE, owner)
              == Quietly(t, t.jobs[id := MarkedRow(ClaimedRow(t.jobs[id], start), end, failure)])
  {
    hide Format, LeaseFree;
    var row := MarkedRow(ClaimedRow(t.jobs[id], start), end, failure);
    assert t.jobs[id := ClaimedRow(t.jobs[id], start)][id := row] == t.jobs[id := row];
    assert (t.leases[SPEAKER_LEASE := LeaseRow(owner, Format(now + ttl))]) - {SPEAKER_LEASE} ==
      t.leases - {SPEAKER_LEASE};
  }

  lemma EmptyRoundTables(t: Tables, owner: string, ttl: nat, now: Instant)
    requires LeaseFree(t, SPEAKER_LEASE, owner, now)
    ensures Released(Leased(t, SPEAKER_LEASE, owner, now, ttl), SPEAKER_LEASE, owner) == Quietly(t, t.jobs)
    ensures Leased(t, SPEAKER_LEASE, owner, now, ttl).jobs == t.jobs
  {
    hide Format, LeaseFree;
    assert (t.leases[SPEAKER_LEASE := LeaseRow(owner, Format(now + ttl))]) - {SPEAKER_LEASE} ==
      t.leases - {SPEAKER_LEASE};
  }

  class Speaker {
    const database: Database
    const registry: Registry
    const clock: Clock
    const backend: string
    const owner: string
    const poll: nat
    const ttl: nat
    const rewrite: string -> string

    /** `pid` is the process id in decimal; all speakers of one process get the same owner id. */
    constructor (database: Database, registry: Registry, clock: Clock, backend: string, pid: string,
                 poll: int, ttl: int, rewrite: string -> string)
      ensures this.database == database && this.registry == registry && this.clock == clock
      ensures this.backend == Speech.Lower(Trim(backend)) && this.owner == "pid-" + pid && this.rewrite == rewrite
      ensures this.poll == if poll <= 0 then SECOND / 2 else poll
      ensures this.ttl == if ttl <= 0 then 15 * SECOND else ttl
    {
      this.database, this.registry, this.clock := database, registry, clock;
      this.backend := Speech.Lower(Trim(backend));
      this.owner, this.rewrite := "pid-" + pid, rewrite;
      this.poll := if poll <= 0 then SECOND / 2 else poll;
      this.ttl := if ttl <= 0 then 15 * SECOND else ttl;
    }

    ghost function Settings(): Setup {
      Setup(rewrite, backend, registry.fallback)
    }

    /**
      * One iteration. A refused lease changes nothing; with no queued job only the lease row goes; and
      * otherwise the next job is performed.
      */
    method ProcessOne() returns (processed: bool, ghost claimed: nat, ghost calls: seq<Utterance>)
      modifies database, registry, clock
      ensures old(clock.now) <= clock.now
      ensures processed ==> Round(Settings(), old(database.Contents()), database.Contents(), claimed, calls)
      ensures processed ==>
                && claimed in old(database.jobs) && claimed in database.jobs
                && Heard(Settings(), old(database.jobs)[claimed], calls, database.jobs[claimed].status == Done)
                && FinishedWithin(database.jobs[claimed], old(clock.now), clock.now)
      ensures processed ==> registry.log == old(registry.log) + calls
      ensures !processed ==> registry.log == old(registry.log)
      ensures !processed ==>
                || (database.Contents() == old(database.Contents())
                    && !LeaseFree(old(database.Contents()), SPEAKER_LEASE, owner, old(clock.now)))
                || (database.Contents() == Quietly(old(database.Contents()), old(database.jobs))
                    && forall id :: !IsQueued(old(database.jobs), id))
    {
      hide Format, ParseStored, Finished, Recital, Script, VoiceFor, Trim, Heard, FinishedWithin;
      claimed, calls := 0, [];
      ghost var t := database.Contents();
      var now := clock.Read();
      var acquired := database.AcquireLease(SPEAKER_LEASE, owner, ttl, now);
      if !acquired {
        LaterRefusal(t, owner, old(clock.now), now);
        return false, claimed, calls;
      }
      EmptyRoundTables(t, owner, ttl, now);
      var start := clock.Read();
      var claim := database.ClaimNextQueuedJob(start);
      if claim.None? {
        database.ReleaseLease(SPEAKER_LEASE, owner);
        return false, claimed, calls;
      }
      claimed := claim.value;
      var job := database.jobs[claim.value];
      assert job == ClaimedRow(t.jobs[claimed], start) && IsNext(t.jobs, claimed) && IsQueued(t.jobs, claimed);
      hide Released, Leased, Claimed, MarkedDone, MarkedFailed, MarkedRow, LeaseFree, IsNext;
      var failure;
      failure, calls := Recite(job);
      var end := clock.Read();
      if failure.Some? {
        database.MarkJobFailed(claim.value, failure.value, end);
      } else {
        database.MarkJobDone(claim.value, end);
      }
      database.ReleaseLease(SPEAKER_LEASE, owner);
      RoundTables(t, owner, ttl, now, claimed, start, end, failure);
      ClaimThenMark(t.jobs[claimed], start, end, failure);
      SameScript(Settings(), t.jobs[claimed], job);
      RecitalIsHeard(Settings(), t.jobs[claimed], calls, failure);
      return true, claimed, calls;
    }

    /** The speaking loop of one job: blank chunks are passed over, and the first failing call ends it. */
    method Recite(job: JobRow) returns (failure: Option<string>, ghost calls: seq<Utterance>)
      modifies registry
      ensures registry.log == old(registry.log) + calls
      ensures Recital(calls, Script(Settings(), job), VoiceFor(Settings(), job), failure)
      ensures Heard(Settings(), job, calls, failure.None?)
    {
      hide Trim, Speech.Clean, Speech.Chunks, Recital, NonBlank, Heard;
      var voice := Trim(job.backend);
      if voice == "" {
        voice := backend;
      }
      if voice == "" {
        voice := DefaultBackend(registry.fallback);
      }
      var limit := 3500;
      if Speech.Lower(voice) == "google" {
        limit := 4500;
      }
      var chunks := Speech.Chunk(rewrite, job.speech, limit);
      if |chunks| == 0 {
        chunks := [Trim(job.speech)];
      }
      failure, calls := SpeakAll(voice, chunks);
      RecitalIsHeard(Settings(), job, calls, failure);
    }

    method SpeakAll(voice: string, chunks: seq<string>) returns (failure: Option<string>, ghost calls: seq<Utterance>)
      modifies registry
      ensures registry.log == old(registry.log) + calls
      ensures Recital(calls, NonBlank(chunks), voice, failure)
    {
      hide Trim, Recital, NonBlank;
      calls := [];
      EmptyRecital(voice);
      for i := 0 to |chunks|
        invariant registry.log == old(registry.log) + calls
        invariant Recital(calls, NonBlank(chunks[..i]), voice, None)
      {
        NonBlankAt(chunks, i);
        if Trim(chunks[i]) == "" {
          continue;
        }
        failure := registry.Speak(voice, chunks[i]);
        ghost var call := Utterance(voice, chunks[i], failure);
        RecitalGrows(calls, NonBlank(chunks[..i]), NonBlank(chunks[i + 1..]), call);
        calls := calls + [call];
        if failure.Some? {
          return failure, calls;
        }
      }
      assert chunks[..|chunks|] == chunks;
      return None, calls;
    }

    /**
      * Draining. If the lease can be had, every queued job is claimed once, in the order of the claim
      * query, and ends done or failed with one more attempt, all other rows stay as they are, and what
      * is said is the jobs' recitals one after the other; it takes one round per job and one to stop.
      * If the lease is refused at the start, nothing happens.
      */
    method ProcessPending() returns (ghost order: seq<nat>, ghost calls: seq<seq<Utterance>>, ghost rounds: nat)
      modifies database, registry, clock
      ensures registry.log == old(registry.log) + Flatten(calls)
      ensures rounds == |order| + 1
      ensures AllHeard(Settings(), old(database.jobs), database.jobs, order, calls)
      ensures
        || (&& Drained(Settings(), old(database.Contents()), database.jobs, order, calls)
            && database.Contents() == Quietly(old(database.Contents()), database.jobs))
        || (&& !LeaseFree(old(database.Contents()), SPEAKER_LEASE, owner, old(clock.now))
            && database.Contents() == old(database.Contents()) && calls == [] && order == [])
    {
      hide Playing, Drained, Round, Quietly, LeaseFree, AllHeard, Heard, FinishedWithin;
      order, calls, rounds := [], [], 0;
      ghost var t := database.Contents();
      NothingPlayed(Settings(), t);
      while true
        invariant Playing(Settings(), t, database.jobs, order, calls)
        invariant order == [] ==> database.Contents() == t && old(clock.now) == clock.now && calls == []
        invariant order != [] ==> database.Contents() == Quietly(t, database.jobs)
        invariant registry.log == old(registry.log) + Flatten(calls)
        invariant rounds == |order|
        decreases set id | id in database.jobs && database.jobs[id].status == Queued
      {
        ghost var before := database.Contents();
        ghost var waiting := set id | id in database.jobs && database.jobs[id].status == Queued;
        QuietlyTwice(t, before.jobs, before.jobs);
        LeaseGone(t, before.jobs, owner, clock.now);
        var processed: bool;
        ghost var id: nat, said: seq<Utterance>;
        processed, id, said := ProcessOne();
        rounds := rounds + 1;
        if !processed {
          if database.Contents() == Quietly(before, before.jobs) && forall k :: !IsQueued(before.jobs, k) {
            AllPlayed(Settings(), t, before.jobs, order, calls);
            QuietKeepsJobs(before, before.jobs);
          }
          break;
        }
        AfterRound(Settings(), t, before, database.Contents(), order, calls, id, said);
        QuietlyTwice(t, before.jobs, database.jobs);
        FlattenAppend(calls, said);
        order, calls := order + [id], calls + [said];
        ghost var still := set k | k in database.jobs && database.jobs[k].status == Queued;
        assert forall k :: k in still ==> IsQueued(database.jobs, k) && IsQueued(before.jobs, k);
        assert id in waiting && id !in still;
      }
      PlayedIsHeard(Settings(), t, database.jobs, order, calls);
    }
  }

  lemma QuietKeepsJobs(t: Tables, jobs: map<nat, JobRow>)
    ensures Quietly(t, jobs).jobs == jobs
  {
  }

  /** After a round the lease row is gone, so the next round cannot be refused. */
  lemma LeaseGone(t: Tables, jobs: map<nat, JobRow>, owner: string, now: Instant)
    ensures LeaseFree(Quietly(t, jobs), SPEAKER_LEASE, owner, now)
  {
  }

  lemma LaterRefusal(t: Tables, owner: string, early: Instant, late: Instant)
    requires early <= late && !LeaseFree(t, SPEAKER_LEASE, owner, late)
    ensures !LeaseFree(t, SPEAKER_LEASE, owner, early)
  {
  }

  lemma EmptyRecital(voice: string)
    ensures Recital([], NonBlank([]), voice, None)
  {
  }

  lemma SameScript(setup: Setup, a: JobRow, b: JobRow)
    requires SameOrder(a, b)
    ensures Script(setup, a) == Script(setup, b) && VoiceFor(setup, a) == VoiceFor(setup, b)
  {
  }
}
