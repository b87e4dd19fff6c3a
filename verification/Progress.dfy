/** What can still happen: from any run every queued job can be spoken, in the order of the claim query. */
module Progress {
  import opened Strings
  import opened Timestamps
  import opened Store
  import opened Pipeline
  import opened LeaseSafety
  import JobSafety
  import Worker

  // ---------- single steps ----------

  /** The state with another value of one loop. */
  function LoopSet(s: State, l: nat, loop: Loop): State {
    s.(loops := s.loops[l := loop])
  }

  function JobSet(s: State, id: nat, row: JobRow): State {
    s.(t := s.t.(jobs := s.t.jobs[id := row]))
  }

  function LeaseSet(s: State, owner: string, expiry: Instant): State {
    s.(t := s.t.(leases := s.t.leases[Worker.SPEAKER_LEASE := LeaseRow(owner, Format(expiry))]))
  }

  function LeaseCleared(s: State): State {
    s.(t := s.t.(leases := s.t.leases - {Worker.SPEAKER_LEASE}))
  }

  /** Whether the loop's owner has the lease row. */
  predicate Owns(cfg: Config, s: State, l: nat) {
    Worker.SPEAKER_LEASE in s.t.leases && s.t.leases[Worker.SPEAKER_LEASE].owner == OwnerOf(cfg, l)
  }

  lemma TickStep(cfg: Config, s: State, to: Instant)
    requires s.clock <= to
    ensures Enabled(cfg, s, Tick(to)) && Next(cfg, s, Tick(to)) == s.(clock := to)
  {
  }

  lemma ReadStep(cfg: Config, s: State, l: nat)
    requires l in cfg.owners && LoopAt(s, l).Idle?
    ensures Enabled(cfg, s, ReadClock(l)) && Next(cfg, s, ReadClock(l)) == LoopSet(s, l, Timed(s.clock))
  {
  }

  lemma AcquireStep(cfg: Config, s: State, l: nat)
    requires LoopAt(s, l).Timed? && Obtainable(s.t, OwnerOf(cfg, l), LoopAt(s, l).now)
    ensures
      var expiry := LoopAt(s, l).now + cfg.ttl;
      && Enabled(cfg, s, Acquire(l, true))
      && Next(cfg, s, Acquire(l, true)) == LoopSet(LeaseSet(s, OwnerOf(cfg, l), expiry), l, Holding(expiry))
      && Owns(cfg, Next(cfg, s, Acquire(l, true)), l)
  {
    hide Format, ParseStored;
    assert LeaseFree(s.t, Worker.SPEAKER_LEASE, OwnerOf(cfg, l), LoopAt(s, l).now);
  }

  lemma ClaimStep(cfg: Config, s: State, l: nat, id: nat)
    requires LoopAt(s, l).Holding? && IsNext(s.t.jobs, id)
    ensures id in s.t.jobs
    ensures
      var a := Claim(l, s.clock, Some(id), true);
      var script := Worker.Script(SetupOf(cfg, l), s.t.jobs[id]);
      && Enabled(cfg, s, a)
      && Next(cfg, s, a) ==
           LoopSet(JobSet(s, id, ClaimedRow(s.t.jobs[id], s.clock)), l, Reciting(LoopAt(s, l).expiry, id, script))
             .(history := s.history + [ClaimOf(id)])
  {
    hide Worker.Script, ClaimedRow, JobBefore;
  }

  lemma SpeakStep(cfg: Config, s: State, l: nat)
    requires LoopAt(s, l).Reciting? && LoopAt(s, l).left != []
    ensures Enabled(cfg, s, Speak(l, None))
    ensures Next(cfg, s, Speak(l, None)) == LoopSet(s, l, LoopAt(s, l).(left := LoopAt(s, l).left[1..]))
  {
  }

  lemma DoneStep(cfg: Config, s: State, l: nat)
    requires LoopAt(s, l).Reciting? && LoopAt(s, l).left == [] && LoopAt(s, l).job in s.t.jobs
    ensures
      var loop := LoopAt(s, l);
      && Enabled(cfg, s, MarkDone(l, s.clock, true))
      && Next(cfg, s, MarkDone(l, s.clock, true)) ==
           LoopSet(JobSet(s, loop.job, DoneRow(s.t.jobs[loop.job], s.clock)), l, Leaving(loop.expiry))
  {
    hide DoneRow;
  }

  lemma ReleaseStep(cfg: Config, s: State, l: nat)
    requires LoopAt(s, l).Leaving? && Owns(cfg, s, l)
    ensures Enabled(cfg, s, Release(l, true))
    ensures Next(cfg, s, Release(l, true)) == LoopSet(LeaseCleared(s), l, Idle)
  {
  }

  /** The last act of a loop: its own lease row goes, and nobody else's. */
  lemma ShutdownStep(cfg: Config, s: State, l: nat)
    requires l in cfg.owners && LoopAt(s, l).Idle?
    ensures Enabled(cfg, s, Shutdown(l))
    ensures Next(cfg, s, Shutdown(l)).t == if Owns(cfg, s, l) then LeaseCleared(s).t else s.t
  {
  }

  // ---------- one job ----------

  /** One more step of a run that has reached a known state. */
  lemma Reached(cfg: Config, front: seq<Action>, a: Action, s: State, s': State)
    requires Legal(cfg, front) && Run(cfg, front) == s && Enabled(cfg, s, a) && s' == Next(cfg, s, a)
    ensures Legal(cfg, front + [a]) && Run(cfg, front + [a]) == s'
  {
    hide Next, Enabled;
    RunStep(cfg, front, a);
  }

  /** Saying all that is left. */
  function Sayings(l: nat, n: nat): seq<Action> {
    if n == 0 then [] else [Speak(l, None)] + Sayings(l, n - 1)
  }

  lemma {:induction false} SayAll(cfg: Config, actions: seq<Action>, s: State, l: nat, left: seq<string>)
    requires Legal(cfg, actions) && Run(cfg, actions) == s && LoopAt(s, l).Reciting? && LoopAt(s, l).left == left
    ensures Legal(cfg, actions + Sayings(l, |left|))
    ensures Run(cfg, actions + Sayings(l, |left|)) == LoopSet(s, l, LoopAt(s, l).(left := []))
    decreases |left|
  {
    hide Run, Legal, Enabled, Next;
    if left == [] {
      assert actions + [] == actions;
      SetAgain(s, l);
    } else {
      SpeakStep(cfg, s, l);
      var s' := Next(cfg, s, Speak(l, None));
      Reached(cfg, actions, Speak(l, None), s, s');
      SayAll(cfg, actions + [Speak(l, None)], s', l, left[1..]);
      SetTwice(s, l, LoopAt(s', l), LoopAt(s, l).(left := []));
      assert actions + [Speak(l, None)] + Sayings(l, |left| - 1) == actions + Sayings(l, |left|);
    }
  }

  lemma SetAgain(s: State, l: nat)
    requires l in s.loops
    ensures LoopSet(s, l, LoopAt(s, l)) == s
  {
    assert s.loops[l := s.loops[l]] == s.loops;
  }

  lemma SetTwice(s: State, l: nat, a: Loop, b: Loop)
    ensures LoopSet(LoopSet(s, l, a), l, b) == LoopSet(s, l, b) && LoopAt(LoopSet(s, l, a), l) == a
  {
    assert s.loops[l := a][l := b] == s.loops[l := b];
  }

  /** The steps of a loop that waits until it can have the lease and then performs one job. */
  function Performance(l: nat, to: Instant, id: nat, chunks: nat): seq<Action> {
    [Tick(to), ReadClock(l), Acquire(l, true), Claim(l, to, Some(id), true)] + Sayings(l, chunks)
    + [MarkDone(l, to, true), Release(l, true)]
  }

  /** What has become of one job, and what has stayed. */
  predicate SpokenIn(s: State, s': State, l: nat, id: nat) {
    && id in s.t.jobs && id in s'.t.jobs && s'.t.events == s.t.events && s'.handlers == s.handlers
    && s'.t.jobs == s.t.jobs[id := s'.t.jobs[id]]
    && SameOrder(s'.t.jobs[id], s.t.jobs[id]) && s'.t.jobs[id].status == Done
    && s'.t.jobs[id].attempts == s.t.jobs[id].attempts + 1
    && s'.t.jobs[id].startedAt == Some(Format(s'.clock)) && s'.t.jobs[id].completedAt == Some(Format(s'.clock))
    && s'.history == s.history + [ClaimOf(id)]
    && s.clock <= s'.clock && s'.t.leases == s.t.leases - {Worker.SPEAKER_LEASE}
    && s'.loops == s.loops[l := Idle]
  }

  lemma Obtains(cfg: Config, actions: seq<Action>, l: nat) returns (to: Instant, s: State)
    requires Legal(cfg, actions) && l in cfg.owners && LoopAt(Run(cfg, actions), l).Idle?
    ensures Legal(cfg, actions + [Tick(to)] + [ReadClock(l)] + [Acquire(l, true)])
    ensures s == Run(cfg, actions + [Tick(to)] + [ReadClock(l)] + [Acquire(l, true)])
    ensures Run(cfg, actions).clock <= to && Owns(cfg, s, l)
    ensures s == LoopSet(LeaseSet(Run(cfg, actions).(clock := to), OwnerOf(cfg, l), to + cfg.ttl), l,
                         Holding(to + cfg.ttl))
  {
    hide Run, Legal, Enabled, Next, Obtainable, Format, ParseStored, Owns;
    var s0 := Run(cfg, actions);
    to := ExpiryOf(s0, OwnerOf(cfg, l));
    TickStep(cfg, s0, to);
    var s1 := s0.(clock := to);
    Reached(cfg, actions, Tick(to), s0, s1);
    ReadStep(cfg, s1, l);
    var s2 := LoopSet(s1, l, Timed(to));
    Reached(cfg, actions + [Tick(to)], ReadClock(l), s1, s2);
    AcquireStep(cfg, s2, l);
    s := Next(cfg, s2, Acquire(l, true));
    Reached(cfg, actions + [Tick(to)] + [ReadClock(l)], Acquire(l, true), s2, s);
    SetTwice(LeaseSet(s1, OwnerOf(cfg, l), to + cfg.ttl), l, Timed(to), Holding(to + cfg.ttl));
  }

  lemma ExpiryOf(s: State, owner: string) returns (to: Instant)
    ensures s.clock <= to && Obtainable(s.t, owner, to)
  {
    hide ParseStored;
    to := s.clock;
    if Worker.SPEAKER_LEASE in s.t.leases && to < ParseStored(s.t.leases[Worker.SPEAKER_LEASE].expiresAt) {
      to := ParseStored(s.t.leases[Worker.SPEAKER_LEASE].expiresAt);
    }
  }

  /**
    * From every run, whatever crashed before it: an idle loop can wait for the lease, claim the next job, say its
    * whole script, mark it done and leave no lease behind; nothing else changes.
    */
  lemma {:induction false} NextJobCanBeSpoken(cfg: Config, actions: seq<Action>, l: nat, id: nat)
    returns (to: Instant, more: seq<Action>)
    requires Legal(cfg, actions) && l in cfg.owners && LoopAt(Run(cfg, actions), l).Idle?
    requires IsNext(Run(cfg, actions).t.jobs, id)
    ensures id in Run(cfg, actions).t.jobs
    ensures more ==
            Performance(l, to, id, |Worker.Script(SetupOf(cfg, l), Run(cfg, actions).t.jobs[id])|)
    ensures Legal(cfg, actions + more) && SpokenIn(Run(cfg, actions), Run(cfg, actions + more), l, id)
  {
    hide *;
    var s3: State;
    to, s3 := Obtains(cfg, actions, l);
    var r3 := actions + [Tick(to)] + [ReadClock(l)] + [Acquire(l, true)];
    HoldsSame(cfg, Run(cfg, actions), s3, l, to);
    ClaimStep(cfg, s3, l, id);
    var script := Worker.Script(SetupOf(cfg, l), Run(cfg, actions).t.jobs[id]);
    var s4 := Next(cfg, s3, Claim(l, to, Some(id), true));
    Reached(cfg, r3, Claim(l, to, Some(id), true), s3, s4);
    var r4 := r3 + [Claim(l, to, Some(id), true)];
    Recites(s3, s4, l, id, script, to);
    SayAll(cfg, r4, s4, l, script);
    var r5, s5 := r4 + Sayings(l, |script|), LoopSet(s4, l, LoopAt(s4, l).(left := []));
    Recited(s4, s5, l, id);
    DoneStep(cfg, s5, l);
    var s6 := Next(cfg, s5, MarkDone(l, s5.clock, true));
    Reached(cfg, r5, MarkDone(l, s5.clock, true), s5, s6);
    var r6 := r5 + [MarkDone(l, s5.clock, true)];
    Leaves(cfg, s3, s5, s6, l, id);
    ReleaseStep(cfg, s6, l);
    var s7 := Next(cfg, s6, Release(l, true));
    Reached(cfg, r6, Release(l, true), s6, s7);
    more := Performance(l, to, id, |script|);
    Spelled(actions, l, to, id, |script|);
    IsPerformance(cfg, Run(cfg, actions), l, id, to, script, s3, s4, s5, s6, s7);
    AllIn(cfg, Run(cfg, actions), l, id, to, script, s3, s4, s5, s6, s7);
  }

  lemma HoldsSame(cfg: Config, s: State, s3: State, l: nat, to: Instant)
    requires s3 == LoopSet(LeaseSet(s.(clock := to), OwnerOf(cfg, l), to + cfg.ttl), l, Holding(to + cfg.ttl))
    ensures s3.t.jobs == s.t.jobs && s3.clock == to && LoopAt(s3, l) == Holding(to + cfg.ttl)
  {
    hide Format;
  }

  lemma Recites(s3: State, s4: State, l: nat, id: nat, script: seq<string>, to: Instant)
    requires id in s3.t.jobs && s3.clock == to && LoopAt(s3, l).Holding?
    requires s4 == LoopSet(JobSet(s3, id, ClaimedRow(s3.t.jobs[id], to)), l, Reciting(LoopAt(s3, l).expiry, id, script))
                     .(history := s3.history + [ClaimOf(id)])
    ensures LoopAt(s4, l).Reciting? && LoopAt(s4, l).left == script && LoopAt(s4, l).job == id
    ensures s4.t.leases == s3.t.leases && id in s4.t.jobs && s4.clock == to
  {
    hide ClaimedRow;
  }

  lemma Recited(s4: State, s5: State, l: nat, id: nat)
    requires LoopAt(s4, l).Reciting? && LoopAt(s4, l).job == id
    requires s5 == LoopSet(s4, l, LoopAt(s4, l).(left := []))
    ensures LoopAt(s5, l).Reciting? && LoopAt(s5, l).left == [] && LoopAt(s5, l).job == id && s5.t == s4.t
    ensures s5.clock == s4.clock
  {
  }

  lemma Leaves(cfg: Config, s3: State, s5: State, s6: State, l: nat, id: nat)
    requires Owns(cfg, s3, l) && s5.t.leases == s3.t.leases && LoopAt(s5, l).Reciting? && id in s5.t.jobs
    requires s6 == LoopSet(JobSet(s5, id, DoneRow(s5.t.jobs[id], s5.clock)), l, Leaving(LoopAt(s5, l).expiry))
    ensures LoopAt(s6, l).Leaving? && Owns(cfg, s6, l)
  {
    hide DoneRow;
  }

  lemma Spelled(actions: seq<Action>, l: nat, to: Instant, id: nat, n: nat)
    ensures actions + Performance(l, to, id, n) ==
            actions + [Tick(to)] + [ReadClock(l)] + [Acquire(l, true)] + [Claim(l, to, Some(id), true)] + Sayings(l, n)
            + [MarkDone(l, to, true)] + [Release(l, true)]
  {
  }

  /** The states of the performance. */
  predicate Performed(cfg: Config, s: State, l: nat, id: nat, to: Instant, script: seq<string>, s3: State, s4: State,
                      s5: State, s6: State, s7: State) {
    && s.clock <= to && id in s.t.jobs && id in s3.t.jobs && id in s5.t.jobs
    && s3 == LoopSet(LeaseSet(s.(clock := to), OwnerOf(cfg, l), to + cfg.ttl), l, Holding(to + cfg.ttl))
    && LoopAt(s3, l).Holding? && LoopAt(s4, l).Reciting? && LoopAt(s5, l).Reciting?
    && s4 == LoopSet(JobSet(s3, id, ClaimedRow(s3.t.jobs[id], s3.clock)), l,
                     Reciting(LoopAt(s3, l).expiry, id, script)).(history := s3.history + [ClaimOf(id)])
    && s5 == LoopSet(s4, l, LoopAt(s4, l).(left := []))
    && s6 == LoopSet(JobSet(s5, id, DoneRow(s5.t.jobs[id], s5.clock)), l, Leaving(LoopAt(s5, l).expiry))
    && s7 == LoopSet(LeaseCleared(s6), l, Idle)
  }

  lemma IsPerformance(cfg: Config, s: State, l: nat, id: nat, to: Instant, script: seq<string>, s3: State, s4: State,
                      s5: State, s6: State, s7: State)
    requires s.clock <= to && id in s.t.jobs && id in s3.t.jobs && id in s5.t.jobs
    requires s3 == LoopSet(LeaseSet(s.(clock := to), OwnerOf(cfg, l), to + cfg.ttl), l, Holding(to + cfg.ttl))
    requires LoopAt(s3, l).Holding? && LoopAt(s4, l).Reciting? && LoopAt(s5, l).Reciting?
    requires s4 == LoopSet(JobSet(s3, id, ClaimedRow(s3.t.jobs[id], s3.clock)), l,
                           Reciting(LoopAt(s3, l).expiry, id, script)).(history := s3.history + [ClaimOf(id)])
    requires s5 == LoopSet(s4, l, LoopAt(s4, l).(left := []))
    requires s6 == LoopSet(JobSet(s5, id, DoneRow(s5.t.jobs[id], s5.clock)), l, Leaving(LoopAt(s5, l).expiry))
    requires s7 == LoopSet(LeaseCleared(s6), l, Idle)
    ensures Performed(cfg, s, l, id, to, script, s3, s4, s5, s6, s7)
  {
    hide LoopSet, LeaseSet, JobSet, LeaseCleared, ClaimedRow, DoneRow;
  }

  lemma LoopsIn(cfg: Config, s: State, l: nat, id: nat, to: Instant, script: seq<string>, s3: State, s4: State,
                s5: State, s6: State, s7: State)
    requires Performed(cfg, s, l, id, to, script, s3, s4, s5, s6, s7)
    ensures s7.loops == s.loops[l := Idle] && s7.handlers == s.handlers && s7.history == s.history + [ClaimOf(id)]
    ensures s7.clock == to && s7.t.events == s.t.events
  {
    hide Format, ClaimedRow, DoneRow, OwnerOf;
  }

  lemma TablesIn(cfg: Config, s: State, l: nat, id: nat, to: Instant, script: seq<string>, s3: State, s4: State,
                 s5: State, s6: State, s7: State)
    requires Performed(cfg, s, l, id, to, script, s3, s4, s5, s6, s7)
    ensures s7.t.jobs == s.t.jobs[id := DoneRow(ClaimedRow(s.t.jobs[id], to), to)]
    ensures s7.t.leases == s.t.leases - {Worker.SPEAKER_LEASE}
  {
    hide Format, ClaimedRow, DoneRow, OwnerOf;
    assert s7.t.leases ==
      s.t.leases[Worker.SPEAKER_LEASE := LeaseRow(OwnerOf(cfg, l), Format(to + cfg.ttl))] - {Worker.SPEAKER_LEASE};
  }

  lemma RowIn(job: JobRow, to: Instant)
    ensures var row := DoneRow(ClaimedRow(job, to), to);
            && SameOrder(row, job) && row.status == Done && row.attempts == job.attempts + 1
            && row.startedAt == Some(Format(to)) && row.completedAt == Some(Format(to))
  {
    hide Format;
  }

  lemma AllIn(cfg: Config, s: State, l: nat, id: nat, to: Instant, script: seq<string>, s3: State, s4: State,
              s5: State, s6: State, s7: State)
    requires Performed(cfg, s, l, id, to, script, s3, s4, s5, s6, s7)
    ensures SpokenIn(s, s7, l, id)
  {
    PerformedFrom(cfg, s, l, id, to, script, s3, s4, s5, s6, s7);
    hide Performed, SameOrder, ClaimedRow, DoneRow, Format;
    LoopsIn(cfg, s, l, id, to, script, s3, s4, s5, s6, s7);
    TablesIn(cfg, s, l, id, to, script, s3, s4, s5, s6, s7);
    RowIn(s.t.jobs[id], to);
  }

  lemma PerformedFrom(cfg: Config, s: State, l: nat, id: nat, to: Instant, script: seq<string>, s3: State, s4: State,
                      s5: State, s6: State, s7: State)
    requires Performed(cfg, s, l, id, to, script, s3, s4, s5, s6, s7)
    ensures s.clock <= to && id in s.t.jobs
  {
  }

  // ---------- a failing call ----------

  lemma FailStep(cfg: Config, s: State, l: nat, message: string)
    requires LoopAt(s, l).Reciting? && LoopAt(s, l).left != []
    ensures Enabled(cfg, s, Speak(l, Some(message)))
    ensures
      var loop := LoopAt(s, l);
      Next(cfg, s, Speak(l, Some(message))) == LoopSet(s, l, Failing(loop.expiry, loop.job, message))
  {
  }

  lemma MarkStep(cfg: Config, s: State, l: nat)
    requires LoopAt(s, l).Failing? && LoopAt(s, l).job in s.t.jobs
    ensures
      var loop := LoopAt(s, l);
      && Enabled(cfg, s, MarkFailed(l, s.clock, true))
      && Next(cfg, s, MarkFailed(l, s.clock, true)) ==
           LoopSet(JobSet(s, loop.job, FailedRow(s.t.jobs[loop.job], s.clock, loop.failure)), l, Leaving(loop.expiry))
  {
    hide FailedRow;
  }

  /** A job that ended with a failure, and what has stayed. */
  predicate FailedIn(s: State, s': State, id: nat, message: string) {
    && id in s.t.jobs && id in s'.t.jobs && s'.t.events == s.t.events && s'.handlers == s.handlers
    && s'.t.jobs == s.t.jobs[id := s'.t.jobs[id]] && s'.t.leases == s.t.leases
    && SameOrder(s'.t.jobs[id], s.t.jobs[id]) && s'.t.jobs[id].status == Failed
    && s'.t.jobs[id].lastError == Some(message) && s'.t.jobs[id].attempts == s.t.jobs[id].attempts
    && s'.t.jobs[id].completedAt == Some(Format(s'.clock))
  }

  lemma FailedRowIn(cfg: Config, s: State, s1: State, s2: State, l: nat, message: string)
    requires LoopAt(s, l).Reciting? && LoopAt(s, l).job in s.t.jobs
    requires var loop := LoopAt(s, l); s1 == LoopSet(s, l, Failing(loop.expiry, loop.job, message))
    requires var id := LoopAt(s, l).job;
             s2 == LoopSet(JobSet(s1, id, FailedRow(s1.t.jobs[id], s1.clock, message)), l, Leaving(LoopAt(s, l).expiry))
    ensures FailedIn(s, s2, LoopAt(s, l).job, message) && LoopAt(s2, l) == Leaving(LoopAt(s, l).expiry)
  {
    hide Format;
  }

  /**
    * From every run: whenever a loop still has something to say of a job, that call may fail; the loop then marks the
    * job failed with the message of that very call and goes on to give the lease back.
    */
  lemma {:induction false} FailingCallFailsJob(cfg: Config, actions: seq<Action>, l: nat, message: string)
    returns (more: seq<Action>)
    requires Legal(cfg, actions)
    requires LoopAt(Run(cfg, actions), l).Reciting? && LoopAt(Run(cfg, actions), l).left != []
    requires LoopAt(Run(cfg, actions), l).job in Run(cfg, actions).t.jobs
    ensures more == [Speak(l, Some(message)), MarkFailed(l, Run(cfg, actions).clock, true)]
    ensures Legal(cfg, actions + more)
    ensures FailedIn(Run(cfg, actions), Run(cfg, actions + more), LoopAt(Run(cfg, actions), l).job, message)
    ensures LoopAt(Run(cfg, actions + more), l).Leaving?
  {
    hide *;
    var s0 := Run(cfg, actions);
    FailStep(cfg, s0, l, message);
    var s1 := Next(cfg, s0, Speak(l, Some(message)));
    Reached(cfg, actions, Speak(l, Some(message)), s0, s1);
    NowFailing(s0, s1, l, message);
    MarkStep(cfg, s1, l);
    var s2 := Next(cfg, s1, MarkFailed(l, s0.clock, true));
    Reached(cfg, actions + [Speak(l, Some(message))], MarkFailed(l, s0.clock, true), s1, s2);
    FailedRowIn(cfg, s0, s1, s2, l, message);
    more := [Speak(l, Some(message)), MarkFailed(l, s0.clock, true)];
    assert actions + [Speak(l, Some(message))] + [MarkFailed(l, s0.clock, true)] == actions + more;
  }

  lemma NowFailing(s0: State, s1: State, l: nat, message: string)
    requires LoopAt(s0, l).Reciting?
    requires var loop := LoopAt(s0, l); s1 == LoopSet(s0, l, Failing(loop.expiry, loop.job, message))
    ensures LoopAt(s1, l) == Failing(LoopAt(s0, l).expiry, LoopAt(s0, l).job, message)
    ensures s1.t == s0.t && s1.clock == s0.clock
  {
  }

  // ---------- all jobs ----------

  function QueuedIn(jobs: map<nat, JobRow>): set<nat> {
    set id | id in jobs && jobs[id].status == Queued
  }

  /** One of finitely many rows comes before all others. */
  lemma {:induction false} FirstOf(jobs: map<nat, JobRow>, ids: set<nat>, a: nat) returns (m: nat)
    requires a in ids && ids <= jobs.Keys
    ensures m in ids && forall x :: x in ids && x != m ==> JobBefore(jobs, m, x)
    decreases ids
  {
    hide RowBefore;
    m := a;
    if b: nat :| b in ids && b != a && JobBefore(jobs, b, a) {
      m := FirstOf(jobs, ids - {a}, b);
      if m != b {
        RowBeforeTransitive(jobs[m].queuedAt, m, jobs[b].queuedAt, b, jobs[a].queuedAt, a);
      }
      assert forall x :: x in ids && x != a ==> x in ids - {a};
    } else {
      forall x | x in ids && x != a ensures JobBefore(jobs, a, x) {
        RowBeforeTotal(jobs[a].queuedAt, a, jobs[x].queuedAt, x);
      }
    }
  }

  lemma SomeIsNext(jobs: map<nat, JobRow>, some: nat) returns (id: nat)
    requires IsQueued(jobs, some)
    ensures IsNext(jobs, id)
  {
    hide JobBefore;
    id := FirstOf(jobs, QueuedIn(jobs), some);
  }

  function ClaimMarks(order: seq<nat>): seq<Mark> {
    if order == [] then [] else [ClaimOf(order[0])] + ClaimMarks(order[1..])
  }

  /** All queued jobs, in the order of the claim query. */
  ghost predicate InClaimOrder(jobs: map<nat, JobRow>, order: seq<nat>) {
    && (forall id :: id in order <==> IsQueued(jobs, id))
    && (forall i :: 0 <= i < |order| ==> order[i] in jobs)
    && (forall i, j :: 0 <= i < j < |order| ==> JobBefore(jobs, order[i], order[j]))
  }

  /** Queued rows were spoken, and the others are as they were. */
  ghost predicate RowsSpoken(before: map<nat, JobRow>, after: map<nat, JobRow>) {
    && after.Keys == before.Keys
    && (forall id :: IsQueued(before, id) ==> SpokenRow(before[id], after[id]))
    && (forall id :: id in before && !IsQueued(before, id) ==> after[id] == before[id])
  }

  /** The queued jobs, claimed in the order of the claim query, are done, and nothing else has changed. */
  ghost predicate AllSpoken(s: State, s': State, order: seq<nat>) {
    && s'.t.events == s.t.events && s'.handlers == s.handlers
    && InClaimOrder(s.t.jobs, order) && RowsSpoken(s.t.jobs, s'.t.jobs)
    && s'.history == s.history + ClaimMarks(order)
  }

  predicate SpokenRow(before: JobRow, after: JobRow) {
    SameOrder(after, before) && after.status == Done && after.attempts == before.attempts + 1
  }

  lemma NothingSpoken(s: State)
    requires forall id :: !IsQueued(s.t.jobs, id)
    ensures AllSpoken(s, s, [])
  {
  }

  lemma OneSpoken(s: State, mid: State, l: nat, id: nat)
    requires SpokenIn(s, mid, l, id) && IsQueued(s.t.jobs, id)
    ensures QueuedIn(mid.t.jobs) == QueuedIn(s.t.jobs) - {id} && id in QueuedIn(s.t.jobs)
    ensures LoopAt(mid, l).Idle?
    ensures SpokenRow(s.t.jobs[id], mid.t.jobs[id])
    ensures forall k :: IsQueued(mid.t.jobs, k) <==> IsQueued(s.t.jobs, k) && k != id
  {
    hide Format;
  }

  lemma OrderGrows(jobs: map<nat, JobRow>, row: JobRow, id: nat, order: seq<nat>)
    requires IsNext(jobs, id) && SpokenRow(jobs[id], row) && InClaimOrder(jobs[id := row], order)
    ensures InClaimOrder(jobs, [id] + order)
  {
    hide RowBefore;
    var mid, order' := jobs[id := row], [id] + order;
    forall k ensures k in order' <==> IsQueued(jobs, k) {
      assert k in order' <==> k == id || k in order;
      assert k in order <==> IsQueued(mid, k);
    }
    forall i, j | 0 <= i < j < |order'| ensures JobBefore(jobs, order'[i], order'[j]) {
      assert order'[j] == order[j - 1] && order[j - 1] in order && IsQueued(mid, order[j - 1]);
      if i > 0 {
        assert order'[i] == order[i - 1] && JobBefore(mid, order[i - 1], order[j - 1]);
      }
    }
  }

  lemma RowsGrow(jobs: map<nat, JobRow>, row: JobRow, id: nat, after: map<nat, JobRow>)
    requires IsQueued(jobs, id) && SpokenRow(jobs[id], row) && RowsSpoken(jobs[id := row], after)
    ensures RowsSpoken(jobs, after)
  {
    var mid := jobs[id := row];
    assert !IsQueued(mid, id) && after[id] == row;
    hide SpokenRow;
    assert forall k :: k in jobs && k != id ==> mid[k] == jobs[k] && (IsQueued(mid, k) <==> IsQueued(jobs, k));
  }

  lemma SpokenThenAll(s: State, mid: State, s': State, l: nat, id: nat, order: seq<nat>)
    requires SpokenIn(s, mid, l, id) && IsNext(s.t.jobs, id) && AllSpoken(mid, s', order)
    ensures AllSpoken(s, s', [id] + order)
  {
    hide Format, SpokenRow, InClaimOrder, RowsSpoken, JobBefore, ClaimMarks;
    OneSpoken(s, mid, l, id);
    OrderGrows(s.t.jobs, mid.t.jobs[id], id, order);
    RowsGrow(s.t.jobs, mid.t.jobs[id], id, s'.t.jobs);
    MarksGrow(id, order);
    assert s.history + [ClaimOf(id)] + ClaimMarks(order) == s.history + ([ClaimOf(id)] + ClaimMarks(order));
  }

  lemma MarksGrow(id: nat, order: seq<nat>)
    ensures ClaimMarks([id] + order) == [ClaimOf(id)] + ClaimMarks(order)
  {
    assert ([id] + order)[1..] == order;
  }

  /**
    * From every run: an idle loop can go on so that no job is queued any more, each queued one having been claimed
    * once, in the order of the claim query, and said from beginning to end.
    */
  lemma {:induction false} AllJobsCanBeSpoken(cfg: Config, actions: seq<Action>, l: nat)
    returns (more: seq<Action>, order: seq<nat>)
    requires Legal(cfg, actions) && l in cfg.owners && LoopAt(Run(cfg, actions), l).Idle?
    ensures Legal(cfg, actions + more) && AllSpoken(Run(cfg, actions), Run(cfg, actions + more), order)
    decreases |QueuedIn(Run(cfg, actions).t.jobs)|
  {
    hide *;
    var s := Run(cfg, actions);
    if some: nat :| IsQueued(s.t.jobs, some) {
      var id := SomeIsNext(s.t.jobs, some);
      JobSafety.NextIsQueued(s.t.jobs, id);
      var to, now := NextJobCanBeSpoken(cfg, actions, l, id);
      var mid := Run(cfg, actions + now);
      OneSpoken(s, mid, l, id);
      var rest, others := AllJobsCanBeSpoken(cfg, actions + now, l);
      SpokenThenAll(s, mid, Run(cfg, actions + now + rest), l, id, others);
      more, order := now + rest, [id] + others;
      assert actions + now + rest == actions + more;
    } else {
      more, order := [], [];
      assert actions + [] == actions;
      NothingSpoken(s);
    }
  }
}
