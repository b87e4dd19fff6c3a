/** When the speaker lease keeps two loops from speaking at once. */
module LeaseSafety {
  import opened Timestamps
  import opened Store
  import opened Pipeline

  /** The loop is between acquire and release and its own lease has not expired. */
  predicate Live(s: State, l: nat) {
    l in s.loops && Holds(s.loops[l]) && s.clock < s.loops[l].expiry
  }

  /** At most one loop is inside its lease. */
  ghost predicate OneInside(s: State) {
    forall a, b :: Live(s, a) && Live(s, b) ==> a == b
  }

  /** Every loop between acquire and release is still within its own lease. */
  ghost predicate Timely(s: State) {
    forall l :: l in s.loops && Holds(s.loops[l]) ==> Live(s, l)
  }

  /** At most one loop is between acquire and release. */
  ghost predicate Exclusive(s: State) {
    forall a, b :: a in s.loops && b in s.loops && Holds(s.loops[a]) && Holds(s.loops[b]) ==> a == b
  }

  ghost predicate OwnersDistinct(cfg: Config) {
    forall a, b :: a in cfg.owners && b in cfg.owners && cfg.owners[a] == cfg.owners[b] ==> a == b
  }

  /** The row in the lease table is the loop's own, with the loop's own expiry. */
  predicate HasRow(cfg: Config, s: State, l: nat)
    requires l in s.loops && Holds(s.loops[l])
  {
    && Worker.SPEAKER_LEASE in s.t.leases
    && s.t.leases[Worker.SPEAKER_LEASE] == LeaseRow(OwnerOf(cfg, l), Format(s.loops[l].expiry))
    && InCalendar(s.loops[l].expiry)
  }

  /** Whoever is inside its lease has its row, whatever loops that overran theirs are doing. */
  ghost predicate Guarded(cfg: Config, s: State) {
    && s.loops.Keys <= cfg.owners.Keys
    && (forall l :: l in s.loops && s.loops[l].Timed? ==> s.loops[l].now <= s.clock)
    && (forall l :: Live(s, l) ==> HasRow(cfg, s, l))
  }

  /** The loop is alone inside its lease, with its own row, and no other owner can acquire, even with a stale time. */
  ghost predicate Secure(cfg: Config, s: State, holder: nat) {
    && Live(s, holder) && HasRow(cfg, s, holder) && OneInside(s)
    && forall l: nat, now: Instant :: l in cfg.owners && l != holder && now <= s.clock ==>
                                        !LeaseFree(s.t, Worker.SPEAKER_LEASE, OwnerOf(cfg, l), now)
  }

  /** Two rows cannot both be there. */
  lemma GuardedIsExclusive(cfg: Config, s: State)
    requires OwnersDistinct(cfg) && Guarded(cfg, s)
    ensures OneInside(s)
  {
    hide Format, InCalendar;
    forall a, b | Live(s, a) && Live(s, b)
      ensures a == b
    {
      assert HasRow(cfg, s, a) && HasRow(cfg, s, b);
      assert a in cfg.owners && b in cfg.owners;
    }
  }

  /** A live lease is free to its own owner only. */
  lemma {:induction false} LiveLeaseRefuses(cfg: Config, s: State, holder: nat, l: nat, now: Instant)
    requires holder in s.loops && Holds(s.loops[holder]) && HasRow(cfg, s, holder)
    requires now < s.loops[holder].expiry
    ensures LeaseFree(s.t, Worker.SPEAKER_LEASE, OwnerOf(cfg, l), now) <==> OwnerOf(cfg, l) == OwnerOf(cfg, holder)
  {
    StampRoundTrip(s.loops[holder].expiry);
    hide Format, ParseStored, InCalendar;
  }

  /** Only acquire, release and shutdown touch the lease table. */
  lemma LeasesStay(cfg: Config, s: State, a: Action)
    ensures !a.Acquire? && !a.Release? && !a.Shutdown? ==> NextTables(cfg, s, a).leases == s.t.leases
  {
    hide Format, Accepts, Speaks, InputOf, JobInputOf, JobOf, EventOf, EventKeyTaken, JobKeyTaken;
  }

  /** A step leaves the expiry of a loop that stays in its critical section, and only acquire enters it. */
  lemma LoopStep(cfg: Config, s: State, a: Action, loop: Loop)
    requires OfLoop(a) && Holds(NextLoop(cfg, s, a, loop))
    ensures !a.Acquire? ==> Holds(loop) && NextLoop(cfg, s, a, loop).expiry == loop.expiry && !a.Release?
  {
    hide LeaseFree, Worker.Script;
  }

  lemma StepKeepsGuard(cfg: Config, s: State, a: Action)
    requires OwnersDistinct(cfg) && Guarded(cfg, s) && Enabled(cfg, s, a)
    requires InCalendar(s.clock + cfg.ttl)
    ensures Guarded(cfg, Next(cfg, s, a))
  {
    LeasesStay(cfg, s, a);
    if a.Acquire? {
      AcquireKeepsGuard(cfg, s, a);
    } else if a.Release? || a.Shutdown? {
      ReleaseKeepsGuard(cfg, s, a);
    } else {
      OthersKeepGuard(cfg, s, a);
    }
  }

  lemma OthersKeepGuard(cfg: Config, s: State, a: Action)
    requires Guarded(cfg, s) && Enabled(cfg, s, a) && !a.Acquire? && !a.Release? && !a.Shutdown?
    requires NextTables(cfg, s, a).leases == s.t.leases
    ensures Guarded(cfg, Next(cfg, s, a))
  {
    if OfLoop(a) { ActorIsKnown(cfg, s, a); }
    ClockStays(cfg, s, a);
    hide NextTables, NextHandlers, NextHistory, NextLoop, Format, InCalendar, Enabled;
    var s' := Next(cfg, s, a);
    forall l | Live(s', l) ensures HasRow(cfg, s', l) {
      if OfLoop(a) && l == a.l {
        LoopStep(cfg, s, a, LoopAt(s, l));
      }
      assert Live(s, l);
    }
    forall l | l in s'.loops && s'.loops[l].Timed? ensures s'.loops[l].now <= s'.clock {
      if OfLoop(a) && l == a.l {
        OnlyReadTimes(cfg, s, a, LoopAt(s, l));
      }
    }
  }

  lemma ClockStays(cfg: Config, s: State, a: Action)
    requires Enabled(cfg, s, a)
    ensures s.clock <= Next(cfg, s, a).clock
  {
    hide NextTables, NextLoops, NextHandlers, NextHistory;
  }

  lemma ActorIsKnown(cfg: Config, s: State, a: Action)
    requires Guarded(cfg, s) && Enabled(cfg, s, a) && OfLoop(a)
    ensures a.l in cfg.owners
  {
  }

  lemma OnlyReadTimes(cfg: Config, s: State, a: Action, loop: Loop)
    requires OfLoop(a) && NextLoop(cfg, s, a, loop).Timed?
    ensures NextLoop(cfg, s, a, loop) == loop || NextLoop(cfg, s, a, loop).now == s.clock
  {
    hide LeaseFree, Worker.Script;
  }

  lemma AcquireKeepsGuard(cfg: Config, s: State, a: Action)
    requires OwnersDistinct(cfg) && Guarded(cfg, s) && Enabled(cfg, s, a) && a.Acquire?
    requires InCalendar(s.clock + cfg.ttl)
    ensures Guarded(cfg, Next(cfg, s, a))
  {
    hide *;
    Contender(cfg, s, a);
    var l := a.l;
    var now := LoopAt(s, l).now;
    var s' := Next(cfg, s, a);
    AcquireEffect(cfg, s, a);
    InCalendarDown(now + cfg.ttl, s.clock + cfg.ttl);
    if a.ok && LeaseFree(s.t, Worker.SPEAKER_LEASE, OwnerOf(cfg, l), now) {
      forall m ensures !Live(s, m) {
        if Live(s, m) {
          LiveLeaseRefuses(cfg, s, m, l, now);
        }
      }
      FirstHolder(cfg, s, s', l, Holding(now + cfg.ttl));
    } else {
      BackToIdle(cfg, s, s', l);
    }
  }

  /**
    * What a loop that is about to acquire faces: its time may be stale, and whoever is inside is someone else,
    * with its row.
    */
  lemma Contender(cfg: Config, s: State, a: Action)
    requires OwnersDistinct(cfg) && Guarded(cfg, s) && Enabled(cfg, s, a) && a.Acquire?
    ensures a.l in cfg.owners && LoopAt(s, a.l).Timed? && LoopAt(s, a.l).now <= s.clock
    ensures forall m :: Live(s, m) ==>
              m in s.loops && Holds(s.loops[m]) && HasRow(cfg, s, m)
              && OwnerOf(cfg, m) != OwnerOf(cfg, a.l) && LoopAt(s, a.l).now < s.loops[m].expiry
  {
    hide HasRow;
  }

  lemma FirstHolder(cfg: Config, s: State, s': State, l: nat, loop: Loop)
    requires Guarded(cfg, s) && l in cfg.owners && loop.Holding? && InCalendar(loop.expiry)
    requires forall m :: !Live(s, m)
    requires s'.clock == s.clock && s'.loops == s.loops[l := loop]
    requires s'.t.leases == s.t.leases[Worker.SPEAKER_LEASE := LeaseRow(OwnerOf(cfg, l), Format(loop.expiry))]
    ensures Guarded(cfg, s')
  {
    hide Format, InCalendar;
    forall m | Live(s', m) ensures HasRow(cfg, s', m) {
      assert !Live(s, m);
      assert m == l;
    }
  }

  lemma BackToIdle(cfg: Config, s: State, s': State, l: nat)
    requires Guarded(cfg, s) && l in cfg.owners
    requires s'.clock == s.clock && s'.loops == s.loops[l := Idle] && s'.t == s.t
    ensures Guarded(cfg, s')
  {
    hide Format, InCalendar;
    forall m | Live(s', m) ensures HasRow(cfg, s', m) {
      assert Live(s, m);
    }
  }

  /** Acquire either refuses, leaving the lease table alone, or writes the loop's own row. */
  lemma AcquireEffect(cfg: Config, s: State, a: Action)
    requires Enabled(cfg, s, a) && a.Acquire?
    ensures var s' := Next(cfg, s, a); var now := LoopAt(s, a.l).now;
            && s'.clock == s.clock
            && if a.ok && LeaseFree(s.t, Worker.SPEAKER_LEASE, OwnerOf(cfg, a.l), now)
               then && s'.loops == s.loops[a.l := Holding(now + cfg.ttl)]
                    && s'.t.leases ==
                         s.t.leases[Worker.SPEAKER_LEASE := LeaseRow(OwnerOf(cfg, a.l), Format(now + cfg.ttl))]
               else s'.loops == s.loops[a.l := Idle] && s'.t == s.t
  {
    hide Format, LeaseFree, OwnerOf;
  }

  lemma ReleaseKeepsGuard(cfg: Config, s: State, a: Action)
    requires OwnersDistinct(cfg) && Guarded(cfg, s) && Enabled(cfg, s, a) && (a.Release? || a.Shutdown?)
    ensures Guarded(cfg, Next(cfg, s, a))
  {
    hide Format, InCalendar;
    var s' := Next(cfg, s, a);
    forall l | Live(s', l) ensures HasRow(cfg, s', l) {
      assert l != a.l && Live(s, l);
      assert l in cfg.owners && a.l in cfg.owners && OwnerOf(cfg, l) != OwnerOf(cfg, a.l);
    }
  }

  /** In every run with one owner id per loop, whoever is inside its lease has its row. */
  lemma {:induction false} RunsAreGuarded(cfg: Config, actions: seq<Action>)
    requires OwnersDistinct(cfg) && Legal(cfg, actions)
    requires InCalendar(Run(cfg, actions).clock + cfg.ttl)
    ensures Guarded(cfg, Run(cfg, actions))
  {
    hide *;
    if actions == [] {
      InitGuarded(cfg);
    } else {
      var front, last := actions[..|actions| - 1], actions[|actions| - 1];
      assert front + [last] == actions;
      RunStep(cfg, front, last);
      ClockAscends(cfg, actions);
      InCalendarDown(Run(cfg, front).clock + cfg.ttl, Run(cfg, actions).clock + cfg.ttl);
      RunsAreGuarded(cfg, front);
      StepKeepsGuard(cfg, Run(cfg, front), last);
    }
  }

  /**
    * Mutual exclusion: with one owner id per loop, in every run, however stale the time a loop acquired with
    * and however many loops have overrun their leases, no two loops are ever inside their leases, and whoever
    * is inside keeps every other owner out.
    */
  lemma {:induction false} AtMostOneInside(cfg: Config, actions: seq<Action>, holder: nat)
    requires OwnersDistinct(cfg) && Legal(cfg, actions)
    requires InCalendar(Run(cfg, actions).clock + cfg.ttl)
    requires Live(Run(cfg, actions), holder)
    ensures Secure(cfg, Run(cfg, actions), holder)
  {
    hide *;
    RunsAreGuarded(cfg, actions);
    GuardedIsSecure(cfg, Run(cfg, actions), holder);
  }

  lemma GuardedIsSecure(cfg: Config, s: State, holder: nat)
    requires OwnersDistinct(cfg) && Guarded(cfg, s) && Live(s, holder)
    ensures Secure(cfg, s, holder)
  {
    GuardedIsExclusive(cfg, s);
    hide Format, InCalendar, LeaseFree, OneInside;
    assert HasRow(cfg, s, holder) && holder in cfg.owners;
    forall l: nat, now: Instant | l in cfg.owners && l != holder && now <= s.clock
      ensures !LeaseFree(s.t, Worker.SPEAKER_LEASE, OwnerOf(cfg, l), now)
    {
      LiveLeaseRefuses(cfg, s, holder, l, now);
    }
  }

  /** If, besides, no loop has overrun its lease, at most one is between acquire and release. */
  lemma {:induction false} TimelyRunsAreExclusive(cfg: Config, actions: seq<Action>)
    requires OwnersDistinct(cfg) && Legal(cfg, actions) && Timely(Run(cfg, actions))
    requires InCalendar(Run(cfg, actions).clock + cfg.ttl)
    ensures Exclusive(Run(cfg, actions))
  {
    RunsAreGuarded(cfg, actions);
    GuardedIsExclusive(cfg, Run(cfg, actions));
  }

  lemma InitGuarded(cfg: Config)
    ensures Guarded(cfg, Run(cfg, []))
  {
  }

  // ---------- shared owner ids ----------

  /** A loop whose owner the lease table does not exclude takes the lease in two steps. */
  lemma TakeLease(cfg: Config, s: State, l: nat) returns (mid: State, end: State)
    requires l in cfg.owners && LoopAt(s, l).Idle?
    requires Worker.SPEAKER_LEASE in s.t.leases ==> s.t.leases[Worker.SPEAKER_LEASE].owner == OwnerOf(cfg, l)
    ensures Enabled(cfg, s, ReadClock(l)) && mid == Next(cfg, s, ReadClock(l))
    ensures Enabled(cfg, mid, Acquire(l, true)) && end == Next(cfg, mid, Acquire(l, true))
    ensures mid.loops == s.loops[l := Timed(s.clock)] && end.loops == s.loops[l := Holding(s.clock + cfg.ttl)]
    ensures mid.clock == end.clock == s.clock
    ensures Worker.SPEAKER_LEASE in end.t.leases && end.t.leases[Worker.SPEAKER_LEASE].owner == OwnerOf(cfg, l)
  {
    hide Format, ParseStored;
    mid := Next(cfg, s, ReadClock(l));
    end := Next(cfg, mid, Acquire(l, true));
    AcquireEffect(cfg, mid, Acquire(l, true));
    assert mid.t == s.t;
    assert s.loops[l := Timed(s.clock)][l := Holding(s.clock + cfg.ttl)] == s.loops[l := Holding(s.clock + cfg.ttl)];
  }

  /** Two loops with one owner id take the lease from each other at will. */
  lemma {:induction false} SharedOwnerRun(cfg: Config, a: nat, b: nat) returns (actions: seq<Action>)
    requires a in cfg.owners && b in cfg.owners && a != b && cfg.owners[a] == cfg.owners[b] && cfg.ttl > 0
    ensures Legal(cfg, actions) && Timely(Run(cfg, actions))
    ensures Run(cfg, actions).clock == cfg.start && !OneInside(Run(cfg, actions))
  {
    hide Next, Enabled;
    var s0 := Init(cfg);
    var s1, s2 := TakeLease(cfg, s0, a);
    var s3, s4 := TakeLease(cfg, s2, b);
    assert s4.loops[a] == s4.loops[b] == Holding(cfg.start + cfg.ttl);
    assert Run(cfg, []) == s0 && Legal(cfg, []);
    assert Timely(s4) && Live(s4, a) && Live(s4, b);
    hide *;
    var r1 := [] + [ReadClock(a)];
    var r2 := r1 + [Acquire(a, true)];
    var r3 := r2 + [ReadClock(b)];
    actions := r3 + [Acquire(b, true)];
    RunStep(cfg, [], ReadClock(a));
    RunStep(cfg, r1, Acquire(a, true));
    RunStep(cfg, r2, ReadClock(b));
    RunStep(cfg, r3, Acquire(b, true));
  }

  lemma RunStep(cfg: Config, front: seq<Action>, last: Action)
    ensures Run(cfg, front + [last]) == Next(cfg, Run(cfg, front), last)
    ensures Legal(cfg, front + [last]) <==> Legal(cfg, front) && Enabled(cfg, Run(cfg, front), last)
  {
    var actions := front + [last];
    assert actions[..|actions| - 1] == front;
  }

  /**
    * Exactly when exclusion is guaranteed: no run ever has two loops inside their leases if and only if no
    * two loops share an owner id. A process whose background loop and final drain share its id does not have it.
    */
  lemma {:induction false} ExclusiveIffOwnersDistinct(cfg: Config)
    requires cfg.ttl > 0 && InCalendar(cfg.start + cfg.ttl)
    ensures (forall actions :: Legal(cfg, actions) && InCalendar(Run(cfg, actions).clock + cfg.ttl)
                               ==> OneInside(Run(cfg, actions)))
            <==> OwnersDistinct(cfg)
  {
    hide Run, Legal, InCalendar, OneInside, Guarded;
    if OwnersDistinct(cfg) {
      forall actions | Legal(cfg, actions) && InCalendar(Run(cfg, actions).clock + cfg.ttl)
        ensures OneInside(Run(cfg, actions))
      {
        RunsAreGuarded(cfg, actions);
        GuardedIsExclusive(cfg, Run(cfg, actions));
      }
    } else {
      var a, b :| a in cfg.owners && b in cfg.owners && cfg.owners[a] == cfg.owners[b] && a != b;
      var actions := SharedOwnerRun(cfg, a, b);
    }
  }

  // ---------- late steps ----------

  /** Nothing but its own steps and the clock ends a loop's stay inside its lease. */
  lemma StaysInside(cfg: Config, s: State, a: Action, l: nat)
    requires Live(s, l) && !a.Tick? && (OfLoop(a) ==> a.l != l)
    ensures Live(Next(cfg, s, a), l) && Next(cfg, s, a).loops[l] == s.loops[l]
  {
    hide NextTables, NextHandlers, NextHistory, NextLoop;
  }

  /**
    * In every run with one owner id per loop, what another loop does, late or not, takes nothing from the one
    * inside its lease: after a claim, a mark, a release or a shutdown by a loop that has long lost the lease, the
    * holder's own row is still there with its own expiry, and still keeps every other owner out.
    */
  lemma {:induction false} LateStepsSpareTheHolder(cfg: Config, actions: seq<Action>, late: Action, holder: nat)
    requires OwnersDistinct(cfg) && Legal(cfg, actions + [late])
    requires InCalendar(Run(cfg, actions).clock + cfg.ttl)
    requires Live(Run(cfg, actions), holder) && OfLoop(late) && late.l != holder
    ensures Secure(cfg, Run(cfg, actions + [late]), holder)
  {
    hide *;
    RunStep(cfg, actions, late);
    LateClock(cfg, Run(cfg, actions), late);
    StaysInside(cfg, Run(cfg, actions), late, holder);
    AtMostOneInside(cfg, actions + [late], holder);
  }

  lemma LateClock(cfg: Config, s: State, a: Action)
    requires OfLoop(a)
    ensures Next(cfg, s, a).clock == s.clock && !a.Tick?
  {
    hide NextTables, NextLoops, NextHandlers, NextHistory;
  }

  // ---------- the lease comes round ----------

  /** What lets a loop with this owner id and clock reading take the lease, told from the table. */
  predicate Obtainable(t: Tables, owner: string, now: Instant) {
    || Worker.SPEAKER_LEASE !in t.leases
    || t.leases[Worker.SPEAKER_LEASE].owner == owner
    || ParseStored(t.leases[Worker.SPEAKER_LEASE].expiresAt) <= now
  }

  lemma AcquireSucceeds(cfg: Config, s: State, l: nat)
    requires LoopAt(s, l).Timed? && Obtainable(s.t, OwnerOf(cfg, l), LoopAt(s, l).now)
    ensures Enabled(cfg, s, Acquire(l, true))
    ensures
      var s' := Next(cfg, s, Acquire(l, true));
      var expiry := LoopAt(s, l).now + cfg.ttl;
      && s'.loops == s.loops[l := Holding(expiry)]
      && s'.t.leases == s.t.leases[Worker.SPEAKER_LEASE := LeaseRow(OwnerOf(cfg, l), Format(expiry))]
  {
    hide Format, ParseStored;
    var now := LoopAt(s, l).now;
    LeaseIsTaken(s.t, Worker.SPEAKER_LEASE, OwnerOf(cfg, l), now, cfg.ttl);
    AcquireEffect(cfg, s, Acquire(l, true));
    assert LeaseFree(s.t, Worker.SPEAKER_LEASE, OwnerOf(cfg, l), now);
  }

  /**
    * In every run, whoever left the row behind, crashed or not: a loop whose clock reading has reached the stored
    * expiry, or finds no row or its own, becomes the holder by its acquire step.
    */
  lemma {:induction false} ExpiredLeaseIsTaken(cfg: Config, actions: seq<Action>, l: nat)
    requires Legal(cfg, actions) && LoopAt(Run(cfg, actions), l).Timed?
    requires Obtainable(Run(cfg, actions).t, OwnerOf(cfg, l), LoopAt(Run(cfg, actions), l).now)
    ensures Legal(cfg, actions + [Acquire(l, true)])
    ensures LoopAt(Run(cfg, actions + [Acquire(l, true)]), l) == Holding(LoopAt(Run(cfg, actions), l).now + cfg.ttl)
  {
    hide Run, Legal, Enabled, Next, Obtainable;
    AcquireSucceeds(cfg, Run(cfg, actions), l);
    RunStep(cfg, actions, Acquire(l, true));
  }

  lemma WaitAndRead(cfg: Config, s: State, l: nat) returns (to: Instant)
    requires l in cfg.owners && LoopAt(s, l).Idle?
    ensures Enabled(cfg, s, Tick(to)) && Enabled(cfg, Next(cfg, s, Tick(to)), ReadClock(l))
    ensures
      var s' := Next(cfg, Next(cfg, s, Tick(to)), ReadClock(l));
      LoopAt(s', l) == Timed(to) && Obtainable(s'.t, OwnerOf(cfg, l), to)
  {
    hide Format, ParseStored;
    to := s.clock;
    if Worker.SPEAKER_LEASE in s.t.leases && to < ParseStored(s.t.leases[Worker.SPEAKER_LEASE].expiresAt) {
      to := ParseStored(s.t.leases[Worker.SPEAKER_LEASE].expiresAt);
    }
    var mid := Next(cfg, s, Tick(to));
    assert mid.t == s.t && mid.loops == s.loops && mid.clock == to;
    assert Next(cfg, mid, ReadClock(l)).t == s.t;
  }

  /**
    * No crash stops speech: from every run any idle loop can come to hold the lease by waiting for the stored
    * expiry and trying once.
    */
  lemma {:induction false} NoCrashStopsSpeech(cfg: Config, actions: seq<Action>, l: nat) returns (to: Instant)
    requires Legal(cfg, actions) && l in cfg.owners && LoopAt(Run(cfg, actions), l).Idle?
    ensures var more := [Tick(to), ReadClock(l), Acquire(l, true)];
            Legal(cfg, actions + more) && LoopAt(Run(cfg, actions + more), l) == Holding(to + cfg.ttl)
  {
    hide Run, Legal, Enabled, Next, Obtainable, LoopAt;
    to := WaitAndRead(cfg, Run(cfg, actions), l);
    RunStep(cfg, actions, Tick(to));
    RunStep(cfg, actions + [Tick(to)], ReadClock(l));
    var read := actions + [Tick(to)] + [ReadClock(l)];
    ExpiredLeaseIsTaken(cfg, read, l);
    assert read + [Acquire(l, true)] == actions + [Tick(to), ReadClock(l), Acquire(l, true)];
  }
}
