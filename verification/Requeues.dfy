/** When a retry or a reset leads to another claim, and when it is undone in silence. */
module Requeues {
  import opened Strings
  import opened Timestamps
  import opened Store
  import opened Pipeline
  import opened JobSafety

  /** The loop has claimed the job and has not marked it yet. */
  predicate Recites(loop: Loop, job: nat) {
    (loop.Reciting? || loop.Failing?) && loop.job == job
  }

  ghost predicate Recited(s: State, job: nat) {
    exists l :: l in s.loops && Recites(s.loops[l], job)
  }

  /** A queued job leaves the queue only by a claim, or by the mark of a loop that still recites it. */
  lemma LeavesQueue(cfg: Config, s: State, a: Action, job: nat)
    requires UniqueJobs(s.t) && Enabled(cfg, s, a)
    requires IsQueued(s.t.jobs, job) && !IsQueued(NextTables(cfg, s, a).jobs, job)
    ensures Claims(s, a, job) || ((a.MarkDone? || a.MarkFailed?) && Recites(LoopAt(s, a.l), job))
  {
    if a.Claim? {
      ClaimLeaves(cfg, s, a, job);
    } else if a.MarkDone? || a.MarkFailed? {
      MarkLeaves(cfg, s, a, job);
    } else if a.Retry? || a.ResetInFlight? {
      RequeueStays(cfg, s, a, job);
    } else if a.Create? {
      CreateStays(cfg, s, a, job);
    } else {
      SameQueue(cfg, s, a);
    }
    hide NextTables, Enabled, UniqueJobs;
  }

  lemma ClaimLeaves(cfg: Config, s: State, a: Action, job: nat)
    requires Enabled(cfg, s, a) && a.Claim? && IsQueued(s.t.jobs, job) && !IsQueued(NextTables(cfg, s, a).jobs, job)
    ensures Claims(s, a, job)
  {
    hide Claimed, IsNext;
    if a.next.Some? {
      StatementsAndQueue(s.t, a.next.value, a.at, "", job);
    }
  }

  lemma MarkLeaves(cfg: Config, s: State, a: Action, job: nat)
    requires Enabled(cfg, s, a) && (a.MarkDone? || a.MarkFailed?)
    requires IsQueued(s.t.jobs, job) && !IsQueued(NextTables(cfg, s, a).jobs, job)
    ensures Recites(LoopAt(s, a.l), job)
  {
    hide MarkedDone, MarkedFailed;
    var loop := LoopAt(s, a.l);
    StatementsAndQueue(s.t, loop.job, a.at, if loop.Failing? then loop.failure else "", job);
  }

  lemma RequeueStays(cfg: Config, s: State, a: Action, job: nat)
    requires (a.Retry? || a.ResetInFlight?) && IsQueued(s.t.jobs, job)
    ensures IsQueued(NextTables(cfg, s, a).jobs, job)
  {
    hide Retried, Reset;
    StatementsAndQueue(s.t, if a.Retry? then a.id else 0, 0, "", job);
  }

  lemma CreateStays(cfg: Config, s: State, a: Action, job: nat)
    requires UniqueJobs(s.t) && Enabled(cfg, s, a) && a.Create? && IsQueued(s.t.jobs, job)
    ensures IsQueued(NextTables(cfg, s, a).jobs, job)
  {
    hide Enqueued, Speaks, OrderOf, NextTables, UniqueJobs;
    CreateTables(cfg, s, a.h, a.at);
    var r := HandlerAt(s, a.h);
    if r.processor in cfg.processors {
      InsertsAndQueue(s.t, OrderOf(cfg, cfg.processors[r.processor], r, a.at), job);
    }
  }

  /** Only a claim makes a loop recite a job. */
  lemma StaysSilent(cfg: Config, s: State, a: Action, job: nat)
    requires Enabled(cfg, s, a) && !Recited(s, job) && !Claims(s, a, job)
    ensures !Recited(Next(cfg, s, a), job)
  {
    hide NextTables, NextHandlers, NextHistory, NextLoop, Enabled, Recites, Claims;
    var s' := Next(cfg, s, a);
    forall l | l in s'.loops ensures !Recites(s'.loops[l], job) {
      if OfLoop(a) && a.l == l {
        LoopStaysSilent(cfg, s, a, job);
      }
    }
  }

  lemma LoopStaysSilent(cfg: Config, s: State, a: Action, job: nat)
    requires Enabled(cfg, s, a) && OfLoop(a) && !Recited(s, job) && !Claims(s, a, job)
    ensures !Recites(NextLoop(cfg, s, a, LoopAt(s, a.l)), job)
  {
    hide LeaseFree, Worker.Script, IsNext;
    assert !Recites(LoopAt(s, a.l), job);
  }

  /** In the run, the action at place `i` claims the job. */
  ghost predicate ClaimedAt(cfg: Config, actions: seq<Action>, i: int, job: nat) {
    0 <= i < |actions| && Claims(Run(cfg, actions[..i]), actions[i], job)
  }

  /**
    * A job that is queued while nobody recites it leaves the queue only by another claim: whatever retry or reset
    * put it there takes effect.
    */
  lemma {:induction false} RequeueLeadsToClaim(cfg: Config, actions: seq<Action>, more: seq<Action>, job: nat)
    requires Legal(cfg, actions + more)
    requires IsQueued(Run(cfg, actions).t.jobs, job) && !Recited(Run(cfg, actions), job)
    ensures
      || (exists i :: |actions| <= i && ClaimedAt(cfg, actions + more, i, job))
      || (IsQueued(Run(cfg, actions + more).t.jobs, job) && !Recited(Run(cfg, actions + more), job))
  {
    hide *;
    if more == [] {
      assert actions + more == actions;
    } else {
      var n := |more| - 1;
      var front, last := actions + more[..n], more[n];
      assert front + [last] == actions + more;
      OneMore(cfg, front, last);
      RequeueLeadsToClaim(cfg, actions, more[..n], job);
      if i :| |actions| <= i && ClaimedAt(cfg, front, i, job) {
        StillClaimed(cfg, front, last, i, job);
      } else {
        ClaimOrStay(cfg, front, last, job);
      }
    }
  }

  lemma StillClaimed(cfg: Config, front: seq<Action>, last: Action, i: int, job: nat)
    requires ClaimedAt(cfg, front, i, job)
    ensures ClaimedAt(cfg, front + [last], i, job)
  {
    hide Run, Claims;
    assert (front + [last])[..i] == front[..i] && (front + [last])[i] == front[i];
  }

  lemma ClaimOrStay(cfg: Config, front: seq<Action>, last: Action, job: nat)
    requires Legal(cfg, front + [last])
    requires IsQueued(Run(cfg, front).t.jobs, job) && !Recited(Run(cfg, front), job)
    ensures
      || ClaimedAt(cfg, front + [last], |front|, job)
      || (IsQueued(Run(cfg, front + [last]).t.jobs, job) && !Recited(Run(cfg, front + [last]), job))
  {
    hide Run, Legal, Enabled, Next, NextTables, IsQueued, Claims, Shaped, UniqueEvents, UniqueJobs, Recites;
    OneMore(cfg, front, last);
    RunsAreSound(cfg, front);
    assert (front + [last])[..|front|] == front && (front + [last])[|front|] == last;
    var s := Run(cfg, front);
    if !Claims(s, last, job) {
      StaysSilent(cfg, s, last, job);
      if !IsQueued(NextTables(cfg, s, last).jobs, job) {
        LeavesQueue(cfg, s, last, job);
        NotByASilentLoop(s, last, job);
      }
    }
  }

  lemma NotByASilentLoop(s: State, a: Action, job: nat)
    requires !Recited(s, job)
    ensures a.MarkDone? || a.MarkFailed? ==> !Recites(LoopAt(s, a.l), job)
  {
    hide Recites;
    if a.MarkDone? || a.MarkFailed? {
      if a.l !in s.loops { IdleIsSilent(job); }
    }
  }

  lemma IdleIsSilent(job: nat)
    ensures !Recites(Idle, job)
  {
  }

  /**
    * A retry is undone in silence: from any run in which a loop has just spoken a job to its end, the operator
    * requeues the job, the loop's late mark finds no status test, and the job is done without another claim.
    */
  lemma {:induction false} LostRetry(cfg: Config, actions: seq<Action>, l: nat, job: nat)
    requires Legal(cfg, actions) && job in Run(cfg, actions).t.jobs
    requires Recites(LoopAt(Run(cfg, actions), l), job)
    requires LoopAt(Run(cfg, actions), l).Reciting? && LoopAt(Run(cfg, actions), l).left == []
    ensures
      var s := Run(cfg, actions);
      var retried := actions + [Retry(job)];
      var marked := retried + [MarkDone(l, s.clock, true)];
      && Legal(cfg, marked) && IsQueued(Run(cfg, retried).t.jobs, job)
      && job in Run(cfg, marked).t.jobs
      && Run(cfg, marked).t.jobs[job].status == Done
      && Run(cfg, marked).t.jobs[job].attempts == s.t.jobs[job].attempts
  {
    hide Run, Legal, Format;
    var s := Run(cfg, actions);
    var retried := actions + [Retry(job)];
    RetryStep(cfg, s, job);
    Extends(cfg, actions, Retry(job));
    var s' := Run(cfg, retried);
    MarkStep(cfg, s', l, job);
    Extends(cfg, retried, MarkDone(l, s'.clock, true));
  }

  lemma RetryStep(cfg: Config, s: State, job: nat)
    requires job in s.t.jobs
    ensures Enabled(cfg, s, Retry(job))
    ensures
      var s' := Next(cfg, s, Retry(job));
      && s'.loops == s.loops && s'.clock == s.clock && IsQueued(s'.t.jobs, job)
      && s'.t.jobs[job].attempts == s.t.jobs[job].attempts
  {
  }

  lemma MarkStep(cfg: Config, s: State, l: nat, job: nat)
    requires Recites(LoopAt(s, l), job) && LoopAt(s, l).Reciting? && LoopAt(s, l).left == [] && job in s.t.jobs
    ensures Enabled(cfg, s, MarkDone(l, s.clock, true))
    ensures
      var s' := Next(cfg, s, MarkDone(l, s.clock, true));
      && job in s'.t.jobs && s'.t.jobs[job].status == Done && s'.t.jobs[job].attempts == s.t.jobs[job].attempts
  {
    hide Format;
  }

  lemma Extends(cfg: Config, front: seq<Action>, a: Action)
    requires Legal(cfg, front) && Enabled(cfg, Run(cfg, front), a)
    ensures Legal(cfg, front + [a]) && Run(cfg, front + [a]) == Next(cfg, Run(cfg, front), a)
  {
    assert (front + [a])[..|front|] == front;
    hide Next, Enabled;
  }
}
