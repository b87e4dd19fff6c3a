/** When the end of a request gets its speech job, and when it is lost for good. */
module DoneEvents {
  import opened Timestamps
  import opened Subjects
  import opened Store
  import opened Pipeline
  import opened JobSafety

  /** The handler recorded the event with this key and has not ended yet. */
  predicate Pending(cfg: Config, h: Handler, key: string) {
    (h.Waiting? || h.Ready?) && EventKey(cfg, h.event) == key
  }

  ghost predicate Owned(cfg: Config, s: State, key: string) {
    exists h :: h in s.handlers && Pending(cfg, s.handlers[h], key)
  }

  /** The handler's event is the end of a request, and its key is recorded. */
  predicate RecordedEnd(cfg: Config, t: Tables, h: Handler, key: string) {
    !h.Over? && EventKeyTaken(t, key) && h.event.kind == AgentDone && h.processor in cfg.processors
  }

  /** Pending handlers stand for recorded ends of requests. */
  ghost predicate OwnersRecorded(cfg: Config, t: Tables, handlers: map<nat, Handler>) {
    forall h, key :: h in handlers && Pending(cfg, handlers[h], key) ==> RecordedEnd(cfg, t, handlers[h], key)
  }

  ghost predicate OneOwnerEach(cfg: Config, handlers: map<nat, Handler>) {
    forall g, h, key :: (g in handlers && h in handlers
                         && Pending(cfg, handlers[g], key) && Pending(cfg, handlers[h], key)) ==> g == h
  }

  ghost predicate OwnersApart(cfg: Config, s: State) {
    OwnersRecorded(cfg, s.t, s.handlers) && OneOwnerEach(cfg, s.handlers)
  }

  /** A handler that is pending after a step was pending before, or has just recorded an event with a new key. */
  lemma PendingStep(cfg: Config, s: State, a: Action, h: nat, key: string)
    requires Enabled(cfg, s, a)
    requires h in NextHandlers(cfg, s, a) && Pending(cfg, NextHandlers(cfg, s, a)[h], key)
    ensures
      var after := NextHandlers(cfg, s, a)[h];
      || (h in s.handlers && Pending(cfg, s.handlers[h], key)
          && after.event == s.handlers[h].event && after.processor == s.handlers[h].processor)
      || (a.Record? && a.h == h && !EventKeyTaken(s.t, key) && after.event.kind == AgentDone
          && after.processor in cfg.processors && EventKeyTaken(NextTables(cfg, s, a), key))
  {
    hide IsNext, IsLatest, Answers, EventKey, MatchesCapture, Format, AssistantText;
    if a.Record? && a.h == h {
      var r := HandlerAt(s, h);
      assert r.Received? && Accepts(cfg, s.t, cfg.processors[r.processor], r.event);
      assert NextTables(cfg, s, a).events[s.t.lastEvent + 1].key == key;
    }
  }

  lemma KeysStayTaken(t: Tables, t': Tables, key: string)
    requires EventsGrow(t, t') && EventKeyTaken(t, key)
    ensures EventKeyTaken(t', key)
  {
    var id :| id in t.events && t.events[id].key == key;
    assert t'.events[id].key == key;
  }

  /** Nobody takes up an event that is recorded and not pending. */
  lemma StaysSettled(cfg: Config, s: State, a: Action, key: string)
    requires Enabled(cfg, s, a) && EventKeyTaken(s.t, key) && !Owned(cfg, s, key)
    ensures !Owned(cfg, Next(cfg, s, a), key)
  {
    hide NextTables, NextLoops, NextHandlers, NextHistory, Enabled, Pending, EventKeyTaken;
    var s' := Next(cfg, s, a);
    forall h | h in s'.handlers ensures !Pending(cfg, s'.handlers[h], key) {
      if Pending(cfg, s'.handlers[h], key) {
        PendingStep(cfg, s, a, h, key);
      }
    }
  }

  lemma OwnerIsRecorded(cfg: Config, s: State, a: Action, h: nat, key: string)
    requires EventsGrow(s.t, NextTables(cfg, s, a)) && OwnersApart(cfg, s) && Enabled(cfg, s, a)
    requires h in NextHandlers(cfg, s, a) && Pending(cfg, NextHandlers(cfg, s, a)[h], key)
    ensures RecordedEnd(cfg, NextTables(cfg, s, a), NextHandlers(cfg, s, a)[h], key)
  {
    hide NextTables, NextHandlers, Enabled, EventKey, EventKeyTaken, EventsGrow;
    PendingStep(cfg, s, a, h, key);
    if EventKeyTaken(s.t, key) { KeysStayTaken(s.t, NextTables(cfg, s, a), key); }
  }

  lemma OwnersStayApart(cfg: Config, s: State, a: Action, g: nat, h: nat, key: string)
    requires OwnersApart(cfg, s) && Enabled(cfg, s, a)
    requires g in NextHandlers(cfg, s, a) && Pending(cfg, NextHandlers(cfg, s, a)[g], key)
    requires h in NextHandlers(cfg, s, a) && Pending(cfg, NextHandlers(cfg, s, a)[h], key)
    ensures g == h
  {
    hide NextTables, NextHandlers, Enabled, Pending, EventKeyTaken;
    PendingStep(cfg, s, a, g, key);
    PendingStep(cfg, s, a, h, key);
  }

  lemma StepKeepsOneOwner(cfg: Config, s: State, a: Action)
    requires OwnersApart(cfg, s) && Enabled(cfg, s, a)
    ensures OneOwnerEach(cfg, NextHandlers(cfg, s, a))
  {
    hide NextHandlers, Enabled, Pending, OwnersApart;
    var after := NextHandlers(cfg, s, a);
    forall g, h, key | g in after && h in after && Pending(cfg, after[g], key) && Pending(cfg, after[h], key)
      ensures g == h
    {
      OwnersStayApart(cfg, s, a, g, h, key);
    }
  }

  lemma StepKeepsRecorded(cfg: Config, s: State, a: Action)
    requires EventsGrow(s.t, NextTables(cfg, s, a)) && OwnersApart(cfg, s) && Enabled(cfg, s, a)
    ensures OwnersRecorded(cfg, NextTables(cfg, s, a), NextHandlers(cfg, s, a))
  {
    hide NextTables, NextHandlers, Enabled, Pending, RecordedEnd, OwnersApart, EventsGrow;
    var t', after := NextTables(cfg, s, a), NextHandlers(cfg, s, a);
    forall h, key | h in after && Pending(cfg, after[h], key)
      ensures RecordedEnd(cfg, t', after[h], key)
    {
      OwnerIsRecorded(cfg, s, a, h, key);
    }
  }

  lemma StepKeepsOwners(cfg: Config, s: State, a: Action)
    requires Sound(s.t) && OwnersApart(cfg, s) && Enabled(cfg, s, a)
    ensures OwnersApart(cfg, Next(cfg, s, a))
  {
    StepGrows(cfg, s, a);
    StepKeepsRecorded(cfg, s, a);
    StepKeepsOneOwner(cfg, s, a);
    NextParts(cfg, s, a);
    hide Next, Enabled, OwnersRecorded, OneOwnerEach, Sound, EventsGrow, OrdersStay;
  }

  /** In every run a recorded end of a request is pending with at most one handler. */
  lemma {:induction false} RunsKeepOwnersApart(cfg: Config, actions: seq<Action>)
    requires Legal(cfg, actions)
    ensures OwnersApart(cfg, Run(cfg, actions))
  {
    hide Next, Enabled, OwnersApart, Sound;
    if actions == [] {
      NobodyPending(cfg);
    } else {
      var front := actions[..|actions| - 1];
      RunsKeepOwnersApart(cfg, front);
      RunsAreSound(cfg, front);
      StepKeepsOwners(cfg, Run(cfg, front), actions[|actions| - 1]);
    }
  }

  lemma NobodyPending(cfg: Config)
    ensures OwnersApart(cfg, Run(cfg, []))
  {
  }

  /** Once recorded and no longer pending, an event never gets a handler again, however often it is delivered. */
  lemma {:induction false} SettledForGood(cfg: Config, actions: seq<Action>, more: seq<Action>, key: string)
    requires Legal(cfg, actions + more)
    requires EventKeyTaken(Run(cfg, actions).t, key) && !Owned(cfg, Run(cfg, actions), key)
    ensures EventKeyTaken(Run(cfg, actions + more).t, key) && !Owned(cfg, Run(cfg, actions + more), key)
  {
    RunExtends(cfg, actions, more);
    KeysStayTaken(Run(cfg, actions).t, Run(cfg, actions + more).t, key);
    hide EventKeyTaken, Owned, Next, Enabled;
    if more == [] {
      assert actions + more == actions;
    } else {
      var n := |more| - 1;
      assert (actions + more)[..|actions + more| - 1] == actions + more[..n];
      SettledForGood(cfg, actions, more[..n], key);
      StaysSettled(cfg, Run(cfg, actions + more[..n]), more[n], key);
    }
  }

  // ---------- how it is settled ----------

  /** The key of the order that a handler stands for. */
  function OrderKey(cfg: Config, h: Handler): string
    requires !h.Over? && h.processor in cfg.processors
  {
    var p := cfg.processors[h.processor];
    JobKey(cfg, p.capture, h.event.request, p.mode, p.backend)
  }

  /** At place `i` of the run the handler stops waiting: it finds an answer, or times out on finding none. */
  ghost predicate StopsAt(cfg: Config, actions: seq<Action>, h: nat, i: int) {
    && 0 <= i < |actions| && HandlerAt(Run(cfg, actions[..i]), h).Waiting?
    && (actions[i] == Timeout(h) || (actions[i].Poll? && actions[i].h == h && actions[i].found.Some?))
  }

  /** What a ready handler holds is the answer that was the latest when it stopped waiting. */
  ghost predicate ToldAt(cfg: Config, s: State, r: Handler, h: nat) {
    var w := HandlerAt(s, h);
    && w.Waiting? && r.Ready? && r.processor == w.processor && r.event == w.event && w.processor in cfg.processors
    && IsLatest(s.t.events, cfg.processors[w.processor].capture, w.event.request, r.response)
    && r.text == s.t.events[r.response].text.value
  }

  /** A handler that has stopped waiting is over, or ready with what it was told; and a ready one has stopped. */
  ghost predicate StopsTold(cfg: Config, actions: seq<Action>, h: nat) {
    && (HandlerAt(Run(cfg, actions), h).Ready? ==> exists i :: StopsAt(cfg, actions, h, i))
    && (forall i :: 0 <= i < |actions| && StopsAt(cfg, actions, h, i) ==>
         && h in Run(cfg, actions).handlers
         && var r := HandlerAt(Run(cfg, actions), h);
            r.Over? || ToldAt(cfg, Run(cfg, actions[..i]), r, h))
  }

  lemma StopsBefore(cfg: Config, front: seq<Action>, last: Action, h: nat, i: int)
    requires i != |front|
    ensures StopsAt(cfg, front + [last], h, i) <==> StopsAt(cfg, front, h, i)
  {
    hide Run;
    if 0 <= i < |front| {
      assert (front + [last])[..i] == front[..i] && (front + [last])[i] == front[i];
    }
  }

  lemma StopsNow(cfg: Config, front: seq<Action>, last: Action, h: nat)
    ensures StopsAt(cfg, front + [last], h, |front|) <==>
            && HandlerAt(Run(cfg, front), h).Waiting?
            && (last == Timeout(h) || (last.Poll? && last.h == h && last.found.Some?))
  {
    hide Run;
    assert (front + [last])[..|front|] == front && (front + [last])[|front|] == last;
  }

  /** A step leaves a ready handler ready as it is or ends it, and leaves an ended one ended. */
  lemma AfterStopping(cfg: Config, s: State, a: Action, h: nat)
    requires Enabled(cfg, s, a) && h in s.handlers && (s.handlers[h].Over? || s.handlers[h].Ready?)
    ensures h in NextHandlers(cfg, s, a)
    ensures NextHandlers(cfg, s, a)[h] == s.handlers[h] || NextHandlers(cfg, s, a)[h].Over?
  {
    hide IsNext, IsLatest, Answers, Accepts;
  }

  /** The step by which a handler stops waiting, or becomes ready. */
  lemma StoppingStep(cfg: Config, s: State, a: Action, h: nat)
    requires Enabled(cfg, s, a)
    ensures HandlerAt(s, h).Waiting? && (a == Timeout(h) || (a.Poll? && a.h == h && a.found.Some?)) ==>
              && h in NextHandlers(cfg, s, a)
              && (NextHandlers(cfg, s, a)[h].Over? || ToldAt(cfg, s, NextHandlers(cfg, s, a)[h], h))
    ensures h in NextHandlers(cfg, s, a) && NextHandlers(cfg, s, a)[h].Ready? ==>
              || HandlerAt(s, h).Ready?
              || (HandlerAt(s, h).Waiting? && a.Poll? && a.h == h && a.found.Some?)
  {
    hide LaterEvent, Accepts, IsNext;
  }

  lemma {:induction false} RunsTell(cfg: Config, actions: seq<Action>, h: nat)
    requires Legal(cfg, actions)
    ensures StopsTold(cfg, actions, h)
  {
    hide *;
    if actions == [] {
      NobodyStopped(cfg, h);
    } else {
      var front, last := actions[..|actions| - 1], actions[|actions| - 1];
      assert front + [last] == actions;
      OneMore(cfg, front, last);
      RunsTell(cfg, front, h);
      StepTells(cfg, front, last, h);
    }
  }

  lemma NobodyStopped(cfg: Config, h: nat)
    ensures StopsTold(cfg, [], h)
  {
  }

  lemma StepTells(cfg: Config, front: seq<Action>, last: Action, h: nat)
    requires Legal(cfg, front + [last]) && StopsTold(cfg, front, h)
    ensures StopsTold(cfg, front + [last], h)
  {
    hide Run, Legal, Enabled, NextHandlers, StopsAt, ToldAt, HandlerAt;
    var all := front + [last];
    OneMore(cfg, front, last);
    HandlerIs(Run(cfg, all), h);
    HandlerIs(Run(cfg, front), h);
    var s := Run(cfg, front);
    StoppingStep(cfg, s, last, h);
    StopsNow(cfg, front, last, h);
    if HandlerAt(Run(cfg, all), h).Ready? && HandlerAt(s, h).Ready? {
      var i :| StopsAt(cfg, front, h, i);
      StopsInside(cfg, front, h, i);
      StopsBefore(cfg, front, last, h, i);
    }
    forall i | 0 <= i < |all| && StopsAt(cfg, all, h, i)
      ensures h in Run(cfg, all).handlers
      ensures HandlerAt(Run(cfg, all), h).Over? || ToldAt(cfg, Run(cfg, all[..i]), HandlerAt(Run(cfg, all), h), h)
    {
      if i == |front| {
        assert all[..i] == front;
      } else {
        StopsBefore(cfg, front, last, h, i);
        assert all[..i] == front[..i];
        ToldIsReady(cfg, Run(cfg, front[..i]), HandlerAt(s, h), h);
        AfterStopping(cfg, s, last, h);
      }
    }
  }

  lemma HandlerIs(s: State, h: nat)
    ensures HandlerAt(s, h) == if h in s.handlers then s.handlers[h] else Over
  {
  }

  lemma StopsInside(cfg: Config, actions: seq<Action>, h: nat, i: int)
    requires StopsAt(cfg, actions, h, i)
    ensures 0 <= i < |actions|
  {
  }

  lemma ToldIsReady(cfg: Config, s: State, r: Handler, h: nat)
    ensures ToldAt(cfg, s, r, h) ==> r.Ready?
  {
    hide IsLatest;
  }

  /** The latest answer of the request, if there is one, gives something to say. */
  ghost predicate AnswerSpeaks(cfg: Config, t: Tables, p: Processor, request: string) {
    exists id :: LatestSpeaks(cfg, t, p, request, id)
  }

  ghost predicate LatestSpeaks(cfg: Config, t: Tables, p: Processor, request: string, id: nat) {
    IsLatest(t.events, p.capture, request, id) && Speaks(cfg, p, request, t.events[id].text.value)
  }

  lemma ToldSpeaks(cfg: Config, s: State, r: Handler, h: nat)
    requires ToldAt(cfg, s, r, h)
    ensures r.processor in cfg.processors
    ensures var p := cfg.processors[r.processor];
            AnswerSpeaks(cfg, s.t, p, r.event.request) <==> Speaks(cfg, p, r.event.request, r.text)
  {
    hide Speaks, LaterEvent;
    var p := cfg.processors[r.processor];
    assert Speaks(cfg, p, r.event.request, r.text) <==> LatestSpeaks(cfg, s.t, p, r.event.request, r.response);
    forall id | LatestSpeaks(cfg, s.t, p, r.event.request, id)
      ensures id == r.response
    {
      LatestIsUnique(s.t.events, p.capture, r.event.request, id, r.response);
    }
  }

  lemma SilenceDoesNotSpeak(cfg: Config, s: State, h: nat)
    requires Enabled(cfg, s, Timeout(h))
    ensures HandlerAt(s, h).Waiting? && HandlerAt(s, h).processor in cfg.processors
    ensures var w := HandlerAt(s, h); !AnswerSpeaks(cfg, s.t, cfg.processors[w.processor], w.event.request)
  {
    hide Speaks, Answers;
  }

  /**
    * Wherever the handler stopped waiting, the order is in the table after its last step if and only if it was
    * there before, or the request's latest answer at that place gives something to say.
    */
  ghost predicate SettledByAnswer(cfg: Config, actions: seq<Action>, a: Action, r: Handler, h: nat) {
    && !r.Over? && r.processor in cfg.processors
    && forall i :: StopsAt(cfg, actions + [a], h, i) ==>
         (JobKeyTaken(Run(cfg, actions + [a]).t, OrderKey(cfg, r)) <==>
          || JobKeyTaken(Run(cfg, actions).t, OrderKey(cfg, r))
          || AnswerSpeaks(cfg, Run(cfg, (actions + [a])[..i]).t, cfg.processors[r.processor], r.event.request))
  }

  /**
    * How a recorded end of a request is settled, in any run: its handler creates the job, times out or fails.
    * Unless it fails, it has stopped waiting at some place, and the answers recorded there decide.
    */
  lemma {:induction false} DoneEventSettles(cfg: Config, actions: seq<Action>, a: Action, h: nat, key: string)
    requires Legal(cfg, actions + [a])
    requires h in Run(cfg, actions).handlers && Pending(cfg, Run(cfg, actions).handlers[h], key)
    requires !Owned(cfg, Run(cfg, actions + [a]), key)
    ensures a == Abandon(h) || a == Timeout(h) || (a.Create? && a.h == h)
    ensures a == Abandon(h) ==> Run(cfg, actions + [a]).t == Run(cfg, actions).t
    ensures a != Abandon(h) ==>
              && (exists i :: StopsAt(cfg, actions + [a], h, i))
              && SettledByAnswer(cfg, actions, a, Run(cfg, actions).handlers[h], h)
  {
    hide *;
    OneMore(cfg, actions, a);
    RunsKeepOwnersApart(cfg, actions);
    var s := Run(cfg, actions);
    OwnerIsConfigured(cfg, s, h, key);
    StillOwned(cfg, actions, a, key);
    SettlingStep(cfg, s, a, h, key);
    RunsTell(cfg, actions, h);
    StopExists(cfg, actions, a, h);
    if a != Abandon(h) {
      AnswerDecides(cfg, actions, a, h);
    }
  }

  lemma StillOwned(cfg: Config, actions: seq<Action>, a: Action, key: string)
    requires Legal(cfg, actions + [a])
    ensures Owned(cfg, Next(cfg, Run(cfg, actions), a), key) <==> Owned(cfg, Run(cfg, actions + [a]), key)
  {
    OneMore(cfg, actions, a);
    hide Run, Legal, Next, Pending;
  }

  /** The step that settles a pending event, and what it does to the order's key. */
  lemma SettlingStep(cfg: Config, s: State, a: Action, h: nat, key: string)
    requires Enabled(cfg, s, a) && h in s.handlers && Pending(cfg, s.handlers[h], key)
    requires s.handlers[h].processor in cfg.processors
    requires !Owned(cfg, Next(cfg, s, a), key)
    ensures
      var r := s.handlers[h];
      && (a == Abandon(h) || (a == Timeout(h) && r.Waiting?) || (a.Create? && a.h == h && r.Ready?))
      && (a == Abandon(h) ==> NextTables(cfg, s, a) == s.t)
      && (JobKeyTaken(NextTables(cfg, s, a), OrderKey(cfg, r)) <==>
          || JobKeyTaken(s.t, OrderKey(cfg, r))
          || (a.Create? && Speaks(cfg, cfg.processors[r.processor], r.event.request, r.text)))
  {
    OnlyOwnSteps(cfg, s, a, h, key);
    hide NextTables, Next, Enabled, Pending, JobKeyTaken, Speaks, OrderKey, Owned;
    CreateAdds(cfg, s, a, OrderKey(cfg, s.handlers[h]));
  }

  lemma AnswerDecides(cfg: Config, actions: seq<Action>, a: Action, h: nat)
    requires Enabled(cfg, Run(cfg, actions), a) && StopsTold(cfg, actions, h) && h in Run(cfg, actions).handlers
    requires var r := Run(cfg, actions).handlers[h];
             && !r.Over? && r.processor in cfg.processors
             && ((a == Timeout(h) && r.Waiting?) || (a.Create? && a.h == h && r.Ready?))
             && (JobKeyTaken(Run(cfg, actions + [a]).t, OrderKey(cfg, r)) <==>
                 || JobKeyTaken(Run(cfg, actions).t, OrderKey(cfg, r))
                 || (a.Create? && Speaks(cfg, cfg.processors[r.processor], r.event.request, r.text)))
    ensures SettledByAnswer(cfg, actions, a, Run(cfg, actions).handlers[h], h)
  {
    hide Run, Enabled, StopsTold, JobKeyTaken, OrderKey, Speaks, AnswerSpeaks;
    var r := Run(cfg, actions).handlers[h];
    forall i | StopsAt(cfg, actions + [a], h, i)
      ensures AnswerSpeaks(cfg, Run(cfg, (actions + [a])[..i]).t, cfg.processors[r.processor], r.event.request) <==>
              a.Create? && Speaks(cfg, cfg.processors[r.processor], r.event.request, r.text)
    {
      StopDecides(cfg, actions, a, h, i);
    }
  }

  lemma OwnerIsConfigured(cfg: Config, s: State, h: nat, key: string)
    requires OwnersApart(cfg, s) && h in s.handlers && Pending(cfg, s.handlers[h], key)
    ensures !s.handlers[h].Over? && s.handlers[h].processor in cfg.processors
  {
    hide EventKey, EventKeyTaken;
    assert RecordedEnd(cfg, s.t, s.handlers[h], key);
  }

  lemma StopExists(cfg: Config, actions: seq<Action>, a: Action, h: nat)
    requires StopsTold(cfg, actions, h) && h in Run(cfg, actions).handlers
    requires a == Abandon(h) || a == Timeout(h) || (a.Create? && a.h == h && Run(cfg, actions).handlers[h].Ready?)
    requires a == Timeout(h) ==> Run(cfg, actions).handlers[h].Waiting?
    ensures a == Abandon(h) || exists i :: StopsAt(cfg, actions + [a], h, i)
  {
    hide Run, StopsAt, ToldAt;
    StopsNow(cfg, actions, a, h);
    if a.Create? {
      var i :| StopsAt(cfg, actions, h, i);
      StopsInside(cfg, actions, h, i);
      StopsBefore(cfg, actions, a, h, i);
    }
  }

  /** At the place where the handler stopped waiting, the answer speaks exactly if the create step comes with one. */
  lemma StopDecides(cfg: Config, actions: seq<Action>, a: Action, h: nat, i: int)
    requires Enabled(cfg, Run(cfg, actions), a) && StopsTold(cfg, actions, h) && h in Run(cfg, actions).handlers
    requires a == Timeout(h) || (a.Create? && a.h == h && Run(cfg, actions).handlers[h].Ready?)
    requires a == Timeout(h) ==> Run(cfg, actions).handlers[h].Waiting?
    requires Run(cfg, actions).handlers[h].processor in cfg.processors
    requires StopsAt(cfg, actions + [a], h, i)
    ensures
      var r := Run(cfg, actions).handlers[h];
      var p := cfg.processors[r.processor];
      AnswerSpeaks(cfg, Run(cfg, (actions + [a])[..i]).t, p, r.event.request) <==>
      a.Create? && Speaks(cfg, p, r.event.request, r.text)
  {
    var s := Run(cfg, actions);
    hide Run, Enabled, StopsAt, ToldAt, AnswerSpeaks, Speaks;
    StopsInside(cfg, actions + [a], h, i);
    StopsNow(cfg, actions, a, h);
    if i == |actions| {
      assert (actions + [a])[..i] == actions;
      SilenceDoesNotSpeak(cfg, s, h);
    } else {
      StopsBefore(cfg, actions, a, h, i);
      assert (actions + [a])[..i] == actions[..i];
      ToldIsReady(cfg, Run(cfg, actions[..i]), s.handlers[h], h);
      ToldSpeaks(cfg, Run(cfg, actions[..i]), s.handlers[h], h);
    }
  }

  lemma NextParts(cfg: Config, s: State, a: Action)
    ensures Next(cfg, s, a).t == NextTables(cfg, s, a) && Next(cfg, s, a).handlers == NextHandlers(cfg, s, a)
  {
    hide NextTables, NextLoops, NextHandlers, NextHistory;
  }

  /** Only the handler's own last steps end its being pending. */
  lemma OnlyOwnSteps(cfg: Config, s: State, a: Action, h: nat, key: string)
    requires Enabled(cfg, s, a) && h in s.handlers && Pending(cfg, s.handlers[h], key)
    requires !Owned(cfg, Next(cfg, s, a), key)
    ensures a == Abandon(h) || (a == Timeout(h) && s.handlers[h].Waiting?)
        || (a.Create? && a.h == h && s.handlers[h].Ready?)
  {
    NextParts(cfg, s, a);
    hide IsNext, IsLatest, Answers, EventKey, Accepts, Next;
    var after := NextHandlers(cfg, s, a);
    assert h in after && !Pending(cfg, after[h], key);
  }

  /** What the last step of a handler does to the keys of the job table. */
  lemma CreateAdds(cfg: Config, s: State, a: Action, key: string)
    requires a.Abandon? || a.Timeout? || a.Create?
    requires a.Create? ==>
               && HandlerAt(s, a.h).Ready? && HandlerAt(s, a.h).processor in cfg.processors
               && key == OrderKey(cfg, HandlerAt(s, a.h))
    ensures JobKeyTaken(NextTables(cfg, s, a), key) <==>
            || JobKeyTaken(s.t, key)
            || (a.Create? && var r := HandlerAt(s, a.h);
                             Speaks(cfg, cfg.processors[r.processor], r.event.request, r.text))
    ensures !a.Create? ==> NextTables(cfg, s, a) == s.t
  {
    if a.Create? {
      var r := HandlerAt(s, a.h);
      CreateTables(cfg, s, a.h, a.at);
      OrderHasKey(cfg, r, a.at);
      hide NextTables, Speaks, OrderOf, OrderKey, Enqueued, JobKeyTaken;
      EnqueuedKeys(s.t, OrderOf(cfg, cfg.processors[r.processor], r, a.at));
    }
  }

  lemma OrderHasKey(cfg: Config, r: Handler, at: Instant)
    requires r.Ready? && r.processor in cfg.processors
    ensures OrderOf(cfg, cfg.processors[r.processor], r, at).key == OrderKey(cfg, r)
  {
    hide Format, SpeechFor, JobKey;
  }

  lemma EnqueuedKeys(t: Tables, row: JobRow)
    ensures JobKeyTaken(Enqueued(t, row), row.key)
  {
    assert JobKeyTaken(t, row.key) || Enqueued(t, row).jobs[t.lastJob + 1].key == row.key;
  }

  /** A step by which an order's key comes into the table is the create step of a handler that stands for it. */
  lemma OrderArrives(cfg: Config, s: State, a: Action, key: string)
    requires Sound(s.t) && Enabled(cfg, s, a) && !JobKeyTaken(s.t, key) && JobKeyTaken(NextTables(cfg, s, a), key)
    ensures a.Create? && HandlerAt(s, a.h).Ready?
    ensures HandlerAt(s, a.h).processor in cfg.processors && key == OrderKey(cfg, HandlerAt(s, a.h))
  {
    StepGrows(cfg, s, a);
    CreateIsReady(cfg, s, a);
    hide NextTables, Enabled, Sound, EventsGrow;
    var t' := NextTables(cfg, s, a);
    var id :| id in t'.jobs && t'.jobs[id].key == key;
    OldKeysStay(s.t, t');
    NewOrder(cfg, s, a, id);
  }

  lemma OldKeysStay(t: Tables, t': Tables)
    requires OrdersStay(t, t')
    ensures forall id :: id in t.jobs ==> id in t'.jobs && t'.jobs[id].key == t.jobs[id].key
  {
  }

  lemma CreateIsReady(cfg: Config, s: State, a: Action)
    requires Enabled(cfg, s, a)
    ensures a.Create? ==> HandlerAt(s, a.h).Ready?
  {
  }

  lemma NewOrder(cfg: Config, s: State, a: Action, id: nat)
    requires a.Create? && HandlerAt(s, a.h).Ready? && id in NextTables(cfg, s, a).jobs && id !in s.t.jobs
    ensures HandlerAt(s, a.h).processor in cfg.processors
    ensures NextTables(cfg, s, a).jobs[id].key == OrderKey(cfg, HandlerAt(s, a.h))
  {
    CreateTables(cfg, s, a.h, a.at);
    if HandlerAt(s, a.h).processor in cfg.processors {
      OrderHasKey(cfg, HandlerAt(s, a.h), a.at);
    }
    hide NextTables, Speaks, OrderOf, OrderKey, JobKeyTaken;
  }

  /** In the run, at place `i`, a handler of another event than the one with `key` creates the order. */
  ghost predicate CreatedByAnother(cfg: Config, actions: seq<Action>, i: int, key: string, order: string) {
    && 0 <= i < |actions| && actions[i].Create?
    && var h := HandlerAt(Run(cfg, actions[..i]), actions[i].h);
       h.Ready? && h.processor in cfg.processors && OrderKey(cfg, h) == order && EventKey(cfg, h.event) != key
  }

  /**
    * Lost for good: once the recorded end of a request is settled without its order, no redelivery of it brings
    * the order, in any continuation; only another event with another key can, as that event's own order.
    */
  lemma {:induction false} LostUntilAnotherEnd(cfg: Config, actions: seq<Action>, more: seq<Action>, key: string,
                                               order: string)
    requires Legal(cfg, actions + more)
    requires EventKeyTaken(Run(cfg, actions).t, key) && !Owned(cfg, Run(cfg, actions), key)
    requires !JobKeyTaken(Run(cfg, actions).t, order) && JobKeyTaken(Run(cfg, actions + more).t, order)
    ensures exists i :: |actions| <= i && CreatedByAnother(cfg, actions + more, i, key, order)
  {
    hide *;
    SomethingHappened(cfg, actions, more, order);
    var n := |more| - 1;
    var front, last := actions + more[..n], more[n];
    assert front + [last] == actions + more;
    OneMore(cfg, front, last);
    var s := Run(cfg, front);
    if JobKeyTaken(s.t, order) {
      LostUntilAnotherEnd(cfg, actions, more[..n], key, order);
      var i :| |actions| <= i && CreatedByAnother(cfg, front, i, key, order);
      StillCreated(cfg, front, last, i, key, order);
    } else {
      RunsAreSound(cfg, front);
      OrderArrives(cfg, s, last, order);
      SettledForGood(cfg, actions, more[..n], key);
      NotTheOwner(cfg, s, last.h, key);
      CreatedNow(cfg, front, last, key, order);
    }
  }

  lemma SomethingHappened(cfg: Config, actions: seq<Action>, more: seq<Action>, order: string)
    requires !JobKeyTaken(Run(cfg, actions).t, order) && JobKeyTaken(Run(cfg, actions + more).t, order)
    ensures more != []
  {
    hide Run, JobKeyTaken;
    assert actions + [] == actions;
  }

  lemma NotTheOwner(cfg: Config, s: State, h: nat, key: string)
    requires !Owned(cfg, s, key) && HandlerAt(s, h).Ready?
    ensures EventKey(cfg, HandlerAt(s, h).event) != key
  {
    hide EventKey;
    assert h in s.handlers && !Pending(cfg, s.handlers[h], key);
  }

  lemma StillCreated(cfg: Config, front: seq<Action>, last: Action, i: int, key: string, order: string)
    requires CreatedByAnother(cfg, front, i, key, order)
    ensures CreatedByAnother(cfg, front + [last], i, key, order)
  {
    hide Run, OrderKey, EventKey;
    assert (front + [last])[..i] == front[..i] && (front + [last])[i] == front[i];
  }

  lemma CreatedNow(cfg: Config, front: seq<Action>, last: Action, key: string, order: string)
    requires last.Create? && HandlerAt(Run(cfg, front), last.h).Ready?
    requires HandlerAt(Run(cfg, front), last.h).processor in cfg.processors
    requires order == OrderKey(cfg, HandlerAt(Run(cfg, front), last.h))
    requires EventKey(cfg, HandlerAt(Run(cfg, front), last.h).event) != key
    ensures CreatedByAnother(cfg, front + [last], |front|, key, order)
  {
    hide Run, OrderKey, EventKey;
    assert (front + [last])[..|front|] == front && (front + [last])[|front|] == last;
  }
}
