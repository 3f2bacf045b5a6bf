/** What the reconnect loop does with its servers, what a call returns, and what becomes of registries
    that are replaced or rejected, in every run. */
module LifecycleLoops {
  import opened Options
  import opened Schema
  import opened Text
  import opened Naming
  import opened RegistrySpec
  import opened McpClient
  import opened Lifecycle
  import opened LifecycleInvariant
  import opened LifecycleSteps
  import opened LifecycleTheorems
  import opened LifecycleCalls

  // ----- the reconnect loop -----

  /** The actions of this server, by their prefix, lose the offline prefix; the others stay as they are. */
  ghost predicate Unmarked(before: seq<Action>, after: seq<Action>, server: string) {
    && |after| == |before|
    && forall i :: 0 <= i < |before| ==>
         if server + "__" <= before[i].name && "[offline] " <= before[i].description.text
         then after[i] == before[i].(description := after[i].description)
              && before[i].description == after[i].description.(text := "[offline] " + after[i].description.text)
         else after[i] == before[i]
  }

  /** The reconnected server of registry r is shown as live from now on. */
  ghost predicate Unmarks(s: State, s': State, r: RegId, server: string) {
    && s'.clients == s.clients && |s'.regs| == |s.regs| && r < |s.regs|
    && Unmarked(s.regs[r].reg.caps, s'.regs[r].reg.caps, server)
    && s'.regs[r].stripped == s.regs[r].stripped + {server} && s'.regs[r].reg.actions == s.regs[r].reg.actions
    && forall q :: 0 <= q < |s.regs| && q != r ==> s'.regs[q] == s.regs[q]
  }

  lemma StripUnmarks(caps: seq<Action>, server: string)
    ensures Unmarked(caps, Strip(caps, server), server)
  {
    forall i | 0 <= i < |caps| && server + "__" <= caps[i].name && "[offline] " <= caps[i].description.text
      ensures caps[i].description.text == "[offline] " + TrimPrefix(caps[i].description.text, "[offline] ")
    {
    }
  }

  lemma StripServerApplied(s: State, t: Tid)
    requires Enabled(s, StripServer(t))
    ensures var s', th := Apply(s, StripServer(t)), s.threads[t];
      && th.Looping? && th.todo != [] && th.client.Some?
      && t in s'.threads && s'.threads[t] == Looping(th.r, th.todo[1..], th.still, None)
      && Unmarks(s, s', th.r, th.todo[0].server)
  {
    var th := s.threads[t];
    StripUnmarks(s.regs[th.r].reg.caps, th.todo[0].server);
    hide Unmarked, Strip, Holding;
  }

  lemma LoopBecomes(s: State, t: Tid, answer: ConnectAnswer)
    requires Enabled(s, Reconnect(t, answer)) && s.threads[t].Looping?
    ensures var th := s.threads[t];
      && th.todo != [] && th.client.None? && th.r < |s.regs|
      && var (s1, ok) := Reconnected(s, th.r, th.todo[0].server, answer);
         Apply(s, Reconnect(t, answer))
           == Become(s1, t, if ok then Looping(th.r, th.todo, th.still, Some(|s.clients|))
                            else Looping(th.r, th.todo[1..], th.still + [th.todo[0]], None))
  {
    hide Reconnected, Dead, Usable;
  }

  lemma LoopReconnectApplied(s: State, t: Tid, answer: ConnectAnswer)
    requires Enabled(s, Reconnect(t, answer)) && s.threads[t].Looping?
    ensures var s', th := Apply(s, Reconnect(t, answer)), s.threads[t];
      && th.todo != [] && th.client.None? && t in s'.threads
      && (|| (s'.threads[t] == Looping(th.r, th.todo, th.still, Some(|s.clients|))
              && Reconnects(s, s', th.r, th.todo[0].server))
          || (s'.threads[t] == Looping(th.r, th.todo[1..], th.still + [th.todo[0]], None) && ReconnectFails(s, s')))
  {
    var th := s.threads[t];
    LoopBecomes(s, t, answer);
    hide Enabled, Apply;
    ReconnectedSays(s, th.r, th.todo[0].server, answer);
    var s1 := Reconnected(s, th.r, th.todo[0].server, answer).0;
    hide Reconnected, Reconnects, ReconnectFails;
    ThreadsAside(s, s1, Apply(s, Reconnect(t, answer)), th.r, th.todo[0].server);
  }

  lemma OwnLoopStep(s: State, e: Step, t: Tid)
    requires Enabled(s, e) && t in s.threads && s.threads[t].Looping? && Actor(e) == Some(t)
    ensures e.Reconnect? || e == StripServer(t) || e == NextRound(t) || e == StopLoop(t) || e == NextId(t)
      || e.SendRequest?
    ensures e == NextId(t) || e.SendRequest? ==> t in Apply(s, e).threads && Apply(s, e).threads[t] == s.threads[t]
  {
    hide Dead, Usable, Take, Send;
  }

  lemma RoundApplied(s: State, e: Step, t: Tid)
    requires Enabled(s, e) && (e == NextRound(t) || e == StopLoop(t))
    ensures var s', th := Apply(s, e), s.threads[t];
      && th.Looping?
      && if t in s'.threads then th.todo == [] && th.still != [] && s'.threads[t] == Looping(th.r, th.still, [], None)
         else th.client.None? || (th.todo == [] && th.still == [])
  {
    hide Dead, Usable;
  }

  /** The ways for a reconnect loop to go on: its first server is reconnected, or is kept for the next round;
      a reconnected server is shown as live and done with; a new round begins with all that are left. It ends
      between servers only, and in the middle of a round only because the context does. */
  lemma LoopGoesOn(states: seq<State>, i: nat, t: Tid)
    requires Run(states) && i + 1 < |states| && t in states[i].threads && states[i].threads[t].Looping?
    ensures var s, s', th := states[i], states[i + 1], states[i].threads[t];
      if t !in s'.threads then th.client.None? || (th.todo == [] && th.still == [])
      else
        var th' := s'.threads[t];
        || th' == th
        || (th.todo == [] && th.still != [] && th' == Looping(th.r, th.still, [], None))
        || (th.todo != []
            && (|| (th.client.None? && th' == Looping(th.r, th.todo, th.still, Some(|s.clients|))
                    && Reconnects(s, s', th.r, th.todo[0].server))
                || (th.client.None? && th' == Looping(th.r, th.todo[1..], th.still + [th.todo[0]], None)
                    && ReconnectFails(s, s'))
                || (th.client.Some? && th' == Looping(th.r, th.todo[1..], th.still, None)
                    && Unmarks(s, s', th.r, th.todo[0].server))))
  {
    var e := StepOf(states, i);
    if Actor(e) != Some(t) {
      OthersStay(states[i], e, t);
    } else {
      OwnLoopStep(states[i], e, t);
      match e
      case Reconnect(_, answer) => LoopReconnectApplied(states[i], t, answer);
      case StripServer(_) => StripServerApplied(states[i], t);
      case NextRound(_) => RoundApplied(states[i], e, t);
      case StopLoop(_) => RoundApplied(states[i], e, t);
      case _ =>
    }
    hide Run, Apply, Enabled, Reconnects, ReconnectFails, Unmarks;
  }

  // ----- no server is lost -----

  /** Every server loaded from the cache is still to be tried, or shown as live already. */
  ghost predicate AllCared(s: State, th: Thread)
    requires th.Looping?
  {
    && th.r < |s.regs|
    && var rec := s.regs[th.r];
       forall cfg :: cfg in rec.base.offline ==> cfg in th.todo || cfg in th.still || cfg.server in rec.stripped
  }

  ghost predicate LoopsCare(s: State) {
    forall t :: t in s.threads && s.threads[t].Looping? ==> AllCared(s, s.threads[t])
  }

  /** What Build loaded from the cache does not change, and what is shown as live stays so. */
  ghost predicate MarksGrow(s: State, s': State) {
    |s.regs| <= |s'.regs| && forall r :: 0 <= r < |s.regs| ==>
      s'.regs[r].base == s.regs[r].base && s.regs[r].stripped <= s'.regs[r].stripped
  }

  lemma StepsGrowMarks(s: State, e: Step)
    requires Enabled(s, e)
    ensures MarksGrow(s, Apply(s, e))
  {
    hide NewRecord, ClientsFor, OutcomesFor, Strip, Degraded, Dead, WithClient, Connected, Take, Send, EndAt, Usable,
      Begun, Swapped, Starts, Committed, Closed, ClientsOf;
  }

  lemma StaysCared(s: State, s': State, th: Thread, th': Thread)
    requires th.Looping? && th'.Looping? && th'.r == th.r && AllCared(s, th) && MarksGrow(s, s')
    requires forall cfg :: cfg in th.todo || cfg in th.still ==>
      cfg in th'.todo || cfg in th'.still || cfg.server in s'.regs[th.r].stripped
    ensures AllCared(s', th')
  {
  }

  lemma NewLoop(s: State, e: Step, t: Tid)
    requires Enabled(s, e) && t in Apply(s, e).threads && Apply(s, e).threads[t].Looping?
    requires t !in s.threads || !s.threads[t].Looping?
    ensures e.StartRetry? && e.loop == t
  {
    hide Enabled, Apply;
    if !OfHandler(e) { NoNewLoop(s, e, t); } else { OnlyStartRetryLoops(s, e, t); }
  }

  lemma NoNewLoop(s: State, e: Step, t: Tid)
    requires Enabled(s, e) && !OfHandler(e) && (t !in s.threads || !s.threads[t].Looping?)
    ensures t !in Apply(s, e).threads || !Apply(s, e).threads[t].Looping?
  {
    hide NewRecord, ClientsFor, OutcomesFor, Strip, Degraded, Dead, WithClient, Connected, Take, Send, EndAt, Usable,
      Begun, Swapped, Starts, Committed, Closed, ClientsOf, StripRec, WithClientRec;
  }

  lemma OnlyStartRetryLoops(s: State, e: Step, t: Tid)
    requires Enabled(s, e) && OfHandler(e) && t in Apply(s, e).threads && Apply(s, e).threads[t].Looping?
    requires t !in s.threads || !s.threads[t].Looping?
    ensures e.StartRetry? && e.loop == t
  {
    hide NewRecord, ClientsFor, OutcomesFor, Strip, Degraded, Dead, WithClient, Connected, Take, Send, EndAt, Usable,
      Begun, Swapped, Starts, Committed, Closed, ClientsOf, StripRec, WithClientRec;
  }

  /** A new loop begins with all of them. */
  lemma LoopBegins(s: State, t: Tid, loop: Tid)
    requires Inv(s) && Enabled(s, StartRetry(t, loop))
    ensures var s' := Apply(s, StartRetry(t, loop));
      loop in s'.threads && s'.threads[loop].Looping? ==> AllCared(s', s'.threads[loop])
  {
    var r := s.threads[t].r;
    assert s.regs[r].reg.offline == s.regs[r].base.offline by { assert RegOk(s, r); }
    hide Inv;
  }

  lemma LoopStepCares(states: seq<State>, i: nat, t: Tid)
    requires Run(states) && i + 1 < |states| && t in states[i].threads && states[i].threads[t].Looping?
    requires t in states[i + 1].threads && AllCared(states[i], states[i].threads[t])
    requires MarksGrow(states[i], states[i + 1])
    ensures states[i + 1].threads[t].Looping? && AllCared(states[i + 1], states[i + 1].threads[t])
  {
    LoopGoesOn(states, i, t);
    var s, s', th, th' := states[i], states[i + 1], states[i].threads[t], states[i + 1].threads[t];
    hide Run, Reconnects, ReconnectFails, AllCared, MarksGrow;
    assert th.r < |s.regs| by { assert AllCared(s, th); }
    forall cfg | cfg in th.todo || cfg in th.still
      ensures cfg in th'.todo || cfg in th'.still || cfg.server in s'.regs[th.r].stripped
    {
      if th.todo != [] && cfg in th.todo { assert cfg == th.todo[0] || cfg in th.todo[1..]; }
    }
    StaysCared(s, s', th, th');
  }

  lemma {:induction false} LoopsCareInRuns(states: seq<State>, n: nat)
    requires Run(states) && n < |states|
    ensures LoopsCare(states[n])
  {
    hide Apply, Enabled, AllCared, MarksGrow;
    if n > 0 {
      LoopsCareInRuns(states, n - 1);
      RunInv(states, n - 1);
      var e := StepOf(states, n - 1);
      var s, s' := states[n - 1], states[n];
      hide Run, Inv;
      StepsGrowMarks(s, e);
      forall t | t in s'.threads && s'.threads[t].Looping? ensures AllCared(s', s'.threads[t]) {
        if t in s.threads && s.threads[t].Looping? {
          LoopStepCares(states, n - 1, t);
        } else {
          NewLoop(s, e, t);
          LoopBegins(s, e.t, t);
        }
      }
    }
  }

  /** In every reachable state, a reconnect loop still has to do with every server of its registry that came
      from the cache and is not shown as live: none is forgotten. */
  lemma LoopForgetsNoServer(s: State, t: Tid)
    requires Reached(s) && t in s.threads && s.threads[t].Looping?
    ensures var th := s.threads[t];
      && th.r < |s.regs|
      && forall cfg :: cfg in s.regs[th.r].base.offline ==>
           cfg in th.todo || cfg in th.still || cfg.server in s.regs[th.r].stripped
  {
    hide StepAt;
    var states :| Run(states) && states[|states| - 1] == s;
    LoopsCareInRuns(states, |states| - 1);
    assert AllCared(s, s.threads[t]);
  }

  /** After Configure's swap a loop with all servers from the cache begins, if there are any. */
  lemma SwapStartsLoop(states: seq<State>, i: nat, t: Tid)
    requires Run(states) && i + 1 < |states| && t in states[i].threads && states[i].threads[t].ConfigureSwapped?
    requires t !in states[i + 1].threads || states[i + 1].threads[t] != states[i].threads[t]
    ensures var s, s', th := states[i], states[i + 1], states[i].threads[t];
      && t in s'.threads && s'.threads[t] == ConfigureRetiring(th.old_) && th.r < |s.regs|
      && (s.regs[th.r].reg.offline != [] ==> exists loop ::
            loop !in s.threads && loop in s'.threads
            && s'.threads[loop] == Looping(th.r, s.regs[th.r].reg.offline, [], None))
      && (s.regs[th.r].reg.offline == [] ==> s'.threads.Keys == s.threads.Keys)
  {
    var e := StepOf(states, i);
    var s := states[i];
    if Actor(e) != Some(t) {
      OthersStay(s, e, t);
    } else {
      assert e.StartRetry? by { hide Dead, Usable, Holding, Apply; }
      assert s.threads[t].r < |s.regs| && e.loop !in s.threads;
    }
  }

  // ----- what Configure and a refresh install -----

  /** A refresh installs the registry that it built exactly if no server failed or came from the cache;
      otherwise it rejects it, and answers with the one that is there. */
  lemma RefreshInstallsOrRejects(states: seq<State>, i: nat, t: Tid)
    requires Run(states) && i + 1 < |states| && t in states[i].threads && states[i].threads[t].RefreshBuilt?
    requires t !in states[i + 1].threads || states[i + 1].threads[t] != states[i].threads[t]
    ensures var s, s', th := states[i], states[i + 1], states[i].threads[t];
      && t in s'.threads && th.r < |s.regs| && |s'.regs| == |s.regs| && s.handler.registry.Some?
      && if s.regs[th.r].reg.failed == [] && s.regs[th.r].reg.offline == []
         then
           && s'.handler == s.handler.(registry := Some(th.r)) && s'.regs[th.r].status == Installed
           && s'.threads[t] == RefreshRetiring(th.r, s.handler.registry.value, th.since)
         else
           && s'.handler == s.handler && s'.regs[th.r].status == Rejected
           && s'.threads[t] == RefreshRejecting(th.r, s.handler.registry.value, th.since)
  {
    var e := StepOf(states, i);
    if Actor(e) != Some(t) {
      OthersStay(states[i], e, t);
    } else {
      assert e.CommitRefresh? by { hide Dead, Usable, Holding, Apply; }
    }
  }

  /** Configure installs what it built, whatever is missing, together with its configuration. */
  lemma ConfigureInstalls(states: seq<State>, i: nat, t: Tid)
    requires Run(states) && i + 1 < |states| && t in states[i].threads && states[i].threads[t].ConfigureBuilt?
    requires t !in states[i + 1].threads || states[i + 1].threads[t] != states[i].threads[t]
    ensures var s, s', th := states[i], states[i + 1], states[i].threads[t];
      && t in s'.threads && th.r < |s'.regs| && s'.regs[th.r].status == Installed
      && s'.handler == HandlerState(Some(th.r), th.cfgs, s.handler.refreshing)
      && s'.threads[t] == ConfigureSwapped(th.r, s.handler.registry)
  {
    var e := StepOf(states, i);
    if Actor(e) != Some(t) {
      OthersStay(states[i], e, t);
    } else {
      assert e.SwapConfigured? by { hide Dead, Usable, Holding, Apply; }
    }
  }

  // ----- what a call returns -----

  /** A call has returned what its registry lists at this moment. */
  ghost predicate Returns(s: State, s': State) {
    exists t :: t in s.threads && (s.threads[t].Answering? || s.threads[t].RefreshAnswering?)
      && var answer := if s.threads[t].Answering? then s.threads[t].answer else Some(s.threads[t].r);
         && (answer.Some? ==> answer.value < |s.regs|)
         && s'.results == s.results + [Result(s.threads[t].since, |s.installed|, answer,
              if answer.Some? then s.regs[answer.value].reg.caps else [],
              if answer.Some? then s.regs[answer.value].stripped else {})]
  }

  /** A result, once returned, stays; and it is the list that the registry had then. */
  lemma ResultsAreSnapshots(states: seq<State>, i: nat)
    requires Run(states) && i + 1 < |states|
    ensures states[i + 1].results == states[i].results || Returns(states[i], states[i + 1])
  {
    var e := StepOf(states, i);
    if e.TakeSnapshot? { SnapshotReturns(states[i], e.t); } else { NothingReturned(states[i], e); }
    hide Run, Apply, Enabled, Returns;
  }

  lemma SnapshotReturns(s: State, t: Tid)
    requires Enabled(s, TakeSnapshot(t))
    ensures Returns(s, Apply(s, TakeSnapshot(t)))
  {
    var s' := Apply(s, TakeSnapshot(t));
    assert t in s.threads && (s.threads[t].Answering? || s.threads[t].RefreshAnswering?);
  }

  lemma NothingReturned(s: State, e: Step)
    requires Enabled(s, e) && !e.TakeSnapshot?
    ensures Apply(s, e).results == s.results
  {
    hide NewRecord, ClientsFor, OutcomesFor, Strip, Degraded, Dead, WithClient, Connected, Take, Send, EndAt, Usable,
      Begun, Swapped, Starts, Committed, Closed, ClientsOf, StripRec, WithClientRec;
  }

  // ----- closing -----

  /** A run together with the steps that it took. */
  ghost predicate Trace(steps: seq<Step>, states: seq<State>) {
    && |states| == |steps| + 1 && states[0] == INITIAL
    && forall i :: 0 <= i < |steps| ==> Enabled(states[i], steps[i]) && states[i + 1] == Apply(states[i], steps[i])
  }

  /** Every run has such steps. */
  lemma RunHasSteps(states: seq<State>) returns (steps: seq<Step>)
    requires Run(states)
    ensures Trace(steps, states)
  {
    hide Enabled, Apply, StepAt;
    steps := [];
    while |steps| < |states| - 1
      invariant |steps| <= |states| - 1
      invariant forall i :: 0 <= i < |steps| ==>
        Enabled(states[i], steps[i]) && states[i + 1] == Apply(states[i], steps[i])
    {
      var e := StepOf(states, |steps|);
      steps := steps + [e];
    }
  }

  /** Some thread is still to close registry r. */
  predicate ToClose(th: Thread, r: RegId) {
    || (th.ConfigureSwapped? && th.old_ == Some(r)) || (th.ConfigureRetiring? && th.old_ == Some(r))
    || (th.RefreshRetiring? && th.was == r) || (th.RefreshRejecting? && th.r == r) || (th.Closing? && th.r == r)
  }

  ghost predicate WillClose(s: State, r: RegId) {
    exists t :: t in s.threads && ToClose(s.threads[t], r)
  }

  predicate Closes(s: State, e: Step, r: RegId) {
    (e.CloseReplaced? || e.CloseRejected?) && e.t in s.threads && ToClose(s.threads[e.t], r)
  }

  /** Closing a registry closes the transport of every client in its entries. */
  lemma ClosedIsClosed(s: State, e: Step, r: RegId, c: ClientId)
    requires Enabled(s, e) && Closes(s, e, r)
    requires r < |s.regs| && c < |s.clients| && Usable(s.clients[c])
    requires exists k :: k in s.regs[r].reg.actions && s.regs[r].reg.actions[k].client == Some(c)
    ensures c < |Apply(s, e).clients|
    ensures var d := Apply(s, e).clients[c];
      d.tp == s.clients[c].tp && d.tp.Some? && d.tp.value < |d.made| && d.made[d.tp.value].closed
  {
  }

  ghost predicate Done(s: State, r: RegId) {
    r < |s.regs| && (s.regs[r].status.Rejected? || Replaced(s, r))
  }

  /** Unless the step is the close itself, a thread that was to close r, or the one it starts, still is. */
  lemma StillToClose(s: State, e: Step, r: RegId)
    requires Enabled(s, e) && WillClose(s, r) && !Closes(s, e, r)
    ensures WillClose(Apply(s, e), r)
  {
    var s' := Apply(s, e);
    var t :| t in s.threads && ToClose(s.threads[t], r);
    if Actor(e) != Some(t) {
      OthersStay(s, e, t);
      hide Apply, Enabled;
      assert ToClose(s'.threads[t], r);
    } else {
      CloserGoesOn(s, e, t, r);
    }
  }

  lemma CloserGoesOn(s: State, e: Step, t: Tid, r: RegId)
    requires Enabled(s, e) && Actor(e) == Some(t) && t in s.threads && ToClose(s.threads[t], r) && !Closes(s, e, r)
    ensures WillClose(Apply(s, e), r)
  {
    var s' := Apply(s, e);
    assert e.StartRetry? || e.Retire? by { hide Dead, Usable, Holding, Apply; }
    var u := if e.StartRetry? then t else e.closer;
    assert u in s'.threads && ToClose(s'.threads[u], r);
  }

  /** The step installs nothing and rejects nothing. */
  ghost predicate RetiresNone(s: State, s': State) {
    && s'.installed == s.installed && |s.regs| <= |s'.regs|
    && (forall r :: 0 <= r < |s.regs| ==> s'.regs[r].status == s.regs[r].status)
    && (forall r :: |s.regs| <= r < |s'.regs| ==> s'.regs[r].status.Private?)
  }

  /** Only a swap or a commit replaces or rejects. */
  lemma OtherStepsRetireNone(s: State, e: Step)
    requires Enabled(s, e) && !e.Bootstrap? && !e.SwapConfigured? && !e.CommitRefresh?
    ensures RetiresNone(s, Apply(s, e))
  {
    hide ClientsFor, OutcomesFor, Built, Strip, Degraded, Dead, WithClient, Connected, Take, Send, EndAt, Usable, Begun,
      Swapped, Starts, Committed, Closed, ClientsOf;
  }

  lemma RetiringNone(s: State, s': State, r: RegId)
    requires Inv(s) && RetiresNone(s, s') && Done(s', r)
    ensures Done(s, r)
  {
    assert PointersOk(s);
    hide Inv;
  }

  lemma SwapRetires(s: State, t: Tid, r: RegId)
    requires Inv(s) && Enabled(s, Step.SwapConfigured(t)) && Done(Apply(s, Step.SwapConfigured(t)), r) && !Done(s, r)
    ensures WillClose(Apply(s, Step.SwapConfigured(t)), r)
  {
    var s' := Apply(s, Step.SwapConfigured(t));
    assert PointersOk(s);
    hide Inv;
    assert Replaced(s', r);
    var i :| 0 <= i < |s'.installed| - 1 && s'.installed[i] == r;
    assert i == |s.installed| - 1 && s.handler.registry == Some(r);
    assert ToClose(s'.threads[t], r);
  }

  lemma CommitRetires(s: State, t: Tid, r: RegId)
    requires Inv(s) && Enabled(s, CommitRefresh(t)) && Done(Apply(s, CommitRefresh(t)), r) && !Done(s, r)
    ensures WillClose(Apply(s, CommitRefresh(t)), r)
  {
    var s' := Apply(s, CommitRefresh(t));
    assert PointersOk(s);
    hide Inv, Degraded;
    if Replaced(s', r) {
      var i :| 0 <= i < |s'.installed| - 1 && s'.installed[i] == r;
      assert i == |s.installed| - 1 && s.handler.registry == Some(r);
    }
    assert ToClose(s'.threads[t], r);
  }

  lemma BootstrapRetiresNone(s: State, e: Step, r: RegId)
    requires Inv(s) && Enabled(s, e) && e.Bootstrap?
    ensures !Done(Apply(s, e), r)
  {
    BeforeBootstrap(s);
    hide Inv, OutcomesFor, ClientsFor, Built;
  }

  /** Whoever replaces or rejects a registry is to close it. */
  lemma RetiredWillBeClosed(s: State, e: Step, r: RegId)
    requires Inv(s) && Enabled(s, e) && Done(Apply(s, e), r) && !Done(s, r)
    ensures WillClose(Apply(s, e), r)
  {
    hide Inv, Apply, Enabled, Done, WillClose;
    match e
    case Bootstrap(_, _) => BootstrapRetiresNone(s, e, r);
    case SwapConfigured(t) => SwapRetires(s, t, r);
    case CommitRefresh(t) => CommitRetires(s, t, r);
    case _ =>
      OtherStepsRetireNone(s, e);
      RetiringNone(s, Apply(s, e), r);
  }

  lemma {:induction false} TraceInv(steps: seq<Step>, states: seq<State>, n: nat)
    requires Trace(steps, states) && n <= |steps|
    ensures Inv(states[n])
  {
    hide Inv, Apply, Enabled;
    if n == 0 {
      InitialInv();
    } else {
      TraceInv(steps, states, n - 1);
      StepKeeps(states[n - 1], steps[n - 1]);
    }
  }

  /** Every registry that was replaced or rejected has been closed, or some thread is still to close it. */
  lemma {:induction false} RetiredIsClosed(steps: seq<Step>, states: seq<State>, n: nat, r: RegId)
    requires Trace(steps, states) && n <= |steps|
    requires r < |states[n].regs| && (states[n].regs[r].status.Rejected? || Replaced(states[n], r))
    ensures (exists t :: t in states[n].threads && ToClose(states[n].threads[t], r))
      || exists j :: 0 <= j < n && Closes(states[j], steps[j], r)
    decreases n
  {
    hide Apply, Enabled, ToClose;
    assert n > 0;
    var s, e := states[n - 1], steps[n - 1];
    TraceInv(steps, states, n - 1);
    hide Inv, Replaced;
    assert Enabled(s, e) && states[n] == Apply(s, e);
    if Done(s, r) {
      RetiredIsClosed(steps, states, n - 1, r);
      if WillClose(s, r) && !Closes(s, e, r) { StillToClose(s, e, r); }
    } else {
      RetiredWillBeClosed(s, e, r);
    }
  }
}
