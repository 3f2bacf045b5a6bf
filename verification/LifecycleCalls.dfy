/** What single threads do in every run: when Execute calls and when it reconnects. */
module LifecycleCalls {
  import opened Options
  import opened Schema
  import opened Text
  import opened Naming
  import opened RegistrySpec
  import opened McpClient
  import opened Lifecycle
  import opened LifecycleInvariant
  import opened LifecycleSteps
  import opened LifecycleTheorems

  lemma StepOf(states: seq<State>, i: nat) returns (e: Step)
    requires Run(states) && i + 1 < |states|
    ensures Enabled(states[i], e) && states[i + 1] == Apply(states[i], e)
  {
    hide Enabled, Apply;
    assert StepAt(states, i);
    e :| Enabled(states[i], e) && states[i + 1] == Apply(states[i], e);
  }

  /** The thread that takes the step, if one does. */
  function Actor(e: Step): Option<Tid> {
    if e.Bootstrap? || e.Drop? then None else Some(e.t)
  }

  /** The steps of Configure, refreshes and Capabilities. */
  predicate OfHandler(e: Step) {
    e.Bootstrap? || e.StartConfigure? || e.FinishBuild? || e.SwapConfigured? || e.StartRetry? || e.Retire?
    || e.BeginRefresh? || e.BuildPanics? || e.CommitRefresh? || e.CloseRejected? || e.TakeSnapshot?
    || e.ClearRefreshing? || e.ReadCapabilities?
  }

  lemma OthersStayOutside(s: State, e: Step, t: Tid)
    requires Enabled(s, e) && t in s.threads && Actor(e) != Some(t) && OfHandler(e)
    ensures t in Apply(s, e).threads && Apply(s, e).threads[t] == s.threads[t]
  {
    hide NewRecord, ClientsFor, OutcomesFor, Strip, Degraded, Dead, WithClient, Connected, Take, Send, EndAt, Usable,
      Begun, Swapped, Starts, Committed, Closed, ClientsOf, StripRec, WithClientRec;
  }

  lemma OthersStayInside(s: State, e: Step, t: Tid)
    requires Enabled(s, e) && t in s.threads && Actor(e) != Some(t) && !OfHandler(e)
    ensures t in Apply(s, e).threads && Apply(s, e).threads[t] == s.threads[t]
  {
    hide NewRecord, ClientsFor, OutcomesFor, Strip, Degraded, Dead, WithClient, Connected, Take, Send, EndAt, Usable,
      Begun, Swapped, Starts, Committed, Closed, ClientsOf, StripRec, WithClientRec;
  }

  /** A step leaves the threads that do not take it alone. */
  lemma OthersStay(s: State, e: Step, t: Tid)
    requires Enabled(s, e) && t in s.threads && Actor(e) != Some(t)
    ensures t in Apply(s, e).threads && Apply(s, e).threads[t] == s.threads[t]
  {
    hide Enabled, Apply;
    if OfHandler(e) { OthersStayOutside(s, e, t); } else { OthersStayInside(s, e, t); }
  }

  // ----- how threads begin -----

  /** What a new thread begins with. A refresh begins only when none is in flight and there is something to
      refresh, with the configuration that is stored then; every other call with the registry that is current. */
  ghost predicate Begins(s: State, s': State, th: Thread) {
    || (th.ConfigureBuilding? && th.cfgs != [])
    || (th == RefreshBuilding(s.handler.serverCfgs, |s.configs| - 1, |s.installed|)
        && !s.handler.refreshing && s'.handler.refreshing && s.handler.registry.Some? && s.handler.serverCfgs != [])
    || th == Answering(s.handler.registry, |s.installed|)
    || (s.handler.registry.Some? && th == Executing(s.handler.registry.value))
    || th.Looping? || th.Closing?
  }

  lemma NewThreadOutside(s: State, e: Step, t: Tid)
    requires Enabled(s, e) && OfHandler(e) && t !in s.threads && t in Apply(s, e).threads
    ensures Begins(s, Apply(s, e), Apply(s, e).threads[t])
  {
    hide NewRecord, ClientsFor, OutcomesFor, Strip, Degraded, Dead, WithClient, Connected, Take, Send, EndAt, Usable,
      Swapped, Committed, Closed, ClientsOf, StripRec, WithClientRec;
  }

  lemma NewThreadInside(s: State, e: Step, t: Tid)
    requires Enabled(s, e) && !OfHandler(e) && t !in s.threads && t in Apply(s, e).threads
    ensures Begins(s, Apply(s, e), Apply(s, e).threads[t])
  {
    hide NewRecord, ClientsFor, OutcomesFor, Strip, Degraded, Dead, WithClient, Connected, Take, Send, EndAt, Usable,
      Swapped, Committed, Closed, ClientsOf, StripRec, WithClientRec;
  }

  lemma NewThreads(states: seq<State>, i: nat, t: Tid)
    requires Run(states) && i + 1 < |states| && t !in states[i].threads && t in states[i + 1].threads
    ensures Begins(states[i], states[i + 1], states[i + 1].threads[t])
  {
    var e := StepOf(states, i);
    hide Enabled, Apply, Begins, Run;
    if OfHandler(e) { NewThreadOutside(states[i], e, t); } else { NewThreadInside(states[i], e, t); }
  }

  // ----- when Execute calls -----

  /** The client is there, and its current transport is neither closed nor ended. */
  predicate OpenNow(s: State, client: Option<ClientId>) {
    client.Some? && client.value < |s.clients|
    && var c := s.clients[client.value];
       c.tp.Some? && c.tp.value < |c.made| && !c.made[c.tp.value].closed && !c.made[c.tp.value].ended
  }

  lemma OwnCallingStep(s: State, e: Step, t: Tid)
    requires Enabled(s, e) && t in s.threads && s.threads[t].Calling? && Actor(e) == Some(t)
    ensures e == FindDead(t) || e == FindAlive(t)
  {
    hide Dead;
  }

  /** Execute, having looked up its action, calls on the client it found exactly if that is alive, and
      reconnects exactly if it is not. */
  lemma CallsOnlyIfAlive(states: seq<State>, i: nat, t: Tid)
    requires Run(states) && i + 1 < |states| && t in states[i].threads && states[i].threads[t].Calling?
    ensures t in states[i + 1].threads
    ensures var th, th' := states[i].threads[t], states[i + 1].threads[t];
      || th' == th
      || (OpenNow(states[i], th.client) && th' == Ready(th.r, th.client))
      || (!OpenNow(states[i], th.client) && th' == Reconnecting(th.r, th.cfg))
  {
    var e := StepOf(states, i);
    if Actor(e) != Some(t) {
      OthersStay(states[i], e, t);
    } else {
      OwnCallingStep(states[i], e, t);
    }
  }

  /** A client as a successful Connect leaves it: the handshake went out on its transport, which it did not
      close, and every Streamable HTTP transport before that is closed. */
  ghost predicate JustConnected(c: ClientState) {
    && c.tp.Some? && c.tp.value < |c.made| && c.taken == map[]
    && (forall k :: 0 <= k < |c.made| && k != c.tp.value && c.made[k].kind == Kind.Streamable ==> c.made[k].closed)
    && var t := c.made[c.tp.value];
       && !t.closed && |t.sent| == 2
       && t.sent[0].what == Initialize && t.sent[0].accepted && t.sent[1].what == Initialized
  }

  /** Every entry of the server has exactly this client; the rest of the table is as it was. */
  ghost predicate ServerSwitched(before: map<string, Entry>, after: map<string, Entry>, server: string, c: ClientId) {
    && after.Keys == before.Keys
    && forall k :: k in before ==>
         after[k] == before[k].(client := if before[k].cfg.server == server then Some(c) else before[k].client)
  }

  /** A reconnect for registry r has succeeded: there is one more client, connected, and it is the one of
      every entry of its server. */
  ghost predicate Reconnects(s: State, s': State, r: RegId, server: string) {
    && |s'.clients| == |s.clients| + 1 && s'.clients[..|s.clients|] == s.clients
    && JustConnected(s'.clients[|s.clients|])
    && |s'.regs| == |s.regs| && r < |s.regs|
    && ServerSwitched(s.regs[r].reg.actions, s'.regs[r].reg.actions, server, |s.clients|)
    && s'.regs[r].reg.caps == s.regs[r].reg.caps
    && forall q :: 0 <= q < |s.regs| && q != r ==> s'.regs[q] == s.regs[q]
  }

  /** Or it has failed, and no registry has changed. */
  ghost predicate ReconnectFails(s: State, s': State) {
    |s'.clients| == |s.clients| + 1 && s'.clients[..|s.clients|] == s.clients && s'.regs == s.regs
  }

  lemma ConnectedIsConnected(answer: ConnectAnswer)
    requires Connected(NEW_CLIENT, answer).1
    ensures JustConnected(Connected(NEW_CLIENT, answer).0)
  {
    var c := Connected(NEW_CLIENT, answer).0;
    ConnectOutcome(answer);
    ConnectKeeps(NEW_CLIENT, answer);
    hide Connected;
    assert TransportOk(c.made[c.tp.value]);
  }

  lemma ReconnectedSays(s: State, r: RegId, server: string, answer: ConnectAnswer)
    requires r < |s.regs|
    ensures var (s', ok) := Reconnected(s, r, server, answer);
      && s'.threads == s.threads && s'.regs[r].base == s.regs[r].base && s'.regs[r].stripped == s.regs[r].stripped
      && if ok then Reconnects(s, s', r, server) else ReconnectFails(s, s')
  {
    if Connected(NEW_CLIENT, answer).1 { ConnectedIsConnected(answer); }
    hide Connected, JustConnected;
  }

  lemma OwnReconnectingStep(s: State, e: Step, t: Tid)
    requires Enabled(s, e) && t in s.threads && s.threads[t].Reconnecting? && Actor(e) == Some(t)
    ensures e.Reconnect? && e.t == t
  {
    hide Dead;
  }

  lemma ReconnectingBecomes(s: State, t: Tid, answer: ConnectAnswer)
    requires Enabled(s, Reconnect(t, answer)) && s.threads[t].Reconnecting?
    ensures var th := s.threads[t];
      && th.r < |s.regs|
      && var (s1, ok) := Reconnected(s, th.r, th.cfg.server, answer);
         Apply(s, Reconnect(t, answer)) == if ok then Become(s1, t, Ready(th.r, Some(|s.clients|))) else End(s1, t)
  {
    hide Reconnected, Dead, Usable;
  }

  lemma ThreadsAside(s: State, s1: State, s': State, r: RegId, server: string)
    requires s' == s1.(threads := s'.threads)
    ensures Reconnects(s, s1, r, server) <==> Reconnects(s, s', r, server)
    ensures ReconnectFails(s, s1) <==> ReconnectFails(s, s')
  {
    hide JustConnected, ServerSwitched;
  }

  lemma ReconnectingApplied(s: State, t: Tid, answer: ConnectAnswer)
    requires Enabled(s, Reconnect(t, answer)) && s.threads[t].Reconnecting?
    ensures var s', th := Apply(s, Reconnect(t, answer)), s.threads[t];
      if t in s'.threads
        then s'.threads[t] == Ready(th.r, Some(|s.clients|)) && Reconnects(s, s', th.r, th.cfg.server)
      else ReconnectFails(s, s')
  {
    var th := s.threads[t];
    ReconnectingBecomes(s, t, answer);
    hide Enabled, Apply;
    ReconnectedSays(s, th.r, th.cfg.server, answer);
    var s1 := Reconnected(s, th.r, th.cfg.server, answer).0;
    hide Reconnected, Reconnects, ReconnectFails;
    ThreadsAside(s, s1, Apply(s, Reconnect(t, answer)), th.r, th.cfg.server);
  }

  /** Execute's reconnect either succeeds, and then it calls on the new client, which the server's entries
      now have; or the call is over. */
  lemma ReconnectsThenCalls(states: seq<State>, i: nat, t: Tid)
    requires Run(states) && i + 1 < |states| && t in states[i].threads && states[i].threads[t].Reconnecting?
    ensures var s, s', th := states[i], states[i + 1], states[i].threads[t];
      || (t in s'.threads && s'.threads[t] == th)
      || (t in s'.threads && s'.threads[t] == Ready(th.r, Some(|s.clients|)) && Reconnects(s, s', th.r, th.cfg.server))
      || (t !in s'.threads && ReconnectFails(s, s'))
  {
    var e := StepOf(states, i);
    hide Apply, Enabled, Reconnects, ReconnectFails;
    if Actor(e) != Some(t) {
      OthersStay(states[i], e, t);
    } else {
      OwnReconnectingStep(states[i], e, t);
      ReconnectingApplied(states[i], t, e.answer);
    }
  }

  /** The threads that take a step which gives them a client to call on. */
  lemma BecomingReady(s: State, e: Step, t: Tid)
    requires Enabled(s, e) && t in Apply(s, e).threads && Apply(s, e).threads[t].Ready?
    requires t !in s.threads || !s.threads[t].Ready?
    ensures t in s.threads && (s.threads[t].Calling? || s.threads[t].Reconnecting?)
  {
    hide Enabled, Apply;
    if OfHandler(e) { HandlerMakesNoneReady(s, e, t); } else { MakesReady(s, e, t); }
  }

  lemma HandlerMakesNoneReady(s: State, e: Step, t: Tid)
    requires Enabled(s, e) && OfHandler(e) && (t !in s.threads || !s.threads[t].Ready?)
    ensures t !in Apply(s, e).threads || !Apply(s, e).threads[t].Ready?
  {
    hide NewRecord, ClientsFor, OutcomesFor, Strip, Degraded, Dead, WithClient, Connected, Take, Send, EndAt, Usable,
      Begun, Swapped, Starts, Committed, Closed, ClientsOf, StripRec, WithClientRec;
  }

  lemma MakesReady(s: State, e: Step, t: Tid)
    requires Enabled(s, e) && !OfHandler(e) && t in Apply(s, e).threads && Apply(s, e).threads[t].Ready?
    requires t !in s.threads || !s.threads[t].Ready?
    ensures t in s.threads && (s.threads[t].Calling? || s.threads[t].Reconnecting?)
  {
    hide NewRecord, ClientsFor, OutcomesFor, Strip, Degraded, Dead, WithClient, Connected, Take, Send, EndAt, Usable,
      Begun, Swapped, Starts, Committed, Closed, ClientsOf, StripRec, WithClientRec;
  }

  /** Execute calls on a client only because it found that client alive, or because it has just connected it. */
  lemma CallsOnlyOnLiveClients(states: seq<State>, i: nat, t: Tid)
    requires Run(states) && i + 1 < |states| && t in states[i + 1].threads && states[i + 1].threads[t].Ready?
    requires t !in states[i].threads || !states[i].threads[t].Ready?
    ensures var s, s', client := states[i], states[i + 1], states[i + 1].threads[t].client;
      && t in s.threads
      && if s.threads[t].Calling? then client == s.threads[t].client && OpenNow(s, client)
         else
           && s.threads[t].Reconnecting? && client == Some(|s.clients|)
           && Reconnects(s, s', s.threads[t].r, s.threads[t].cfg.server)
  {
    var e := StepOf(states, i);
    BecomingReady(states[i], e, t);
    if states[i].threads[t].Calling? { CallsOnlyIfAlive(states, i, t); } else { ReconnectsThenCalls(states, i, t); }
    hide Run, Apply, Enabled, Reconnects, OpenNow, ReconnectFails;
  }

  lemma OwnReadyStep(s: State, e: Step, t: Tid)
    requires Enabled(s, e) && t in s.threads && s.threads[t].Ready? && Actor(e) == Some(t)
    ensures e == NextId(t) || e.SendRequest?
    ensures e == NextId(t) ==> t in Apply(s, e).threads && Apply(s, e).threads[t] == s.threads[t]
  {
    hide Dead, Usable, Holding, Take;
  }

  /** The call goes out: on the transport that the client has now, with the id that the thread took. */
  ghost predicate CallSent(s: State, s': State, t: Tid, client: Option<ClientId>) {
    && client.Some? && client.value < |s.clients| && |s'.clients| == |s.clients|
    && var c, c' := s.clients[client.value], s'.clients[client.value];
       && t in c.taken && t !in c'.taken && c.tp.Some? && c'.tp == c.tp && c.tp.value < |c.made| == |c'.made|
       && exists accepted ::
            c'.made[c.tp.value].sent == c.made[c.tp.value].sent + [Sent(ToolsCall, Some(c.taken[t]), accepted)]
  }

  /** An Execute that has a client ends by sending exactly one tools/call on it. */
  lemma ReadyThenCalls(states: seq<State>, i: nat, t: Tid)
    requires Run(states) && i + 1 < |states| && t in states[i].threads && states[i].threads[t].Ready?
    ensures var s, s', th := states[i], states[i + 1], states[i].threads[t];
      if t in s'.threads then s'.threads[t] == th else CallSent(s, s', t, th.client)
  {
    var e := StepOf(states, i);
    if Actor(e) != Some(t) {
      OthersStay(states[i], e, t);
    } else {
      OwnReadyStep(states[i], e, t);
      if e.SendRequest? { SentCall(states[i], t, e.accepted); }
      hide Apply, Enabled, CallSent;
    }
  }

  lemma SentCall(s: State, t: Tid, accepted: bool)
    requires Enabled(s, Step.SendRequest(t, accepted)) && s.threads[t].Ready?
    ensures var s' := Apply(s, Step.SendRequest(t, accepted));
      t !in s'.threads && CallSent(s, s', t, s.threads[t].client)
  {
    var c := s.clients[s.threads[t].client.value];
    var m := Sent(ToolsCall, Some(c.taken[t]), accepted);
    assert Send(c, t, ToolsCall, accepted).made[c.tp.value].sent == c.made[c.tp.value].sent + [m];
  }

  lemma OwnExecutingStep(s: State, e: Step, t: Tid)
    requires Enabled(s, e) && t in s.threads && s.threads[t].Executing? && Actor(e) == Some(t)
    ensures e.LookUp? || e == FinishExecute(t)
  {
    hide Dead, Usable;
  }

  /** What Execute finds is the entry that the table has for the action at that moment. */
  lemma LooksUpEntry(states: seq<State>, i: nat, t: Tid)
    requires Run(states) && i + 1 < |states| && t in states[i].threads && states[i].threads[t].Executing?
    requires t in states[i + 1].threads && states[i + 1].threads[t] != states[i].threads[t]
    ensures var s, th := states[i], states[i].threads[t];
      && th.r < |s.regs|
      && var actions := s.regs[th.r].reg.actions;
         exists key :: key in actions
           && states[i + 1].threads[t] == Calling(th.r, actions[key].client, actions[key].cfg)
  {
    var e := StepOf(states, i);
    if Actor(e) != Some(t) { OthersStay(states[i], e, t); } else { OwnExecutingStep(states[i], e, t); }
  }
}
