/** Clients that no registry holds any more: closing goes through the entries, so nobody closes them. */
module LifecycleOrphans {
  import opened Options
  import opened Schema
  import opened Naming
  import opened RegistrySpec
  import opened McpClient
  import opened Lifecycle
  import opened LifecycleInvariant
  import opened LifecycleSteps
  import opened LifecycleTheorems
  import opened LifecycleConfig
  import opened LifecycleCalls

  /** The client is in no entry of any registry. */
  ghost predicate Orphan(s: State, c: ClientId) {
    c < |s.clients| && forall r, k :: 0 <= r < |s.regs| && k in s.regs[r].reg.actions ==>
      s.regs[r].reg.actions[k].client != Some(c)
  }

  ghost predicate SameActions(s: State, s': State) {
    |s'.regs| == |s.regs| && forall r :: 0 <= r < |s.regs| ==> s'.regs[r].reg.actions == s.regs[r].reg.actions
  }

  lemma ActionsStayOutside(s: State, e: Step)
    requires Enabled(s, e) && OfHandler(e) && !e.Bootstrap? && !e.FinishBuild?
    ensures SameActions(s, Apply(s, e))
  {
    hide Strip, Degraded, Dead, Take, Send, EndAt, Usable, Begun, Swapped, Starts, Committed, Closed, ClientsOf;
  }

  lemma ActionsStayInside(s: State, e: Step)
    requires Enabled(s, e) && !OfHandler(e) && !e.Reconnect?
    ensures SameActions(s, Apply(s, e))
  {
    hide Strip, Degraded, Dead, Take, Send, EndAt, Usable, Begun, Swapped, Starts, Committed, Closed, ClientsOf;
  }

  lemma BuiltIsNew(cfgs: seq<ServerConfig>, ups: seq<Upstream>, next: nat, c: ClientId)
    requires |cfgs| == |ups| && c < next
    ensures forall k :: k in Built(cfgs, OutcomesFor(ups, next)).actions ==>
      Built(cfgs, OutcomesFor(ups, next)).actions[k].client != Some(c)
  {
    hide Built;
    var actions := Built(cfgs, OutcomesFor(ups, next)).actions;
    if k :| k in actions && actions[k].client == Some(c) {
      var i := BuiltClients(cfgs, OutcomesFor(ups, next), c);
    }
  }

  lemma NoneBefore(s: State, e: Step, c: ClientId)
    requires Enabled(s, e) && e.Bootstrap?
    ensures !Orphan(s, c)
  {
  }

  lemma BuildingOrphans(s: State, t: Tid, ups: seq<Upstream>, c: ClientId)
    requires Enabled(s, FinishBuild(t, ups)) && Orphan(s, c)
    ensures Orphan(Apply(s, FinishBuild(t, ups)), c)
  {
    BuiltIsNew(s.threads[t].cfgs, ups, |s.clients|, c);
    hide Built, OutcomesFor, ClientsFor;
  }

  lemma ReconnectingOrphans(s: State, t: Tid, answer: ConnectAnswer, c: ClientId)
    requires Enabled(s, Reconnect(t, answer)) && Orphan(s, c)
    ensures Orphan(Apply(s, Reconnect(t, answer)), c)
  {
    hide Connected, Dead;
  }

  /** Once in no entry, a client never comes into one again. */
  lemma StaysOrphan(s: State, e: Step, c: ClientId)
    requires Enabled(s, e) && Orphan(s, c)
    ensures Orphan(Apply(s, e), c)
  {
    StepAddsClients(s, e);
    hide Apply, Enabled;
    if e.Bootstrap? {
      NoneBefore(s, e, c);
    } else if e.FinishBuild? {
      BuildingOrphans(s, e.t, e.ups, c);
    } else if e.Reconnect? {
      ReconnectingOrphans(s, e.t, e.answer, c);
    } else if OfHandler(e) {
      ActionsStayOutside(s, e);
    } else {
      ActionsStayInside(s, e);
    }
  }

  /** The same transports, closed as before. */
  ghost predicate ClosedAsBefore(c: ClientState, d: ClientState) {
    d.tp == c.tp && |d.made| == |c.made| && forall i :: 0 <= i < |c.made| ==> d.made[i].closed == c.made[i].closed
  }

  lemma OrphanOp(s: State, e: Step, c: ClientId)
    requires Enabled(s, e) && Orphan(s, c)
    ensures OpOf(s, e, c) != Some(DoClose)
    ensures OpOf(s, e, c).Some? ==>
      OpOf(s, e, c).value.TakeId? || OpOf(s, e, c).value.SendRequest? || OpOf(s, e, c).value.ContextEnded?
  {
    hide Dead, Usable, Holding;
  }

  lemma QuietOp(c: ClientState, op: Op)
    requires OpEnabled(c, op) && (op.TakeId? || op.SendRequest? || op.ContextEnded?)
    ensures ClosedAsBefore(c, Perform(c, op))
  {
  }

  lemma OrphanStep(s: State, e: Step, c: ClientId)
    requires Enabled(s, e) && Orphan(s, c)
    ensures c < |Apply(s, e).clients| && ClosedAsBefore(s.clients[c], Apply(s, e).clients[c])
  {
    StepPerforms(s, e, c);
    OrphanOp(s, e, c);
    var op := OpOf(s, e, c);
    hide Apply, Enabled, Orphan;
    if op.Some? { QuietOp(s.clients[c], op.value); }
  }

  /** A client that is in no entry stays so, and the plugin never closes a transport of it. */
  lemma {:induction false} NobodyClosesOrphans(states: seq<State>, i: nat, n: nat, c: ClientId)
    requires Run(states) && i <= n < |states| && Orphan(states[i], c)
    ensures Orphan(states[n], c) && ClosedAsBefore(states[i].clients[c], states[n].clients[c])
    decreases n
  {
    hide Apply, Enabled;
    if i < n {
      NobodyClosesOrphans(states, i, n - 1, c);
      var e := StepOf(states, n - 1);
      StaysOrphan(states[n - 1], e, c);
      OrphanStep(states[n - 1], e, c);
    }
  }

  // ----- it happens -----

  /** The current registry is the only one, and all its entries are of one server. */
  ghost predicate OneServer(s: State, server: string) {
    && s.handler.registry == Some(0) && |s.regs| == 1
    && forall k :: k in s.regs[0].reg.actions ==> s.regs[0].reg.actions[k].cfg.server == server
  }

  lemma AllOfOne(cfg: ServerConfig, outs: seq<Outcome>)
    requires |outs| == 1
    ensures forall k :: k in Built([cfg], outs).actions ==> Built([cfg], outs).actions[k].cfg == cfg
  {
    hide Built;
    forall k | k in Built([cfg], outs).actions ensures Built([cfg], outs).actions[k].cfg == cfg {
      KeyNamesTool([cfg], outs, k);
    }
  }

  lemma ServedByOne(cfg: ServerConfig, tool: Tool) returns (s: State, key: string)
    ensures Reached(s) && OneServer(s, cfg.server) && s.threads.Keys == {0} && s.threads[0].ConfigureSwapped?
    ensures key in s.regs[0].reg.actions && s.regs[0].reg.actions[key].client == Some(0)
    ensures |s.clients| == 1 && JustFetched(s.clients[0])
  {
    hide Reached, Built, OutcomesFor, Fetched;
    key := ActionName(cfg.server, tool.name);
    OneActionBuilt(cfg, tool);
    AllOfOne(cfg, OutcomesFor([LifecycleConfig.Answers([tool])], 0));
    s := FirstConfigure([cfg], [LifecycleConfig.Answers([tool])]);
    FetchedOnce(tool);
    OneClient(tool);
    hide ClientsFor;
  }

  /** A call up to where it has its entry. */
  lemma HasEntry(s: State, t: Tid, key: string)
    requires Reached(s) && s.handler.registry == Some(0) && |s.regs| == 1 && key in s.regs[0].reg.actions && Fresh(s, t)
    ensures var e := s.regs[0].reg.actions[key]; Reached(Become(s, t, Calling(0, e.client, e.cfg)))
  {
    hide Reached;
    Extend(s, StartExecute(t));
    var s1 := Become(s, t, Executing(0));
    Extend(s1, LookUp(t, key));
    var e := s.regs[0].reg.actions[key];
    assert Become(s1, t, Calling(0, e.client, e.cfg)) == Become(s, t, Calling(0, e.client, e.cfg));
  }

  const YES := ConnectAnswer(InitSucceeds(true, false), InitSucceeds(true, false), GetFails)

  /** The client of a Connect that succeeds at once. */
  ghost predicate JustOpened(c: ClientState) {
    c.tp == Some(0) && |c.made| == 1 && !Cancelled(c.made[0]) && c.taken == map[]
  }

  lemma OpensAtOnce()
    ensures Connected(NEW_CLIENT, YES).1 && JustOpened(Connected(NEW_CLIENT, YES).0)
  {
  }

  /** A call that found its client dead and has reconnected. */
  lemma ReconnectsNow(s: State, t: Tid, server: string) returns (s': State)
    requires Reached(s) && OneServer(s, server) && t in s.threads && s.threads[t].Calling?
    requires s.threads[t].r == 0 && s.threads[t].cfg.server == server && Dead(s, s.threads[t].client)
    ensures Reached(s') && OneServer(s', server) && |s'.clients| == |s.clients| + 1
    ensures s'.clients[..|s.clients|] == s.clients && JustOpened(s'.clients[|s.clients|])
    ensures s'.threads == s.threads[t := Ready(0, Some(|s.clients|))]
    ensures forall k :: k in s'.regs[0].reg.actions ==> s'.regs[0].reg.actions[k].client == Some(|s.clients|)
  {
    OpensAtOnce();
    hide Reached, Connected, Dead;
    var cfg := s.threads[t].cfg;
    Extend(s, FindDead(t));
    var s1 := Become(s, t, Reconnecting(0, cfg));
    Extend(s1, Reconnect(t, YES));
    s' := Apply(s1, Reconnect(t, YES));
  }

  /** Two calls that hold the same client, which has lost its stream since. */
  lemma TwoFindItDead(cfg: ServerConfig, tool: Tool) returns (s: State)
    ensures Reached(s) && OneServer(s, cfg.server) && |s.clients| == 1 && s.clients[0].taken == map[]
    ensures s.threads.Keys == {0, 1, 2} && s.threads[0].ConfigureSwapped?
    ensures forall t :: 1 <= t <= 2 ==>
      && s.threads[t].Calling? && s.threads[t].r == 0
      && s.threads[t].cfg.server == cfg.server && s.threads[t].client == Some(0)
    ensures Dead(s, Some(0))
  {
    var s0, key := ServedByOne(cfg, tool);
    hide Reached;
    var e := s0.regs[0].reg.actions[key];
    HasEntry(s0, 1, key);
    var s1 := Become(s0, 1, Calling(0, e.client, e.cfg));
    HasEntry(s1, 2, key);
    var s2 := Become(s1, 2, Calling(0, e.client, e.cfg));
    Extend(s2, Drop(0));
    s := UpdateClient(s2, 0, EndAt(s2.clients[0], 0));
  }

  /** An open client that no registry and no thread has any more. */
  ghost predicate Leaked(s: State, c: ClientId) {
    && Orphan(s, c) && Usable(s.clients[c]) && !Cancelled(s.clients[c].made[s.clients[c].tp.value])
    && forall t :: t in s.threads ==> Target(s.threads[t]) != Some(c)
  }

  lemma SecondFindsDead(s: State, s': State, t: Tid)
    requires Dead(s, Some(0)) && |s.clients| == 1 && |s'.clients| == 2 && s'.clients[..1] == s.clients
    ensures Dead(s', Some(0))
  {
    assert s'.clients[0] == s'.clients[..1][0];
  }

  /** When two calls find the same client dead, both reconnect, and the second overwrites the client of the
      first in every entry: after its call that client is open, and nobody has it to close. */
  lemma OverwrittenClientLeaks(cfg: ServerConfig, tool: Tool) returns (s: State)
    ensures Reached(s) && Leaked(s, 1)
  {
    var s0 := TwoFindItDead(cfg, tool);
    hide Reached, Dead;
    var s1 := ReconnectsNow(s0, 1, cfg.server);
    SecondFindsDead(s0, s1, 2);
    var s2 := ReconnectsNow(s1, 2, cfg.server);
    assert s2.clients[1] == s2.clients[..2][1];
    s := FirstCalls(s2);
  }

  lemma FirstCalls(s0: State) returns (s: State)
    requires Reached(s0) && |s0.clients| == 3 && JustOpened(s0.clients[1]) && Orphan(s0, 1)
    requires s0.threads.Keys == {0, 1, 2} && s0.threads[0].ConfigureSwapped?
    requires s0.threads[1] == Ready(0, Some(1)) && s0.threads[2] == Ready(0, Some(2))
    ensures Reached(s) && Leaked(s, 1)
  {
    hide Reached;
    Extend(s0, Step.NextId(1));
    var s1 := UpdateClient(s0, 1, Take(s0.clients[1], 1));
    Extend(s1, Step.SendRequest(1, true));
    s := Sending(s1, 1, 1, true);
  }
}
