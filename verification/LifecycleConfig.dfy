/** Does the current registry match the stored configuration? And what do clients of a run send? */
module LifecycleConfig {
  import opened Options
  import opened Schema
  import opened Naming
  import opened RegistrySpec
  import opened McpClient
  import opened Lifecycle
  import opened LifecycleInvariant
  import opened LifecycleSteps
  import opened LifecycleTheorems

  // ----- the configuration of the current registry -----

  predicate Matches(s: State) {
    s.handler.registry.Some? ==>
      s.handler.registry.value < |s.regs| && s.regs[s.handler.registry.value].cfgs == s.handler.serverCfgs
  }

  /** A refresh about to install a registry built from another configuration than the stored one. */
  predicate Stale(s: State, e: Step) {
    e.CommitRefresh? && e.t in s.threads && s.threads[e.t].RefreshBuilt? && s.threads[e.t].r < |s.regs|
    && !Degraded(s.regs[s.threads[e.t].r].reg) && s.threads[e.t].cfgs != s.handler.serverCfgs
  }

  lemma CommitMatches(s: State, t: Tid)
    requires Inv(s) && Enabled(s, CommitRefresh(t)) && Matches(s)
    ensures Matches(Apply(s, CommitRefresh(t))) <==> !Stale(s, CommitRefresh(t))
  {
    assert ThreadOk(s, t);
    CurrentNow(s);
    hide Inv, Degraded, CurrentDuring, VersionOk;
  }

  lemma SwapMatches(s: State, t: Tid)
    requires Inv(s) && Enabled(s, Step.SwapConfigured(t))
    ensures Matches(Apply(s, Step.SwapConfigured(t)))
  {
    assert ThreadOk(s, t);
    hide Inv;
  }

  /** Steps that install nothing change the configuration of no registry. */
  lemma OtherStepsMatch(s: State, e: Step)
    requires Inv(s) && Enabled(s, e) && Matches(s) && !e.Bootstrap? && !e.CommitRefresh? && !e.SwapConfigured?
    ensures Matches(Apply(s, e))
  {
    hide Inv, ClientsFor, Degraded, Closed, Dead, Usable, Strip, OutcomesFor, Built, Take, Send, EndAt, ClientsOf,
      Reconnected;
    if e.Reconnect? { ReconnectMatches(s, e.t, e.answer); }
  }

  lemma ReconnectMatches(s: State, t: Tid, answer: ConnectAnswer)
    requires Enabled(s, Reconnect(t, answer)) && Matches(s)
    ensures Matches(Apply(s, Reconnect(t, answer)))
  {
    hide Connected, WithClient, Dead;
    ReconnectTouches(s, t, answer);
  }

  /** From a matching state, the match is lost exactly by a stale commit. */
  lemma MatchLostOnlyByStaleCommit(s: State, e: Step)
    requires Reached(s) && Enabled(s, e) && Matches(s)
    ensures Matches(Apply(s, e)) <==> !Stale(s, e)
  {
    ReachedInv(s);
    hide Inv, Reached, Matches;
    match e
    case Bootstrap(cfgs, ups) => assert Matches(Apply(s, e)) by { BootstrapMatches(s, cfgs, ups); }
    case CommitRefresh(t) => CommitMatches(s, t);
    case SwapConfigured(t) => SwapMatches(s, t);
    case _ =>
      hide Apply, Enabled;
      OtherStepsMatch(s, e);
  }

  lemma BootstrapMatches(s: State, cfgs: seq<ServerConfig>, ups: seq<Upstream>)
    requires Enabled(s, Bootstrap(cfgs, ups))
    ensures Matches(Apply(s, Bootstrap(cfgs, ups)))
  {
    hide OutcomesFor, Built, ClientsFor;
  }

  // ----- over a whole run -----

  /** The i-th step of the run is a stale commit. */
  ghost predicate StaleAt(states: seq<State>, i: nat)
    requires i + 1 < |states|
  {
    exists e :: Enabled(states[i], e) && states[i + 1] == Apply(states[i], e) && Stale(states[i], e)
  }

  lemma PrefixReached(states: seq<State>, n: nat)
    requires Run(states) && n < |states|
    ensures Reached(states[n])
  {
    hide Apply, Enabled;
    var prefix := states[..n + 1];
    forall i | 0 <= i < |prefix| - 1 ensures StepAt(prefix, i) {
      assert StepAt(states, i);
      var e :| Enabled(states[i], e) && states[i + 1] == Apply(states[i], e);
      assert Enabled(prefix[i], e) && prefix[i + 1] == Apply(prefix[i], e);
    }
    assert Run(prefix) && prefix[|prefix| - 1] == states[n];
  }

  lemma OneStepMatches(states: seq<State>, i: nat)
    requires Run(states) && i + 1 < |states| && Matches(states[i])
    ensures Matches(states[i + 1]) <==> !StaleAt(states, i)
  {
    PrefixReached(states, i);
    assert StepAt(states, i);
    hide Apply, Enabled, Matches, Stale, Run, Reached;
    forall e | Enabled(states[i], e) && states[i + 1] == Apply(states[i], e)
      ensures Matches(states[i + 1]) <==> !Stale(states[i], e)
    {
      MatchLostOnlyByStaleCommit(states[i], e);
    }
  }

  /** Along a run, the current registry matches the stored configuration in every state exactly when
      no commit of the run is stale. */
  lemma {:induction false} AlwaysMatchesUnlessStale(states: seq<State>)
    requires Run(states)
    ensures (forall i :: 0 <= i < |states| ==> Matches(states[i])) <==>
      forall i :: 0 <= i < |states| - 1 ==> !StaleAt(states, i)
  {
    if forall i :: 0 <= i < |states| - 1 ==> !StaleAt(states, i) {
      forall i | 0 <= i < |states| ensures Matches(states[i]) { MatchesUpTo(states, i); }
    }
    if forall i :: 0 <= i < |states| ==> Matches(states[i]) {
      forall i | 0 <= i < |states| - 1 ensures !StaleAt(states, i) { OneStepMatches(states, i); }
    }
  }

  lemma {:induction false} MatchesUpTo(states: seq<State>, n: nat)
    requires Run(states) && n < |states| && forall i :: 0 <= i < |states| - 1 ==> !StaleAt(states, i)
    ensures Matches(states[n])
  {
    if n > 0 {
      MatchesUpTo(states, n - 1);
      hide StaleAt, Run;
      OneStepMatches(states, n - 1);
    }
  }

  /** No Configure swaps between the two sections of a refresh that commits in this step. */
  ghost predicate UndisturbedAt(states: seq<State>, i: nat)
    requires i + 1 < |states|
  {
    forall e :: Enabled(states[i], e) && states[i + 1] == Apply(states[i], e) && e.CommitRefresh? ==>
      states[i].threads[e.t].version == |states[i].configs| - 1
  }

  /** In a run in which no Configure swaps between the two sections of a refresh, the current registry
      always matches the stored configuration. */
  lemma MatchesIfRefreshesAreUndisturbed(states: seq<State>)
    requires Run(states) && forall i :: 0 <= i < |states| - 1 ==> UndisturbedAt(states, i)
    ensures forall i :: 0 <= i < |states| ==> Matches(states[i])
  {
    forall i | 0 <= i < |states| - 1 ensures !StaleAt(states, i) {
      if StaleAt(states, i) {
        assert UndisturbedAt(states, i);
        PrefixReached(states, i);
        NotStale(states, i);
      }
    }
    AlwaysMatchesUnlessStale(states);
  }

  lemma NotStale(states: seq<State>, i: nat)
    requires i + 1 < |states| && Reached(states[i]) && UndisturbedAt(states, i)
    ensures !StaleAt(states, i)
  {
    hide Apply, Reached;
    if StaleAt(states, i) {
      var e :| Enabled(states[i], e) && states[i + 1] == Apply(states[i], e) && Stale(states[i], e);
      assert e.CommitRefresh?;
      UnchangedConfigurationIsNotStale(states[i], e.t);
    }
  }

  lemma CapturedConfiguration(s: State, t: Tid)
    requires Inv(s) && t in s.threads && s.threads[t].RefreshBuilt?
    ensures VersionOk(s, s.threads[t].cfgs, s.threads[t].version, s.threads[t].since)
  {
    assert ThreadOk(s, t);
    hide Inv;
  }

  /** In particular it is kept when no Configure swapped since the refresh began. */
  lemma UnchangedConfigurationIsNotStale(s: State, t: Tid)
    requires Reached(s) && Enabled(s, CommitRefresh(t)) && s.threads[t].version == |s.configs| - 1
    ensures !Stale(s, CommitRefresh(t))
  {
    ReachedInv(s);
    CapturedConfiguration(s, t);
    CurrentNow(s);
    hide Inv, Reached, Degraded;
  }

  /** If the network answers, every server is live and the registry is not degraded. */
  lemma {:induction false} AllLive(cfgs: seq<ServerConfig>, outs: seq<Outcome>)
    requires |cfgs| == |outs| && forall k :: 0 <= k < |outs| ==> outs[k].Live?
    ensures !Degraded(Built(cfgs, outs))
  {
    hide Listings, IndexOf;
    forall status: RegistrySpec.Status | status != IsLive ensures Having(cfgs, outs, status) == [] {
      var h := Having(cfgs, outs, status);
      if h != [] { HavingMember(cfgs, outs, status, h[0]); }
    }
  }

  /** An upstream that is connected to at once and lists these tools. */
  function Answers(tools: seq<Tool>): Upstream {
    var yes := InitSucceeds(true, false);
    Upstream(FetchAnswer(ConnectAnswer(yes, yes, GetFails), Listed(tools), GetFails, NoList, false), [])
  }

  function Answering(cfgs: seq<ServerConfig>): (ups: seq<Upstream>)
    ensures |ups| == |cfgs|
  {
    seq(|cfgs|, _ => Answers([]))
  }

  lemma AnswersLive(tools: seq<Tool>)
    ensures Fetched(Answers(tools).answer).1 == Some(tools)
  {
  }

  lemma AnsweringIsLive(cfgs: seq<ServerConfig>, next: nat)
    ensures !Degraded(Built(cfgs, OutcomesFor(Answering(cfgs), next)))
  {
    AnswersLive([]);
    hide Fetched, Built, Degraded;
    AllLive(cfgs, OutcomesFor(Answering(cfgs), next));
  }

  /** A Configure by a thread of its own, up to its swap. */
  lemma ConfigureRun(s: State, t: Tid, cfgs: seq<ServerConfig>, ups: seq<Upstream>) returns (s': State)
    requires Reached(s) && Fresh(s, t) && cfgs != [] && |ups| == |cfgs|
    ensures Reached(s')
    ensures s'.handler.registry.Some? && s'.handler.serverCfgs == cfgs && s'.handler.refreshing == s.handler.refreshing
    ensures forall u :: u != t ==> (u in s'.threads <==> u in s.threads)
    ensures forall u :: u != t && u in s.threads ==> s'.threads[u] == s.threads[u]
  {
    hide Reached, OutcomesFor, ClientsFor, Built;
    var e1, e2, e3 := StartConfigure(t, cfgs), FinishBuild(t, ups), Step.SwapConfigured(t);
    Extend(s, e1);
    var s1 := Apply(s, e1);
    Extend(s1, e2);
    var s2 := Apply(s1, e2);
    assert s2.threads == s.threads[t := ConfigureBuilt(cfgs, |s.regs|)] && |s2.regs| == |s.regs| + 1;
    assert s2.handler == s.handler;
    Extend(s2, e3);
    s' := Apply(s2, e3);
  }

  lemma RefreshBuildsLive(s: State, t: Tid, a: seq<ServerConfig>)
    requires t in s.threads && s.threads[t].RefreshBuilding? && s.threads[t].cfgs == a
    ensures var s' := Apply(s, FinishBuild(t, Answering(a))); var r := |s.regs|;
      && s'.handler == s.handler && t in s'.threads && s'.threads[t].RefreshBuilt? && s'.threads[t].cfgs == a
      && s'.threads[t].r == r < |s'.regs| && s'.regs[r].cfgs == a && !Degraded(s'.regs[r].reg)
  {
    hide OutcomesFor, ClientsFor, Built, Degraded;
    AnsweringIsLive(a, |s.clients|);
  }

  lemma RefreshCaptures(s: State, t: Tid)
    requires Fresh(s, t) && Starts(s.handler)
    ensures var s' := Apply(s, BeginRefresh(t));
      && s'.handler.serverCfgs == s.handler.serverCfgs && t in s'.threads && s'.threads.Keys == s.threads.Keys + {t}
      && s'.threads[t].RefreshBuilding? && s'.threads[t].cfgs == s.handler.serverCfgs
  {
  }

  /** A refresh that found configuration `a` and has built a live registry from it, while Configure stored `b`. */
  lemma RefreshOvertaken(a: seq<ServerConfig>, b: seq<ServerConfig>) returns (s: State)
    requires a != [] && b != []
    ensures Reached(s) && s.handler.registry.Some? && s.handler.serverCfgs == b
    ensures 1 in s.threads && s.threads[1].RefreshBuilt? && s.threads[1].cfgs == a
    ensures s.threads[1].r < |s.regs| && s.regs[s.threads[1].r].cfgs == a && !Degraded(s.regs[s.threads[1].r].reg)
  {
    hide Reached, Built, Degraded, Apply;
    InitialReached();
    var s1 := ConfigureRun(INITIAL, 0, a, Answering(a));
    RefreshCaptures(s1, 1);
    Extend(s1, BeginRefresh(1));
    var s2 := ConfigureRun(Apply(s1, BeginRefresh(1)), 2, b, Answering(b));
    var e := FinishBuild(1, Answering(a));
    RefreshBuildsLive(s2, 1, a);
    assert Enabled(s2, e);
    hide Enabled;
    Extend(s2, e);
    s := Apply(s2, e);
  }

  /** The race is real: for any two configurations, some run ends with the handler holding the
      second one and a current registry built from the first. */
  lemma RefreshMayInstallOldConfiguration(a: seq<ServerConfig>, b: seq<ServerConfig>) returns (s: State)
    requires a != [] && b != [] && a != b
    ensures Reached(s) && s.handler.serverCfgs == b
    ensures s.handler.registry.Some? && s.handler.registry.value < |s.regs|
      && s.regs[s.handler.registry.value].cfgs == a
    ensures !Matches(s)
  {
    var s1 := RefreshOvertaken(a, b);
    hide Reached, Degraded;
    Extend(s1, CommitRefresh(1));
    s := Apply(s1, CommitRefresh(1));
  }

  // ----- what the clients of a run send -----

  /** What a step does to client c, if anything. */
  function OpOf(s: State, e: Step, c: ClientId): Option<Op>
    requires Enabled(s, e)
  {
    match e
    case NextId(t) => if Target(s.threads[t]) == Some(c) then Some(Op.TakeId(t)) else None
    case SendRequest(t, accepted) =>
      if Target(s.threads[t]) == Some(c)
      then Some(Op.SendRequest(t, if s.threads[t].Looping? then ToolsList else ToolsCall, accepted))
      else None
    case Drop(d) => if d == c then Some(ContextEnded(s.clients[d].tp.value)) else None
    case CloseRejected(t) => if c in ClientsOf(s.regs[s.threads[t].r].reg.actions) then Some(DoClose) else None
    case CloseReplaced(t) => if c in ClientsOf(s.regs[s.threads[t].r].reg.actions) then Some(DoClose) else None
    case _ => None
  }

  ghost predicate OpDone(s: State, e: Step, c: ClientId)
    requires Enabled(s, e)
  {
    && c < |s.clients| && c < |Apply(s, e).clients|
    && match OpOf(s, e, c)
       case None => Apply(s, e).clients[c] == s.clients[c]
       case Some(op) => OpEnabled(s.clients[c], op) && Apply(s, e).clients[c] == Perform(s.clients[c], op)
  }

  /** A step performs at most one operation on a client. */
  lemma StepPerforms(s: State, e: Step, c: ClientId)
    requires Enabled(s, e) && c < |s.clients|
    ensures OpDone(s, e, c)
  {
    hide ClientsFor, NewRecord, Strip, Dead, Degraded, Connected, WithClient, Take, Send, EndAt, ClientsOf, Closed,
      Reconnected;
    match e
    case Bootstrap(cfgs, ups) =>
      BuildTouches(s, e);
      hide Apply, Enabled;
    case FinishBuild(t, ups) =>
      BuildTouches(s, e);
      hide Apply, Enabled;
    case Reconnect(t, answer) =>
      ReconnectTouches(s, t, answer);
      hide Apply, Enabled;
    case NextId(t) =>
    case SendRequest(t, accepted) =>
    case Drop(d) =>
    case CloseRejected(t) => ClosingPerforms(s, t, e, c);
    case CloseReplaced(t) => ClosingPerforms(s, t, e, c);
    case _ =>
      OtherStepsKeepClients(s, e);
      hide Apply, Enabled;
  }

  lemma ClosingPerforms(s: State, t: Tid, e: Step, c: ClientId)
    requires (e == CloseRejected(t) || e == CloseReplaced(t)) && Enabled(s, e) && c < |s.clients|
    ensures OpDone(s, e, c)
  {
    ClosingClients(s, t, e);
    hide Apply, Enabled, ClientsOf;
  }

  /** A client that a step makes has lived in order so far, and nobody holds an id of it. */
  lemma NewClientsLive(s: State, e: Step, c: ClientId)
    requires Enabled(s, e) && |s.clients| <= c < |Apply(s, e).clients|
    ensures LivesInOrder(Apply(s, e).clients[c])
  {
    hide LivesInOrder, Strip, Dead, Degraded, Connected, WithClient, NewRecord, Fetched;
    match e
    case Bootstrap(cfgs, ups) => FetchedLives(ups[c - |s.clients|].answer);
    case FinishBuild(t, ups) => FetchedLives(ups[c - |s.clients|].answer);
    case Reconnect(t, answer) => ConnectedLives(answer);
    case NextId(t) =>
    case SendRequest(t, accepted) =>
    case Drop(d) =>
    case CloseRejected(t) =>
    case CloseReplaced(t) =>
    case _ => OtherStepsKeepClients(s, e);
  }

  lemma StepAddsClients(s: State, e: Step)
    requires Enabled(s, e)
    ensures |s.clients| <= |Apply(s, e).clients|
  {
    hide Strip, Dead, Degraded, Connected, WithClient, NewRecord, Usable;
  }

  /** Each client's life so far is a run of a client. */
  ghost predicate ClientsLive(s: State) {
    forall c :: 0 <= c < |s.clients| ==> Lives(s.clients[c])
  }

  lemma StepLives(s: State, e: Step)
    requires ClientsLive(s) && Enabled(s, e)
    ensures ClientsLive(Apply(s, e))
  {
    hide Lives, Apply, Enabled, OpEnabled, Perform, AllIncrease, RestAbove;
    var s' := Apply(s, e);
    forall c | 0 <= c < |s'.clients| ensures Lives(s'.clients[c]) {
      if c < |s.clients| {
        StepPerforms(s, e, c);
        var op := OpOf(s, e, c);
        if op.Some? { LivesOn(s.clients[c], op.value); }
      } else {
        NewClientsLive(s, e, c);
      }
    }
  }

  lemma {:induction false} RunLives(states: seq<State>, n: nat)
    requires Run(states) && n < |states|
    ensures ClientsLive(states[n])
  {
    hide Apply, Enabled;
    if n > 0 {
      RunLives(states, n - 1);
      hide ClientsLive;
      assert StepAt(states, n - 1);
      var e :| Enabled(states[n - 1], e) && states[n] == Apply(states[n - 1], e);
      StepLives(states[n - 1], e);
    }
  }

  /** In every run of the plugin, whichever Builds, refreshes, reconnects and calls happened, the life of
      every client is a run of a client, with the callers' steps in the order they were taken. */
  lemma EveryClientLives(s: State, c: ClientId) returns (ops: seq<Op>)
    requires Reached(s) && c < |s.clients|
    ensures ClientRun(ops, s.clients[c])
  {
    hide StepAt, ClientRun;
    var states :| Run(states) && states[|states| - 1] == s;
    RunLives(states, |states| - 1);
    assert Lives(s.clients[c]);
    ops :| ClientRun(ops, s.clients[c]);
  }

  /** So on every transport of every client of the plugin, messages went out in handshake order and no
      id was used twice. */
  lemma HandshakesAreOrdered(s: State, c: ClientId)
    requires Reached(s) && c < |s.clients|
    ensures forall i :: 0 <= i < |s.clients[c].made| ==>
      Ordered(s.clients[c].made[i].sent) && IdsDiffer(s.clients[c].made[i].sent)
  {
    var ops := EveryClientLives(s, c);
    HandshakeOrder(ops, s.clients[c]);
    hide Reached, ClientRun;
  }

  // ----- the order of ids -----

  /** In the i-th step of the run a thread sends on client c while another, which took its id before,
      stands between its two steps. */
  ghost predicate OvertakesAt(states: seq<State>, i: nat, c: ClientId)
    requires i + 1 < |states|
  {
    c < |states[i].clients| && exists e ::
      Enabled(states[i], e) && states[i + 1] == Apply(states[i], e) && Overtaking(states[i], e, c)
  }

  ghost predicate Overtaking(s: State, e: Step, c: ClientId)
    requires Enabled(s, e) && c < |s.clients|
  {
    e.SendRequest? && Target(s.threads[e.t]) == Some(c) && Overtakes(s.clients[c], e.t)
  }

  ghost predicate InOrder(c: ClientState) {
    AllIncrease(c) && RestAbove(c)
  }

  lemma StepOrder(s: State, e: Step, c: ClientId)
    requires ClientsLive(s) && Enabled(s, e) && c < |s.clients|
    ensures c < |Apply(s, e).clients|
    ensures InOrder(Apply(s, e).clients[c]) <==> InOrder(s.clients[c]) && !Overtaking(s, e, c)
  {
    StepPerforms(s, e, c);
    assert Lives(s.clients[c]);
    var ops :| ClientRun(ops, s.clients[c]);
    RunKeeps(ops, s.clients[c]);
    var op := OpOf(s, e, c);
    hide AllIncrease, RestAbove, ClientOk, ClientRun, OpEnabled, Perform, Apply;
    if op.Some? { PerformOrder(s.clients[c], op.value); }
  }

  lemma StepOrderAt(states: seq<State>, i: nat, c: ClientId)
    requires Run(states) && i + 1 < |states| && c < |states[i].clients|
    ensures c < |states[i + 1].clients|
    ensures InOrder(states[i + 1].clients[c]) <==> InOrder(states[i].clients[c]) && !OvertakesAt(states, i, c)
  {
    hide Apply, Enabled, InOrder, Overtaking;
    RunLives(states, i);
    hide ClientsLive;
    assert StepAt(states, i);
    var d :| Enabled(states[i], d) && states[i + 1] == Apply(states[i], d);
    StepOrder(states[i], d, c);
    forall e | Enabled(states[i], e) && states[i + 1] == Apply(states[i], e)
      ensures InOrder(states[i + 1].clients[c]) <==> InOrder(states[i].clients[c]) && !Overtaking(states[i], e, c)
    {
      StepOrder(states[i], e, c);
    }
  }

  lemma NewInOrder(states: seq<State>, i: nat, c: ClientId)
    requires Run(states) && i + 1 < |states| && |states[i].clients| <= c < |states[i + 1].clients|
    ensures InOrder(states[i + 1].clients[c])
  {
    hide Apply, Enabled, AllIncrease, RestAbove;
    assert StepAt(states, i);
    var e :| Enabled(states[i], e) && states[i + 1] == Apply(states[i], e);
    NewClientsLive(states[i], e, c);
  }

  /** For every run and every client: ids increase on its transports, and those still to be sent are
      above them, exactly when no request overtook another on it between taking its id and going out. */
  lemma {:induction false} IdsIncreaseUnlessOvertakenIn(states: seq<State>, n: nat, c: ClientId)
    requires Run(states) && n < |states| && c < |states[n].clients|
    ensures InOrder(states[n].clients[c]) <==> forall i :: 0 <= i < n ==> !OvertakesAt(states, i, c)
  {
    hide InOrder, StepAt, OvertakesAt;
    if n > 0 {
      if c < |states[n - 1].clients| {
        IdsIncreaseUnlessOvertakenIn(states, n - 1, c);
        StepOrderAt(states, n - 1, c);
      } else {
        NewInOrder(states, n - 1, c);
        forall i | 0 <= i < n ensures !OvertakesAt(states, i, c) { NotYet(states, i, n - 1, c); }
      }
    }
  }

  /** A client that is not there yet was not there before. */
  lemma {:induction false} NotYet(states: seq<State>, i: nat, n: nat, c: ClientId)
    requires Run(states) && i <= n && n + 1 < |states| && |states[n].clients| <= c
    ensures |states[i].clients| <= c && !OvertakesAt(states, i, c)
    decreases n - i
  {
    hide Apply, Enabled;
    if i < n {
      NotYet(states, i + 1, n, c);
      assert StepAt(states, i);
      var e :| Enabled(states[i], e) && states[i + 1] == Apply(states[i], e);
      StepAddsClients(states[i], e);
    }
  }

  // ----- advertising needs servers that are apart -----

  /** Upstreams for which Build has the outcomes of OnlyTwo. */
  function TwoUpstreams(n: nat, a: nat, t: Tool, b: nat, u: Tool): (ups: seq<Upstream>)
    ensures |ups| == n
  {
    seq(n, k => if k == a then Answers([t]) else if k == b then NO_UPSTREAM.(cached := [u]) else NO_UPSTREAM)
  }

  lemma TwoOutcomes(n: nat, a: nat, t: Tool, b: nat, u: Tool)
    ensures OutcomesFor(TwoUpstreams(n, a, t, b, u), 0) == OnlyTwo(n, a, t, a, b, u)
  {
    AnswersLive([t]);
    assert Fetched(NO_UPSTREAM.answer).1 == None;
    hide Fetched;
  }

  /** The i-th registry of the state has this configuration and advertises what is not connected. */
  ghost predicate Misleads(s: State, r: RegId, cfgs: seq<ServerConfig>) {
    Reached(s) && r < |s.regs| && s.regs[r].cfgs == cfgs && !Honest(s.regs[r].reg)
  }

  /** The state after a first Configure by thread 0. */
  lemma FirstConfigure(cfgs: seq<ServerConfig>, ups: seq<Upstream>) returns (s: State)
    requires cfgs != [] && |ups| == |cfgs|
    ensures Reached(s) && s.handler.registry == Some(0) && s.threads.Keys == {0} && s.clients == ClientsFor(ups)
    ensures s.threads[0].ConfigureSwapped?
    ensures |s.regs| == 1 && s.regs[0].cfgs == cfgs && s.regs[0].reg == Built(cfgs, OutcomesFor(ups, 0))
  {
    InitialReached();
    hide Reached, Built, OutcomesFor, ClientsFor;
    var e1, e2, e3 := StartConfigure(0, cfgs), FinishBuild(0, ups), Step.SwapConfigured(0);
    Extend(INITIAL, e1);
    var s1 := Apply(INITIAL, e1);
    Extend(s1, e2);
    var s2 := Apply(s1, e2);
    Extend(s2, e3);
    s := Apply(s2, e3);
  }

  lemma ClashReached(cfgs: seq<ServerConfig>, a: nat, b: nat) returns (s: State)
    requires a < b < |cfgs| && !Apart(cfgs[a].server, cfgs[b].server)
    ensures Misleads(s, 0, cfgs) && s.handler.registry == Some(0)
  {
    hide Reached, Built, OutcomesFor, OnlyTwo, TwoUpstreams, Honest, ClientsFor, Apart;
    var t, u := Clash(cfgs[a].server, cfgs[b].server);
    TwoOutcomes(|cfgs|, a, PlainTool(t), b, PlainTool(u));
    ClashMisleads(cfgs, a, t, a, b, u);
    s := FirstConfigure(cfgs, TwoUpstreams(|cfgs|, a, PlainTool(t), b, PlainTool(u)));
  }

  /** For a configuration: in every reachable state, everything its registries advertise as live is
      connected, exactly when its servers are apart. */
  lemma AdvertisingIsExact(cfgs: seq<ServerConfig>)
    ensures AllApart(cfgs) <==> forall s, r :: !Misleads(s, r, cfgs)
  {
    if AllApart(cfgs) {
      forall s, r ensures !Misleads(s, r, cfgs) {
        if Misleads(s, r, cfgs) { HonestWhileApart(s, r); }
      }
    } else {
      hide Apart;
      var a, b :| 0 <= a < b < |cfgs| && !Apart(cfgs[a].server, cfgs[b].server);
      var s := ClashReached(cfgs, a, b);
    }
  }

  lemma HonestWhileApart(s: State, r: RegId)
    requires Reached(s) && r < |s.regs| && AllApart(s.regs[r].cfgs)
    ensures Honest(s.regs[r].reg)
  {
    hide Reached, AllApart;
    var caps := s.regs[r].reg.caps;
    forall i | 0 <= i < |caps| && !(OFFLINE <= caps[i].description.text)
      ensures caps[i].name in s.regs[r].reg.actions && s.regs[r].reg.actions[caps[i].name].client.Some?
    {
      AdvertisedLiveIsConnected(s, r, i);
    }
  }

  // ----- overtaking does happen -----

  /** The current registry has one action of a connected client. */
  ghost predicate Serves(s: State, key: string, c: ClientId) {
    && s.handler.registry.Some? && s.handler.registry.value < |s.regs|
    && key in s.regs[s.handler.registry.value].reg.actions
    && s.regs[s.handler.registry.value].reg.actions[key].client == Some(c)
    && !Dead(s, Some(c))
  }

  lemma OneActionBuilt(cfg: ServerConfig, tool: Tool)
    ensures var outs := OutcomesFor([Answers([tool])], 0); var key := ActionName(cfg.server, tool.name);
      key in Built([cfg], outs).actions && Built([cfg], outs).actions[key].client == Some(0)
  {
    AnswersLive([tool]);
    OneOutcome(tool);
    hide OutcomesFor, Fetched, Listings, IndexOf, MakeListing;
    OneListing(cfg, Live([tool], 0));
    var ls := Listings([cfg], [Live([tool], 0)]);
    IndexIsLast(ls, ActionName(cfg.server, tool.name));
    ListedEntry(cfg, tool);
    assert ls == [MakeListing(cfg, Some(0), tool)];
    assert ls[0].action.name == ActionName(cfg.server, tool.name);
    assert IndexOf(ls)[ActionName(cfg.server, tool.name)] == ls[0].entry;
    assert Built([cfg], [Live([tool], 0)]).actions == IndexOf(ls);
  }

  lemma OneOutcome(tool: Tool)
    ensures OutcomesFor([Answers([tool])], 0) == [Live([tool], 0)]
  {
    AnswersLive([tool]);
    hide Fetched;
  }

  lemma ListedEntry(cfg: ServerConfig, tool: Tool)
    ensures MakeListing(cfg, Some(0), tool).action.name == ActionName(cfg.server, tool.name)
    ensures MakeListing(cfg, Some(0), tool).entry.client == Some(0)
  {
  }

  lemma OneListing(cfg: ServerConfig, o: Outcome)
    ensures Listings([cfg], [o]) == ServerListings(cfg, o)
  {
    hide ServerListings;
    ListingsStep([cfg], [o], 0);
    NothingListed([cfg], [o]);
    hide Listings;
    assert [cfg][..1] == [cfg] && [o][..1] == [o];
    }

  /** A client as fetchTools returns it when all goes well at once. */
  ghost predicate JustFetched(c: ClientState) {
    c.tp == Some(0) && c.idCounter == 2 && c.taken == map[] && |c.made| == 1 && !Cancelled(c.made[0])
      && |c.made[0].sent| == 3
  }

  lemma ServingRun(cfg: ServerConfig, tool: Tool) returns (s: State)
    ensures Reached(s) && Serves(s, ActionName(cfg.server, tool.name), 0) && Fresh(s, 1) && Fresh(s, 2)
    ensures |s.clients| == 1 && JustFetched(s.clients[0])
  {
    hide Reached, Built, OutcomesFor, Fetched;
    OneActionBuilt(cfg, tool);
    s := FirstConfigure([cfg], [Answers([tool])]);
    FetchedOnce(tool);
    OneClient(tool);
    hide ClientsFor;
  }

  lemma OneClient(tool: Tool)
    ensures ClientsFor([Answers([tool])]) == [Fetched(Answers([tool]).answer).0]
  {
    hide Fetched;
  }

  lemma FetchedOnce(tool: Tool)
    ensures JustFetched(Fetched(Answers([tool]).answer).0)
  {
    var yes := InitSucceeds(true, false);
    var c0 := Connected(NEW_CLIENT, ConnectAnswer(yes, yes, GetFails)).0;
    assert c0.tp == Some(0) && |c0.made| == 1 && |c0.made[0].sent| == 2;
  }

  /** An Execute that finds its client alive. */
  lemma BecomesReady(s: State, t: Tid, key: string, c: ClientId)
    requires Reached(s) && Serves(s, key, c) && Fresh(s, t)
    ensures Reached(Become(s, t, Ready(s.handler.registry.value, Some(c))))
  {
    hide Reached, Dead;
    var r := s.handler.registry.value;
    Extend(s, StartExecute(t));
    var s1 := Become(s, t, Executing(r));
    Extend(s1, LookUp(t, key));
    var s2 := Become(s1, t, Calling(r, Some(c), s.regs[r].reg.actions[key].cfg));
    assert !Dead(s2, Some(c)) by { SameDead(s, s2, c); }
    Extend(s2, FindAlive(t));
    assert Become(s2, t, Ready(r, Some(c))) == Become(s, t, Ready(r, Some(c)));
  }

  lemma SameDead(s: State, s': State, c: ClientId)
    requires s'.clients == s.clients
    ensures Dead(s', Some(c)) == Dead(s, Some(c))
  {
  }

  /** Two Executes are ready on the same client. */
  lemma TwoReady(cfg: ServerConfig, tool: Tool) returns (s: State)
    ensures Reached(s) && |s.clients| == 1 && JustFetched(s.clients[0])
    ensures forall t :: 1 <= t <= 2 ==> t in s.threads && s.threads[t].Ready? && s.threads[t].client == Some(0)
  {
    var key := ActionName(cfg.server, tool.name);
    var s0 := ServingRun(cfg, tool);
    hide Reached;
    BecomesReady(s0, 1, key, 0);
    var s1 := Become(s0, 1, Ready(s0.handler.registry.value, Some(0)));
    BecomesReady(s1, 2, key, 0);
    s := Become(s1, 2, Ready(s0.handler.registry.value, Some(0)));
  }

  /** Two Executes share a client; the second to take an id sends first, and the ids on the transport
      go down. */
  lemma CallsMayOvertake(cfg: ServerConfig, tool: Tool) returns (s: State)
    ensures Reached(s) && |s.clients| == 1 && |s.clients[0].made| == 1 && !IdsIncrease(s.clients[0].made[0].sent)
  {
    var s0 := TwoReady(cfg, tool);
    hide Reached;
    Extend(s0, Step.NextId(1));
    var s1 := UpdateClient(s0, 0, Take(s0.clients[0], 1));
    Extend(s1, Step.NextId(2));
    var s2 := UpdateClient(s1, 0, Take(s1.clients[0], 2));
    Extend(s2, Step.SendRequest(2, true));
    var s3 := Sending(s2, 2, 0, true);
    Extend(s3, Step.SendRequest(1, true));
    s := Sending(s3, 1, 0, true);
    assert s.clients[0].made[0].sent[3].id == Some(4) && s.clients[0].made[0].sent[4].id == Some(3);
  }
}
