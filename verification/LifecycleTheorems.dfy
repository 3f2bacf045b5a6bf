/** What holds in every reachable state of the plugin, and across every step from one. */
module LifecycleTheorems {
  import opened Options
  import opened Schema
  import opened Text
  import opened Naming
  import opened RegistrySpec
  import opened McpClient
  import opened Lifecycle
  import opened LifecycleInvariant
  import opened LifecycleSteps

  /** Some step leads from each state of a run to the next. */
  ghost predicate StepAt(states: seq<State>, i: nat)
    requires i + 1 < |states|
  {
    exists e :: Enabled(states[i], e) && states[i + 1] == Apply(states[i], e)
  }

  ghost predicate Run(states: seq<State>) {
    |states| > 0 && states[0] == INITIAL && forall i :: 0 <= i < |states| - 1 ==> StepAt(states, i)
  }

  /** `s` is where some run ends. */
  ghost predicate Reached(s: State) {
    exists states :: Run(states) && states[|states| - 1] == s
  }

  lemma InitialReached()
    ensures Reached(INITIAL)
  {
    assert Run([INITIAL]);
  }

  lemma Extend(s: State, e: Step)
    requires Reached(s) && Enabled(s, e)
    ensures Reached(Apply(s, e))
  {
    hide Apply, Enabled;
    var states :| Run(states) && states[|states| - 1] == s;
    var more := states + [Apply(s, e)];
    forall i | 0 <= i < |more| - 1 ensures StepAt(more, i) {
      if i < |states| - 1 {
        assert StepAt(states, i);
        var d :| Enabled(states[i], d) && states[i + 1] == Apply(states[i], d);
        assert Enabled(more[i], d) && more[i + 1] == Apply(more[i], d);
      } else {
        assert Enabled(more[i], e) && more[i + 1] == Apply(more[i], e);
      }
    }
    assert Run(more) && more[|more| - 1] == Apply(s, e);
  }

  lemma {:induction false} RunInv(states: seq<State>, n: nat)
    requires Run(states) && n < |states|
    ensures Inv(states[n])
  {
    hide Inv, Apply, Enabled;
    if n == 0 {
      assert Inv(INITIAL) by { InitialInv(); }
    } else {
      RunInv(states, n - 1);
      assert StepAt(states, n - 1);
      var e :| Enabled(states[n - 1], e) && states[n] == Apply(states[n - 1], e);
      StepKeeps(states[n - 1], e);
    }
  }

  lemma InitialInv()
    ensures Inv(INITIAL)
  {
  }

  /** Every reachable state satisfies the invariant. */
  lemma ReachedInv(s: State)
    requires Reached(s)
    ensures Inv(s)
  {
    hide Inv, StepAt;
    var states :| Run(states) && states[|states| - 1] == s;
    RunInv(states, |states| - 1);
  }

  // ----- ownership -----

  predicate Holds(s: State, r: RegId, c: ClientId) {
    r < |s.regs| && c in ClientsOf(s.regs[r].reg.actions)
  }

  /** No client is stored in the entries of two registries, and every stored client has a transport. */
  lemma OneRegistryPerClient(s: State)
    requires Reached(s)
    ensures forall q: nat, r: nat, c: nat :: Holds(s, q, c) && Holds(s, r, c) ==> q == r
    ensures forall r: nat, c: nat :: Holds(s, r, c) ==> c < |s.clients| && Usable(s.clients[c])
  {
    ReachedInv(s);
    hide Reached, ThreadOk, ResultOk, RefreshOk, PointersOk;
    forall r: nat, c: nat | Holds(s, r, c) ensures OwnsClient(s, r, c) {
      assert RegOk(s, r);
      hide RecordOk, AllApart, OwnsClient;
    }
    hide Inv, ClientsOf;
  }

  /** Execute and the reconnect loop hold a client only if it has a transport, so neither testing it nor
      sending on it can fail on a nil one. */
  lemma CallersHoldUsableClients(s: State, t: Tid)
    requires Reached(s) && t in s.threads
    ensures s.threads[t].Calling? && s.threads[t].client.Some? ==> Held(s, s.threads[t].client.value)
    ensures Target(s.threads[t]).Some? ==> Held(s, Target(s.threads[t]).value)
  {
    ReachedInv(s);
    hide Reached;
    HeldByThread(s, t);
  }

  /** A client that exists and has a transport. */
  predicate Held(s: State, c: ClientId) {
    c < |s.clients| && Usable(s.clients[c])
  }

  lemma HeldByThread(s: State, t: Tid)
    requires Inv(s) && t in s.threads
    ensures s.threads[t].Calling? && s.threads[t].client.Some? ==> Held(s, s.threads[t].client.value)
    ensures Target(s.threads[t]).Some? ==> Held(s, Target(s.threads[t]).value)
  {
    assert ThreadOk(s, t);
    hide Inv, AllApart, PendingOk, Lifecycle.Reachable;
  }

  /** `installed` records every change of the handler's pointer, `configs` every change of its configuration. */
  lemma HistoryIsComplete(s: State, e: Step)
    requires Inv(s) && Enabled(s, e)
    ensures PointerStep(s, Apply(s, e))
  {
    hide RegOk, ThreadOk, ResultOk, NewRecord, Connected, Degraded;
    match e
    case Bootstrap(cfgs, ups) => BeforeBootstrap(s);
    case Reconnect(t, answer) => ReconnectTouches(s, t, answer);
    case SwapConfigured(t) =>
    case CommitRefresh(t) =>
    case _ => OtherStepsLeavePointer(s, e);
  }

  lemma OtherStepsLeavePointer(s: State, e: Step)
    requires Enabled(s, e)
    requires !e.Bootstrap? && !e.Reconnect? && !e.SwapConfigured? && !e.CommitRefresh?
    ensures PointerStep(s, Apply(s, e))
  {
    hide NewRecord, ClientsFor, Usable, Request, Closed, Strip, Dead;
  }

  ghost predicate PointerStep(s: State, s': State) {
    && ((s'.installed == s.installed && s'.handler.registry == s.handler.registry)
        || (s'.handler.registry.Some? && s'.installed == s.installed + [s'.handler.registry.value]))
    && ((s'.configs == s.configs && s'.handler.serverCfgs == s.handler.serverCfgs)
        || s'.configs == s.configs + [s'.handler.serverCfgs])
  }

  lemma ReconnectTouches(s: State, t: Tid, answer: ConnectAnswer)
    requires Enabled(s, Reconnect(t, answer))
    ensures var s' := Apply(s, Reconnect(t, answer));
      s' == s.(regs := s'.regs, clients := s'.clients, owner := s'.owner, threads := s'.threads)
        && s.clients <= s'.clients
  {
    hide Connected, WithClient, Dead;
  }

  /** Each registry is installed at most once, and the handler points to the last one installed. */
  lemma InstalledOnce(s: State)
    requires Reached(s)
    ensures forall i, j :: 0 <= i < j < |s.installed| ==> s.installed[i] != s.installed[j]
    ensures s.handler.registry == if s.installed == [] then None else Some(s.installed[|s.installed| - 1])
  {
    ReachedInv(s);
    hide RegOk, ThreadOk, ResultOk;
  }

  /** Once there is a registry, there always is. */
  lemma NeverNilAgain(s: State, e: Step)
    requires Reached(s) && Enabled(s, e) && s.handler.registry.Some?
    ensures Apply(s, e).handler.registry.Some?
  {
    ReachedInv(s);
    StepKeeps(s, e);
    HistoryIsComplete(s, e);
    hide Reached, Apply, Enabled, RegOk, ThreadOk, ResultOk;
  }

  // ----- closing -----

  /** What CloseRejected and CloseReplaced close is rejected or replaced, so it is not, and will not
      again be, the handler's registry; and no client of any other registry is touched. */
  lemma ClosingSparesOthers(s: State, t: Tid, e: Step)
    requires Reached(s) && (e == CloseRejected(t) || e == CloseReplaced(t)) && Enabled(s, e)
    ensures var r := s.threads[t].r;
      && (s.regs[r].status == Rejected || Replaced(s, r))
      && s.handler.registry != Some(r)
      && forall q: nat, c: nat :: q != r && Holds(s, q, c) ==>
           c < |s.clients| && Apply(s, e).clients[c] == s.clients[c]
  {
    var r := ClosedBy(s, t, e);
    hide Enabled, Replaced, Apply, CloseAll, ClientsOf, Usable, Holds;
    OneRegistryPerClient(s);
    hide Reached;
    ClosingClients(s, t, e);
    forall q: nat, c: nat | q != r && Holds(s, q, c) ensures c < |s.clients| && Apply(s, e).clients[c] == s.clients[c] {
      assert !Holds(s, r, c);
      ClosedOnlyHeld(s, r, c);
    }
  }

  /** What is being closed is rejected or replaced, and not current. */
  lemma ClosedBy(s: State, t: Tid, e: Step) returns (r: RegId)
    requires Reached(s) && (e == CloseRejected(t) || e == CloseReplaced(t)) && Enabled(s, e)
    ensures r == s.threads[t].r < |s.regs| && (s.regs[r].status == Rejected || Replaced(s, r))
      && s.handler.registry != Some(r)
  {
    ReachedInv(s);
    hide Reached;
    r := s.threads[t].r;
    CloserHas(s, t, e);
    NotCurrent(s, r);
    hide Inv, Enabled, Replaced;
  }

  lemma CloserHas(s: State, t: Tid, e: Step)
    requires Inv(s) && (e == CloseRejected(t) || e == CloseReplaced(t)) && Enabled(s, e)
    ensures var r := s.threads[t].r; r < |s.regs| && (s.regs[r].status == Rejected || Replaced(s, r))
  {
    assert ThreadOk(s, t);
    hide Inv, Replaced, CurrentDuring, AllApart, OwnsClient;
  }

  lemma ClosedOnlyHeld(s: State, r: RegId, c: ClientId)
    requires r < |s.regs| && c < |s.clients| && !Holds(s, r, c)
    ensures CloseAll(s, r).clients[c] == s.clients[c]
  {
    hide ClientsOf;
  }

  lemma ClosingClients(s: State, t: Tid, e: Step)
    requires (e == CloseRejected(t) || e == CloseReplaced(t)) && Enabled(s, e)
    ensures Apply(s, e).clients == CloseAll(s, s.threads[t].r).clients
  {
    hide CloseAll;
  }

  lemma NotCurrent(s: State, r: RegId)
    requires Inv(s) && r < |s.regs| && (s.regs[r].status == Rejected || Replaced(s, r))
    ensures s.handler.registry != Some(r)
  {
    assert PointersOk(s);
    hide Inv;
    var n := |s.installed| - 1;
    if s.handler.registry.Some? { assert s.regs[s.installed[n]].status == Installed; }
    if Replaced(s, r) {
      var i :| 0 <= i < n && s.installed[i] == r;
      assert s.installed[i] != s.installed[n];
    }
  }

  lemma OtherStepsKeepClients(s: State, e: Step)
    requires Enabled(s, e) && !e.Bootstrap? && !e.FinishBuild? && !e.Reconnect? && !e.NextId? && !e.SendRequest?
      && !e.Drop?
    requires !e.CloseRejected? && !e.CloseReplaced?
    ensures Apply(s, e).clients == s.clients
  {
    hide Strip, Dead, Degraded, Usable;
  }

  lemma BuildTouches(s: State, e: Step)
    requires Enabled(s, e) && (e.Bootstrap? || e.FinishBuild?)
    ensures s.clients <= Apply(s, e).clients
  {
    hide NewRecord, ClientsFor;
  }

  lemma RequestStays(s: State, e: Step, c: ClientId)
    requires Enabled(s, e) && (e.NextId? || e.SendRequest?) && !Dead(s, Some(c))
    ensures !Dead(Apply(s, e), Some(c))
  {
    hide Strip;
  }

  lemma DropStays(s: State, d: ClientId, c: ClientId)
    requires Enabled(s, Drop(d)) && d != c && !Dead(s, Some(c))
    ensures !Dead(Apply(s, Drop(d)), Some(c))
  {
    hide EndAt;
  }

  lemma SameClientStays(s: State, s': State, c: ClientId)
    requires s.clients <= s'.clients && !Dead(s, Some(c))
    ensures !Dead(s', Some(c))
  {
    hide Usable;
    assert s'.clients[c] == s.clients[c];
  }

  /** No step but a close, or the loss of the connection itself, disconnects a client. */
  lemma StaysConnected(s: State, e: Step, c: ClientId)
    requires Enabled(s, e) && !Dead(s, Some(c)) && e != Drop(c) && !e.CloseRejected? && !e.CloseReplaced?
    ensures !Dead(Apply(s, e), Some(c))
  {
    hide Apply, Enabled, Dead;
    if e.NextId? || e.SendRequest? {
      RequestStays(s, e, c);
    } else if e.Drop? {
      DropStays(s, e.c, c);
    } else {
      ClientsStayPut(s, e);
      SameClientStays(s, Apply(s, e), c);
    }
  }

  lemma ClientsStayPut(s: State, e: Step)
    requires Enabled(s, e) && !e.NextId? && !e.SendRequest? && !e.Drop? && !e.CloseRejected? && !e.CloseReplaced?
    ensures s.clients <= Apply(s, e).clients
  {
    hide Apply, Enabled;
    if e.Bootstrap? || e.FinishBuild? {
      BuildTouches(s, e);
    } else if e.Reconnect? {
      ReconnectTouches(s, e.t, e.answer);
    } else {
      OtherStepsKeepClients(s, e);
    }
  }

  /** The only event that disconnects a client of the current registry is the loss of its own connection. */
  lemma CurrentStaysConnected(s: State, e: Step, c: ClientId)
    requires Reached(s) && Enabled(s, e) && s.handler.registry.Some?
    requires Holds(s, s.handler.registry.value, c) && !Dead(s, Some(c))
    ensures Dead(Apply(s, e), Some(c)) ==> e == Drop(c)
  {
    hide Reached, Holds, Replaced, Apply, Enabled;
    if e.CloseRejected? || e.CloseReplaced? {
      ClosingSparesOthers(s, e.t, e);
      ClosingAddsNoClients(s, e.t, e);
    } else if e != Drop(c) {
      StaysConnected(s, e, c);
    }
  }

  lemma ClosingAddsNoClients(s: State, t: Tid, e: Step)
    requires (e == CloseRejected(t) || e == CloseReplaced(t)) && Enabled(s, e)
    ensures |Apply(s, e).clients| == |s.clients|
  {
  }

  // ----- refreshing -----

  /** `refreshing` is set exactly while a refresh is in flight, and there is at most one. */
  lemma OneRefreshAtATime(s: State)
    requires Reached(s)
    ensures s.handler.refreshing <==> exists t :: t in s.threads && InFlight(s.threads[t])
    ensures forall t, u :: t in s.threads && u in s.threads && InFlight(s.threads[t]) && InFlight(s.threads[u]) ==>
      t == u
  {
    ReachedInv(s);
    hide RegOk, ThreadOk, ResultOk, PointersOk, InFlight;
  }

  /** A registry that a refresh installed was built with every server live. */
  lemma RefreshInstallsFullyLive(s: State, r: RegId)
    requires Reached(s) && r < |s.regs| && s.regs[r].refreshed && s.regs[r].status == Installed
    ensures s.regs[r].reg.failed == [] && s.regs[r].reg.offline == []
    ensures |s.regs[r].outs| == |s.regs[r].cfgs| && forall k :: 0 <= k < |s.regs[r].outs| ==> s.regs[r].outs[k].Live?
  {
    ReachedInv(s);
    assert RegOk(s, r);
    var rec := s.regs[r];
    hide Inv, EntriesOk, CapsOk, Listings, IndexOf, OwnsClient, AllApart;
    forall k | 0 <= k < |rec.outs| ensures rec.outs[k].Live? {
      HavingMember(rec.cfgs, rec.outs, IsFailed, rec.cfgs[k]);
      HavingMember(rec.cfgs, rec.outs, IsOffline, rec.cfgs[k]);
    }
  }

  // ----- answers -----

  /** Every call returned the default set, when no registry was installed before it began, or the
      snapshot of a registry that was the handler's at some moment of the call. */
  lemma AnswersAreCurrent(s: State, k: nat)
    requires Reached(s) && k < |s.results|
    ensures var res := s.results[k];
      && (res.answer.None? ==> res.since == 0 && res.caps == [])
      && (res.answer.Some? ==>
        res.until <= |s.installed| && CurrentDuring(s.installed[..res.until], res.since, res.answer.value))
  {
    ReachedInv(s);
    assert ResultOk(s, s.results[k]);
    hide CapsOk, CurrentDuring, Strippable, Inv;
  }

  /** The client argument with which a listing looks as it does after its server was stripped. */
  function Shown(o: Outcome, isStripped: bool): Option<ClientId> {
    if o.Offline? && isStripped then Some(0) else ClientOf(o)
  }

  ghost predicate CapsAre(rec: Record, caps: seq<Action>, stripped: set<string>) {
    && |rec.cfgs| == |rec.outs| && |caps| == |Listings(rec.cfgs, rec.outs)|
    && forall i, k, j :: 0 <= i < |caps| && FromTool(rec, i, k, j) ==>
      caps[i] == MakeAction(rec.cfgs[k], Shown(rec.outs[k], rec.cfgs[k].server in stripped), Tools(rec.outs[k])[j])
  }

  /** Position i of the list is tool j of server k. */
  ghost predicate FromTool(rec: Record, i: int, k: int, j: int) {
    && 0 <= k < |rec.cfgs| == |rec.outs| && 0 <= j < |Tools(rec.outs[k])| && 0 <= i < |Listings(rec.cfgs, rec.outs)|
    && Listings(rec.cfgs, rec.outs)[i] == MakeListing(rec.cfgs[k], ClientOf(rec.outs[k]), Tools(rec.outs[k])[j])
  }

  lemma OfflineServer(rec: Record, k: nat)
    requires |rec.cfgs| == |rec.outs| && rec.base == Built(rec.cfgs, rec.outs) && AllApart(rec.cfgs) && k < |rec.cfgs|
    requires Strippable(rec.base, rec.cfgs[k].server)
    ensures rec.outs[k].Offline?
  {
    hide Listings, IndexOf, Apart;
    var i :| 0 <= i < |rec.base.offline| && rec.base.offline[i].server == rec.cfgs[k].server;
    HavingMember(rec.cfgs, rec.outs, IsOffline, rec.base.offline[i]);
    var m :| 0 <= m < |rec.cfgs| && rec.cfgs[m] == rec.base.offline[i] && StatusOf(rec.outs[m]) == IsOffline;
    if m != k { ApartPair(rec.cfgs, m, k); }
  }

  lemma OfflineNamed(rec: Record, server: string)
    requires |rec.cfgs| == |rec.outs| && rec.base == Built(rec.cfgs, rec.outs) && Strippable(rec.base, server)
    ensures Named(rec.cfgs, server)
  {
    hide Listings, IndexOf;
    var i :| 0 <= i < |rec.base.offline| && rec.base.offline[i].server == server;
    HavingMember(rec.cfgs, rec.outs, IsOffline, rec.base.offline[i]);
  }

  lemma CapsAreAsShown(rec: Record, caps: seq<Action>, stripped: set<string>)
    requires |rec.cfgs| == |rec.outs| && rec.base == Built(rec.cfgs, rec.outs) && AllApart(rec.cfgs)
    requires CapsOk(rec.base.caps, caps, stripped) && forall n :: n in stripped ==> Strippable(rec.base, n)
    ensures CapsAre(rec, caps, stripped)
  {
    forall i, k, j | 0 <= i < |caps| && FromTool(rec, i, k, j)
      ensures caps[i]
        == MakeAction(rec.cfgs[k], Shown(rec.outs[k], rec.cfgs[k].server in stripped), Tools(rec.outs[k])[j])
    {
      OneAsShown(rec, stripped, i, k, j);
    }
  }

  lemma OneAsShown(rec: Record, stripped: set<string>, i: nat, k: nat, j: nat)
    requires |rec.cfgs| == |rec.outs| && rec.base == Built(rec.cfgs, rec.outs) && AllApart(rec.cfgs)
    requires FromTool(rec, i, k, j) && forall n :: n in stripped ==> Strippable(rec.base, n)
    ensures StrippedBy(rec.base.caps[i], stripped)
      == MakeAction(rec.cfgs[k], Shown(rec.outs[k], rec.cfgs[k].server in stripped), Tools(rec.outs[k])[j])
  {
    var own, tool := rec.cfgs[k].server, Tools(rec.outs[k])[j];
    var a := rec.base.caps[i];
    assert a == MakeAction(rec.cfgs[k], ClientOf(rec.outs[k]), tool);
    forall n | n in stripped ensures Named(rec.cfgs, n) { OfflineNamed(rec, n); }
    SelectsOwn(a, rec.cfgs, k, tool.name, stripped);
    if own in stripped {
      OfflineServer(rec, k);
      assert TrimPrefix(OFFLINE + tool.description, OFFLINE) == tool.description;
    }
    hide SelectedBy, Built, Listings, Params, Companions, Strippable, Apart, AllApart, FromTool;
  }

  /** Every answer shows each server whole: as Build listed it or, if it came from the cache and was
      stripped since, as a live Build would list it. Half a server is never stripped. */
  lemma AnswersAreNeverHalfDone(s: State, k: nat)
    requires Reached(s) && k < |s.results| && s.results[k].answer.Some?
    ensures s.results[k].answer.value < |s.regs|
    ensures var rec := s.regs[s.results[k].answer.value];
      AllApart(rec.cfgs) ==> CapsAre(rec, s.results[k].caps, s.results[k].stripped)
  {
    ReachedInv(s);
    assert ResultOk(s, s.results[k]);
    var r := s.results[k].answer.value;
    assert RegOk(s, r);
    if AllApart(s.regs[r].cfgs) {
      hide Inv, CapsOk, EntriesOk, CurrentDuring, Strippable, OwnsClient, CapsAre, Built, AllApart;
      CapsAreAsShown(s.regs[r], s.results[k].caps, s.results[k].stripped);
    }
  }

  /** The same for the list that a registry holds now. */
  lemma ListIsAsShown(s: State, r: RegId)
    requires Reached(s) && r < |s.regs| && AllApart(s.regs[r].cfgs)
    ensures CapsAre(s.regs[r], s.regs[r].reg.caps, s.regs[r].stripped)
  {
    ReachedInv(s);
    assert RegOk(s, r);
    hide Inv, CapsOk, EntriesOk, Strippable, OwnsClient, CapsAre, Built, AllApart;
    CapsAreAsShown(s.regs[r], s.regs[r].reg.caps, s.regs[r].stripped);
  }

  /** Advertised live implies connected: an action listed without the offline prefix has a client. */
  lemma AdvertisedLiveIsConnected(s: State, r: RegId, i: nat)
    requires Reached(s) && r < |s.regs| && AllApart(s.regs[r].cfgs)
    requires i < |s.regs[r].reg.caps| && !(OFFLINE <= s.regs[r].reg.caps[i].description.text)
    ensures var reg := s.regs[r].reg; reg.caps[i].name in reg.actions && reg.actions[reg.caps[i].name].client.Some?
  {
    ReachedInv(s);
    assert RegOk(s, r);
    ListIsAsShown(s, r);
    var rec := s.regs[r];
    assert |rec.reg.caps| == |Listings(rec.cfgs, rec.outs)| by { hide Inv, Reached, RecordOk, Listings, RegOk; }
    var k, j := ListingOrigin(rec.cfgs, rec.outs, i);
    assert RecordOk(rec);
    LiveEntry(rec, i, k, j);
  }

  lemma LiveEntry(rec: Record, i: nat, k: nat, j: nat)
    requires RecordOk(rec) && AllApart(rec.cfgs) && FromTool(rec, i, k, j) && CapsAre(rec, rec.reg.caps, rec.stripped)
    requires i < |rec.reg.caps| && !(OFFLINE <= rec.reg.caps[i].description.text)
    ensures rec.reg.caps[i].name in rec.reg.actions && rec.reg.actions[rec.reg.caps[i].name].client.Some?
  {
    EntryServer(rec.cfgs, rec.outs, i, k, j);
    hide Listings, IndexOf, Params, Companions, AllApart, CapsOk;
    assert rec.reg.caps[i]
      == MakeAction(rec.cfgs[k], Shown(rec.outs[k], rec.cfgs[k].server in rec.stripped), Tools(rec.outs[k])[j]);
    assert rec.reg.caps[i].name == rec.base.caps[i].name;
  }

  // ----- progress -----

  const NO_ANSWER := ConnectAnswer(InitFails(false, false), InitFails(false, false), GetFails)

  const NO_UPSTREAM := Upstream(FetchAnswer(NO_ANSWER, NotPosted, GetFails, NotPosted, false), [])

  /** A step with which thread t goes on. New threads are named `fresh_`. */
  function NextOf(s: State, t: Tid, fresh_: Tid): Step
    requires t in s.threads
  {
    match s.threads[t]
    case ConfigureBuilding(cfgs) => FinishBuild(t, seq(|cfgs|, _ => NO_UPSTREAM))
    case ConfigureBuilt(_, _) => Step.SwapConfigured(t)
    case ConfigureSwapped(_, _) => StartRetry(t, fresh_)
    case ConfigureRetiring(_) => Retire(t, fresh_)
    case RefreshBuilding(cfgs, _, _) => FinishBuild(t, seq(|cfgs|, _ => NO_UPSTREAM))
    case RefreshBuilt(_, _, _, _) => CommitRefresh(t)
    case RefreshRejecting(_, _, _) => CloseRejected(t)
    case RefreshRetiring(_, _, _) => Retire(t, fresh_)
    case RefreshAnswering(_, _) => TakeSnapshot(t)
    case RefreshClearing => ClearRefreshing(t)
    case Answering(_, _) => TakeSnapshot(t)
    case Executing(_) => FinishExecute(t)
    case Calling(_, client, _) => if Dead(s, client) then FindDead(t) else FindAlive(t)
    case Reconnecting(_, _) => Reconnect(t, NO_ANSWER)
    case Ready(_, client) => if Holding(s, t) then Step.SendRequest(t, true) else Step.NextId(t)
    case Looping(_, todo, _, client) =>
      if client.Some? then if Holding(s, t) then Step.SendRequest(t, true) else StripServer(t)
      else if todo != [] then Reconnect(t, NO_ANSWER)
      else NextRound(t)
    case Closing(_) => CloseReplaced(t)
  }

  /** The step moves thread t on, or takes or sends its id. */
  predicate Goes(s: State, s': State, t: Tid)
    requires t in s.threads
  {
    t !in s'.threads || s'.threads[t] != s.threads[t] || Holding(s', t) != Holding(s, t)
  }

  /** What the guard of a thread's next step asks for, by the invariant. */
  lemma NextIsThere(s: State, t: Tid)
    requires Inv(s) && t in s.threads
    ensures ThreadOk(s, t) && (s.handler.registry.None? ==> s.installed == [])
  {
    assert PointersOk(s);
    hide ThreadOk, RegOk, ResultOk;
  }

  lemma NextEnabled(s: State, t: Tid, fresh_: Tid)
    requires Inv(s) && t in s.threads && Fresh(s, fresh_)
    ensures Enabled(s, NextOf(s, t, fresh_))
  {
    NextIsThere(s, t);
    hide Inv;
    if Target(s.threads[t]).Some? { CallerNext(s, t, fresh_); } else { OtherNext(s, t, fresh_); }
  }

  lemma CallerNext(s: State, t: Tid, fresh_: Tid)
    requires t in s.threads && ThreadOk(s, t) && Target(s.threads[t]).Some?
    ensures Enabled(s, NextOf(s, t, fresh_))
  {
    hide Lifecycle.Reachable, AllApart, PendingOk;
    assert Target(s.threads[t]).value < |s.clients| && Usable(s.clients[Target(s.threads[t]).value]);
    assert s.threads[t].r < |s.regs| && (s.threads[t].Looping? ==> s.threads[t].todo != []);
    hide ThreadOk, Usable, Dead;
  }

  lemma OtherNext(s: State, t: Tid, fresh_: Tid)
    requires t in s.threads && ThreadOk(s, t) && Target(s.threads[t]).None? && Fresh(s, fresh_)
    requires s.handler.registry.None? ==> s.installed == []
    ensures Enabled(s, NextOf(s, t, fresh_))
  {
    hide CurrentDuring, Replaced, Lifecycle.Reachable, AllApart, PendingOk, OwnsClient, Usable, Dead;
  }

  lemma NextMoves(s: State, t: Tid, fresh_: Tid)
    requires t in s.threads && Fresh(s, fresh_) && Enabled(s, NextOf(s, t, fresh_))
    ensures Goes(s, Apply(s, NextOf(s, t, fresh_)), t)
  {
    hide NewRecord, ClientsFor, OutcomesFor, Strip, Degraded, CloseAll, Dead, WithClient;
  }

  /** Every thread has a next step: the registry, server or transport that it relies on is always there,
      so the relation's guards hide no failure. Whether the network lets a Build or a reconnect come to
      that step is another matter: the wait for an SSE endpoint has no time limit. */
  lemma EveryThreadCanGoOn(s: State, t: Tid, fresh_: Tid)
    requires Reached(s) && t in s.threads && Fresh(s, fresh_)
    ensures exists e :: Enabled(s, e) && Goes(s, Apply(s, e), t)
  {
    ReachedInv(s);
    NextEnabled(s, t, fresh_);
    NextMoves(s, t, fresh_);
    hide Inv, Reached, Apply, Enabled;
    var e := NextOf(s, t, fresh_);
    assert Enabled(s, e);
  }
}
