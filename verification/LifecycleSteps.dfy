/** Every step of the plugin keeps the lifecycle invariant. */
module LifecycleSteps {
  import opened Options
  import opened Schema
  import opened Text
  import opened Naming
  import opened RegistrySpec
  import opened McpClient
  import opened Lifecycle
  import opened LifecycleInvariant

  // ----- building blocks -----

  /** Threads come, go or move on, with the refresh bookkeeping; nothing shared changes. */
  lemma ThreadsOnly(s: State, s': State)
    requires Inv(s) && RefreshOk(s')
    requires var h := s.handler.(refreshing := s'.handler.refreshing);
      s' == s.(threads := s'.threads, refresher := s'.refresher, handler := h)
    requires forall u :: u in s'.threads ==> ThreadOk(s', u) || (u in s.threads && s'.threads[u] == s.threads[u])
    ensures Inv(s')
  {
    hide ThreadOk, RegOk, ResultOk, RefreshOk;
    Assemble(s, s');
  }

  lemma BecomeKeeps(s: State, t: Tid, th: Thread)
    requires Inv(s) && ThreadOk(Become(s, t, th), t)
    requires InFlight(th) <==> t in s.threads && InFlight(s.threads[t])
    ensures Inv(Become(s, t, th))
  {
    hide ThreadOk, RegOk, ResultOk;
    ThreadsOnly(s, Become(s, t, th));
  }

  lemma EndKeeps(s: State, t: Tid)
    requires Inv(s) && t in s.threads && !InFlight(s.threads[t])
    ensures Inv(End(s, t))
  {
    hide ThreadOk, RegOk, ResultOk;
    ThreadsOnly(s, End(s, t));
  }

  /** Only clients change, and none loses its transport. */
  lemma ClientsOnly(s: State, s': State)
    requires Inv(s) && s' == s.(clients := s'.clients) && |s'.clients| == |s.clients|
    requires forall c :: 0 <= c < |s.clients| && Usable(s.clients[c]) ==> Usable(s'.clients[c])
    ensures Inv(s')
  {
    hide ThreadOk, RegOk, ResultOk, RefreshOk;
    assert RefreshOk(s') by { RefreshFrame(s, s'); }
    forall r | 0 <= r < |s'.regs| ensures RegOk(s', r) { ClientsFrame(s, s', r); }
    Assemble(s, s');
  }

  lemma RefreshFrame(s: State, s': State)
    requires RefreshOk(s) && s'.threads == s.threads && s'.refresher == s.refresher
      && s'.handler.refreshing == s.handler.refreshing
    ensures RefreshOk(s')
  {
  }

  lemma ClientsFrame(s: State, s': State, r: RegId)
    requires r < |s.regs| && RegOk(s, r)
    requires s' == s.(clients := s'.clients) && |s'.clients| == |s.clients|
    requires forall c :: 0 <= c < |s.clients| && Usable(s.clients[c]) ==> Usable(s'.clients[c])
    ensures RegOk(s', r)
  {
    hide RecordOk, AllApart;
    forall c | c in ClientsOf(s.regs[r].reg.actions) ensures OwnsClient(s', r, c) { assert OwnsClient(s, r, c); }
  }

  ghost predicate Alone(s: State, s': State, u: Tid, r: RegId)
    requires r < |s.regs| && r < |s'.regs|
  {
    && u in s.threads && u in s'.threads && s'.threads[u] == s.threads[u]
    && (s.regs[r].status == Private(u) ==> s'.regs[r].status == Private(u))
    && (s.regs[r].loop == Some(u) ==> s'.regs[r].loop == Some(u) && s'.regs[r].stripped == s.regs[r].stripped)
  }

  /** One registry changes, and threads that may. */
  lemma OneRegistry(s: State, s': State, r: RegId)
    requires Inv(s) && r < |s.regs| && |s'.regs| == |s.regs|
    requires forall q :: 0 <= q < |s.regs| && q != r ==> s'.regs[q] == s.regs[q]
    requires Kept(s.regs[r], s'.regs[r])
    requires s.clients <= s'.clients && s.owner <= s'.owner && s.installed <= s'.installed && s.configs <= s'.configs
    requires s'.results == s.results
    requires PointersOk(s') && RefreshOk(s') && RegOk(s', r)
    requires forall u :: u in s'.threads ==> ThreadOk(s', u) || Alone(s, s', u, r)
    ensures Inv(s')
  {
    hide ThreadOk, RegOk, ResultOk, RefreshOk, PointersOk, Lifecycle.Reachable;
    assert forall q :: 0 <= q < |s.regs| ==> Kept(s.regs[q], s'.regs[q]);
    assert Grows(s, s') by { assert forall c :: 0 <= c < |s.clients| ==> s'.clients[c] == s.clients[c]; }
    forall u | u in s'.threads && !ThreadOk(s', u) ensures Spares(s, s', u) { }
    Assemble(s, s');
  }

  // ----- reading the pointer -----

  /** The handler's registry, when there is one, counts as current from now on. */
  lemma CurrentNow(s: State)
    requires Inv(s)
    ensures s.handler.registry.Some? ==>
      s.handler.registry.value < |s.regs| && CurrentDuring(s.installed, |s.installed|, s.handler.registry.value)
      && s.regs[s.handler.registry.value].status == Installed
    ensures s.handler.registry.None? ==> s.installed == [] && s.configs == []
    ensures s.handler.registry.Some? ==> VersionOk(s, s.handler.serverCfgs, |s.configs| - 1, |s.installed|)
  {
  }

  lemma BeginRefreshKeeps(s: State, t: Tid)
    requires Inv(s) && Fresh(s, t) && Starts(s.handler)
    ensures Inv(Become(s, t, RefreshBuilding(s.handler.serverCfgs, |s.configs| - 1, |s.installed|))
                  .(handler := Begun(s.handler), refresher := Some(t)))
  {
    CurrentNow(s);
    hide RegOk, ResultOk, CurrentDuring, VersionOk, PointersOk;
    ThreadsOnly(s, Become(s, t, RefreshBuilding(s.handler.serverCfgs, |s.configs| - 1, |s.installed|))
                     .(handler := Begun(s.handler), refresher := Some(t)));
  }

  lemma ReadKeeps(s: State, t: Tid)
    requires Inv(s) && Fresh(s, t)
    ensures Inv(Become(s, t, Answering(s.handler.registry, |s.installed|)))
    ensures s.handler.registry.Some? ==> Inv(Become(s, t, Executing(s.handler.registry.value)))
  {
    CurrentNow(s);
    hide RegOk, ResultOk, CurrentDuring, VersionOk, PointersOk, RefreshOk;
    BecomeKeeps(s, t, Answering(s.handler.registry, |s.installed|));
    if s.handler.registry.Some? { BecomeKeeps(s, t, Executing(s.handler.registry.value)); }
  }

  lemma ClearKeeps(s: State, t: Tid)
    requires Inv(s) && t in s.threads && s.threads[t].RefreshClearing?
    ensures Inv(End(s, t).(handler := s.handler.(refreshing := false), refresher := None))
  {
    hide RegOk, ResultOk, ThreadOk;
    ThreadsOnly(s, End(s, t).(handler := s.handler.(refreshing := false), refresher := None));
  }

  // ----- Execute up to its reconnect -----

  lemma EntryOwned(s: State, r: RegId, action: string)
    requires Inv(s) && r < |s.regs| && action in s.regs[r].reg.actions
    ensures var client := s.regs[r].reg.actions[action].client; client.Some? ==> OwnsClient(s, r, client.value)
  {
    assert RegOk(s, r);
    hide RecordOk, OwnsClient, AllApart;
  }

  lemma LookUpKeeps(s: State, t: Tid, r: RegId, action: string)
    requires Inv(s) && t in s.threads && s.threads[t] == Executing(r) && r < |s.regs| && action in s.regs[r].reg.actions
    ensures var e := s.regs[r].reg.actions[action]; Inv(Become(s, t, Calling(r, e.client, e.cfg)))
  {
    EntryOwned(s, r, action);
    var e := s.regs[r].reg.actions[action];
    assert ThreadOk(Become(s, t, Calling(r, e.client, e.cfg)), t);
    hide Inv, OwnsClient;
    BecomeKeeps(s, t, Calling(r, e.client, e.cfg));
  }

  lemma FindDeadKeeps(s: State, t: Tid, r: RegId, client: Option<ClientId>, cfg: ServerConfig)
    requires Inv(s) && t in s.threads && s.threads[t] == Calling(r, client, cfg)
    ensures Inv(Become(s, t, Reconnecting(r, cfg)))
  {
    assert ThreadOk(s, t);
    hide Inv, OwnsClient;
    BecomeKeeps(s, t, Reconnecting(r, cfg));
  }

  lemma FindAliveKeeps(s: State, t: Tid, r: RegId, client: Option<ClientId>, cfg: ServerConfig)
    requires Inv(s) && t in s.threads && s.threads[t] == Calling(r, client, cfg) && client.Some?
    ensures Inv(Become(s, t, Ready(r, client)))
  {
    assert ThreadOk(s, t);
    hide Inv, OwnsClient;
    assert OwnsClient(Become(s, t, Ready(r, client)), r, client.value) by {
      OwnsFrame(s, t, Ready(r, client), r, client.value);
    }
    BecomeKeeps(s, t, Ready(r, client));
  }

  lemma OwnsFrame(s: State, t: Tid, th: Thread, r: RegId, c: ClientId)
    requires OwnsClient(s, r, c)
    ensures OwnsClient(Become(s, t, th), r, c)
  {
  }

  // ----- snapshots -----

  lemma SnapshotOk(s: State, answer: Option<RegId>, since: nat)
    requires Inv(s) && since <= |s.installed| && (answer.None? ==> since == 0)
    requires answer.Some? ==> answer.value < |s.regs| && CurrentDuring(s.installed, since, answer.value)
    ensures var s' := Snapshot(s, answer, since); ResultOk(s', s'.results[|s.results|])
  {
    if answer.Some? { assert RegOk(s, answer.value); }
    hide Inv, Built, EntriesOk, CapsOk, OwnsClient, CurrentDuring, AllApart, Lifecycle.Reachable;
    assert s.installed[..|s.installed|] == s.installed;
  }

  lemma SnapshotKeeps(s: State, answer: Option<RegId>, since: nat)
    requires Inv(s) && since <= |s.installed|
    requires answer.None? ==> since == 0
    requires answer.Some? ==> answer.value < |s.regs| && CurrentDuring(s.installed, since, answer.value)
    ensures Inv(Snapshot(s, answer, since))
  {
    var s' := Snapshot(s, answer, since);
    SnapshotOk(s, answer, since);
    assert s' == s.(results := s'.results) && |s'.results| == |s.results| + 1
      && forall k :: 0 <= k < |s.results| ==> s'.results[k] == s.results[k];
    hide ThreadOk, RegOk, ResultOk, RefreshOk, PointersOk, Snapshot;
    SamePointers(s, s');
    RefreshFrame(s, s');
    Assemble(s, s');
  }

  lemma SamePointers(s: State, s': State)
    requires PointersOk(s) && s' == s.(results := s'.results)
    ensures PointersOk(s')
  {
  }

  lemma RefreshAnswers(s: State, t: Tid, r: RegId, since: nat)
    requires Inv(s) && t in s.threads && s.threads[t] == RefreshAnswering(r, since) && r < |s.regs|
    ensures Inv(Become(Snapshot(s, Some(r), since), t, RefreshClearing))
  {
    assert ThreadOk(s, t);
    SnapshotKeeps(s, Some(r), since);
    hide Inv;
    BecomeKeeps(Snapshot(s, Some(r), since), t, RefreshClearing);
  }

  lemma Answers(s: State, t: Tid, answer: Option<RegId>, since: nat)
    requires Inv(s) && t in s.threads && s.threads[t] == Answering(answer, since)
      && (answer.Some? ==> answer.value < |s.regs|)
    ensures Inv(End(Snapshot(s, answer, since), t))
  {
    assert ThreadOk(s, t);
    SnapshotKeeps(s, answer, since);
    hide Inv;
    EndKeeps(Snapshot(s, answer, since), t);
  }

  // ----- building -----

  /** The clients of a built registry are those of its live servers. */
  lemma BuiltClients(cfgs: seq<ServerConfig>, outs: seq<Outcome>, c: ClientId) returns (k: nat)
    requires |cfgs| == |outs| && c in ClientsOf(Built(cfgs, outs).actions)
    ensures k < |outs| && outs[k].Live? && outs[k].client == c
  {
    var ls := Listings(cfgs, outs);
    var key :| key in IndexOf(ls) && IndexOf(ls)[key].client == Some(c);
    hide Listings;
    IndexIsLast(ls, key);
    var i :| 0 <= i < |ls| && ls[i].action.name == key;
    var p := LastNamed(ls, key, i);
    var j;
    k, j := ListingOrigin(cfgs, outs, p);
  }

  lemma FetchedUsable(s: State, rec: Record, ups: seq<Upstream>, k: nat)
    requires |s.owner| == |s.clients| && k < |ups| && Fetched(ups[k].answer).1.Some?
    ensures OwnsClient(AddReg(s, rec, ups), |s.regs|, |s.clients| + k)
  {
    FetchOutcome(ups[k].answer);
    hide Fetched, ClientOk;
  }

  lemma NewRecordOk(s: State, cfgs: seq<ServerConfig>, ups: seq<Upstream>, t: Tid, refreshed: bool)
    requires |ups| == |cfgs|
    ensures RecordOk(NewRecord(s, cfgs, ups, t, refreshed))
  {
    hide Built;
    var rec := NewRecord(s, cfgs, ups, t, refreshed);
    forall i | 0 <= i < |rec.base.caps| ensures StrippedBy(rec.base.caps[i], {}) == rec.base.caps[i] { }
  }

  lemma NewClientsOwned(s: State, rec: Record, ups: seq<Upstream>)
    requires |s.owner| == |s.clients| && rec.outs == OutcomesFor(ups, |s.clients|) && |rec.cfgs| == |ups|
    requires rec.reg == Built(rec.cfgs, rec.outs)
    ensures forall c :: c in ClientsOf(rec.reg.actions) ==> OwnsClient(AddReg(s, rec, ups), |s.regs|, c)
  {
    hide Built, Fetched, OwnsClient, ClientsOf, AddReg;
    forall c | c in ClientsOf(rec.reg.actions) ensures OwnsClient(AddReg(s, rec, ups), |s.regs|, c) {
      var k := BuiltClients(rec.cfgs, rec.outs, c);
      FetchedUsable(s, rec, ups, k);
    }
  }

  lemma NewRegOk(s: State, cfgs: seq<ServerConfig>, ups: seq<Upstream>, t: Tid, refreshed: bool)
    requires |ups| == |cfgs| && |s.owner| == |s.clients|
    ensures RegOk(AddReg(s, NewRecord(s, cfgs, ups, t, refreshed), ups), |s.regs|)
  {
    var rec := NewRecord(s, cfgs, ups, t, refreshed);
    NewRecordOk(s, cfgs, ups, t, refreshed);
    NewClientsOwned(s, rec, ups);
    hide RecordOk, Built, OwnsClient, OutcomesFor, ClientsFor, ClientsOf, AllApart;
  }

  lemma AddRegKeeps(s: State, cfgs: seq<ServerConfig>, ups: seq<Upstream>, t: Tid, refreshed: bool)
    requires Inv(s) && |ups| == |cfgs|
    ensures var s' := AddReg(s, NewRecord(s, cfgs, ups, t, refreshed), ups);
      && Inv(s') && s'.threads == s.threads && |s'.regs| == |s.regs| + 1
      && s'.installed == s.installed && s'.configs == s.configs
      && s'.regs[|s.regs|].status == Private(t) && s'.regs[|s.regs|].cfgs == cfgs
        && s'.regs[|s.regs|].refreshed == refreshed
  {
    var rec := NewRecord(s, cfgs, ups, t, refreshed);
    var s' := AddReg(s, rec, ups);
    NewRegOk(s, cfgs, ups, t, refreshed);
    assert rec.status == Private(t) && rec.cfgs == cfgs && rec.refreshed == refreshed;
    AddedGrows(s, rec, ups);
    hide RegOk, ResultOk, ThreadOk, RefreshOk, PointersOk, NewRecord, Grows, ClientsFor, Lifecycle.Reachable;
    RefreshFrame(s, s');
    forall u | u in s'.threads ensures Spares(s, s', u) { }
    hide Spares;
    Assemble(s, s');
  }

  lemma AddedGrows(s: State, rec: Record, ups: seq<Upstream>)
    requires PointersOk(s)
    ensures PointersOk(AddReg(s, rec, ups)) && Grows(s, AddReg(s, rec, ups))
  {
    var s' := AddReg(s, rec, ups);
    assert s.clients <= s'.clients && s.owner <= s'.owner;
    hide Lifecycle.Reachable, ClientsFor, Usable;
  }

  lemma BuildKeeps(s: State, t: Tid, th: Thread, ups: seq<Upstream>)
    requires Inv(s) && t in s.threads && s.threads[t] == th && (th.ConfigureBuilding? || th.RefreshBuilding?)
    requires |ups| == |th.cfgs|
    ensures Inv(BuildFor(s, t, th, ups))
  {
    AddRegKeeps(s, th.cfgs, ups, t, th.RefreshBuilding?);
    var built := AddReg(s, NewRecord(s, th.cfgs, ups, t, th.RefreshBuilding?), ups);
    assert ThreadOk(built, t);
    hide Inv, NewRecord, AddReg, ThreadOk;
    match th
    case ConfigureBuilding(cfgs) => HandOver(built, t, th, |s.regs|, ConfigureBuilt(cfgs, |s.regs|));
    case RefreshBuilding(cfgs, version, since) =>
      HandOver(built, t, th, |s.regs|, RefreshBuilt(cfgs, version, since, |s.regs|));
  }

  lemma HandOver(s: State, t: Tid, th: Thread, r: RegId, th': Thread)
    requires Inv(s) && t in s.threads && s.threads[t] == th && Owned(s, t, r)
      && (th.ConfigureBuilding? || th.RefreshBuilding?)
    requires s.regs[r].cfgs == th.cfgs && s.regs[r].refreshed == th.RefreshBuilding?
    requires th' == if th.ConfigureBuilding? then ConfigureBuilt(th.cfgs, r)
      else RefreshBuilt(th.cfgs, th.version, th.since, r)
    ensures Inv(Become(s, t, th'))
  {
    assert ThreadOk(s, t);
    hide Inv;
    BecomeKeeps(s, t, th');
  }

  // ----- swapping -----

  function Installing(s: State, t: Tid, r: RegId, version: int, loop: Option<Tid>, h: HandlerState,
    configs: seq<seq<ServerConfig>>, th: Thread): State
    requires r < |s.regs|
  {
    Become(Install(s, r, version, loop).(handler := h, configs := configs), t, th)
  }

  /** A record's clients stay owned when only other fields of its record change. */
  lemma ClientsStay(s: State, s': State, r: RegId)
    requires RegOk.requires(s, r) && RegOk(s, r) && r < |s'.regs| && s'.regs[r].reg == s.regs[r].reg
    requires s'.clients == s.clients && s'.owner == s.owner
    ensures forall c :: c in ClientsOf(s'.regs[r].reg.actions) ==> OwnsClient(s', r, c)
  {
    hide RecordOk, AllApart, ClientsOf;
    forall c | c in ClientsOf(s'.regs[r].reg.actions) ensures OwnsClient(s', r, c) { assert OwnsClient(s, r, c); }
  }

  lemma RecordStays(old_: Record, new_: Record)
    requires RecordOk(old_) && new_ == old_.(status := new_.status, version := new_.version, loop := new_.loop)
    ensures RecordOk(new_)
  {
    hide Built, CapsOk, EntriesOk, Lifecycle.Reachable, AllApart;
  }

  lemma PointersStay(s: State, s': State, r: RegId)
    requires PointersOk(s) && r < |s.regs| && |s'.regs| == |s.regs|
      && (s.regs[r].status.Installed? ==> s'.regs[r].status.Installed?)
    requires forall q :: 0 <= q < |s.regs| && q != r ==> s'.regs[q] == s.regs[q]
    requires |s'.clients| == |s'.owner| && s'.installed == s.installed && s'.configs == s.configs
      && s'.handler == s.handler
    ensures PointersOk(s')
  {
  }

  lemma InstallPointers(s: State, t: Tid, r: RegId, version: int, loop: Option<Tid>, h: HandlerState,
    configs: seq<seq<ServerConfig>>, th: Thread)
    requires PointersOk(s) && Owned(s, t, r) && |configs| > 0
    requires h == HandlerState(Some(r), configs[|configs| - 1], s.handler.refreshing)
    ensures PointersOk(Installing(s, t, r, version, loop, h, configs, th))
  {
    var s' := Installing(s, t, r, version, loop, h, configs, th);
    assert s'.installed == s.installed + [r];
    assert forall q :: 0 <= q < |s.regs| && q != r ==> s'.regs[q] == s.regs[q];
  }

  lemma InstallReg(s: State, t: Tid, r: RegId, version: int, loop: Option<Tid>, h: HandlerState,
    configs: seq<seq<ServerConfig>>, th: Thread)
    requires Owned(s, t, r) && RegOk(s, r) && s.configs <= configs
    requires 0 <= version < |configs| && configs[version] == s.regs[r].cfgs
    requires s.regs[r].refreshed ==> !Degraded(s.regs[r].reg)
    ensures var s' := Installing(s, t, r, version, loop, h, configs, th);
      RegOk(s', r) && Kept(s.regs[r], s'.regs[r]) && s.regs[r].loop == None
  {
    var s' := Installing(s, t, r, version, loop, h, configs, th);
    ClientsStay(s, s', r);
    RecordStays(s.regs[r], s'.regs[r]);
    hide RecordOk, AllApart, Degraded, OwnsClient, ClientsOf, Apart, Lifecycle.Reachable;
    assert s'.installed[|s.installed|] == r;
  }

  lemma RefreshMoves(s: State, s': State, t: Tid)
    requires RefreshOk(s) && t in s.threads && s'.refresher == s.refresher
      && s'.handler.refreshing == s.handler.refreshing
    requires t in s'.threads && (InFlight(s'.threads[t]) <==> InFlight(s.threads[t]))
    requires forall u :: u in s.threads && u != t ==> u in s'.threads && s'.threads[u] == s.threads[u]
    requires forall u :: u in s'.threads && u !in s.threads ==> !InFlight(s'.threads[u])
    ensures RefreshOk(s')
  {
    hide InFlight;
  }

  /** A private registry becomes the current one. */
  lemma InstallKeeps(s: State, t: Tid, r: RegId, version: int, loop: Option<Tid>, h: HandlerState,
    configs: seq<seq<ServerConfig>>, th: Thread)
    requires Inv(s) && Owned(s, t, r) && t in s.threads && (loop.None? || loop == Some(t))
    requires s.configs <= configs && 0 <= version < |configs| && configs[version] == s.regs[r].cfgs
    requires s.regs[r].refreshed ==> !Degraded(s.regs[r].reg)
    requires h == HandlerState(Some(r), configs[|configs| - 1], s.handler.refreshing)
    requires ThreadOk(Installing(s, t, r, version, loop, h, configs, th), t)
    requires InFlight(th) <==> InFlight(s.threads[t])
    ensures Inv(Installing(s, t, r, version, loop, h, configs, th))
  {
    var s' := Installing(s, t, r, version, loop, h, configs, th);
    assert RegOk(s, r);
    InstallPointers(s, t, r, version, loop, h, configs, th);
    InstallReg(s, t, r, version, loop, h, configs, th);
    hide ResultOk, ThreadOk, PointersOk, RegOk, RefreshOk, Kept, InFlight, Degraded;
    RefreshMoves(s, s', t);
    forall u | u in s'.threads && u != t ensures Alone(s, s', u, r) { }
    hide Alone;
    OneRegistry(s, s', r);
  }

  lemma SwapKeeps(s: State, t: Tid, cfgs: seq<ServerConfig>, r: RegId)
    requires Inv(s) && t in s.threads && s.threads[t] == ConfigureBuilt(cfgs, r)
    ensures r < |s.regs| && Inv(SwapIn(s, t, cfgs, r))
  {
    assert ThreadOk(s, t);
    SwappedThreadOk(s, t, cfgs, r);
    var h := Swapped(s.handler, r, cfgs);
    var th := ConfigureSwapped(r, s.handler.registry);
    assert SwapIn(s, t, cfgs, r) == Installing(s, t, r, |s.configs|, Some(t), h, s.configs + [cfgs], th);
    hide Inv, ThreadOk, SwapIn, Installing;
    InstallKeeps(s, t, r, |s.configs|, Some(t), h, s.configs + [cfgs], th);
  }

  lemma UnloopedIsWhole(s: State, t: Tid, r: RegId)
    requires Inv(s) && Owned(s, t, r)
    ensures PointersOk(s) && s.regs[r].stripped == {}
  {
    assert RegOk(s, r);
    hide ThreadOk, ResultOk, RecordOk, AllApart, OwnsClient;
  }

  lemma SwappedThreadOk(s: State, t: Tid, cfgs: seq<ServerConfig>, r: RegId)
    requires Inv(s) && t in s.threads && s.threads[t] == ConfigureBuilt(cfgs, r) && Owned(s, t, r)
    ensures ThreadOk(Installing(s, t, r, |s.configs|, Some(t), Swapped(s.handler, r, cfgs), s.configs + [cfgs],
                                ConfigureSwapped(r, s.handler.registry)), t)
  {
    UnloopedIsWhole(s, t, r);
    hide Inv, PointersOk;
    var s' := Installing(s, t, r, |s.configs|, Some(t), Swapped(s.handler, r, cfgs), s.configs + [cfgs],
                         ConfigureSwapped(r, s.handler.registry));
    if s.handler.registry.Some? { NowReplaced(s, s', r); }
    hide Replaced;
  }

  lemma NowReplaced(s: State, s': State, r: RegId)
    requires PointersOk(s) && s.handler.registry.Some? && s'.installed == s.installed + [r]
    ensures Replaced(s', s.handler.registry.value)
  {
    assert s'.installed[|s.installed| - 1] == s.handler.registry.value;
  }

  lemma CommitKeeps(s: State, t: Tid, cfgs: seq<ServerConfig>, version: int, since: nat, r: RegId)
    requires Inv(s) && t in s.threads && s.threads[t] == RefreshBuilt(cfgs, version, since, r)
      && s.handler.registry.Some?
    ensures r < |s.regs| && Inv(Commit(s, t, version, since, r))
  {
    assert ThreadOk(s, t);
    if Degraded(s.regs[r].reg) {
      RejectKeeps(s, t, cfgs, version, since, r);
    } else {
      AcceptKeeps(s, t, cfgs, version, since, r);
    }
  }

  lemma AcceptKeeps(s: State, t: Tid, cfgs: seq<ServerConfig>, version: int, since: nat, r: RegId)
    requires Inv(s) && t in s.threads && s.threads[t] == RefreshBuilt(cfgs, version, since, r)
      && s.handler.registry.Some?
    requires r < |s.regs| && !Degraded(s.regs[r].reg)
    ensures Inv(Commit(s, t, version, since, r))
  {
    assert ThreadOk(s, t);
    CurrentNow(s);
    var h := Committed(s.handler, r, s.regs[r].reg);
    var th := RefreshRetiring(r, s.handler.registry.value, since);
    var s' := Installing(s, t, r, version, None, h, s.configs, th);
    assert ThreadOk(s', t) by {
      hide RegOk, RefreshOk, Degraded;
      var n := |s.installed|;
      assert s'.installed[n] == r && s'.installed[n - 1] == s.handler.registry.value;
    }
    assert s' == Commit(s, t, version, since, r);
    assert h == HandlerState(Some(r), s.configs[|s.configs| - 1], s.handler.refreshing);
    hide Inv, ThreadOk, Commit, Degraded;
    InstallKeeps(s, t, r, version, None, h, s.configs, th);
  }

  lemma RejectKeeps(s: State, t: Tid, cfgs: seq<ServerConfig>, version: int, since: nat, r: RegId)
    requires Inv(s) && t in s.threads && s.threads[t] == RefreshBuilt(cfgs, version, since, r)
      && s.handler.registry.Some?
    requires r < |s.regs| && Degraded(s.regs[r].reg)
    ensures Inv(Commit(s, t, version, since, r))
  {
    assert ThreadOk(s, t);
    assert RegOk(s, r);
    var s' := Commit(s, t, version, since, r);
    RejectedThread(s, t, cfgs, version, since, r);
    hide RegOk, ResultOk, Degraded, Kept, CurrentDuring, RefreshOk, PointersOk, ThreadOk;
    PrivateToRejected(s, t, s', r);
    RefreshMoves(s, s', t);
    hide InFlight;
    forall u | u in s'.threads && u != t ensures Alone(s, s', u, r) { }
    hide Alone;
    OneRegistry(s, s', r);
  }

  lemma RejectedThread(s: State, t: Tid, cfgs: seq<ServerConfig>, version: int, since: nat, r: RegId)
    requires Inv(s) && t in s.threads && s.threads[t] == RefreshBuilt(cfgs, version, since, r)
      && s.handler.registry.Some?
    requires r < |s.regs| && Degraded(s.regs[r].reg)
    ensures ThreadOk(Commit(s, t, version, since, r), t) && Owned(s, t, r)
  {
    assert ThreadOk(s, t);
    CurrentNow(s);
    hide Inv, Degraded, CurrentDuring;
    CurrentLater(s.installed, since, s.handler.registry.value);
  }

  lemma PrivateToRejected(s: State, t: Tid, s': State, r: RegId)
    requires Owned(s, t, r) && RegOk(s, r) && PointersOk(s)
    requires s'.regs == s.regs[r := s.regs[r].(status := Rejected)]
    requires s'.clients == s.clients && s'.owner == s.owner && s'.installed == s.installed && s'.configs == s.configs
    requires s'.handler == s.handler
    ensures PointersOk(s') && RegOk(s', r) && Kept(s.regs[r], s'.regs[r])
  {
    PointersStay(s, s', r);
    ClientsStay(s, s', r);
    RecordStays(s.regs[r], s'.regs[r]);
    hide PointersOk, RecordOk, AllApart, OwnsClient, ClientsOf, Apart, Lifecycle.Reachable;
  }

  /** What is current now was current at some moment of any span that ends now. */
  lemma CurrentLater(installed: seq<RegId>, since: nat, r: RegId)
    requires CurrentDuring(installed, |installed|, r) && since <= |installed|
    ensures CurrentDuring(installed, since, r)
  {
  }

  lemma BootstrapKeeps(s: State, cfgs: seq<ServerConfig>, ups: seq<Upstream>)
    requires Inv(s) && s.regs == [] && s.threads == map[] && |ups| == |cfgs|
    ensures var s1 := AddReg(s, NewRecord(s, cfgs, ups, 0, false), ups);
      |s1.regs| > 0
        && Inv(Install(s1, 0, 0, None).(handler := Swapped(s.handler, 0, cfgs), configs := [cfgs], installed := [0]))
  {
    AddRegKeeps(s, cfgs, ups, 0, false);
    assert s.installed == [] && s.handler == HandlerState(None, [], false) && s.configs == [] by { BeforeBootstrap(s); }
    hide Inv, NewRecord;
    SetRegistryKeeps(AddReg(s, NewRecord(s, cfgs, ups, 0, false), ups), cfgs);
  }

  lemma BeforeBootstrap(s: State)
    requires Inv(s) && s.regs == [] && s.threads == map[]
    ensures s.installed == [] && s.handler == HandlerState(None, [], false) && s.configs == []
  {
    hide RegOk, ThreadOk, ResultOk;
    assert s.refresher == None;
    if s.installed != [] { InstalledExists(s); }
  }

  lemma InstalledExists(s: State)
    requires PointersOk(s) && s.installed != []
    ensures |s.regs| > 0
  {
    assert s.installed[0] < |s.regs|;
  }

  lemma SetRegistryKeeps(s: State, cfgs: seq<ServerConfig>)
    requires Inv(s) && s.threads == map[] && s.installed == [] && s.configs == []
      && s.handler == HandlerState(None, [], false)
    requires Owned(s, 0, 0) && s.regs[0].cfgs == cfgs && !s.regs[0].refreshed
    ensures var h := HandlerState(Some(0), cfgs, false);
      Inv(Install(s, 0, 0, None).(handler := h, configs := [cfgs], installed := [0]))
  {
    var th := ConfigureRetiring(None);
    var h := HandlerState(Some(0), cfgs, false);
    assert ThreadOk(Become(s, 0, th), 0);
    assert ThreadOk(Installing(Become(s, 0, th), 0, 0, 0, None, h, [cfgs], th), 0);
    var s' := Install(s, 0, 0, None).(handler := h, configs := [cfgs], installed := [0]);
    assert End(Installing(Become(s, 0, th), 0, 0, 0, None, h, [cfgs], th), 0) == s' by {
      hide Inv;
      assert s.threads[0 := th][0 := th] - {0} == map[];
    }
    hide Inv, ThreadOk, Installing, Degraded;
    BecomeKeeps(s, 0, th);
    InstallKeeps(Become(s, 0, th), 0, 0, 0, None, h, [cfgs], th);
    assert !InFlight(th) && Installing(Become(s, 0, th), 0, 0, 0, None, h, [cfgs], th).threads == map[0 := th] by {
      InstallingThreads(s, th, h, cfgs);
    }
    EndKeeps(Installing(Become(s, 0, th), 0, 0, 0, None, h, [cfgs], th), 0);
  }

  lemma InstallingThreads(s: State, th: Thread, h: HandlerState, cfgs: seq<ServerConfig>)
    requires |s.regs| > 0 && s.threads == map[]
    ensures Installing(Become(s, 0, th), 0, 0, 0, None, h, [cfgs], th).threads == map[0 := th]
  {
  }

  // ----- after the swap -----

  /** In a configuration whose servers are apart, the servers with some outcome are distinct. */
  lemma {:induction false} HavingDistinct(cfgs: seq<ServerConfig>, outs: seq<Outcome>, status: RegistrySpec.Status)
    requires |cfgs| == |outs| && AllApart(cfgs)
    ensures var hs := Having(cfgs, outs, status);
      DistinctServers(hs) && forall i :: 0 <= i < |hs| ==> hs[i] in cfgs
  {
    hide Apart;
    if cfgs != [] {
      var n := |cfgs| - 1;
      HavingDistinct(cfgs[..n], outs[..n], status);
      var before := Having(cfgs[..n], outs[..n], status);
      forall i | 0 <= i < |before| ensures before[i] in cfgs && before[i].server != cfgs[n].server {
        var k :| 0 <= k < n && cfgs[..n][k] == before[i];
        assert cfgs[k] == before[i];
        ApartPair(cfgs, k, n);
      }
    }
  }

  lemma FirstRound(rec: Record)
    requires RecordOk(rec) && rec.stripped == {} && AllApart(rec.cfgs)
    ensures PendingOk(rec.base, {}, rec.reg.offline, [])
  {
    HavingDistinct(rec.cfgs, rec.outs, IsOffline);
    hide CapsOk, EntriesOk, Apart, Listings, IndexOf;
  }

  lemma SpawnKeeps(s: State, t: Tid, loop: Tid, r: RegId, old_: Option<RegId>)
    requires Inv(s) && t in s.threads && s.threads[t] == ConfigureSwapped(r, old_) && Fresh(s, loop)
    ensures r < |s.regs| && Inv(SpawnLoop(s, t, loop, r, old_))
  {
    assert ThreadOk(s, t);
    hide Inv;
    if |s.regs[r].reg.offline| > 0 {
      LoopStarts(s, t, loop, r, old_);
    } else {
      BecomeKeeps(s, t, ConfigureRetiring(old_));
    }
  }

  lemma LoopHandedOver(s: State, s': State, loop: Tid, r: RegId)
    requires PointersOk(s) && r < |s.regs| && RegOk(s, r) && s.regs[r].loop.Some?
    requires s' == s.(regs := s.regs[r := s.regs[r].(loop := Some(loop))], threads := s'.threads)
    ensures PointersOk(s') && RegOk(s', r) && Kept(s.regs[r], s'.regs[r])
  {
    PointersStay(s, s', r);
    ClientsStay(s, s', r);
    RecordStays(s.regs[r], s'.regs[r]);
    hide PointersOk, RecordOk, AllApart, OwnsClient, ClientsOf, Apart, Lifecycle.Reachable;
  }

  lemma LoopStarts(s: State, t: Tid, loop: Tid, r: RegId, old_: Option<RegId>)
    requires Inv(s) && t in s.threads && s.threads[t] == ConfigureSwapped(r, old_) && Fresh(s, loop)
    requires r < |s.regs| && |s.regs[r].reg.offline| > 0
    ensures Inv(SpawnLoop(s, t, loop, r, old_))
  {
    var s' := SpawnLoop(s, t, loop, r, old_);
    assert ThreadOk(s, t);
    assert RegOk(s, r);
    hide RegOk, PointersOk, RefreshOk, ResultOk, Kept, ThreadOk;
    assert RecordOk(s.regs[r]) && s.regs[r].loop.Some? by { StartOfLoop(s, t, r, old_); }
    FirstRoundOk(s, t, r, old_, s', loop);
    LoopHandedOver(s, s', loop, r);
    assert RefreshOk(s') by { LoopStartsQuietly(s, t, loop, r, old_); }
    hide InFlight;
    forall u | u in s'.threads && u != t && u != loop ensures Alone(s, s', u, r) { }
    hide Alone;
    OneRegistry(s, s', r);
  }

  lemma LoopStartsQuietly(s: State, t: Tid, loop: Tid, r: RegId, old_: Option<RegId>)
    requires RefreshOk(s) && t in s.threads && s.threads[t] == ConfigureSwapped(r, old_) && Fresh(s, loop)
    requires r < |s.regs| && |s.regs[r].reg.offline| > 0
    ensures RefreshOk(SpawnLoop(s, t, loop, r, old_))
  {
    hide RefreshOk;
    RefreshMoves(s, SpawnLoop(s, t, loop, r, old_), t);
  }

  lemma StartOfLoop(s: State, t: Tid, r: RegId, old_: Option<RegId>)
    requires t in s.threads && s.threads[t] == ConfigureSwapped(r, old_) && ThreadOk(s, t) && r < |s.regs|
      && RegOk(s, r)
    ensures RecordOk(s.regs[r]) && s.regs[r].loop.Some?
  {
    hide RecordOk, AllApart;
  }

  lemma FirstRoundOk(s: State, t: Tid, r: RegId, old_: Option<RegId>, s': State, loop: Tid)
    requires t in s.threads && s.threads[t] == ConfigureSwapped(r, old_) && ThreadOk(s, t) && RecordOk(s.regs[r])
    requires t in s'.threads && s'.threads[t] == ConfigureRetiring(old_) && loop in s'.threads
    requires s'.threads[loop] == Looping(r, s.regs[r].reg.offline, [], None)
    requires s'.installed == s.installed && s'.regs == s.regs[r := s.regs[r].(loop := Some(loop))]
    ensures ThreadOk(s', t) && ThreadOk(s', loop)
  {
    if AllApart(s.regs[r].cfgs) { FirstRound(s.regs[r]); }
    hide RecordOk, PendingOk, AllApart, Lifecycle.Reachable;
  }

  lemma ReplacedExists(s: State, r: RegId)
    requires PointersOk(s) && Replaced(s, r)
    ensures r < |s.regs|
  {
  }

  lemma ClosingStarts(s: State, t: Tid, old_: RegId, closer: Tid)
    requires Inv(s) && t in s.threads && s.threads[t] == ConfigureRetiring(Some(old_)) && Fresh(s, closer)
    ensures Inv(Become(End(s, t), closer, Closing(old_)))
  {
    assert ThreadOk(s, t);
    ReplacedExists(s, old_);
    EndKeeps(s, t);
    hide Inv;
    BecomeKeeps(End(s, t), closer, Closing(old_));
  }

  lemma RefreshRetires(s: State, t: Tid, r: RegId, was: RegId, since: nat, closer: Tid)
    requires Inv(s) && t in s.threads && s.threads[t] == RefreshRetiring(r, was, since) && Fresh(s, closer)
    ensures Inv(Become(Become(s, t, RefreshAnswering(r, since)), closer, Closing(was)))
  {
    assert ThreadOk(s, t);
    ReplacedExists(s, was);
    hide Inv, CurrentDuring;
    BecomeKeeps(s, t, RefreshAnswering(r, since));
    BecomeKeeps(Become(s, t, RefreshAnswering(r, since)), closer, Closing(was));
  }

  lemma RetireKeeps(s: State, t: Tid, closer: Tid)
    requires Inv(s) && t in s.threads && (s.threads[t].ConfigureRetiring? || s.threads[t].RefreshRetiring?)
      && Fresh(s, closer)
    ensures Inv(SpawnCloser(s, t, closer, s.threads[t]))
  {
    hide Inv;
    match s.threads[t]
    case ConfigureRetiring(None) => EndKeeps(s, t);
    case ConfigureRetiring(Some(old_)) => ClosingStarts(s, t, old_, closer);
    case RefreshRetiring(r, was, since) => RefreshRetires(s, t, r, was, since, closer);
  }

  // ----- closing -----

  lemma CloseAllKeeps(s: State, r: RegId)
    requires Inv(s) && r < |s.regs|
    ensures Inv(CloseAll(s, r))
  {
    hide Inv, ClientsOf;
    ClientsOnly(s, CloseAll(s, r));
  }

  lemma CloseRejectedKeeps(s: State, t: Tid, r: RegId, current: RegId, since: nat)
    requires Inv(s) && t in s.threads && s.threads[t] == RefreshRejecting(r, current, since) && r < |s.regs|
    ensures Inv(Become(CloseAll(s, r), t, RefreshAnswering(current, since)))
  {
    assert ThreadOk(s, t);
    CloseAllKeeps(s, r);
    hide Inv, CurrentDuring;
    BecomeKeeps(CloseAll(s, r), t, RefreshAnswering(current, since));
  }

  lemma CloseReplacedKeeps(s: State, t: Tid, r: RegId)
    requires Inv(s) && t in s.threads && s.threads[t] == Closing(r) && r < |s.regs|
    ensures Inv(End(CloseAll(s, r), t))
  {
    CloseAllKeeps(s, r);
    hide Inv;
    EndKeeps(CloseAll(s, r), t);
  }

  lemma UpdateClientKeeps(s: State, c: ClientId, client: ClientState)
    requires Inv(s) && c < |s.clients| && Usable(client)
    ensures Inv(UpdateClient(s, c, client))
  {
    hide Inv, Usable;
    ClientsOnly(s, UpdateClient(s, c, client));
  }

  lemma SendingKeeps(s: State, t: Tid, c: ClientId, accepted: bool)
    requires Inv(s) && t in s.threads && (s.threads[t].Ready? || s.threads[t].Looping?)
    requires c < |s.clients| && Usable(s.clients[c]) && t in s.clients[c].taken
    ensures Inv(Sending(s, t, c, accepted))
  {
    var what := if s.threads[t].Looping? then ToolsList else ToolsCall;
    UpdateClientKeeps(s, c, Send(s.clients[c], t, what, accepted));
    hide Inv, Send;
    if !s.threads[t].Looping? { EndKeeps(UpdateClient(s, c, Send(s.clients[c], t, what, accepted)), t); }
  }

  // ----- reconnecting -----

  lemma NewClientOwned(s: State, r: RegId, answer: ConnectAnswer)
    requires |s.owner| == |s.clients| && Connected(NEW_CLIENT, answer).1
    ensures var clients := s.clients + [Connected(NEW_CLIENT, answer).0];
      OwnsClient(s.(clients := clients, owner := s.owner + [r]), r, |s.clients|)
  {
    ConnectMakesUsable(NEW_CLIENT, answer);
    hide Connected;
  }

  lemma ReconnectFailed(s: State, r: RegId, client: ClientState)
    requires Inv(s)
    ensures Inv(s.(clients := s.clients + [client], owner := s.owner + [r]))
  {
    hide ResultOk, ThreadOk, RefreshOk, RegOk;
    var s' := s.(clients := s.clients + [client], owner := s.owner + [r]);
    assert RefreshOk(s') by { RefreshFrame(s, s'); }
    assert Grows(s, s') by { assert forall c :: 0 <= c < |s.clients| ==> s'.clients[c] == s.clients[c]; }
    Assemble(s, s');
  }

  lemma ReconnectSucceeded(s: State, r: RegId, server: string, c: ClientId)
    requires Inv(s) && r < |s.regs| && OwnsClient(s, r, c)
    ensures var s' := SetReg(s, r, WithClientRec(s.regs[r], server, c));
      Inv(s') && Lifecycle.Reachable(s'.regs[r].reg.actions, server)
  {
    var s' := SetReg(s, r, WithClientRec(s.regs[r], server, c));
    assert RegOk(s, r);
    PointersStay(s, s', r);
    ReconnectedRegOk(s, r, server, c);
    RefreshFrame(s, s');
    hide WithClient, Lifecycle.Reachable, Kept, ThreadOk, ResultOk, RefreshOk, PointersOk, RegOk, OwnsClient;
    forall u | u in s'.threads ensures Alone(s, s', u, r) { }
    hide Alone;
    OneRegistry(s, s', r);
  }

  lemma ReconnectedRecord(rec: Record, server: string, c: ClientId)
    requires RecordOk(rec)
    ensures var rec' := WithClientRec(rec, server, c);
      RecordOk(rec') && Kept(rec, rec') && Lifecycle.Reachable(rec'.reg.actions, server)
  {
    WithClientKeeps(rec, server, c);
    hide RecordOk, WithClient, Lifecycle.Reachable, AllApart, ClientsOf;
  }

  lemma ReconnectedRegOk(s: State, r: RegId, server: string, c: ClientId)
    requires r < |s.regs| && RegOk(s, r) && OwnsClient(s, r, c)
    ensures var s' := SetReg(s, r, WithClientRec(s.regs[r], server, c));
      RegOk(s', r) && Kept(s.regs[r], s'.regs[r]) && Lifecycle.Reachable(s'.regs[r].reg.actions, server)
  {
    var s' := SetReg(s, r, WithClientRec(s.regs[r], server, c));
    WithClientKeeps(s.regs[r], server, c);
    ReconnectedRecord(s.regs[r], server, c);
    hide RecordOk, WithClient, Lifecycle.Reachable, AllApart, ClientsOf, Apart, Kept, Strippable, Degraded;
    forall d | d in ClientsOf(s'.regs[r].reg.actions) ensures OwnsClient(s', r, d) {
      assert d == c || OwnsClient(s, r, d);
    }
  }

  lemma ReconnectedKeeps(s: State, r: RegId, server: string, answer: ConnectAnswer)
    requires Inv(s) && r < |s.regs|
    ensures var (s', ok) := Reconnected(s, r, server, answer);
      && Inv(s') && s'.threads == s.threads && |s'.regs| == |s.regs|
      && (ok ==> Lifecycle.Reachable(s'.regs[r].reg.actions, server))
      && s'.regs[r].loop == s.regs[r].loop && s'.regs[r].stripped == s.regs[r].stripped
        && s'.regs[r].cfgs == s.regs[r].cfgs
      && s'.regs[r].base == s.regs[r].base
      && (ok ==> OwnsClient(s', r, |s.clients|))
  {
    var (client, ok) := Connected(NEW_CLIENT, answer);
    var s1 := s.(clients := s.clients + [client], owner := s.owner + [r]);
    assert PointersOk(s);
    ReconnectFailed(s, r, client);
    hide Inv, Lifecycle.Reachable;
    if ok {
      NewClientOwned(s, r, answer);
      hide Connected;
      ReconnectSucceeded(s1, r, server, |s.clients|);
    }
  }

  lemma ReconnectAnswers(s: State, t: Tid, r: RegId, cfg: ServerConfig, answer: ConnectAnswer)
    requires Inv(s) && t in s.threads && s.threads[t] == Reconnecting(r, cfg) && r < |s.regs|
    ensures Inv(ReconnectFor(s, t, s.threads[t], answer))
  {
    ReconnectedKeeps(s, r, cfg.server, answer);
    var (s1, ok) := Reconnected(s, r, cfg.server, answer);
    hide Inv, Reconnected, OwnsClient;
    if ok {
      assert OwnsClient(Become(s1, t, Ready(r, Some(|s.clients|))), r, |s.clients|) by {
        OwnsFrame(s1, t, Ready(r, Some(|s.clients|)), r, |s.clients|);
      }
      BecomeKeeps(s1, t, Ready(r, Some(|s.clients|)));
    } else {
      EndKeeps(s1, t);
    }
  }

  lemma ReconnectLoops(s: State, t: Tid, r: RegId, todo: seq<ServerConfig>, still: seq<ServerConfig>,
      answer: ConnectAnswer)
    requires Inv(s) && t in s.threads && s.threads[t] == Looping(r, todo, still, None) && todo != [] && r < |s.regs|
    ensures Inv(ReconnectFor(s, t, s.threads[t], answer))
  {
    assert ThreadOk(s, t);
    ReconnectedKeeps(s, r, todo[0].server, answer);
    var (s1, ok) := Reconnected(s, r, todo[0].server, answer);
    if !ok { PendingRotates(s.regs[r].base, s.regs[r].stripped, todo, still); }
    hide Inv, Reconnected, Lifecycle.Reachable, AllApart, PendingOk, OwnsClient;
    var th := if ok then Looping(r, todo, still, Some(|s.clients|)) else Looping(r, todo[1..], still + [todo[0]], None);
    if ok { OwnsFrame(s1, t, th, r, |s.clients|); }
    BecomeKeeps(s1, t, th);
  }

  lemma NextRoundKeeps(s: State, t: Tid, r: RegId, still: seq<ServerConfig>)
    requires Inv(s) && t in s.threads && s.threads[t].Looping? && s.threads[t].r == r
    requires s.threads[t].todo == [] && s.threads[t].still == still
    ensures Inv(Become(s, t, Looping(r, still, [], None)))
  {
    assert ThreadOk(s, t);
    hide Inv, AllApart, Lifecycle.Reachable;
    BecomeKeeps(s, t, Looping(r, still, [], None));
  }

  /** A server that could not be reached goes to the end of the next round. */
  lemma PendingRotates(base: Reg, stripped: set<string>, todo: seq<ServerConfig>, still: seq<ServerConfig>)
    requires todo != []
    ensures PendingOk(base, stripped, todo, still) ==> PendingOk(base, stripped, todo[1..], still + [todo[0]])
  {
  }

  lemma PendingShrinks(base: Reg, stripped: set<string>, todo: seq<ServerConfig>, still: seq<ServerConfig>)
    requires todo != []
    ensures PendingOk(base, stripped, todo, still) ==>
      PendingOk(base, stripped + {todo[0].server}, todo[1..], still) && Strippable(base, todo[0].server)
        && todo[0].server !in stripped
  {
    hide Strippable;
  }

  // ----- stripping -----

  lemma StrippableNamed(rec: Record, server: string)
    requires RecordOk(rec) && Strippable(rec.base, server)
    ensures Named(rec.cfgs, server)
  {
    var i :| 0 <= i < |rec.base.offline| && rec.base.offline[i].server == server;
    HavingMember(rec.cfgs, rec.outs, IsOffline, rec.base.offline[i]);
    hide Listings, IndexOf, CapsOk, EntriesOk;
  }

  lemma StrippedRegOk(s: State, r: RegId, server: string)
    requires r < |s.regs| && RegOk(s, r) && Lifecycle.Reachable(s.regs[r].reg.actions, server)
    requires AllApart(s.regs[r].cfgs) ==> Strippable(s.regs[r].base, server) && server !in s.regs[r].stripped
    requires s.regs[r].loop.Some?
    ensures var s' := SetReg(s, r, StripRec(s.regs[r], server)); RegOk(s', r) && Kept(s.regs[r], s'.regs[r])
  {
    var s' := SetReg(s, r, StripRec(s.regs[r], server));
    forall n | Strippable(s.regs[r].base, n) ensures Named(s.regs[r].cfgs, n) { StrippableNamed(s.regs[r], n); }
    hide Strippable;
    StripKeeps(s.regs[r], server);
    hide RecordOk, AllApart, Strip, Lifecycle.Reachable;
    forall c | c in ClientsOf(s.regs[r].reg.actions) ensures OwnsClient(s', r, c) { assert OwnsClient(s, r, c); }
  }

  lemma RegOfBecome(s: State, t: Tid, th: Thread, r: RegId)
    requires r < |s.regs| && RegOk(s, r)
    ensures RegOk(Become(s, t, th), r)
  {
    hide RecordOk, AllApart;
    forall c | c in ClientsOf(s.regs[r].reg.actions) ensures OwnsClient(Become(s, t, th), r, c) {
      assert OwnsClient(s, r, c);
    }
  }

  lemma StripServerKeeps(s: State, t: Tid, r: RegId, todo: seq<ServerConfig>, still: seq<ServerConfig>, c: ClientId)
    requires Inv(s) && t in s.threads && s.threads[t] == Looping(r, todo, still, Some(c)) && todo != [] && r < |s.regs|
    ensures Inv(Become(SetReg(s, r, StripRec(s.regs[r], todo[0].server)), t, Looping(r, todo[1..], still, None)))
  {
    assert ThreadOk(s, t);
    assert RegOk(s, r);
    StrippedThread(s, t, r, todo, still, c);
    hide ResultOk, RegOk, PointersOk, RefreshOk, ThreadOk, Kept, Strip, InFlight, Lifecycle.Reachable, AllApart;
    StrippedState(s, t, r, todo[0].server, Looping(r, todo[1..], still, None));
  }

  /** The parts of a strip put together. */
  lemma StrippedState(s: State, t: Tid, r: RegId, server: string, th: Thread)
    requires Inv(s) && t in s.threads && s.threads[t].Looping? && th.Looping? && r < |s.regs|
    requires var s1 := SetReg(s, r, StripRec(s.regs[r], server));
      RegOk(s1, r) && Kept(s.regs[r], s1.regs[r]) && ThreadOk(Become(s1, t, th), t)
    requires s.regs[r].loop == Some(t)
    ensures Inv(Become(SetReg(s, r, StripRec(s.regs[r], server)), t, th))
  {
    var s1 := SetReg(s, r, StripRec(s.regs[r], server));
    var s' := Become(s1, t, th);
    hide ResultOk, RegOk, PointersOk, RefreshOk, ThreadOk, Kept, Strip, InFlight, Lifecycle.Reachable, AllApart;
    RegOfBecome(s1, t, th, r);
    PointersStay(s, s', r);
    NotInFlight(s.threads[t]);
    NotInFlight(th);
    RefreshMoves(s, s', t);
    forall u | u in s'.threads && u != t ensures Alone(s, s', u, r) { }
    hide Alone;
    OneRegistry(s, s', r);
  }

  lemma NotInFlight(th: Thread)
    requires th.Looping?
    ensures !InFlight(th)
  {
  }

  lemma StrippedThread(s: State, t: Tid, r: RegId, todo: seq<ServerConfig>, still: seq<ServerConfig>, c: ClientId)
    requires t in s.threads && s.threads[t] == Looping(r, todo, still, Some(c)) && todo != [] && r < |s.regs|
    requires ThreadOk(s, t) && RegOk(s, r)
    ensures var s1 := SetReg(s, r, StripRec(s.regs[r], todo[0].server));
      RegOk(s1, r) && Kept(s.regs[r], s1.regs[r]) && ThreadOk(Become(s1, t, Looping(r, todo[1..], still, None)), t)
    ensures s.regs[r].loop == Some(t)
  {
    PendingShrinks(s.regs[r].base, s.regs[r].stripped, todo, still);
    hide RegOk, Kept, Lifecycle.Reachable, AllApart, PendingOk, Strip, Apart;
    StrippedRegOk(s, r, todo[0].server);
  }

  // ----- all steps -----

  lemma StepKeeps(s: State, e: Step)
    requires Inv(s) && Enabled(s, e)
    ensures Inv(Apply(s, e))
  {
    hide Inv, ReconnectFor, BuildFor, SwapIn, SpawnLoop, SpawnCloser, Commit, CloseAll, Snapshot, Reconnected;
    match e
    case Bootstrap(cfgs, ups) => BootstrapKeeps(s, cfgs, ups);
    case StartConfigure(t, cfgs) => BecomeKeeps(s, t, ConfigureBuilding(cfgs));
    case FinishBuild(t, ups) => BuildKeeps(s, t, s.threads[t], ups);
    case SwapConfigured(t) => SwapKeeps(s, t, s.threads[t].cfgs, s.threads[t].r);
    case StartRetry(t, loop) => SpawnKeeps(s, t, loop, s.threads[t].r, s.threads[t].old_);
    case Retire(t, closer) => RetireKeeps(s, t, closer);
    case BeginRefresh(t) => if Starts(s.handler) { BeginRefreshKeeps(s, t); } else { ReadKeeps(s, t); }
    case BuildPanics(t) => BecomeKeeps(s, t, RefreshClearing);
    case CommitRefresh(t) =>
      var th := s.threads[t];
      CommitKeeps(s, t, th.cfgs, th.version, th.since, th.r);
    case CloseRejected(t) => CloseRejectedKeeps(s, t, s.threads[t].r, s.threads[t].current, s.threads[t].since);
    case TakeSnapshot(t) =>
      if s.threads[t].Answering? { Answers(s, t, s.threads[t].answer, s.threads[t].since); }
      else { RefreshAnswers(s, t, s.threads[t].r, s.threads[t].since); }
    case ClearRefreshing(t) => ClearKeeps(s, t);
    case ReadCapabilities(t) => ReadKeeps(s, t);
    case CloseReplaced(t) => CloseReplacedKeeps(s, t, s.threads[t].r);
    case _ =>
      hide Apply, Enabled;
      CallStepKeeps(s, e);
  }

  predicate BuildsOrSwaps(e: Step) {
    e.Bootstrap? || e.StartConfigure? || e.FinishBuild? || e.SwapConfigured? || e.StartRetry? || e.Retire?
    || e.BeginRefresh? || e.BuildPanics? || e.CommitRefresh? || e.CloseRejected? || e.TakeSnapshot?
    || e.ClearRefreshing? || e.ReadCapabilities?
    || e.CloseReplaced?
  }

  /** The steps of Execute and of the reconnect loop, and the loss of a connection. */
  lemma CallStepKeeps(s: State, e: Step)
    requires Inv(s) && Enabled(s, e) && !BuildsOrSwaps(e)
    ensures Inv(Apply(s, e))
  {
    hide Inv, ReconnectFor, Reconnected, Sending;
    match e
    case StartExecute(t) => ReadKeeps(s, t);
    case LookUp(t, action) => LookUpKeeps(s, t, s.threads[t].r, action);
    case FindDead(t) => FindDeadKeeps(s, t, s.threads[t].r, s.threads[t].client, s.threads[t].cfg);
    case FindAlive(t) => FindAliveKeeps(s, t, s.threads[t].r, s.threads[t].client, s.threads[t].cfg);
    case FinishExecute(t) => EndKeeps(s, t);
    case Reconnect(t, answer) => ReconnectKeeps(s, t, answer);
    case StripServer(t) =>
      StripServerKeeps(s, t, s.threads[t].r, s.threads[t].todo, s.threads[t].still, s.threads[t].client.value);
    case NextRound(t) =>
      if s.threads[t].still == [] { EndKeeps(s, t); }
      else { NextRoundKeeps(s, t, s.threads[t].r, s.threads[t].still); }
    case StopLoop(t) => EndKeeps(s, t);
    case NextId(t) =>
      var c := Target(s.threads[t]).value;
      UpdateClientKeeps(s, c, Take(s.clients[c], t));
    case SendRequest(t, accepted) => SendingKeeps(s, t, Target(s.threads[t]).value, accepted);
    case Drop(c) => UpdateClientKeeps(s, c, EndAt(s.clients[c], s.clients[c].tp.value));
  }

  lemma ReconnectKeeps(s: State, t: Tid, answer: ConnectAnswer)
    requires Inv(s) && Enabled(s, Reconnect(t, answer))
    ensures Inv(ReconnectFor(s, t, s.threads[t], answer))
  {
    hide Inv, Reconnected;
    match s.threads[t]
    case Reconnecting(r, cfg) => ReconnectAnswers(s, t, r, cfg, answer);
    case Looping(r, todo, still, _) => ReconnectLoops(s, t, r, todo, still, answer);
  }
}
