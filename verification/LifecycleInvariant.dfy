/** What every reachable state of the plugin satisfies. */
module LifecycleInvariant {
  import opened Options
  import opened Schema
  import opened Text
  import opened Naming
  import opened RegistrySpec
  import opened McpClient
  import opened Lifecycle

  // ----- the invariant -----

  ghost predicate PointersOk(s: State) {
    && |s.owner| == |s.clients|
    && (forall i, j :: 0 <= i < j < |s.installed| ==> s.installed[i] != s.installed[j])
    && (forall i :: 0 <= i < |s.installed| ==> s.installed[i] < |s.regs| && s.regs[s.installed[i]].status == Installed)
    && s.handler.registry == (if s.installed == [] then None else Some(s.installed[|s.installed| - 1]))
    && (s.configs == [] <==> s.installed == [])
    && s.handler.serverCfgs == (if s.configs == [] then [] else s.configs[|s.configs| - 1])
  }

  ghost predicate OwnsClient(s: State, r: RegId, c: ClientId) {
    c < |s.clients| && c < |s.owner| && s.owner[c] == r && Usable(s.clients[c])
  }

  /** Only servers that Build loaded from the cache are ever stripped. */
  ghost predicate Strippable(base: Reg, server: string) {
    exists i :: 0 <= i < |base.offline| && base.offline[i].server == server
  }

  ghost predicate RegOk(s: State, r: RegId)
    requires r < |s.regs|
  {
    var rec := s.regs[r];
    && RecordOk(rec)
    && (forall c :: c in ClientsOf(rec.reg.actions) ==> OwnsClient(s, r, c))
    && (rec.status.Installed? ==>
          r in s.installed && 0 <= rec.version < |s.configs| && rec.cfgs == s.configs[rec.version]
          && (rec.refreshed ==> !Degraded(rec.reg)))
    && (rec.loop.Some? ==> rec.status.Installed?)
    && (rec.loop.None? ==> rec.stripped == {})
    && (AllApart(rec.cfgs) ==> forall server :: server in rec.stripped ==> Strippable(rec.base, server))
  }

  ghost predicate Owned(s: State, t: Tid, r: RegId) {
    r < |s.regs| && s.regs[r].status == Private(t)
  }

  ghost predicate Replaced(s: State, r: RegId) {
    exists i :: 0 <= i < |s.installed| - 1 && s.installed[i] == r
  }

  /** `r` was the handler's registry at some moment since `installed` had length `since`. */
  ghost predicate CurrentDuring(installed: seq<RegId>, since: nat, r: RegId) {
    since <= |installed| && exists i :: since - 1 <= i < |installed| && 0 <= i && installed[i] == r
  }

  ghost predicate VersionOk(s: State, cfgs: seq<ServerConfig>, version: int, since: nat) {
    0 <= version < |s.configs| && cfgs == s.configs[version] && 1 <= since <= |s.installed|
  }

  ghost predicate DistinctServers(cfgs: seq<ServerConfig>) {
    forall i, j :: 0 <= i < j < |cfgs| ==> cfgs[i].server != cfgs[j].server
  }

  ghost predicate PendingOk(base: Reg, stripped: set<string>, todo: seq<ServerConfig>, still: seq<ServerConfig>) {
    && DistinctServers(todo) && DistinctServers(still)
    && (forall i, j :: 0 <= i < |todo| && 0 <= j < |still| ==> todo[i].server != still[j].server)
    && (forall i :: 0 <= i < |todo| ==> Strippable(base, todo[i].server) && todo[i].server !in stripped)
    && (forall i :: 0 <= i < |still| ==> Strippable(base, still[i].server) && still[i].server !in stripped)
  }

  ghost predicate LoopOk(s: State, t: Tid, r: RegId, todo: seq<ServerConfig>, still: seq<ServerConfig>,
      client: Option<ClientId>) {
    && r < |s.regs| && s.regs[r].loop == Some(t)
    && (client.Some? ==>
          todo != [] && Lifecycle.Reachable(s.regs[r].reg.actions, todo[0].server) && OwnsClient(s, r, client.value))
    && (AllApart(s.regs[r].cfgs) ==> PendingOk(s.regs[r].base, s.regs[r].stripped, todo, still))
  }

  ghost predicate ThreadOk(s: State, t: Tid)
    requires t in s.threads
  {
    match s.threads[t]
    case ConfigureBuilding(cfgs) => true
    case ConfigureBuilt(cfgs, r) => Owned(s, t, r) && s.regs[r].cfgs == cfgs && !s.regs[r].refreshed
    case ConfigureSwapped(r, old_) =>
      r < |s.regs| && s.regs[r].loop == Some(t) && s.regs[r].stripped == {} && (old_.Some? ==> Replaced(s, old_.value))
    case ConfigureRetiring(old_) => old_.Some? ==> Replaced(s, old_.value)
    case RefreshBuilding(cfgs, version, since) => VersionOk(s, cfgs, version, since)
    case RefreshBuilt(cfgs, version, since, r) =>
      VersionOk(s, cfgs, version, since) && Owned(s, t, r) && s.regs[r].cfgs == cfgs
    case RefreshRejecting(r, current, since) =>
      r < |s.regs| && s.regs[r].status == Rejected && current < |s.regs| && CurrentDuring(s.installed, since, current)
    case RefreshRetiring(r, was, since) => r < |s.regs| && CurrentDuring(s.installed, since, r) && Replaced(s, was)
    case RefreshAnswering(r, since) => r < |s.regs| && CurrentDuring(s.installed, since, r)
    case RefreshClearing => true
    case Answering(answer, since) =>
      since <= |s.installed| && (answer.None? ==> since == 0)
      && (answer.Some? ==> answer.value < |s.regs| && CurrentDuring(s.installed, since, answer.value))
    case Executing(r) => r < |s.regs|
    case Calling(r, client, _) => r < |s.regs| && (client.Some? ==> OwnsClient(s, r, client.value))
    case Reconnecting(r, cfg) => r < |s.regs|
    case Ready(r, client) => r < |s.regs| && client.Some? && OwnsClient(s, r, client.value)
    case Looping(r, todo, still, client) => LoopOk(s, t, r, todo, still, client)
    case Closing(r) => Replaced(s, r) && r < |s.regs|
  }

  ghost predicate RefreshOk(s: State) {
    && (s.handler.refreshing <==> s.refresher.Some?)
    && (s.refresher.Some? ==> s.refresher.value in s.threads && InFlight(s.threads[s.refresher.value]))
    && (forall t :: t in s.threads && InFlight(s.threads[t]) ==> s.refresher == Some(t))
  }

  ghost predicate ResultOk(s: State, res: Result) {
    && res.since <= res.until <= |s.installed|
    && (res.answer.None? ==> res.since == 0 && res.caps == [])
    && (res.answer.Some? ==>
          var r := res.answer.value;
          && r < |s.regs| && CurrentDuring(s.installed[..res.until], res.since, r)
          && (AllApart(s.regs[r].cfgs) ==>
                CapsOk(s.regs[r].base.caps, res.caps, res.stripped) && forall n :: n in res.stripped ==>
                  Strippable(s.regs[r].base, n)))
  }

  ghost predicate Inv(s: State) {
    && PointersOk(s) && RefreshOk(s)
    && (forall r :: 0 <= r < |s.regs| ==> RegOk(s, r))
    && (forall t :: t in s.threads ==> ThreadOk(s, t))
    && (forall k :: 0 <= k < |s.results| ==> ResultOk(s, s.results[k]))
  }

  // ----- frames -----

  /** What no step takes away. */
  ghost predicate Kept(old_: Record, new_: Record) {
    && new_.cfgs == old_.cfgs && new_.outs == old_.outs && new_.base == old_.base && new_.refreshed == old_.refreshed
    && (old_.status.Rejected? ==> new_.status.Rejected?)
    && (old_.status.Installed? ==> new_.status.Installed?)
    && (forall server :: Lifecycle.Reachable(old_.reg.actions, server) ==>
      Lifecycle.Reachable(new_.reg.actions, server))
  }

  ghost predicate Grows(s: State, s': State) {
    && |s.regs| <= |s'.regs| && |s.clients| <= |s'.clients|
    && s.owner <= s'.owner && s.configs <= s'.configs && s.installed <= s'.installed
    && (forall r :: 0 <= r < |s.regs| ==> Kept(s.regs[r], s'.regs[r]))
    && (forall c :: 0 <= c < |s.clients| && Usable(s.clients[c]) ==> Usable(s'.clients[c]))
  }

  /** The step leaves thread t, and what t alone may change, alone. */
  ghost predicate Spares(s: State, s': State, t: Tid) {
    && t in s.threads && t in s'.threads && s'.threads[t] == s.threads[t]
    && |s.regs| <= |s'.regs|
    && (forall r :: 0 <= r < |s.regs| ==>
          && (s.regs[r].status == Private(t) ==> s'.regs[r].status == Private(t))
          && (s.regs[r].loop == Some(t) ==> s'.regs[r].loop == Some(t) && s'.regs[r].stripped == s.regs[r].stripped))
  }

  lemma ReplacedStays(s: State, s': State, r: RegId)
    requires Grows(s, s') && Replaced(s, r)
    ensures Replaced(s', r)
  {
    var i :| 0 <= i < |s.installed| - 1 && s.installed[i] == r;
    assert s'.installed[i] == r;
  }

  lemma CurrentDuringStays(a: seq<RegId>, b: seq<RegId>, since: nat, r: RegId)
    requires a <= b && CurrentDuring(a, since, r)
    ensures CurrentDuring(b, since, r)
  {
    var i :| since - 1 <= i < |a| && 0 <= i && a[i] == r;
    assert b[i] == r;
  }

  lemma LoopFrame(s: State, s': State, t: Tid, r: RegId, todo: seq<ServerConfig>, still: seq<ServerConfig>,
      client: Option<ClientId>)
    requires Grows(s, s') && Spares(s, s', t) && LoopOk(s, t, r, todo, still, client)
    ensures LoopOk(s', t, r, todo, still, client)
  {
    hide AllApart, PendingOk, Strippable, Lifecycle.Reachable;
    assert Kept(s.regs[r], s'.regs[r]);
    if client.Some? { assert OwnsClient(s, r, client.value); }
  }

  lemma ThreadFrame(s: State, s': State, t: Tid)
    requires Grows(s, s') && Spares(s, s', t) && ThreadOk(s, t)
    ensures ThreadOk(s', t)
  {
    hide AllApart, PendingOk, Strippable, Lifecycle.Reachable, LoopOk;
    match s.threads[t]
    case ConfigureBuilding(cfgs) =>
    case ConfigureBuilt(cfgs, r) => assert Kept(s.regs[r], s'.regs[r]);
    case ConfigureSwapped(r, old_) => if old_.Some? { ReplacedStays(s, s', old_.value); }
    case ConfigureRetiring(old_) => if old_.Some? { ReplacedStays(s, s', old_.value); }
    case RefreshBuilding(cfgs, version, since) =>
    case RefreshBuilt(cfgs, version, since, r) => assert Kept(s.regs[r], s'.regs[r]);
    case RefreshRejecting(r, current, since) =>
      assert Kept(s.regs[r], s'.regs[r]);
      CurrentDuringStays(s.installed, s'.installed, since, current);
    case RefreshRetiring(r, was, since) =>
      CurrentDuringStays(s.installed, s'.installed, since, r);
      ReplacedStays(s, s', was);
    case RefreshAnswering(r, since) => CurrentDuringStays(s.installed, s'.installed, since, r);
    case RefreshClearing =>
    case Answering(answer, since) =>
      if answer.Some? { CurrentDuringStays(s.installed, s'.installed, since, answer.value); }
    case Executing(r) =>
    case Calling(r, client, _) => if client.Some? { assert OwnsClient(s, r, client.value); }
    case Reconnecting(r, cfg) =>
    case Ready(r, client) => assert OwnsClient(s, r, client.value);
    case Looping(r, todo, still, client) => LoopFrame(s, s', t, r, todo, still, client);
    case Closing(r) => ReplacedStays(s, s', r);
  }

  lemma RegFrame(s: State, s': State, r: RegId)
    requires Grows(s, s') && r < |s.regs| && s'.regs[r] == s.regs[r] && RegOk(s, r)
    ensures RegOk(s', r)
  {
    hide RecordOk, AllApart, Kept, Strippable;
    forall c | c in ClientsOf(s.regs[r].reg.actions) ensures OwnsClient(s', r, c) {
      assert OwnsClient(s, r, c);
    }
  }

  lemma ResultFrame(s: State, s': State, res: Result)
    requires Grows(s, s') && ResultOk(s, res)
    ensures ResultOk(s', res)
  {
    hide AllApart, CapsOk, Strippable;
    assert s'.installed[..res.until] == s.installed[..res.until];
    if res.answer.Some? { assert Kept(s.regs[res.answer.value], s'.regs[res.answer.value]); }
  }

  /** A step keeps the invariant when it does so for what it touches. */
  lemma Assemble(s: State, s': State)
    requires Inv(s) && Grows(s, s') && PointersOk(s') && RefreshOk(s')
    requires forall t :: t in s'.threads ==> ThreadOk(s', t) || Spares(s, s', t)
    requires forall r :: 0 <= r < |s'.regs| ==> RegOk(s', r) || (r < |s.regs| && s'.regs[r] == s.regs[r])
    requires |s.results| <= |s'.results| && forall k :: 0 <= k < |s'.results| ==>
      if k < |s.results| then s'.results[k] == s.results[k] else ResultOk(s', s'.results[k])
    ensures Inv(s')
  {
    hide PointersOk, RefreshOk, Grows, Spares, ThreadOk, RegOk, ResultOk;
    forall t | t in s'.threads ensures ThreadOk(s', t) {
      if Spares(s, s', t) {
        SparedWas(s, s', t);
        ThreadFrame(s, s', t);
      }
    }
    forall r | 0 <= r < |s'.regs| ensures RegOk(s', r) {
      if r < |s.regs| && s'.regs[r] == s.regs[r] { RegFrame(s, s', r); }
    }
    forall k | 0 <= k < |s'.results| ensures ResultOk(s', s'.results[k]) {
      if k < |s.results| { ResultFrame(s, s', s.results[k]); }
    }
  }

  lemma SparedWas(s: State, s': State, t: Tid)
    requires Spares(s, s', t)
    ensures t in s.threads
  {
  }
}
