/** plugin/handler.go and the concurrent parts of plugin/registry.go: Configure, RefreshCapabilities,
    Capabilities, Execute's reconnect, the background reconnect loop and delayed closes, all
    interleaving. Every mutex-protected section is one step. */
module Lifecycle {
  import opened Options
  import opened Schema
  import opened Text
  import opened Naming
  import opened RegistrySpec
  import opened McpClient

  type RegId = nat
  type Tid = nat

  // ----- the handler's own lock -----

  datatype HandlerState = HandlerState(registry: Option<RegId>, serverCfgs: seq<ServerConfig>, refreshing: bool)

  function Swapped(h: HandlerState, r: RegId, cfgs: seq<ServerConfig>): HandlerState {
    h.(registry := Some(r), serverCfgs := cfgs)
  }

  /** RefreshCapabilities goes on to a Build only when it has something to refresh and is the only one. */
  predicate Starts(h: HandlerState) {
    !h.refreshing && h.registry.Some? && h.serverCfgs != []
  }

  function Begun(h: HandlerState): HandlerState {
    if Starts(h) then h.(refreshing := true) else h
  }

  predicate Degraded(r: Reg) {
    |r.failed| > 0 || |r.offline| > 0
  }

  function Committed(h: HandlerState, r: RegId, reg: Reg): HandlerState {
    if Degraded(reg) then h else h.(registry := Some(r))
  }

  /** The handler's fields and its locked sections. */
  class Handler {
    var registry: Option<RegId>
    var serverCfgs: seq<ServerConfig>
    var refreshing: bool

    constructor ()
      ensures State() == HandlerState(None, [], false)
    {
      registry, serverCfgs, refreshing := None, [], false;
    }

    ghost function State(): HandlerState
      reads this
    {
      HandlerState(registry, serverCfgs, refreshing)
    }

    method SetRegistry(r: RegId, cfgs: seq<ServerConfig>)
      modifies this
      ensures State() == Swapped(old(State()), r, cfgs)
      ensures registry == Some(r) && serverCfgs == cfgs && refreshing == old(refreshing)
    {
      registry := Some(r);
      serverCfgs := cfgs;
    }

    method SwapConfigured(r: RegId, cfgs: seq<ServerConfig>) returns (old_: Option<RegId>)
      modifies this
      ensures State() == Swapped(old(State()), r, cfgs) && old_ == old(registry)
      ensures registry == Some(r) && serverCfgs == cfgs && refreshing == old(refreshing)
    {
      old_ := registry;
      registry := Some(r);
      serverCfgs := cfgs;
    }

    method BeginRefresh() returns (started: bool, reg: Option<RegId>, cfgs: seq<ServerConfig>)
      modifies this
      ensures State() == Begun(old(State())) && started == Starts(old(State()))
      ensures started <==> !old(refreshing) && old(registry).Some? && old(serverCfgs) != []
      ensures (refreshing <==> old(refreshing) || started) && registry == old(registry) && serverCfgs == old(serverCfgs)
      ensures reg == old(registry) && cfgs == old(serverCfgs)
    {
      reg, cfgs := registry, serverCfgs;
      if refreshing || registry.None? || |serverCfgs| == 0 { return false, reg, cfgs; }
      refreshing := true;
      started := true;
    }

    method CommitRefresh(r: RegId, reg: Reg) returns (old_: Option<RegId>)
      modifies this
      ensures State() == Committed(old(State()), r, reg) && old_ == old(registry)
      ensures registry == if reg.failed == [] && reg.offline == [] then Some(r) else old(registry)
      ensures serverCfgs == old(serverCfgs) && refreshing == old(refreshing)
    {
      old_ := registry;
      if |reg.failed| > 0 || |reg.offline| > 0 { return; }
      registry := Some(r);
    }

    method ClearRefreshing()
      modifies this
      ensures State() == old(State()).(refreshing := false)
    {
      refreshing := false;
    }
  }

  // ----- registries -----

  /** Who may still do what with a registry: its builder owns it until it is installed or rejected. */
  datatype Status = Private(owner: Tid) | Installed | Rejected

  /** A registry and its history: as Build made it from which outcomes, which servers have been
      stripped since, who runs (or will run) its reconnect loop, which stored configuration it was
      built from, and whether a refresh built it. */
  datatype Record = Record(
    reg: Reg,
    base: Reg,
    cfgs: seq<ServerConfig>,
    outs: seq<Outcome>,
    status: Status,
    loop: Option<Tid>,
    stripped: set<string>,
    version: int,
    refreshed: bool)

  function WithClientRec(rec: Record, server: string, c: ClientId): Record {
    rec.(reg := rec.reg.(actions := WithClient(rec.reg.actions, server, c)))
  }

  function StripRec(rec: Record, server: string): Record {
    rec.(reg := rec.reg.(caps := Strip(rec.reg.caps, server)), stripped := rec.stripped + {server})
  }

  predicate SelectedBy(a: Action, servers: set<string>) {
    exists server :: server in servers && server + SEPARATOR <= a.name
  }

  function StrippedBy(a: Action, servers: set<string>): Action {
    if SelectedBy(a, servers) then a.(description := Restored(a.description)) else a
  }

  /** The same keys leading to the same tools, and no client lost. */
  ghost predicate EntriesOk(base: map<string, Entry>, actions: map<string, Entry>) {
    && actions.Keys == base.Keys
    && forall k :: k in actions ==>
         && actions[k].cfg == base[k].cfg && actions[k].toolName == base[k].toolName
           && actions[k].schema == base[k].schema
         && (base[k].client.Some? ==> actions[k].client.Some?)
  }

  ghost predicate CapsOk(base: seq<Action>, caps: seq<Action>, stripped: set<string>) {
    |caps| == |base| && forall i :: 0 <= i < |caps| ==> caps[i] == StrippedBy(base[i], stripped)
  }

  ghost predicate Reachable(actions: map<string, Entry>, server: string) {
    forall k :: k in actions && actions[k].cfg.server == server ==> actions[k].client.Some?
  }

  ghost predicate RecordOk(rec: Record) {
    && |rec.cfgs| == |rec.outs| && rec.base == Built(rec.cfgs, rec.outs)
    && rec.reg.failed == rec.base.failed && rec.reg.offline == rec.base.offline
    && EntriesOk(rec.base.actions, rec.reg.actions)
    && (AllApart(rec.cfgs) ==>
          && CapsOk(rec.base.caps, rec.reg.caps, rec.stripped)
          && forall server :: server in rec.stripped ==> Reachable(rec.reg.actions, server))
  }

  lemma WithClientKeeps(rec: Record, server: string, c: ClientId)
    requires RecordOk(rec)
    ensures RecordOk(WithClientRec(rec, server, c))
    ensures Reachable(WithClientRec(rec, server, c).reg.actions, server)
    ensures forall s :: Reachable(rec.reg.actions, s) ==> Reachable(WithClientRec(rec, server, c).reg.actions, s)
    ensures ClientsOf(WithClientRec(rec, server, c).reg.actions) <= ClientsOf(rec.reg.actions) + {c}
  {
    hide Built;
  }

  ghost predicate Named(cfgs: seq<ServerConfig>, server: string) {
    exists i :: 0 <= i < |cfgs| && cfgs[i].server == server
  }

  /** Stripping one more server, if it is connected and was not stripped before. */
  lemma StripKeeps(rec: Record, server: string)
    requires RecordOk(rec) && Reachable(rec.reg.actions, server)
    requires AllApart(rec.cfgs) ==> Named(rec.cfgs, server) && server !in rec.stripped
    requires forall s :: s in rec.stripped && AllApart(rec.cfgs) ==> Named(rec.cfgs, s)
    ensures RecordOk(StripRec(rec, server))
  {
    var rec' := StripRec(rec, server);
    if AllApart(rec.cfgs) {
      forall i | 0 <= i < |rec.base.caps| ensures rec'.reg.caps[i] == StrippedBy(rec.base.caps[i], rec'.stripped) {
        StripOnce(rec, server, i);
      }
    }
  }

  lemma StripOnce(rec: Record, server: string, i: nat)
    requires RecordOk(rec) && AllApart(rec.cfgs) && i < |rec.base.caps|
    requires Named(rec.cfgs, server) && server !in rec.stripped && forall s :: s in rec.stripped ==> Named(rec.cfgs, s)
    ensures StripAction(StrippedBy(rec.base.caps[i], rec.stripped), server)
      == StrippedBy(rec.base.caps[i], rec.stripped + {server})
  {
    var k, j := ListingOrigin(rec.cfgs, rec.outs, i);
    var a := rec.base.caps[i];
    var own, tool := rec.cfgs[k].server, Tools(rec.outs[k])[j].name;
    assert a.name == ActionName(own, tool);
    NamedApart(rec.cfgs, k, server);
    SelectsOwn(a, rec.cfgs, k, tool, rec.stripped);
    SelectsOwn(a, rec.cfgs, k, tool, rec.stripped + {server});
    PrefixSelectsServer(server, own, tool);
    hide SelectedBy, Built, Restored, Apart;
  }

  lemma NamedApart(cfgs: seq<ServerConfig>, k: nat, server: string)
    requires AllApart(cfgs) && k < |cfgs| && Named(cfgs, server)
    ensures server == cfgs[k].server || Apart(server, cfgs[k].server)
  {
    hide Apart;
    var i :| 0 <= i < |cfgs| && cfgs[i].server == server;
    if i != k { ApartPair(cfgs, i, k); }
  }

  /** Among servers apart, an action is selected when its own server is in the set. */
  lemma SelectsOwn(a: Action, cfgs: seq<ServerConfig>, k: nat, tool: string, servers: set<string>)
    requires AllApart(cfgs) && k < |cfgs| && a.name == ActionName(cfgs[k].server, tool)
    requires forall s :: s in servers ==> Named(cfgs, s)
    ensures SelectedBy(a, servers) <==> cfgs[k].server in servers
  {
    var own := cfgs[k].server;
    PrefixSelectsServer(own, own, tool);
    hide Apart;
    forall s | s in servers && s + SEPARATOR <= a.name ensures s == own {
      NamedApart(cfgs, k, s);
      PrefixSelectsServer(s, own, tool);
    }
  }

  // ----- threads -----

  datatype Thread =
    | ConfigureBuilding(cfgs: seq<ServerConfig>)
    | ConfigureBuilt(cfgs: seq<ServerConfig>, r: RegId)
    | ConfigureSwapped(r: RegId, old_: Option<RegId>)
    | ConfigureRetiring(old_: Option<RegId>)
    | RefreshBuilding(cfgs: seq<ServerConfig>, version: int, since: nat)
    | RefreshBuilt(cfgs: seq<ServerConfig>, version: int, since: nat, r: RegId)
    | RefreshRejecting(r: RegId, current: RegId, since: nat)
    | RefreshRetiring(r: RegId, was: RegId, since: nat)
    | RefreshAnswering(r: RegId, since: nat)
    | RefreshClearing
    | Answering(answer: Option<RegId>, since: nat)
    | Executing(r: RegId)
    | Calling(r: RegId, client: Option<ClientId>, cfg: ServerConfig)
    | Reconnecting(r: RegId, cfg: ServerConfig)
    | Ready(r: RegId, client: Option<ClientId>)
    | Looping(r: RegId, todo: seq<ServerConfig>, still: seq<ServerConfig>, client: Option<ClientId>)
    | Closing(r: RegId)

  /** The client a thread is about to send a request on: a tools/call of Execute, or the tools/list
      that the reconnect loop makes when a server is back. */
  function Target(th: Thread): Option<ClientId> {
    if th.Ready? || th.Looping? then th.client else None
  }

  predicate InFlight(th: Thread) {
    th.RefreshBuilding? || th.RefreshBuilt? || th.RefreshRejecting? || th.RefreshRetiring?
    || th.RefreshAnswering? || th.RefreshClearing?
  }

  /** What a call returned: the registry whose snapshot it is (None for the default set), the
      snapshot, which servers were stripped in it, and the span of `installed` during the call. */
  datatype Result = Result(since: nat, until: nat, answer: Option<RegId>, caps: seq<Action>, stripped: set<string>)

  /** `owner` says for which registry a client was made; `installed` lists the values the handler's
      pointer took, `configs` those of its stored configuration; `refresher` is the refresh in flight. */
  datatype State = State(
    handler: HandlerState,
    regs: seq<Record>,
    clients: seq<ClientState>,
    owner: seq<RegId>,
    threads: map<Tid, Thread>,
    installed: seq<RegId>,
    configs: seq<seq<ServerConfig>>,
    refresher: Option<Tid>,
    results: seq<Result>)

  const INITIAL := State(HandlerState(None, [], false), [], [], [], map[], [], [], None, [])

  /** How the network answers a Build for one server, and what its cache file holds. */
  datatype Upstream = Upstream(answer: FetchAnswer, cached: seq<Tool>)

  function OutcomesFor(ups: seq<Upstream>, next: nat): (outs: seq<Outcome>)
    ensures |outs| == |ups|
  {
    seq(|ups|, i requires 0 <= i < |ups| =>
      if Fetched(ups[i].answer).1.Some? then Live(Fetched(ups[i].answer).1.value, next + i)
      else if ups[i].cached != [] then Offline(ups[i].cached)
      else Failed)
  }

  function ClientsFor(ups: seq<Upstream>): (cs: seq<ClientState>)
    ensures |cs| == |ups|
  {
    seq(|ups|, i requires 0 <= i < |ups| => Fetched(ups[i].answer).0)
  }

  datatype Step =
    | Bootstrap(cfgs: seq<ServerConfig>, ups: seq<Upstream>)
    | StartConfigure(t: Tid, cfgs: seq<ServerConfig>)
    | FinishBuild(t: Tid, ups: seq<Upstream>)
    | SwapConfigured(t: Tid)
    | StartRetry(t: Tid, loop: Tid)
    | Retire(t: Tid, closer: Tid)
    | BeginRefresh(t: Tid)
    | BuildPanics(t: Tid)
    | CommitRefresh(t: Tid)
    | CloseRejected(t: Tid)
    | TakeSnapshot(t: Tid)
    | ClearRefreshing(t: Tid)
    | ReadCapabilities(t: Tid)
    | StartExecute(t: Tid)
    | LookUp(t: Tid, action: string)
    | FindDead(t: Tid)
    | FindAlive(t: Tid)
    | FinishExecute(t: Tid)
    | Reconnect(t: Tid, answer: ConnectAnswer)
    | StripServer(t: Tid)
    | NextRound(t: Tid)
    | StopLoop(t: Tid)
    | CloseReplaced(t: Tid)
    | NextId(t: Tid)
    | SendRequest(t: Tid, accepted: bool)
    | Drop(c: ClientId)

  predicate Fresh(s: State, t: Tid) {
    t !in s.threads
  }

  predicate Dead(s: State, client: Option<ClientId>) {
    client.None? || client.value >= |s.clients| || !Usable(s.clients[client.value])
    || Cancelled(s.clients[client.value].made[s.clients[client.value].tp.value])
  }

  /** Thread t has taken an id and not sent its request yet. */
  predicate Holding(s: State, t: Tid) {
    t in s.threads && Target(s.threads[t]).Some? && Target(s.threads[t]).value < |s.clients|
    && t in s.clients[Target(s.threads[t]).value].taken
  }

  predicate Enabled(s: State, e: Step) {
    match e
    case Bootstrap(cfgs, ups) =>
      s.regs == [] && s.clients == [] && s.owner == [] && s.threads == map[] && cfgs != [] && |ups| == |cfgs|
    case StartConfigure(t, cfgs) => Fresh(s, t) && cfgs != []
    case FinishBuild(t, ups) =>
      t in s.threads && (s.threads[t].ConfigureBuilding? || s.threads[t].RefreshBuilding?)
        && |ups| == |s.threads[t].cfgs|
    case SwapConfigured(t) => t in s.threads && s.threads[t].ConfigureBuilt? && s.threads[t].r < |s.regs|
    case StartRetry(t, loop) =>
      t in s.threads && s.threads[t].ConfigureSwapped? && s.threads[t].r < |s.regs| && Fresh(s, loop)
    case Retire(t, closer) =>
      t in s.threads && (s.threads[t].ConfigureRetiring? || s.threads[t].RefreshRetiring?) && Fresh(s, closer)
    case BeginRefresh(t) => Fresh(s, t)
    case BuildPanics(t) => t in s.threads && s.threads[t].RefreshBuilding?
    case CommitRefresh(t) =>
      t in s.threads && s.threads[t].RefreshBuilt? && s.threads[t].r < |s.regs| && s.handler.registry.Some?
    case CloseRejected(t) => t in s.threads && s.threads[t].RefreshRejecting? && s.threads[t].r < |s.regs|
    case TakeSnapshot(t) =>
      t in s.threads &&
      ((s.threads[t].Answering? && (s.threads[t].answer.Some? ==> s.threads[t].answer.value < |s.regs|))
       || (s.threads[t].RefreshAnswering? && s.threads[t].r < |s.regs|))
    case ClearRefreshing(t) => t in s.threads && s.threads[t].RefreshClearing?
    case ReadCapabilities(t) => Fresh(s, t)
    case StartExecute(t) => Fresh(s, t) && s.handler.registry.Some?
    case LookUp(t, action) =>
      t in s.threads && s.threads[t].Executing? && s.threads[t].r < |s.regs|
        && action in s.regs[s.threads[t].r].reg.actions
    case FindDead(t) => t in s.threads && s.threads[t].Calling? && Dead(s, s.threads[t].client)
    case FindAlive(t) => t in s.threads && s.threads[t].Calling? && !Dead(s, s.threads[t].client)
    case FinishExecute(t) => t in s.threads && s.threads[t].Executing?
    case Reconnect(t, _) =>
      t in s.threads &&
      (s.threads[t].Reconnecting? || (s.threads[t].Looping? && s.threads[t].todo != [] && s.threads[t].client.None?))
      && s.threads[t].r < |s.regs|
    case StripServer(t) =>
      t in s.threads && s.threads[t].Looping? && s.threads[t].todo != [] && s.threads[t].client.Some?
        && s.threads[t].r < |s.regs|
      && !Holding(s, t)
    case NextRound(t) => t in s.threads && s.threads[t].Looping? && s.threads[t].todo == []
    case StopLoop(t) => t in s.threads && s.threads[t].Looping? && s.threads[t].client.None?
    case CloseReplaced(t) => t in s.threads && s.threads[t].Closing? && s.threads[t].r < |s.regs|
    case NextId(t) =>
      t in s.threads && Target(s.threads[t]).Some? && Target(s.threads[t]).value < |s.clients|
      && Usable(s.clients[Target(s.threads[t]).value]) && !Holding(s, t)
    case SendRequest(t, _) =>
      t in s.threads && Target(s.threads[t]).Some? && Target(s.threads[t]).value < |s.clients|
      && Usable(s.clients[Target(s.threads[t]).value]) && Holding(s, t)
    case Drop(c) => c < |s.clients| && Usable(s.clients[c])
  }

  // ----- the effect of each step -----

  function Become(s: State, t: Tid, th: Thread): State {
    s.(threads := s.threads[t := th])
  }

  function End(s: State, t: Tid): State {
    s.(threads := s.threads - {t})
  }

  function SetReg(s: State, r: RegId, rec: Record): State
    requires r < |s.regs|
  {
    s.(regs := s.regs[r := rec])
  }

  ghost function NewRecord(s: State, cfgs: seq<ServerConfig>, ups: seq<Upstream>, t: Tid, refreshed: bool): Record
    requires |ups| == |cfgs|
  {
    var outs := OutcomesFor(ups, |s.clients|);
    var b := Built(cfgs, outs);
    Record(b, b, cfgs, outs, Private(t), None, {}, 0, refreshed)
  }

  function AddReg(s: State, rec: Record, ups: seq<Upstream>): State {
    s.(regs := s.regs + [rec], clients := s.clients + ClientsFor(ups), owner := s.owner + seq(|ups|, _ => |s.regs|))
  }

  ghost function BuildFor(s: State, t: Tid, th: Thread, ups: seq<Upstream>): State
    requires (th.ConfigureBuilding? || th.RefreshBuilding?) && |ups| == |th.cfgs|
  {
    var r := |s.regs|;
    var built := AddReg(s, NewRecord(s, th.cfgs, ups, t, th.RefreshBuilding?), ups);
    match th
    case ConfigureBuilding(cfgs) => Become(built, t, ConfigureBuilt(cfgs, r))
    case RefreshBuilding(cfgs, version, since) => Become(built, t, RefreshBuilt(cfgs, version, since, r))
  }

  /** The pointer and the configuration move to a registry that was private so far. */
  function Install(s: State, r: RegId, version: int, loop: Option<Tid>): State
    requires r < |s.regs|
  {
    SetReg(s, r, s.regs[r].(status := Installed, version := version, loop := loop)).(installed := s.installed + [r])
  }

  function SwapIn(s: State, t: Tid, cfgs: seq<ServerConfig>, r: RegId): State
    requires r < |s.regs|
  {
    var h := Swapped(s.handler, r, cfgs);
    var s1 := Install(s, r, |s.configs|, Some(t)).(handler := h, configs := s.configs + [cfgs]);
    Become(s1, t, ConfigureSwapped(r, s.handler.registry))
  }

  /** StartBackgroundRetry: a reconnect loop only for registries with offline servers. (The loop for
      failed servers touches no registry.) */
  function SpawnLoop(s: State, t: Tid, loop: Tid, r: RegId, old_: Option<RegId>): State
    requires r < |s.regs|
  {
    var offline := s.regs[r].reg.offline;
    var s1 := if |offline| > 0
      then Become(SetReg(s, r, s.regs[r].(loop := Some(loop))), loop, Looping(r, offline, [], None))
      else s;
    Become(s1, t, ConfigureRetiring(old_))
  }

  function SpawnCloser(s: State, t: Tid, closer: Tid, th: Thread): State {
    match th
    case ConfigureRetiring(Some(old_)) => Become(End(s, t), closer, Closing(old_))
    case RefreshRetiring(r, was, since) => Become(Become(s, t, RefreshAnswering(r, since)), closer, Closing(was))
    case _ => End(s, t)
  }

  function Commit(s: State, t: Tid, version: int, since: nat, r: RegId): State
    requires r < |s.regs| && s.handler.registry.Some?
  {
    var h := Committed(s.handler, r, s.regs[r].reg);
    if Degraded(s.regs[r].reg)
    then
      var s1 := SetReg(s, r, s.regs[r].(status := Rejected));
      Become(s1, t, RefreshRejecting(r, s.handler.registry.value, since)).(handler := h)
    else Become(Install(s, r, version, None), t, RefreshRetiring(r, s.handler.registry.value, since)).(handler := h)
  }

  /** Close cancels the transport of every client in the registry's entries. */
  function CloseAll(s: State, r: RegId): State
    requires r < |s.regs|
  {
    var closing := ClientsOf(s.regs[r].reg.actions);
    s.(clients := seq(|s.clients|, c requires 0 <= c < |s.clients| =>
      if c in closing then Closed(s.clients[c]) else s.clients[c]))
  }

  function Snapshot(s: State, answer: Option<RegId>, since: nat): State
    requires answer.Some? ==> answer.value < |s.regs|
  {
    var res := if answer.None? then Result(since, |s.installed|, None, [], {})
               else Result(since, |s.installed|, answer, s.regs[answer.value].reg.caps, s.regs[answer.value].stripped);
    s.(results := s.results + [res])
  }

  /** reconnect: a new client for the registry, and on success its entries point to it. */
  function Reconnected(s: State, r: RegId, server: string, answer: ConnectAnswer): (State, bool)
    requires r < |s.regs|
  {
    var (client, ok) := Connected(NEW_CLIENT, answer);
    var s1 := s.(clients := s.clients + [client], owner := s.owner + [r]);
    if ok then (SetReg(s1, r, WithClientRec(s.regs[r], server, |s.clients|)), true) else (s1, false)
  }

  function ReconnectFor(s: State, t: Tid, th: Thread, answer: ConnectAnswer): State
    requires th.Reconnecting? || (th.Looping? && th.todo != [])
    requires th.r < |s.regs|
  {
    match th
    case Reconnecting(r, cfg) =>
      var (s1, ok) := Reconnected(s, r, cfg.server, answer);
      if ok then Become(s1, t, Ready(r, Some(|s.clients|))) else End(s1, t)
    case Looping(r, todo, still, _) =>
      var (s1, ok) := Reconnected(s, r, todo[0].server, answer);
      Become(s1, t, if ok then Looping(r, todo, still, Some(|s.clients|))
        else Looping(r, todo[1..], still + [todo[0]], None))
  }

  function UpdateClient(s: State, c: ClientId, client: ClientState): State
    requires c < |s.clients|
  {
    s.(clients := s.clients[c := client])
  }

  /** Execute is done when its request is out (what comes back concerns no shared state); the loop goes on. */
  function Sending(s: State, t: Tid, c: ClientId, accepted: bool): State
    requires t in s.threads && c < |s.clients| && Usable(s.clients[c]) && t in s.clients[c].taken
  {
    var what := if s.threads[t].Looping? then ToolsList else ToolsCall;
    var s1 := UpdateClient(s, c, Send(s.clients[c], t, what, accepted));
    if s.threads[t].Looping? then s1 else End(s1, t)
  }

  ghost function Apply(s: State, e: Step): State
    requires Enabled(s, e)
  {
    match e
    case Bootstrap(cfgs, ups) =>
      Install(AddReg(s, NewRecord(s, cfgs, ups, 0, false), ups), 0, 0, None)
        .(handler := Swapped(s.handler, 0, cfgs), configs := [cfgs], installed := [0])
    case StartConfigure(t, cfgs) => Become(s, t, ConfigureBuilding(cfgs))
    case FinishBuild(t, ups) => BuildFor(s, t, s.threads[t], ups)
    case SwapConfigured(t) => SwapIn(s, t, s.threads[t].cfgs, s.threads[t].r)
    case StartRetry(t, loop) => SpawnLoop(s, t, loop, s.threads[t].r, s.threads[t].old_)
    case Retire(t, closer) => SpawnCloser(s, t, closer, s.threads[t])
    case BeginRefresh(t) =>
      if Starts(s.handler)
      then Become(s, t, RefreshBuilding(s.handler.serverCfgs, |s.configs| - 1, |s.installed|))
             .(handler := Begun(s.handler), refresher := Some(t))
      else Become(s, t, Answering(s.handler.registry, |s.installed|))
    case BuildPanics(t) => Become(s, t, RefreshClearing)
    case CommitRefresh(t) => Commit(s, t, s.threads[t].version, s.threads[t].since, s.threads[t].r)
    case CloseRejected(t) =>
      Become(CloseAll(s, s.threads[t].r), t, RefreshAnswering(s.threads[t].current, s.threads[t].since))
    case TakeSnapshot(t) =>
      (match s.threads[t]
       case RefreshAnswering(r, since) => Become(Snapshot(s, Some(r), since), t, RefreshClearing)
       case Answering(answer, since) => End(Snapshot(s, answer, since), t))
    case ClearRefreshing(t) => End(s, t).(handler := s.handler.(refreshing := false), refresher := None)
    case ReadCapabilities(t) => Become(s, t, Answering(s.handler.registry, |s.installed|))
    case StartExecute(t) => Become(s, t, Executing(s.handler.registry.value))
    case LookUp(t, action) =>
      var e := s.regs[s.threads[t].r].reg.actions[action];
      Become(s, t, Calling(s.threads[t].r, e.client, e.cfg))
    case FindDead(t) => Become(s, t, Reconnecting(s.threads[t].r, s.threads[t].cfg))
    case FindAlive(t) => Become(s, t, Ready(s.threads[t].r, s.threads[t].client))
    case FinishExecute(t) => End(s, t)
    case Reconnect(t, answer) => ReconnectFor(s, t, s.threads[t], answer)
    case StripServer(t) =>
      var th := s.threads[t];
      Become(SetReg(s, th.r, StripRec(s.regs[th.r], th.todo[0].server)), t, Looping(th.r, th.todo[1..], th.still, None))
    case NextRound(t) =>
      var th := s.threads[t];
      if th.still == [] then End(s, t) else Become(s, t, Looping(th.r, th.still, [], None))
    case StopLoop(t) => End(s, t)
    case CloseReplaced(t) => End(CloseAll(s, s.threads[t].r), t)
    case NextId(t) =>
      var c := Target(s.threads[t]).value;
      UpdateClient(s, c, Take(s.clients[c], t))
    case SendRequest(t, accepted) => Sending(s, t, Target(s.threads[t]).value, accepted)
    case Drop(c) => UpdateClient(s, c, EndAt(s.clients[c], s.clients[c].tp.value))
  }
}
