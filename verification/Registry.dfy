/** plugin/registry.go: what a registry built from given upstream answers contains. */
module RegistrySpec {
  import opened Options
  import opened Json
  import opened Schema
  import opened Text
  import opened Naming

  const OFFLINE := "[offline] "

  const OUTPUT_INTRO := ['\n'] + "\nOutput schema (return JSON matching this): "

  /** Clients are named by number; what a client is, McpClient says. */
  type ClientId = nat

  datatype ServerConfig = ServerConfig(
    server: string,
    url: string,
    headers: map<string, string>,
    contextHeaders: map<string, string>)

  datatype Entry = Entry(client: Option<ClientId>, toolName: string, schema: InputSchema, cfg: ServerConfig)

  datatype Parameter = Parameter(name: string, description: string, schema: Option<Json>, required: bool)

  /** A description is prose, then possibly an output schema. The schema is kept as a tree:
      the cache changes its spelling but not its meaning. */
  datatype Description = Description(text: string, output: Option<Json>)

  datatype Action = Action(
    name: string,
    description: Description,
    parameters: seq<Parameter>,
    readOnly: bool,
    alwaysInclude: bool,
    confirmationHint: string,
    companions: seq<string>,
    injectContextArgs: seq<string>)

  /** How one configured server came out of a Build. */
  datatype Outcome = Live(tools: seq<Tool>, client: ClientId) | Offline(tools: seq<Tool>) | Failed

  datatype Listing = Listing(action: Action, entry: Entry)

  datatype Reg = Reg(
    actions: map<string, Entry>,
    caps: seq<Action>,
    failed: seq<ServerConfig>,
    offline: seq<ServerConfig>)

  // ----- one tool -----

  function ReadOnly(ann: Option<ToolAnnotation>): bool {
    ann.Some? && ann.value.readOnlyHint == Some(true)
  }

  function AlwaysInclude(meta: Option<Json>): bool {
    meta.Some? && meta.value.Obj? && Field(meta.value.fields, "always_include") == Json.Bool(true)
  }

  function ConfirmationHint(meta: Option<Json>): string {
    if meta.Some? && meta.value.Obj? then
      match DecodeString(Field(meta.value.fields, "confirmation_hint"))
      case Some(s) => TrimSpace(s)
      case None => ""
    else ""
  }

  /** The companion tool names a `_meta` declares; none when the list is malformed. */
  function CompanionTools(meta: Option<Json>): seq<string> {
    if meta.Some? && meta.value.Obj? then
      match DecodeStrings(Field(meta.value.fields, "companions"))
      case Some(names) => if "" in names then [] else names
      case None => []
    else []
  }

  function Companions(server: string, meta: Option<Json>): seq<string> {
    var names := CompanionTools(meta);
    seq(|names|, i requires 0 <= i < |names| => ActionName(server, names[i]))
  }

  function MakeParameter(schema: InputSchema, name: string): Parameter
    requires name in schema.properties
  {
    var prop := schema.properties[name];
    Parameter(name, prop.description, prop.raw, name in schema.required)
  }

  ghost function Params(schema: InputSchema): (params: seq<Parameter>)
  {
    var names := Sorted(schema.properties.Keys);
    SortedEnumerates(schema.properties.Keys);
    assert forall i :: 0 <= i < |names| ==> names[i] in Elements(names);
    seq(|names|, i requires 0 <= i < |names| => MakeParameter(schema, names[i]))
  }

  function ClientOf(o: Outcome): Option<ClientId> {
    if o.Live? then Some(o.client) else None
  }

  function Tools(o: Outcome): seq<Tool> {
    if o.Failed? then [] else o.tools
  }

  ghost function MakeAction(cfg: ServerConfig, client: Option<ClientId>, tool: Tool): Action {
    Action(
      ActionName(cfg.server, tool.name),
      Description(if client.None? then OFFLINE + tool.description else tool.description, tool.outputSchema),
      Params(tool.inputSchema),
      ReadOnly(tool.annotations),
      AlwaysInclude(tool.meta),
      ConfirmationHint(tool.meta),
      Companions(cfg.server, tool.meta),
      Sorted(cfg.contextHeaders.Keys))
  }

  ghost function MakeListing(cfg: ServerConfig, client: Option<ClientId>, tool: Tool): Listing {
    Listing(MakeAction(cfg, client, tool), Entry(client, tool.name, tool.inputSchema, cfg))
  }

  /** What each parameter says, by the schema; its list is in strictly increasing order of name. */
  ghost predicate ParamsSay(schema: InputSchema, params: seq<Parameter>) {
    && (forall i, j :: 0 <= i < j < |params| ==> Less(params[i].name, params[j].name))
    && (forall name :: name in schema.properties <==> exists p :: p in params && p.name == name)
    && forall p :: p in params ==>
         && p.name in schema.properties
         && (p.required <==> p.name in schema.required)
         && p.description == schema.properties[p.name].description
         && p.schema == schema.properties[p.name].raw
  }

  lemma ParamsByName(schema: InputSchema) returns (names: seq<string>)
    ensures StrictlySorted(names) && Elements(names) == schema.properties.Keys && |Params(schema)| == |names|
    ensures forall i :: 0 <= i < |names| ==>
      names[i] in schema.properties && Params(schema)[i] == MakeParameter(schema, names[i])
  {
    names := Sorted(schema.properties.Keys);
    SortedEnumerates(schema.properties.Keys);
    assert forall i :: 0 <= i < |names| ==> names[i] in Elements(names);
  }

  /** The parameter list holds one parameter for each property and no other, with the description, the raw
      schema and the required flag of that property. */
  lemma ParamsCoverProperties(schema: InputSchema)
    ensures ParamsSay(schema, Params(schema))
  {
    var params := Params(schema);
    var names := ParamsByName(schema);
    hide Params, Less;
    forall name | name in schema.properties ensures exists p :: p in params && p.name == name {
      assert name in Elements(names);
      var i :| 0 <= i < |names| && names[i] == name;
      assert params[i] in params && params[i].name == name;
    }
    forall p | p in params ensures p.name in schema.properties && p == MakeParameter(schema, p.name) {
      var i :| 0 <= i < |params| && params[i] == p;
    }
  }

  // ----- the whole list -----

  ghost function ServerListings(cfg: ServerConfig, o: Outcome): (ls: seq<Listing>)
    ensures |ls| == |Tools(o)|
    ensures forall j :: 0 <= j < |ls| ==> ls[j] == MakeListing(cfg, ClientOf(o), Tools(o)[j])
  {
    seq(|Tools(o)|, j requires 0 <= j < |Tools(o)| => MakeListing(cfg, ClientOf(o), Tools(o)[j]))
  }

  ghost function Listings(cfgs: seq<ServerConfig>, outs: seq<Outcome>): seq<Listing>
    requires |cfgs| == |outs|
  {
    if cfgs == [] then []
    else
      var n := |cfgs| - 1;
      Listings(cfgs[..n], outs[..n]) + ServerListings(cfgs[n], outs[n])
  }

  function Caps(ls: seq<Listing>): (caps: seq<Action>)
    ensures |caps| == |ls|
  {
    seq(|ls|, i requires 0 <= i < |ls| => ls[i].action)
  }

  function IndexOf(ls: seq<Listing>): map<string, Entry> {
    if ls == [] then map[]
    else
      var last := ls[|ls| - 1];
      IndexOf(ls[..|ls| - 1])[last.action.name := last.entry]
  }

  datatype Status = IsLive | IsOffline | IsFailed

  function StatusOf(o: Outcome): Status {
    match o
    case Live(_, _) => IsLive
    case Offline(_) => IsOffline
    case Failed => IsFailed
  }

  /** The configured servers with a given outcome, in configuration order. */
  function Having(cfgs: seq<ServerConfig>, outs: seq<Outcome>, status: Status): seq<ServerConfig>
    requires |cfgs| == |outs|
  {
    if cfgs == [] then []
    else
      var n := |cfgs| - 1;
      Having(cfgs[..n], outs[..n], status) + (if StatusOf(outs[n]) == status then [cfgs[n]] else [])
  }

  /** The registry that Build returns for servers with these outcomes. */
  ghost function Built(cfgs: seq<ServerConfig>, outs: seq<Outcome>): Reg
    requires |cfgs| == |outs|
  {
    var ls := Listings(cfgs, outs);
    Reg(IndexOf(ls), Caps(ls), Having(cfgs, outs, IsFailed), Having(cfgs, outs, IsOffline))
  }

  /** No two configured servers can be mistaken for each other. Distinct clean names are enough. */
  ghost predicate AllApart(cfgs: seq<ServerConfig>) {
    forall i, j :: 0 <= i < j < |cfgs| ==> Apart(cfgs[i].server, cfgs[j].server)
  }

  lemma DistinctCleanNamesApart(cfgs: seq<ServerConfig>)
    requires forall i :: 0 <= i < |cfgs| ==> Clean(cfgs[i].server)
    requires forall i, j :: 0 <= i < j < |cfgs| ==> cfgs[i].server != cfgs[j].server
    ensures AllApart(cfgs)
  {
    hide Clean, Apart;
    forall i, j | 0 <= i < j < |cfgs| ensures Apart(cfgs[i].server, cfgs[j].server) {
      CleanNamesApart(cfgs[i].server, cfgs[j].server);
    }
  }

  lemma ApartPair(cfgs: seq<ServerConfig>, i: nat, j: nat)
    requires AllApart(cfgs) && i < |cfgs| && j < |cfgs| && i != j
    ensures Apart(cfgs[i].server, cfgs[j].server) && cfgs[i].server != cfgs[j].server
  {
    if i < j { assert Apart(cfgs[i].server, cfgs[j].server); } else { assert Apart(cfgs[j].server, cfgs[i].server); }
    if cfgs[i].server == cfgs[j].server { NotApartFromItself(cfgs[i].server); }
  }

  ghost predicate DistinctToolNames(o: Outcome) {
    forall i, j :: 0 <= i < j < |Tools(o)| ==> Tools(o)[i].name != Tools(o)[j].name
  }

  ghost predicate Increasing(at: seq<nat>) {
    forall i, j :: 0 <= i < j < |at| ==> at[i] < at[j]
  }

  /** The positions of the servers with a given outcome, in configuration order. */
  function HavingAt(outs: seq<Outcome>, status: Status): seq<nat> {
    if outs == [] then []
    else
      var n := |outs| - 1;
      if StatusOf(outs[n]) == status then HavingAt(outs[..n], status) + [n] else HavingAt(outs[..n], status)
  }

  /** They increase, and are exactly those with that outcome. */
  lemma {:induction false} HavingAtPositions(outs: seq<Outcome>, status: Status)
    ensures forall i, j :: 0 <= i < j < |HavingAt(outs, status)| ==>
      HavingAt(outs, status)[i] < HavingAt(outs, status)[j]
    ensures forall p :: p in HavingAt(outs, status) <==> 0 <= p < |outs| && StatusOf(outs[p]) == status
  {
    if outs != [] {
      var n := |outs| - 1;
      var before := HavingAt(outs[..n], status);
      HavingAtPositions(outs[..n], status);
      forall p ensures p in HavingAt(outs, status) <==> 0 <= p < |outs| && StatusOf(outs[p]) == status {
        if 0 <= p < n { assert outs[..n][p] == outs[p]; }
        if StatusOf(outs[n]) == status { assert HavingAt(outs, status)[|before|] == n; }
      }
      assert forall i :: 0 <= i < |before| ==> before[i] in before;
    }
  }

  lemma {:induction false} HavingIsSublist(cfgs: seq<ServerConfig>, outs: seq<Outcome>, status: Status)
    requires |cfgs| == |outs|
    ensures var at, hs := HavingAt(outs, status), Having(cfgs, outs, status);
      |at| == |hs| && forall i :: 0 <= i < |at| ==> at[i] < |cfgs| && hs[i] == cfgs[at[i]]
  {
    if cfgs != [] { HavingIsSublist(cfgs[..|cfgs| - 1], outs[..|outs| - 1], status); }
  }

  /** Each list is the sublist, in configuration order, of the servers with its outcome. */
  lemma OutcomesInOrder(cfgs: seq<ServerConfig>, outs: seq<Outcome>, status: Status)
    requires |cfgs| == |outs|
    ensures var at, hs := HavingAt(outs, status), Having(cfgs, outs, status);
      && |at| == |hs| && (forall i :: 0 <= i < |at| ==> at[i] < |cfgs| && hs[i] == cfgs[at[i]])
      && (forall i, j :: 0 <= i < j < |at| ==> at[i] < at[j])
      && (forall p :: p in at <==> 0 <= p < |cfgs| && StatusOf(outs[p]) == status)
  {
    HavingAtPositions(outs, status);
    HavingIsSublist(cfgs, outs, status);
  }

  /** The three lists of servers split the configuration: each server is in the list of its own
      outcome, and the lengths add up. */
  lemma {:induction false} OutcomesPartition(cfgs: seq<ServerConfig>, outs: seq<Outcome>)
    requires |cfgs| == |outs|
    ensures |Having(cfgs, outs, IsLive)| + |Having(cfgs, outs, IsOffline)| + |Having(cfgs, outs, IsFailed)| == |cfgs|
    ensures forall c, status :: c in Having(cfgs, outs, status) <==>
      exists i :: 0 <= i < |cfgs| && cfgs[i] == c && StatusOf(outs[i]) == status
  {
    if cfgs != [] {
      var n := |cfgs| - 1;
      OutcomesPartition(cfgs[..n], outs[..n]);
    }
    forall c, status ensures c in Having(cfgs, outs, status) <==>
      exists i :: 0 <= i < |cfgs| && cfgs[i] == c && StatusOf(outs[i]) == status
    {
      HavingMember(cfgs, outs, status, c);
    }
  }

  lemma {:induction false} HavingMember(cfgs: seq<ServerConfig>, outs: seq<Outcome>, status: Status, c: ServerConfig)
    requires |cfgs| == |outs|
    ensures c in Having(cfgs, outs, status) <==>
      exists i :: 0 <= i < |cfgs| && cfgs[i] == c && StatusOf(outs[i]) == status
  {
    if cfgs != [] {
      var n := |cfgs| - 1;
      HavingMember(cfgs[..n], outs[..n], status, c);
      if i :| 0 <= i < n && cfgs[..n][i] == c && StatusOf(outs[..n][i]) == status {
        assert cfgs[i] == c && StatusOf(outs[i]) == status;
      }
      if i :| 0 <= i < n && cfgs[i] == c && StatusOf(outs[i]) == status {
        assert cfgs[..n][i] == c && StatusOf(outs[..n][i]) == status;
      }
    }
  }

  /** The index maps each listed name, and nothing else, to the last entry listed under it. */
  lemma {:induction false} IndexIsLast(ls: seq<Listing>, name: string)
    ensures name in IndexOf(ls) <==> exists i :: 0 <= i < |ls| && ls[i].action.name == name
    ensures forall i :: 0 <= i < |ls| && ls[i].action.name == name
                        && (forall j :: i < j < |ls| ==> ls[j].action.name != name) ==>
                        name in IndexOf(ls) && IndexOf(ls)[name] == ls[i].entry
  {
    if ls != [] {
      var n := |ls| - 1;
      IndexIsLast(ls[..n], name);
      assert ls[n].action.name == name ==> name in IndexOf(ls);
      assert forall i :: 0 <= i < n ==> ls[..n][i] == ls[i];
      if ls[n].action.name != name && name in IndexOf(ls) {
        var i :| 0 <= i < n && ls[..n][i].action.name == name;
        assert ls[i].action.name == name;
      }
    }
  }

  /** Every listing belongs to one tool of one configured server. */
  lemma {:induction false} ListingOrigin(cfgs: seq<ServerConfig>, outs: seq<Outcome>, i: nat) returns (k: nat, j: nat)
    requires |cfgs| == |outs| && i < |Listings(cfgs, outs)|
    ensures k < |cfgs| && j < |Tools(outs[k])|
    ensures Listings(cfgs, outs)[i] == MakeListing(cfgs[k], ClientOf(outs[k]), Tools(outs[k])[j])
  {
    hide MakeListing;
    var n := |cfgs| - 1;
    var before := Listings(cfgs[..n], outs[..n]);
    if i < |before| {
      k, j := ListingOrigin(cfgs[..n], outs[..n], i);
    } else {
      k, j := n, i - |before|;
    }
  }

  /** Every tool of every server that did not fail is listed. */
  lemma {:induction false} ToolListed(cfgs: seq<ServerConfig>, outs: seq<Outcome>, k: nat, j: nat) returns (i: nat)
    requires |cfgs| == |outs| && k < |cfgs| && j < |Tools(outs[k])|
    ensures i < |Listings(cfgs, outs)|
    ensures Listings(cfgs, outs)[i] == MakeListing(cfgs[k], ClientOf(outs[k]), Tools(outs[k])[j])
  {
    hide MakeListing;
    var n := |cfgs| - 1;
    var before := Listings(cfgs[..n], outs[..n]);
    if k < n {
      i := ToolListed(cfgs[..n], outs[..n], k, j);
    } else {
      i := |before| + j;
    }
  }

  ghost predicate UniqueNames(ls: seq<Listing>) {
    forall i, j :: 0 <= i < j < |ls| ==> ls[i].action.name != ls[j].action.name
  }

  /** With servers apart and distinct tool names on each server, no name is listed twice. */
  lemma {:induction false} NamesDistinct(cfgs: seq<ServerConfig>, outs: seq<Outcome>)
    requires |cfgs| == |outs| && AllApart(cfgs)
    requires forall k :: 0 <= k < |outs| ==> DistinctToolNames(outs[k])
    ensures UniqueNames(Listings(cfgs, outs))
  {
    if cfgs != [] {
      var n := |cfgs| - 1;
      var before := Listings(cfgs[..n], outs[..n]);
      var here := ServerListings(cfgs[n], outs[n]);
      assert forall k :: 0 <= k < n ==> outs[..n][k] == outs[k];
      NamesDistinct(cfgs[..n], outs[..n]);
      forall i, j | 0 <= i < |before| && 0 <= j < |here| ensures before[i].action.name != here[j].action.name {
        var k, m := ListingOrigin(cfgs[..n], outs[..n], i);
        ApartPair(cfgs, k, n);
        if before[i].action.name == here[j].action.name {
          NameInjective(cfgs[k].server, Tools(outs[k])[m].name, cfgs[n].server, Tools(outs[n])[j].name);
        }
      }
      forall i, j | 0 <= i < j < |here| ensures here[i].action.name != here[j].action.name {
        if here[i].action.name == here[j].action.name {
          NameInjective(cfgs[n].server, Tools(outs[n])[i].name, cfgs[n].server, Tools(outs[n])[j].name);
        }
      }
    }
  }

  /** Then the index is a bijection with the list: position i's name leads to position i's entry. */
  lemma IndexBijection(cfgs: seq<ServerConfig>, outs: seq<Outcome>)
    requires |cfgs| == |outs| && AllApart(cfgs)
    requires forall k :: 0 <= k < |outs| ==> DistinctToolNames(outs[k])
    ensures var r, ls := Built(cfgs, outs), Listings(cfgs, outs);
      && |r.actions| == |r.caps|
      && (forall i :: 0 <= i < |r.caps| ==> r.caps[i].name in r.actions && r.actions[r.caps[i].name] == ls[i].entry)
      && (forall name :: name in r.actions ==> exists i :: 0 <= i < |r.caps| && r.caps[i].name == name)
  {
    NamesDistinct(cfgs, outs);
    var ls := Listings(cfgs, outs);
    hide Listings, IndexOf, UniqueNames, Having;
    IndexSize(ls);
    var caps := Caps(ls);
    forall i | 0 <= i < |caps| ensures caps[i].name in IndexOf(ls) && IndexOf(ls)[caps[i].name] == ls[i].entry {
      UniqueLeads(ls, i);
    }
    forall name | name in IndexOf(ls) ensures exists i :: 0 <= i < |caps| && caps[i].name == name {
      IndexedIsListed(ls, name);
    }
  }

  lemma IndexedIsListed(ls: seq<Listing>, name: string)
    requires name in IndexOf(ls)
    ensures exists i :: 0 <= i < |Caps(ls)| && Caps(ls)[i].name == name
  {
    IndexIsLast(ls, name);
    hide IndexOf;
    var i :| 0 <= i < |ls| && ls[i].action.name == name;
    assert Caps(ls)[i].name == name;
  }

  lemma UniqueLeads(ls: seq<Listing>, i: nat)
    requires UniqueNames(ls) && i < |ls|
    ensures ls[i].action.name in IndexOf(ls) && IndexOf(ls)[ls[i].action.name] == ls[i].entry
  {
    hide IndexOf;
    IndexIsLast(ls, ls[i].action.name);
  }

  lemma {:induction false} IndexSize(ls: seq<Listing>)
    requires UniqueNames(ls)
    ensures |IndexOf(ls)| == |ls|
  {
    if ls != [] {
      var n := |ls| - 1;
      IndexSize(ls[..n]);
      IndexIsLast(ls[..n], ls[n].action.name);
      assert ls[n].action.name !in IndexOf(ls[..n]);
    }
  }

  /** A listed name's entry belongs to the server whose listing it is, tool names clashing or not. */
  lemma EntryServer(cfgs: seq<ServerConfig>, outs: seq<Outcome>, i: nat, k: nat, j: nat)
    requires |cfgs| == |outs| && AllApart(cfgs)
    requires i < |Listings(cfgs, outs)| && k < |cfgs| && j < |Tools(outs[k])|
    requires Listings(cfgs, outs)[i] == MakeListing(cfgs[k], ClientOf(outs[k]), Tools(outs[k])[j])
    ensures var r := Built(cfgs, outs);
      && r.caps[i].name in r.actions
      && r.actions[r.caps[i].name].cfg == cfgs[k]
      && r.actions[r.caps[i].name].client == ClientOf(outs[k])
      && r.actions[r.caps[i].name].toolName == Tools(outs[k])[j].name
  {
    var ls := Listings(cfgs, outs);
    var name := ls[i].action.name;
    IndexIsLast(ls, name);
    var p := LastNamed(ls, name, i);
    var k', j' := ListingOrigin(cfgs, outs, p);
    if k != k' { ApartPair(cfgs, k, k'); }
    NameInjective(cfgs[k].server, Tools(outs[k])[j].name, cfgs[k'].server, Tools(outs[k'])[j'].name);
    assert k == k';
    assert IndexOf(ls)[name] == ls[p].entry;
  }

  lemma {:induction false} LastNamed(ls: seq<Listing>, name: string, i: nat) returns (p: nat)
    requires i < |ls| && ls[i].action.name == name
    ensures i <= p < |ls| && ls[p].action.name == name
    ensures forall q :: p < q < |ls| ==> ls[q].action.name != name
    decreases |ls| - i
  {
    if q :| i < q < |ls| && ls[q].action.name == name {
      p := LastNamed(ls, name, q);
    } else {
      p := i;
    }
  }

  /** No later tool of the list has the same name. */
  ghost predicate LastOfName(tools: seq<Tool>, j: nat) {
    j < |tools| && forall m :: j < m < |tools| ==> tools[m].name != tools[j].name
  }

  /** Listings of other names do not change where a name leads. */
  lemma {:induction false} IndexSkips(before: seq<Listing>, here: seq<Listing>, name: string)
    requires forall q :: 0 <= q < |here| ==> here[q].action.name != name
    ensures Present(IndexOf(before + here), name) == Present(IndexOf(before), name)
  {
    if here == [] {
      assert before + here == before;
    } else {
      var n := |here| - 1;
      IndexSkips(before, here[..n], name);
      assert (before + here)[..|before| + n] == before + here[..n];
    }
  }

  lemma IndexFinds(before: seq<Listing>, here: seq<Listing>, j: nat)
    requires j < |here| && forall q :: j < q < |here| ==> here[q].action.name != here[j].action.name
    ensures Present(IndexOf(before + here), here[j].action.name) == Some(here[j].entry)
  {
    var ls := before + here;
    IndexIsLast(ls, here[j].action.name);
    hide IndexOf;
    assert forall q :: |before| + j < q < |ls| ==> ls[q] == here[q - |before|];
    assert ls[|before| + j] == here[j];
  }

  lemma ListedUnder(cfg: ServerConfig, client: Option<ClientId>, tool: Tool)
    ensures MakeListing(cfg, client, tool).action.name == ActionName(cfg.server, tool.name)
    ensures MakeListing(cfg, client, tool).entry == Entry(client, tool.name, tool.inputSchema, cfg)
  {
  }

  lemma {:induction false} LeadsToLast(cfgs: seq<ServerConfig>, outs: seq<Outcome>, k: nat, j: nat)
    requires |cfgs| == |outs| && AllApart(cfgs) && k < |cfgs| && LastOfName(Tools(outs[k]), j)
    ensures Present(IndexOf(Listings(cfgs, outs)), ActionName(cfgs[k].server, Tools(outs[k])[j].name))
      == Some(Entry(ClientOf(outs[k]), Tools(outs[k])[j].name, Tools(outs[k])[j].inputSchema, cfgs[k]))
  {
    var n := |cfgs| - 1;
    var before, here := Listings(cfgs[..n], outs[..n]), ServerListings(cfgs[n], outs[n]);
    var name := ActionName(cfgs[k].server, Tools(outs[k])[j].name);
    assert Listings(cfgs, outs) == before + here;
    hide Listings, IndexOf, AllApart, Present, MakeListing, ActionName;
    assert AllApart(cfgs[..n]) by { hide Apart; }
    if k < n {
      LeadsToLast(cfgs[..n], outs[..n], k, j);
      forall q | 0 <= q < |here| ensures here[q].action.name != name { OtherServer(cfgs, outs, k, j, n, q); }
      IndexSkips(before, here, name);
    } else {
      SameServer(cfgs[n], outs[n], j);
      ListedUnder(cfgs[n], ClientOf(outs[n]), Tools(outs[n])[j]);
      IndexFinds(before, here, j);
    }
  }

  /** With servers apart, an action's name leads to its tool and that tool's schema, on its server and with
      that server's client: of tools of one name on a server, to the last. */
  lemma EntryIsTool(cfgs: seq<ServerConfig>, outs: seq<Outcome>, k: nat, j: nat)
    requires |cfgs| == |outs| && AllApart(cfgs) && k < |cfgs| && LastOfName(Tools(outs[k]), j)
    ensures var tool, actions := Tools(outs[k])[j], Built(cfgs, outs).actions;
      && cfgs[k].server + "__" + tool.name in actions
      && actions[cfgs[k].server + "__" + tool.name]
           == Entry(if outs[k].Live? then Some(outs[k].client) else None, tool.name, tool.inputSchema, cfgs[k])
  {
    LeadsToLast(cfgs, outs, k, j);
    hide Listings, IndexOf, Having, AllApart, LastOfName;
  }

  lemma OtherServer(cfgs: seq<ServerConfig>, outs: seq<Outcome>, k: nat, j: nat, n: nat, q: nat)
    requires |cfgs| == |outs| && AllApart(cfgs) && k < |cfgs| && j < |Tools(outs[k])|
    requires n < |cfgs| && n != k && q < |Tools(outs[n])|
    ensures ServerListings(cfgs[n], outs[n])[q].action.name != ActionName(cfgs[k].server, Tools(outs[k])[j].name)
  {
    ApartPair(cfgs, n, k);
    if ActionName(cfgs[n].server, Tools(outs[n])[q].name) == ActionName(cfgs[k].server, Tools(outs[k])[j].name) {
      NameInjective(cfgs[n].server, Tools(outs[n])[q].name, cfgs[k].server, Tools(outs[k])[j].name);
    }
  }

  lemma SameServer(cfg: ServerConfig, o: Outcome, j: nat)
    requires LastOfName(Tools(o), j)
    ensures forall q :: j < q < |Tools(o)| ==>
      ServerListings(cfg, o)[q].action.name != ActionName(cfg.server, Tools(o)[j].name)
  {
    forall q | j < q < |Tools(o)|
      ensures ServerListings(cfg, o)[q].action.name != ActionName(cfg.server, Tools(o)[j].name)
    {
      if ActionName(cfg.server, Tools(o)[q].name) == ActionName(cfg.server, Tools(o)[j].name) {
        NameInjective(cfg.server, Tools(o)[q].name, cfg.server, Tools(o)[j].name);
      }
    }
  }

  /** An index key decodes to the name of a tool with which it was made. */
  lemma KeyNamesTool(cfgs: seq<ServerConfig>, outs: seq<Outcome>, key: string)
    requires |cfgs| == |outs| && key in Built(cfgs, outs).actions
    ensures var e := Built(cfgs, outs).actions[key];
      key == ActionName(e.cfg.server, e.toolName) && e.cfg in cfgs
  {
    var ls := Listings(cfgs, outs);
    IndexIsLast(ls, key);
    var i :| 0 <= i < |ls| && ls[i].action.name == key;
    var p := LastNamed(ls, key, i);
    var k, j := ListingOrigin(cfgs, outs, p);
  }

  /** A companion that names a tool in its own server's list is an action of the registry. */
  lemma CompanionIsAction(cfgs: seq<ServerConfig>, outs: seq<Outcome>, k: nat, j: nat, c: nat, m: nat)
    requires |cfgs| == |outs| && k < |cfgs| && j < |Tools(outs[k])| && m < |Tools(outs[k])|
    requires c < |CompanionTools(Tools(outs[k])[j].meta)|
    requires CompanionTools(Tools(outs[k])[j].meta)[c] == Tools(outs[k])[m].name
    ensures Companions(cfgs[k].server, Tools(outs[k])[j].meta)[c] in Built(cfgs, outs).actions
  {
    hide IndexOf, Listings;
    var i := ToolListed(cfgs, outs, k, m);
    IndexIsLast(Listings(cfgs, outs), ActionName(cfgs[k].server, Tools(outs[k])[m].name));
  }

  // ----- what is advertised -----

  /** The members of `_meta`. */
  function MetaOf(tool: Tool): map<string, Json> {
    if tool.meta.Some? && tool.meta.value.Obj? then tool.meta.value.fields else map[]
  }

  /** The hint is the string that `_meta` gives, without the white space around it. */
  ghost predicate HintSays(tool: Tool, hint: string) {
    exists before, after :: AllSpace(before) && AllSpace(after) && Trimmed(hint)
      && StringAt(MetaOf(tool), "confirmation_hint") == before + hint + after
  }

  predicate AllNames(items: seq<Json>) {
    forall i :: 0 <= i < |items| ==> items[i].Str? && items[i].s != ""
  }

  /** The companions are those `_meta` lists, under the names of actions; none if one is no proper name. */
  predicate CompanionsSay(server: string, tool: Tool, companions: seq<string>) {
    var items := ItemsAt(MetaOf(tool), "companions");
    if !AllNames(items) then companions == []
    else |companions| == |items| && forall i :: 0 <= i < |items| ==> companions[i] == server + "__" + items[i].s
  }

  /** The message for a tool of a server, part by part. */
  ghost predicate Advertises(cfg: ServerConfig, live: bool, tool: Tool, a: Action) {
    && a.name == cfg.server + "__" + tool.name
    && a.description.text == (if live then tool.description else "[offline] " + tool.description)
    && a.description.output == tool.outputSchema
    && ParamsSay(tool.inputSchema, a.parameters)
    && (a.readOnly <==> tool.annotations.Some? && tool.annotations.value.readOnlyHint == Some(true))
    && (a.alwaysInclude <==> BoolAt(MetaOf(tool), "always_include") == Some(true))
    && HintSays(tool, a.confirmationHint)
    && CompanionsSay(cfg.server, tool, a.companions)
    && StrictlySorted(a.injectContextArgs) && Elements(a.injectContextArgs) == cfg.contextHeaders.Keys
  }

  lemma HintIsTrimmed(tool: Tool)
    ensures HintSays(tool, ConfirmationHint(tool.meta))
  {
    var s := StringAt(MetaOf(tool), "confirmation_hint");
    var before, after := TrimSpaceIs(s);
    assert TrimSpace("") == "";
    hide TrimSpace, AllSpace, Trimmed;
    assert ConfirmationHint(tool.meta) == TrimSpace(s);
  }

  lemma CompanionsAreNamed(server: string, tool: Tool)
    ensures CompanionsSay(server, tool, Companions(server, tool.meta))
  {
    var items := ItemsAt(MetaOf(tool), "companions");
    StringItemsAre(items);
    if DecodeStringItems(items).Some? {
      var names := DecodeStringItems(items).value;
      hide DecodeStringItems;
      assert "" in names <==> !AllNames(items) by {
        if i :| 0 <= i < |items| && !(items[i].Str? && items[i].s != "") { assert names[i] == ""; }
      }
    } else {
      hide DecodeStringItems;
    }
  }

  lemma MessageSays(cfg: ServerConfig, client: Option<ClientId>, tool: Tool)
    ensures Advertises(cfg, client.Some?, tool, MakeAction(cfg, client, tool))
  {
    ParamsCoverProperties(tool.inputSchema);
    HintIsTrimmed(tool);
    CompanionsAreNamed(cfg.server, tool);
    SortedEnumerates(cfg.contextHeaders.Keys);
    hide Params, ParamsSay, ConfirmationHint, HintSays, Companions, CompanionsSay, Sorted, StrictlySorted, Elements;
  }

  /** Every tool of every server that did not fail is advertised with all it declares, and what is
      advertised is such a tool. */
  lemma ToolIsAdvertised(cfgs: seq<ServerConfig>, outs: seq<Outcome>, k: nat, j: nat) returns (i: nat)
    requires |cfgs| == |outs| && k < |cfgs| && j < |Tools(outs[k])|
    ensures i < |Built(cfgs, outs).caps|
    ensures Advertises(cfgs[k], outs[k].Live?, Tools(outs[k])[j], Built(cfgs, outs).caps[i])
  {
    hide Listings, IndexOf, Having;
    i := ToolListed(cfgs, outs, k, j);
    MessageSays(cfgs[k], ClientOf(outs[k]), Tools(outs[k])[j]);
    hide Advertises, MakeAction;
  }

  lemma AdvertisedIsTool(cfgs: seq<ServerConfig>, outs: seq<Outcome>, i: nat) returns (k: nat, j: nat)
    requires |cfgs| == |outs| && i < |Built(cfgs, outs).caps|
    ensures k < |cfgs| && j < |Tools(outs[k])|
    ensures Advertises(cfgs[k], outs[k].Live?, Tools(outs[k])[j], Built(cfgs, outs).caps[i])
  {
    hide Listings, IndexOf, Having;
    k, j := ListingOrigin(cfgs, outs, i);
    MessageSays(cfgs[k], ClientOf(outs[k]), Tools(outs[k])[j]);
    hide Advertises, MakeAction;
  }

  // ----- servers that can be mistaken for each other -----

  function PlainTool(name: string): Tool {
    Tool(name, "", InputSchema("", map[], []), None, None, None)
  }

  /** Server a answers with one tool, server b comes from a cache with one, and the others fail. */
  function OnlyTwo(n: nat, a: nat, t: Tool, c: ClientId, b: nat, u: Tool): (outs: seq<Outcome>)
    ensures |outs| == n
  {
    seq(n, k => if k == a then Live([t], c) else if k == b then Offline([u]) else Failed)
  }

  /** The first n of a list of slots of which slot a holds x and slot b holds y. */
  function Slots(n: nat, a: nat, x: Listing, b: nat, y: Listing): seq<Listing> {
    (if a < n then [x] else []) + (if b < n then [y] else [])
  }

  lemma SlotsStep(n: nat, a: nat, x: Listing, b: nat, y: Listing)
    requires a < b
    ensures Slots(n + 1, a, x, b, y) == Slots(n, a, x, b, y) + (if n == a then [x] else if n == b then [y] else [])
  {
  }

  lemma NoSlots(a: nat, x: Listing, b: nat, y: Listing)
    ensures Slots(0, a, x, b, y) == []
  {
  }

  lemma NothingListed(cfgs: seq<ServerConfig>, outs: seq<Outcome>)
    requires |cfgs| == |outs|
    ensures Listings(cfgs[..0], outs[..0]) == []
  {
  }

  lemma ListingsStep(cfgs: seq<ServerConfig>, outs: seq<Outcome>, n: nat)
    requires |cfgs| == |outs| && n < |cfgs|
    ensures Listings(cfgs[..n + 1], outs[..n + 1]) == Listings(cfgs[..n], outs[..n]) + ServerListings(cfgs[n], outs[n])
  {
    hide ServerListings;
    assert cfgs[..n + 1][..n] == cfgs[..n] && outs[..n + 1][..n] == outs[..n];
  }

  lemma OnlyTwoServer(cfg: ServerConfig, n: nat, a: nat, t: Tool, c: ClientId, b: nat, u: Tool, k: nat)
    requires k < n && a < b
    ensures ServerListings(cfg, OnlyTwo(n, a, t, c, b, u)[k]) ==
      if k == a then [MakeListing(cfg, Some(c), t)] else if k == b then [MakeListing(cfg, None, u)] else []
  {
    hide MakeListing;
  }

  lemma {:induction false} OnlyTwoListings(cfgs: seq<ServerConfig>, a: nat, t: Tool, c: ClientId, b: nat, u: Tool,
      n: nat)
    requires a < b < |cfgs| && n <= |cfgs|
    ensures Listings(cfgs[..n], OnlyTwo(|cfgs|, a, t, c, b, u)[..n])
      == Slots(n, a, MakeListing(cfgs[a], Some(c), t), b, MakeListing(cfgs[b], None, u))
  {
    hide MakeListing, OnlyTwo, ServerListings, Slots, Listings;
    if n == 0 {
      NothingListed(cfgs, OnlyTwo(|cfgs|, a, t, c, b, u));
      NoSlots(a, MakeListing(cfgs[a], Some(c), t), b, MakeListing(cfgs[b], None, u));
    } else {
      OnlyTwoListings(cfgs, a, t, c, b, u, n - 1);
      ListingsStep(cfgs, OnlyTwo(|cfgs|, a, t, c, b, u), n - 1);
      OnlyTwoServer(cfgs[n - 1], |cfgs|, a, t, c, b, u, n - 1);
      SlotsStep(n - 1, a, MakeListing(cfgs[a], Some(c), t), b, MakeListing(cfgs[b], None, u));
    }
  }

  lemma WholeConfiguration(cfgs: seq<ServerConfig>, outs: seq<Outcome>)
    requires |cfgs| == |outs|
    ensures Listings(cfgs[..|cfgs|], outs[..|cfgs|]) == Listings(cfgs, outs)
  {
    hide Listings;
    assert cfgs[..|cfgs|] == cfgs && outs[..|outs|] == outs;
  }

  lemma OnlyTwoBuilt(cfgs: seq<ServerConfig>, a: nat, t: Tool, c: ClientId, b: nat, u: Tool)
    requires a < b < |cfgs|
    ensures Listings(cfgs, OnlyTwo(|cfgs|, a, t, c, b, u))
      == [MakeListing(cfgs[a], Some(c), t), MakeListing(cfgs[b], None, u)]
  {
    hide MakeListing, OnlyTwo, Listings;
    OnlyTwoListings(cfgs, a, t, c, b, u, |cfgs|);
    WholeConfiguration(cfgs, OnlyTwo(|cfgs|, a, t, c, b, u));
  }

  /** Every action listed without the offline prefix leads to an entry with a client. */
  ghost predicate Honest(r: Reg) {
    forall i :: 0 <= i < |r.caps| && !(OFFLINE <= r.caps[i].description.text) ==>
      r.caps[i].name in r.actions && r.actions[r.caps[i].name].client.Some?
  }

  /** If two servers' tools share an action name, a live one is listed whose entry has no client. */
  lemma ClashMisleads(cfgs: seq<ServerConfig>, a: nat, t: string, c: ClientId, b: nat, u: string)
    requires a < b < |cfgs| && ActionName(cfgs[a].server, t) == ActionName(cfgs[b].server, u)
    ensures !Honest(Built(cfgs, OnlyTwo(|cfgs|, a, PlainTool(t), c, b, PlainTool(u))))
  {
    var outs := OnlyTwo(|cfgs|, a, PlainTool(t), c, b, PlainTool(u));
    OnlyTwoBuilt(cfgs, a, PlainTool(t), c, b, PlainTool(u));
    var ls := Listings(cfgs, outs);
    IndexIsLast(ls, ActionName(cfgs[a].server, t));
    hide Listings, IndexOf, Params, Companions;
    var r := Built(cfgs, outs);
    assert r.caps[0].description.text == "";
    assert r.actions[r.caps[0].name] == ls[1].entry;
  }

  lemma OnlyTwoTools(n: nat, a: nat, t: Tool, c: ClientId, b: nat, u: Tool)
    ensures forall k :: 0 <= k < n ==> DistinctToolNames(OnlyTwo(n, a, t, c, b, u)[k])
  {
  }

  /** Build lists some name twice although each server's own names are distinct. */
  ghost predicate ListsTwice(cfgs: seq<ServerConfig>, outs: seq<Outcome>) {
    |outs| == |cfgs| && (forall k :: 0 <= k < |outs| ==> DistinctToolNames(outs[k]))
      && !UniqueNames(Listings(cfgs, outs))
  }

  lemma ClashListsTwice(cfgs: seq<ServerConfig>, a: nat, t: string, b: nat, u: string)
    requires a < b < |cfgs| && ActionName(cfgs[a].server, t) == ActionName(cfgs[b].server, u)
    ensures ListsTwice(cfgs, OnlyTwo(|cfgs|, a, PlainTool(t), 0, b, PlainTool(u)))
  {
    OnlyTwoBuilt(cfgs, a, PlainTool(t), 0, b, PlainTool(u));
    OnlyTwoTools(|cfgs|, a, PlainTool(t), 0, b, PlainTool(u));
    var ls := Listings(cfgs, OnlyTwo(|cfgs|, a, PlainTool(t), 0, b, PlainTool(u)));
    hide Listings, OnlyTwo, DistinctToolNames, Params, Companions;
    assert ls[0].action.name == ls[1].action.name;
  }

  /** For a configuration: Build never lists a name twice, as long as each server's own are distinct,
      exactly when its servers are apart. */
  lemma NamesDistinctExactly(cfgs: seq<ServerConfig>)
    ensures AllApart(cfgs) <==> forall outs :: !ListsTwice(cfgs, outs)
  {
    if AllApart(cfgs) {
      forall outs ensures !ListsTwice(cfgs, outs) {
        if ListsTwice(cfgs, outs) { NamesDistinct(cfgs, outs); }
      }
    } else {
      hide Apart, ListsTwice;
      var a, b :| 0 <= a < b < |cfgs| && !Apart(cfgs[a].server, cfgs[b].server);
      var t, u := Clash(cfgs[a].server, cfgs[b].server);
      ClashListsTwice(cfgs, a, t, b, u);
    }
  }

  /** And what Build advertises as live is connected, whatever the outcomes, exactly then. */
  lemma HonestExactly(cfgs: seq<ServerConfig>)
    ensures AllApart(cfgs) <==> forall outs: seq<Outcome> :: |outs| == |cfgs| ==> Honest(Built(cfgs, outs))
  {
    if AllApart(cfgs) {
      forall outs: seq<Outcome> | |outs| == |cfgs| ensures Honest(Built(cfgs, outs)) { ApartIsHonest(cfgs, outs); }
    } else {
      hide Apart;
      var a, b :| 0 <= a < b < |cfgs| && !Apart(cfgs[a].server, cfgs[b].server);
      var t, u := Clash(cfgs[a].server, cfgs[b].server);
      hide Built, Honest;
      ClashMisleads(cfgs, a, t, 0, b, u);
    }
  }

  lemma ApartIsHonest(cfgs: seq<ServerConfig>, outs: seq<Outcome>)
    requires |cfgs| == |outs| && AllApart(cfgs)
    ensures Honest(Built(cfgs, outs))
  {
    var r := Built(cfgs, outs);
    forall i | 0 <= i < |r.caps| && !(OFFLINE <= r.caps[i].description.text)
      ensures r.caps[i].name in r.actions && r.actions[r.caps[i].name].client.Some?
    {
      var k, j := ListingOrigin(cfgs, outs, i);
      hide Listings, IndexOf, Params, Companions, AllApart;
      EntryServer(cfgs, outs, i, k, j);
    }
  }

  // ----- locked updates of a registry -----

  /** The effect of reconnect's locked section. */
  function WithClient(actions: map<string, Entry>, server: string, client: ClientId): map<string, Entry> {
    map k | k in actions :: if actions[k].cfg.server == server then actions[k].(client := Some(client)) else actions[k]
  }

  /** Each entry of the server has exactly the new client, whatever it had before; no other entry changes, and
      nothing but the client. */
  lemma ServerGetsClient(actions: map<string, Entry>, server: string, client: ClientId)
    ensures var after := WithClient(actions, server, client);
      && after.Keys == actions.Keys
      && forall k :: k in actions ==>
           if actions[k].cfg.server == server then after[k] == actions[k].(client := Some(client))
           else after[k] == actions[k]
  {
  }

  function Restored(d: Description): Description {
    d.(text := TrimPrefix(d.text, OFFLINE))
  }

  function StripAction(a: Action, server: string): Action {
    if server + SEPARATOR <= a.name then a.(description := Restored(a.description)) else a
  }

  /** The effect of the locked section in which a reconnected server loses its prefixes. */
  function Strip(caps: seq<Action>, server: string): (r: seq<Action>)
    ensures |r| == |caps|
    ensures forall i :: 0 <= i < |caps| ==> r[i] == StripAction(caps[i], server)
  {
    seq(|caps|, i requires 0 <= i < |caps| => StripAction(caps[i], server))
  }

  function ClientsOf(actions: map<string, Entry>): set<ClientId> {
    set k | k in actions && actions[k].client.Some? :: actions[k].client.value
  }

  /** The string sent to the host, for a given spelling of JSON trees. */
  function Flatten(d: Description, spell: Json -> string): string {
    d.text + (if d.output.Some? then OUTPUT_INTRO + spell(d.output.value) else "")
  }

  /** A prefix of `a + b` that `b` cannot continue is a prefix of `a`. */
  lemma PrefixOfConcat(p: string, a: string, b: string)
    requires b == "" || b[0] !in p
    ensures p <= a + b <==> p <= a
    ensures TrimPrefix(a + b, p) == TrimPrefix(a, p) + b
  {
    var s := a + b;
    assert forall i :: 0 <= i < |p| ==> p[i] in p;
    assert b != "" ==> s[|a|] == b[0];
    assert |p| <= |a| ==> s[..|p|] == a[..|p|] && s[|p|..] == a[|p|..] + b;
  }

  /** Working on the prose alone is faithful: the flat string has the prefix when the prose has it,
      and trimming it there is trimming it in the prose. */
  lemma StripCommutesWithFlatten(d: Description, spell: Json -> string)
    ensures OFFLINE <= Flatten(d, spell) <==> OFFLINE <= d.text
    ensures TrimPrefix(Flatten(d, spell), OFFLINE) == Flatten(Restored(d), spell)
  {
    var tail := if d.output.Some? then OUTPUT_INTRO + spell(d.output.value) else "";
    assert OUTPUT_INTRO[0] == '\n';
    assert '\n' !in OFFLINE;
    PrefixOfConcat(OFFLINE, d.text, tail);
  }

  /** Stripping restores what a live Build lists for the tool, and leaves servers apart from it alone. */
  lemma StripRestoresLive(cfg: ServerConfig, tool: Tool, client: ClientId, server: string)
    requires server == cfg.server || Apart(server, cfg.server)
    ensures var off, live := MakeListing(cfg, None, tool).action, MakeListing(cfg, Some(client), tool).action;
      StripAction(off, server) == (if server == cfg.server then live else off)
  {
    PrefixSelectsServer(server, cfg.server, tool.name);
    assert TrimPrefix(OFFLINE + tool.description, OFFLINE) == tool.description;
  }

  /** Without clean names, reconnecting `a` un-marks a tool of `a_`. */
  lemma StripHitsUncleanServer(cfg: ServerConfig, tool: Tool)
    requires cfg.server == "a_"
    ensures StripAction(MakeListing(cfg, None, tool).action, "a") != MakeListing(cfg, None, tool).action
  {
    var off := MakeListing(cfg, None, tool).action;
    assert "a" + SEPARATOR == "a__" == off.name[..3];
    assert TrimPrefix(OFFLINE + tool.description, OFFLINE) == tool.description;
    assert |tool.description| != |OFFLINE + tool.description|;
  }
}
