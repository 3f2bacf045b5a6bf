/** mcp/client.go and fetchTools: how a client finds a transport, and what it sends on it.
    Network outcomes are parameters. */
module McpClient {
  import opened Options
  import opened Json
  import opened Text
  import opened Schema

  datatype Method = Initialize | Initialized | ToolsList | ToolsCall

  /** A message handed to a transport; `accepted` tells whether its POST went through. */
  datatype Sent = Sent(what: Method, id: Option<int>, accepted: bool)

  datatype Kind = Streamable | Sse

  /** A transport, or an SSE connection on its way to becoming one. `closed` is the client's own doing;
      `ended` is a context that ended otherwise: the stream was lost, or the handler stopped. `reading`
      is true once a read loop was started. */
  datatype Transport = Transport(kind: Kind, closed: bool, ended: bool, reading: bool, sent: seq<Sent>)

  predicate Cancelled(t: Transport) {
    t.closed || t.ended
  }

  /** Whoever calls on a client: between taking an id and sending, callers may overtake each other. */
  type CallerId = nat

  /** A client: its current transport and id counter, every transport it ever made, and the ids that
      callers have taken and not sent yet. */
  datatype ClientState = ClientState(tp: Option<nat>, idCounter: int, made: seq<Transport>, taken: map<CallerId, int>)

  const NEW_CLIENT := ClientState(None, 0, [], map[])

  // ----- outcomes -----

  /** How an initialize exchange goes. A failure is an error of the round trip or an error the server
      reports; either may look transient, the test being made on the message text. After a success
      the transport's context may end at any moment: `ended` tells whether it has when Connect returns. */
  datatype InitAnswer = InitFails(posted: bool, transient: bool) | InitSucceeds(notified: bool, ended: bool)

  /** How opening an SSE connection goes. There is no time limit on the wait for the endpoint: it ends
      with the event or, `ContextEnds`, with the stream or the handler. */
  datatype SseAnswer = GetFails | BadStatus | ContextEnds | Endpoint(init: InitAnswer)

  datatype ConnectAnswer = ConnectAnswer(first: InitAnswer, second: InitAnswer, sse: SseAnswer)

  /** How a tools/list goes: its POST fails; the POST is accepted, but a timeout, an error or an
      undecodable result follows; or a list comes back. */
  datatype ListReply = NotPosted | NoList | Listed(tools: seq<Tool>)

  /** How a tools/call goes; NoResult is a timeout or an error the server reports. */
  datatype CallReply = CallNotPosted | NoResult | Returned(result: Json)

  /** `ended` tells whether the last transport's context has ended when fetchTools returns. */
  datatype FetchAnswer = FetchAnswer(connect: ConnectAnswer, listed: ListReply, fallback: SseAnswer,
      listedAgain: ListReply, ended: bool)

  // ----- what each function does -----

  function Post(c: ClientState, i: nat, m: Sent): ClientState
    requires i < |c.made|
  {
    c.(made := c.made[i := c.made[i].(sent := c.made[i].sent + [m])])
  }

  function CloseAt(c: ClientState, i: nat): ClientState
    requires i < |c.made|
  {
    c.(made := c.made[i := c.made[i].(closed := true)])
  }

  function EndAt(c: ClientState, i: nat): ClientState
    requires i < |c.made|
  {
    c.(made := c.made[i := c.made[i].(ended := true)])
  }

  /** sendInitialize and finishInitialize on transport i, closing it on failure. */
  function Handshake(c: ClientState, i: nat, a: InitAnswer): (r: (ClientState, bool))
    requires i < |c.made|
  {
    var id := c.idCounter + 1;
    var posted := if a.InitFails? then a.posted else true;
    var c1 := Post(c.(idCounter := id), i, Sent(Initialize, Some(id), posted));
    if a.InitFails? then (CloseAt(c1, i), false)
    else
      var c2 := Post(c1, i, Sent(Initialized, None, a.notified)).(tp := Some(i));
      (if a.ended then EndAt(c2, i) else c2, true)
  }

  function AddTransport(c: ClientState, t: Transport): ClientState {
    c.(made := c.made + [t])
  }

  function TryStreamable(c: ClientState, a: InitAnswer): (ClientState, bool) {
    Handshake(AddTransport(c, Transport(Streamable, false, false, false, [])), |c.made|, a)
  }

  function ConnectSse(c: ClientState, a: SseAnswer): (ClientState, bool) {
    match a
    case GetFails => (AddTransport(c, Transport(Sse, false, false, false, [])), false)
    case BadStatus => (AddTransport(c, Transport(Sse, false, false, false, [])), false)
    case ContextEnds => (AddTransport(c, Transport(Sse, false, true, true, [])), false)
    case Endpoint(init) => Handshake(AddTransport(c, Transport(Sse, false, false, true, [])), |c.made|, init)
  }

  function Connected(c: ClientState, a: ConnectAnswer): (ClientState, bool) {
    var (c1, ok1) := TryStreamable(c, a.first);
    if ok1 then (c1, true)
    else if !a.first.transient then ConnectSse(c1, a.sse)
    else
      var (c2, ok2) := TryStreamable(c1, a.second);
      if ok2 then (c2, true) else ConnectSse(c2, a.sse)
  }

  predicate Usable(c: ClientState) {
    c.tp.Some? && c.tp.value < |c.made|
  }

  /** nextID: caller k has an id, and has not sent anything yet. */
  function Take(c: ClientState, k: CallerId): ClientState {
    c.(idCounter := c.idCounter + 1, taken := c.taken[k := c.idCounter + 1])
  }

  /** roundTrip: caller k's request goes out on the transport that is current then. */
  function Send(c: ClientState, k: CallerId, what: Method, accepted: bool): ClientState
    requires k in c.taken && Usable(c)
  {
    Post(c.(taken := c.taken - {k}), c.tp.value, Sent(what, Some(c.taken[k]), accepted))
  }

  /** ListTools or CallTool without anybody in between. */
  function Request(c: ClientState, k: CallerId, what: Method, accepted: bool): ClientState
    requires Usable(c)
  {
    Send(Take(c, k), k, what, accepted)
  }

  function Fallback(c: ClientState, a: SseAnswer): (ClientState, bool)
    requires Usable(c)
  {
    ConnectSse(CloseAt(c, c.tp.value).(tp := None, idCounter := 0), a)
  }

  function Closed(c: ClientState): ClientState {
    if Usable(c) then CloseAt(c, c.tp.value) else c
  }

  function EndedIf(c: ClientState, ended: bool): ClientState {
    if ended && Usable(c) then EndAt(c, c.tp.value) else c
  }

  function ToolsOf(r: ListReply): Option<seq<Tool>> {
    if r.Listed? then Some(r.tools) else None
  }

  /** Nobody else has the client yet: its requests have one caller. */
  const FETCHER: CallerId := 0

  function ListOnce(c: ClientState, r: ListReply): ClientState
    requires Usable(c)
  {
    Request(c, FETCHER, ToolsList, !r.NotPosted?)
  }

  /** fetchTools: the client counts only when a tool list was obtained. */
  function Fetched(a: FetchAnswer): (ClientState, Option<seq<Tool>>) {
    var (c, ok) := Connected(NEW_CLIENT, a.connect);
    if !ok || !Usable(c) then (c, None)
    else
      var listed := ListOnce(c, a.listed);
      if a.listed.Listed? || listed.made[c.tp.value].kind == Sse then (EndedIf(listed, a.ended), ToolsOf(a.listed))
      else
        var (d, ok') := Fallback(listed, a.fallback);
        if !ok' || !Usable(d) then (d, None)
        else (EndedIf(ListOnce(d, a.listedAgain), a.ended), ToolsOf(a.listedAgain))
  }

  // ----- the client -----

  /** The texts of a result's content items; None if they do not decode. */
  function ItemTexts(items: seq<Json>): (r: Option<seq<string>>)
    ensures r.Some? ==> |r.value| == |items|
  {
    if items == [] then Some([])
    else
      var rest :- ItemTexts(items[..|items| - 1]);
      var item := items[|items| - 1];
      if item.Null? then Some(rest + [""])
      else if !item.Obj? then None
      else
        var kind :- DecodeString(Field(item.fields, "type"));
        var text :- DecodeString(Field(item.fields, "text"));
        Some(rest + [text])
  }

  datatype CallResult = CallResult(isError: bool, texts: seq<string>, structured: Option<Json>)

  /** A tools/call result. An absent, or null, structured content counts as none. */
  function DecodeCallResult(j: Json): Option<CallResult> {
    if j.Null? then Some(CallResult(false, [], None))
    else if !j.Obj? then None
    else
      var content := Field(j.fields, "content");
      var flag :- DecodeBoolPtr(Field(j.fields, "isError"));
      var texts :- if content.Arr? then ItemTexts(content.items) else if content.Null? then Some([]) else None;
      var structured := Present(j.fields, "structuredContent");
      Some(CallResult(flag == Some(true), texts, if structured == Some(Null) then None else structured))
  }

  function NonEmptyTexts(texts: seq<string>): seq<string> {
    if texts == [] then []
    else
      var n := |texts| - 1;
      NonEmptyTexts(texts[..n]) + (if texts[n] != "" then [texts[n]] else [])
  }

  /** What CallTool returns; None is an error. */
  function ContentOf(r: CallReply): Option<(string, Option<Json>)> {
    if !r.Returned? then None
    else
      var result :- DecodeCallResult(r.result);
      if result.isError then None else Some((Join(NonEmptyTexts(result.texts), "\n"), result.structured))
  }

  // ----- the answer to a call, from its tree -----

  /** The member `text` of a content item; one without it, or null, counts as empty. */
  function TextAt(item: Json): string {
    if item.Obj? then StringAt(item.fields, "text") else ""
  }

  predicate ItemSound(item: Json) {
    item.Null? || (item.Obj? && StringOrNull(item.fields, "type") && StringOrNull(item.fields, "text"))
  }

  /** A result object that decodes. */
  predicate ResultSound(fields: map<string, Json>) {
    && ("content" in fields ==> fields["content"].Arr? || fields["content"].Null?)
    && (forall i :: 0 <= i < |ItemsAt(fields, "content")| ==> ItemSound(ItemsAt(fields, "content")[i]))
    && BoolOrNull(fields, "isError")
  }

  /** The positions of the items with a text, in order. */
  ghost predicate TextsAt(items: seq<Json>, at: seq<nat>) {
    && (forall i, j :: 0 <= i < j < |at| ==> at[i] < at[j])
    && (forall p: nat :: p in at <==> p < |items| && TextAt(items[p]) != "")
    && (forall i :: 0 <= i < |at| ==> at[i] < |items|)
  }

  /** `content` is the non-empty texts of the items, in order, one to a line. */
  ghost predicate JoinsTexts(items: seq<Json>, content: string) {
    exists at :: TextsAt(items, at)
      && content == Join(seq(|at|, i requires 0 <= i < |at| && at[i] < |items| => TextAt(items[at[i]])), "\n")
  }

  /** What a tools/call result is to give, read off its tree: an error when `isError` is true or it does not
      decode, and else its texts and the tree under `structuredContent`, unless absent or null. */
  ghost predicate IsAnswer(j: Json, content: Option<(string, Option<Json>)>) {
    if j.Null? then content == Some(("", None))
    else if !j.Obj? then content == None
    else
      && (content.Some? <==> ResultSound(j.fields) && BoolAt(j.fields, "isError") != Some(true))
      && (content.Some? ==>
            && JoinsTexts(ItemsAt(j.fields, "content"), content.value.0)
            && content.value.1 ==
                 if "structuredContent" in j.fields && !j.fields["structuredContent"].Null?
                 then Some(j.fields["structuredContent"]) else None)
  }

  lemma {:induction false} ItemTextsAre(items: seq<Json>)
    ensures ItemTexts(items).Some? <==> forall i :: 0 <= i < |items| ==> ItemSound(items[i])
    ensures ItemTexts(items).Some? ==> forall i :: 0 <= i < |items| ==> ItemTexts(items).value[i] == TextAt(items[i])
  {
    if items != [] {
      var n := |items| - 1;
      ItemTextsAre(items[..n]);
      assert forall i :: 0 <= i < n ==> items[..n][i] == items[i];
    }
  }

  /** What reaches the host are the non-empty texts, all of them, in order. */
  lemma {:induction false} NonEmptyTextsAre(texts: seq<string>) returns (at: seq<nat>)
    ensures forall i, j :: 0 <= i < j < |at| ==> at[i] < at[j]
    ensures forall p: nat :: p in at <==> p < |texts| && texts[p] != ""
    ensures |at| == |NonEmptyTexts(texts)|
    ensures forall i :: 0 <= i < |at| ==> at[i] < |texts| && NonEmptyTexts(texts)[i] == texts[at[i]]
  {
    at := [];
    if texts != [] {
      var n := |texts| - 1;
      var before := NonEmptyTextsAre(texts[..n]);
      assert forall i :: 0 <= i < |before| ==> before[i] in before;
      at := before + (if texts[n] != "" then [n] else []);
      assert forall p: nat :: p < n ==> texts[..n][p] == texts[p];
      if texts[n] != "" { assert at[|before|] == n; }
    }
  }

  lemma TextsJoined(items: seq<Json>, texts: seq<string>)
    requires |texts| == |items| && forall i :: 0 <= i < |items| ==> texts[i] == TextAt(items[i])
    ensures JoinsTexts(items, Join(NonEmptyTexts(texts), "\n"))
  {
    hide TextAt, Join;
    var at := NonEmptyTextsAre(texts);
    assert TextsAt(items, at);
    assert NonEmptyTexts(texts) == seq(|at|, i requires 0 <= i < |at| && at[i] < |items| => TextAt(items[at[i]]));
  }

  /** CallTool gives what the tree says. */
  lemma ContentIsAnswer(j: Json)
    ensures IsAnswer(j, ContentOf(Returned(j)))
  {
    if j.Null? {
      assert NonEmptyTexts([]) == [];
    } else if j.Obj? {
      ItemTextsAre(ItemsAt(j.fields, "content"));
      hide ItemTexts, ItemSound, TextAt, JoinsTexts, NonEmptyTexts, Join;
      var decoded := DecodeCallResult(j);
      assert decoded.Some? <==> ResultSound(j.fields);
      if decoded.Some? { TextsJoined(ItemsAt(j.fields, "content"), decoded.value.texts); }
    }
  }

  class Client {
    var tp: Option<nat>
    var idCounter: int
    var made: seq<Transport>
    ghost var taken: map<CallerId, int>

    constructor ()
      ensures State() == NEW_CLIENT
    {
      tp, idCounter, made, taken := None, 0, [], map[];
    }

    ghost function State(): ClientState
      reads this
    {
      ClientState(tp, idCounter, made, taken)
    }

    method NextId() returns (id: int)
      modifies this`idCounter
      ensures idCounter == id == old(idCounter) + 1
    {
      idCounter := idCounter + 1;
      id := idCounter;
    }

    /** The first half of ListTools and CallTool. */
    method TakeId(ghost k: CallerId) returns (id: int)
      modifies this`idCounter, this`taken
      ensures State() == Take(old(State()), k) && id == taken[k]
    {
      id := NextId();
      taken := taken[k := id];
    }

    /** The second half, with the id taken before. */
    method RoundTrip(ghost k: CallerId, id: int, what: Method, accepted: bool)
      requires Usable(State()) && k in taken && taken[k] == id
      modifies this`made, this`taken
      ensures State() == Send(old(State()), k, what, accepted)
    {
      taken := taken - {k};
      Put(tp.value, Sent(what, Some(id), accepted));
    }

    method Put(i: nat, m: Sent)
      requires i < |made|
      modifies this`made
      ensures State() == Post(old(State()), i, m)
    {
      made := made[i := made[i].(sent := made[i].sent + [m])];
    }

    method CloseTransport(i: nat)
      requires i < |made|
      modifies this`made
      ensures State() == CloseAt(old(State()), i)
    {
      made := made[i := made[i].(closed := true)];
    }

    method SendInitialize(i: nat, a: InitAnswer)
      requires i < |made|
      modifies this
      ensures State() == Post(old(State()).(idCounter := old(idCounter) + 1), i,
                              Sent(Initialize, Some(old(idCounter) + 1), if a.InitFails? then a.posted else true))
    {
      var id := NextId();
      Put(i, Sent(Initialize, Some(id), if a.InitFails? then a.posted else true));
    }

    method FinishInitialize(i: nat, a: InitAnswer) returns (ok: bool)
      requires i < |made|
      modifies this
      ensures ok == a.InitSucceeds?
      ensures State() == if !ok then old(State())
        else
          var c := Post(old(State()), i, Sent(Initialized, None, a.notified)).(tp := Some(i));
          if a.ended then EndAt(c, i) else c
    {
      if a.InitFails? { return false; }
      Put(i, Sent(Initialized, None, a.notified));
      tp := Some(i);
      if a.ended { Ends(i); }
      return true;
    }

    /** Not the client's doing: the context of transport i ends. */
    method Ends(i: nat)
      requires i < |made|
      modifies this`made
      ensures State() == EndAt(old(State()), i)
    {
      made := made[i := made[i].(ended := true)];
    }

    method TryStreamableHTTP(a: InitAnswer) returns (ok: bool)
      modifies this
      ensures (State(), ok) == TryStreamable(old(State()), a)
    {
      var i := |made|;
      made := made + [Transport(Streamable, false, false, false, [])];
      SendInitialize(i, a);
      ok := FinishInitialize(i, a);
      if !ok { CloseTransport(i); }
    }

    method ConnectSSE(a: SseAnswer) returns (ok: bool)
      modifies this
      ensures (State(), ok) == ConnectSse(old(State()), a)
    {
      var i := |made|;
      match a
      case GetFails =>
        made := made + [Transport(Sse, false, false, false, [])];
        return false;
      case BadStatus =>
        made := made + [Transport(Sse, false, false, false, [])];
        return false;
      case ContextEnds =>
        made := made + [Transport(Sse, false, true, true, [])];
        return false;
      case Endpoint(init) =>
        made := made + [Transport(Sse, false, false, true, [])];
        SendInitialize(i, init);
        ok := FinishInitialize(i, init);
        if !ok { CloseTransport(i); }
    }

    method Connect(a: ConnectAnswer) returns (ok: bool)
      modifies this
      ensures (State(), ok) == Connected(old(State()), a)
    {
      for attempt := 1 to 3
        invariant State() == if attempt == 1 then old(State()) else TryStreamable(old(State()), a.first).0
        invariant attempt > 1 ==> a.first.InitFails? && (attempt == 2 ==> a.first.transient)
        invariant attempt <= 2
      {
        var answer := if attempt == 1 then a.first else a.second;
        ok := TryStreamableHTTP(answer);
        if ok { return; }
        if attempt == 1 && answer.transient { continue; }
        break;
      }
      ok := ConnectSSE(a.sse);
    }

    method ListTools(ghost k: CallerId, r: ListReply) returns (tools: Option<seq<Tool>>)
      requires Usable(State())
      modifies this
      ensures State() == Request(old(State()), k, ToolsList, !r.NotPosted?)
      ensures tools == ToolsOf(r)
    {
      var id := TakeId(k);
      RoundTrip(k, id, ToolsList, !r.NotPosted?);
      match r
      case NotPosted => tools := None;
      case NoList => tools := None;
      case Listed(list) => tools := Some(list);
    }

    method CallTool(ghost k: CallerId, r: CallReply) returns (content: Option<(string, Option<Json>)>)
      requires Usable(State())
      modifies this
      ensures State() == Request(old(State()), k, ToolsCall, !r.CallNotPosted?)
      ensures content == ContentOf(r)
      ensures if r.Returned? then IsAnswer(r.result, content) else content == None
    {
      hide IsAnswer;
      if r.Returned? { ContentIsAnswer(r.result); }
      var id := TakeId(k);
      RoundTrip(k, id, ToolsCall, !r.CallNotPosted?);
      if !r.Returned? { return None; }
      var result := DecodeCallResult(r.result);
      if result.None? || result.value.isError { return None; }
      var texts := result.value.texts;
      var parts := [];
      for i := 0 to |texts|
        invariant parts == NonEmptyTexts(texts[..i])
      {
        assert texts[..i + 1][..i] == texts[..i];
        if texts[i] != "" { parts := parts + [texts[i]]; }
      }
      assert texts[..|texts|] == texts;
      content := Some((Join(parts, "\n"), result.value.structured));
    }

    method FallbackSSE(a: SseAnswer) returns (ok: bool)
      requires Usable(State())
      modifies this
      ensures (State(), ok) == Fallback(old(State()), a)
    {
      CloseTransport(tp.value);
      tp, idCounter := None, 0;
      ok := ConnectSSE(a);
    }

    method Close()
      modifies this
      ensures State() == Closed(old(State()))
    {
      if tp.Some? && tp.value < |made| { CloseTransport(tp.value); }
    }
  }

  method FetchTools(a: FetchAnswer) returns (client: Client, tools: Option<seq<Tool>>)
    ensures fresh(client)
    ensures (client.State(), tools) == Fetched(a)
  {
    client := new Client();
    var ok := client.Connect(a.connect);
    if !ok { return client, None; }
    ConnectMakesUsable(NEW_CLIENT, a.connect);
    tools := client.ListTools(FETCHER, a.listed);
    if tools.None? && client.made[client.tp.value].kind == Streamable {
      ok := client.FallbackSSE(a.fallback);
      if !ok { return client, None; }
      tools := client.ListTools(FETCHER, a.listedAgain);
    }
    if a.ended { client.Ends(client.tp.value); }
  }

  lemma ConnectMakesUsable(c: ClientState, a: ConnectAnswer)
    ensures Connected(c, a).1 ==> Usable(Connected(c, a).0)
  {
  }

  // ----- what is sent on a transport -----

  /** Initialize, then the initialized notification, then requests: the order that the MCP
      specification (revision 2025-03-26, Lifecycle, Initialization) asks for, possibly cut short. */
  ghost predicate Ordered(sent: seq<Sent>) {
    && (|sent| >= 1 ==> sent[0].what == Initialize)
    && (|sent| >= 2 ==> sent[1].what == Initialized)
    && (forall k :: 2 <= k < |sent| ==> sent[k].what == ToolsList || sent[k].what == ToolsCall)
  }

  ghost predicate IdsDiffer(sent: seq<Sent>) {
    forall j, k :: 0 <= j < k < |sent| && sent[j].id.Some? ==> sent[j].id != sent[k].id
  }

  ghost predicate IdsIncrease(sent: seq<Sent>) {
    forall j, k :: 0 <= j < k < |sent| && sent[j].id.Some? && sent[k].id.Some? ==> sent[j].id.value < sent[k].id.value
  }

  ghost predicate IdsUpTo(sent: seq<Sent>, n: int) {
    forall k :: 0 <= k < |sent| && sent[k].id.Some? ==> sent[k].id.value <= n
  }

  ghost predicate NotSent(sent: seq<Sent>, id: int) {
    forall k :: 0 <= k < |sent| ==> sent[k].id != Some(id)
  }

  ghost predicate TransportOk(t: Transport) {
    Ordered(t.sent) && IdsDiffer(t.sent) && (|t.sent| >= 2 ==> t.sent[0].accepted)
  }

  /** Ids taken and not sent yet are different, and new to the current transport. */
  ghost predicate TakenOk(c: ClientState)
    requires Usable(c)
  {
    && (forall k :: k in c.taken ==> c.taken[k] <= c.idCounter && NotSent(c.made[c.tp.value].sent, c.taken[k]))
    && (forall j, k :: j in c.taken && k in c.taken && j != k ==> c.taken[j] != c.taken[k])
  }

  ghost predicate ClientOk(c: ClientState) {
    && (forall i :: 0 <= i < |c.made| ==> TransportOk(c.made[i]))
    && (c.tp.Some? ==>
      Usable(c) && |c.made[c.tp.value].sent| >= 2 && IdsUpTo(c.made[c.tp.value].sent, c.idCounter) && TakenOk(c))
    && (c.tp.None? ==> c.taken == map[])
  }

  lemma HandshakeKeeps(c: ClientState, i: nat, a: InitAnswer)
    requires i < |c.made| && c.made[i].sent == [] && (c.tp.Some? ==> c.tp.value != i) && c.taken == map[]
    requires ClientOk(c)
    ensures ClientOk(Handshake(c, i, a).0) && Handshake(c, i, a).0.taken == map[]
  {
  }

  lemma AddKeeps(c: ClientState, t: Transport)
    requires ClientOk(c) && t.sent == []
    ensures ClientOk(AddTransport(c, t))
  {
  }

  lemma TryKeeps(c: ClientState, a: InitAnswer)
    requires ClientOk(c) && c.taken == map[]
    ensures ClientOk(TryStreamable(c, a).0) && TryStreamable(c, a).0.taken == map[]
  {
    var t := Transport(Streamable, false, false, false, []);
    AddKeeps(c, t);
    HandshakeKeeps(AddTransport(c, t), |c.made|, a);
    hide ClientOk, Handshake;
  }

  lemma SseKeeps(c: ClientState, a: SseAnswer)
    requires ClientOk(c) && c.taken == map[]
    ensures ClientOk(ConnectSse(c, a).0) && ConnectSse(c, a).0.taken == map[]
  {
    AddKeeps(c, Transport(Sse, false, false, false, []));
    AddKeeps(c, Transport(Sse, false, true, true, []));
    var t := Transport(Sse, false, false, true, []);
    AddKeeps(c, t);
    if a.Endpoint? { HandshakeKeeps(AddTransport(c, t), |c.made|, a.init); }
    hide ClientOk, Handshake;
  }

  lemma ConnectKeeps(c: ClientState, a: ConnectAnswer)
    requires ClientOk(c) && c.taken == map[]
    ensures ClientOk(Connected(c, a).0) && Connected(c, a).0.taken == map[]
  {
    hide ClientOk, TryStreamable, ConnectSse;
    TryKeeps(c, a.first);
    var c1 := TryStreamable(c, a.first).0;
    SseKeeps(c1, a.sse);
    TryKeeps(c1, a.second);
    SseKeeps(TryStreamable(c1, a.second).0, a.sse);
  }

  lemma TakeKeeps(c: ClientState, k: CallerId)
    requires ClientOk(c) && Usable(c) && k !in c.taken
    ensures ClientOk(Take(c, k))
  {
  }

  lemma SendKeeps(c: ClientState, k: CallerId, what: Method, accepted: bool)
    requires ClientOk(c) && Usable(c) && k in c.taken && (what == ToolsList || what == ToolsCall)
    ensures ClientOk(Send(c, k, what, accepted))
  {
  }

  lemma FallbackKeeps(c: ClientState, a: SseAnswer)
    requires ClientOk(c) && Usable(c) && c.taken == map[]
    ensures ClientOk(Fallback(c, a).0) && Fallback(c, a).0.taken == map[]
  {
    SseKeeps(CloseAt(c, c.tp.value).(tp := None, idCounter := 0), a);
  }

  // ----- every run of a client -----

  /** What a client can be asked to do, or have happen to it. It connects and falls back before anybody
      else has it; afterwards its callers take their two steps in any interleaving. */
  datatype Op =
    | DoConnect(a: ConnectAnswer)
    | DoFallback(fallback: SseAnswer)
    | TakeId(k: CallerId)
    | SendRequest(k: CallerId, what: Method, accepted: bool)
    | DoClose
    | ContextEnded(i: nat)

  predicate OpEnabled(c: ClientState, op: Op) {
    match op
    case DoConnect(_) => c.taken == map[]
    case DoFallback(_) => Usable(c) && c.taken == map[]
    case TakeId(k) => Usable(c) && k !in c.taken
    case SendRequest(k, what, _) => Usable(c) && k in c.taken && (what == ToolsList || what == ToolsCall)
    case DoClose => true
    case ContextEnded(i) => i < |c.made|
  }

  function Perform(c: ClientState, op: Op): ClientState
    requires OpEnabled(c, op)
  {
    match op
    case DoConnect(a) => Connected(c, a).0
    case DoFallback(a) => Fallback(c, a).0
    case TakeId(k) => Take(c, k)
    case SendRequest(k, what, accepted) => Send(c, k, what, accepted)
    case DoClose => Closed(c)
    case ContextEnded(i) => EndAt(c, i)
  }

  /** The client after some operations; None if one of them was not possible. */
  function After(ops: seq<Op>): Option<ClientState> {
    if ops == [] then Some(NEW_CLIENT)
    else
      var n := |ops| - 1;
      var c :- After(ops[..n]);
      if OpEnabled(c, ops[n]) then Some(Perform(c, ops[n])) else None
  }

  ghost predicate ClientRun(ops: seq<Op>, c: ClientState) {
    After(ops) == Some(c)
  }

  lemma RunMore(ops: seq<Op>, c: ClientState, op: Op)
    requires ClientRun(ops, c) && OpEnabled(c, op)
    ensures ClientRun(ops + [op], Perform(c, op))
  {
    assert (ops + [op])[..|ops|] == ops;
  }

  /** A run of a client ends with its last operation. */
  lemma RunBack(ops: seq<Op>, c: ClientState) returns (before: ClientState)
    requires ClientRun(ops, c) && ops != []
    ensures ClientRun(ops[..|ops| - 1], before) && OpEnabled(before, ops[|ops| - 1])
      && c == Perform(before, ops[|ops| - 1])
  {
    hide OpEnabled, Perform;
    before := After(ops[..|ops| - 1]).value;
  }

  lemma {:induction false} RunKeeps(ops: seq<Op>, c: ClientState)
    requires ClientRun(ops, c)
    ensures ClientOk(c)
    decreases |ops|
  {
    if ops != [] {
      var before := RunBack(ops, c);
      hide ClientRun, ClientOk, OpEnabled, Perform;
      RunKeeps(ops[..|ops| - 1], before);
      PerformKeeps(before, ops[|ops| - 1]);
    }
  }

  lemma PerformKeeps(c: ClientState, op: Op)
    requires ClientOk(c) && OpEnabled(c, op)
    ensures ClientOk(Perform(c, op))
  {
    match op
    case DoConnect(a) => ConnectKeeps(c, a);
    case DoFallback(a) => FallbackKeeps(c, a);
    case TakeId(k) => TakeKeeps(c, k);
    case SendRequest(k, what, accepted) => SendKeeps(c, k, what, accepted);
    case DoClose => EndsKeep(c);
    case ContextEnded(i) => EndsKeep(c);
  }

  lemma EndsKeep(c: ClientState)
    requires ClientOk(c)
    ensures ClientOk(Closed(c)) && forall i: nat :: i < |c.made| ==> ClientOk(EndAt(c, i))
  {
  }

  /** In every run, on every transport the client ever made: messages go out in handshake order, and no
      id is used twice; a client with a transport has finished the handshake on it. */
  lemma HandshakeOrder(ops: seq<Op>, c: ClientState)
    requires ClientRun(ops, c)
    ensures forall i :: 0 <= i < |c.made| ==> Ordered(c.made[i].sent) && IdsDiffer(c.made[i].sent)
    ensures c.tp.Some? ==> Usable(c) && |c.made[c.tp.value].sent| >= 2
  {
    RunKeeps(ops, c);
    hide ClientRun;
    forall i | 0 <= i < |c.made| ensures Ordered(c.made[i].sent) && IdsDiffer(c.made[i].sent) {
      assert TransportOk(c.made[i]);
    }
  }

  /** Ids increase in the order in which they are taken: a new one is above every id sent on the
      transport and every id another caller holds. */
  lemma IdsIncreaseAsTaken(ops: seq<Op>, c: ClientState, k: CallerId)
    requires ClientRun(ops, c) && OpEnabled(c, TakeId(k))
    ensures var d := Perform(c, TakeId(k));
      && k in d.taken && (forall j :: j in c.taken ==> c.taken[j] < d.taken[k])
      && IdsUpTo(c.made[c.tp.value].sent, d.taken[k] - 1)
  {
    RunKeeps(ops, c);
    hide ClientRun;
  }

  // ----- overtaking -----

  /** Another caller took its id before k did, and has not sent yet. */
  ghost predicate Overtakes(c: ClientState, k: CallerId)
    requires k in c.taken
  {
    exists j :: j in c.taken && c.taken[j] < c.taken[k]
  }

  /** No request of the run overtook another one between that one's two steps. */
  ghost predicate NoneOvertook(ops: seq<Op>) {
    ops == [] ||
      var n := |ops| - 1;
      && NoneOvertook(ops[..n])
      && (ops[n].SendRequest? && After(ops[..n]).Some? && ops[n].k in After(ops[..n]).value.taken ==>
            !Overtakes(After(ops[..n]).value, ops[n].k))
  }

  ghost predicate AllIncrease(c: ClientState) {
    forall i :: 0 <= i < |c.made| ==> IdsIncrease(c.made[i].sent)
  }

  /** Every id still to be sent is above those sent on the current transport. */
  ghost predicate RestAbove(c: ClientState) {
    forall k :: k in c.taken && Usable(c) ==> IdsUpTo(c.made[c.tp.value].sent, c.taken[k] - 1)
  }

  lemma HandshakeIncreases(c: ClientState, i: nat, a: InitAnswer)
    requires i < |c.made| && c.made[i].sent == []
    ensures AllIncrease(Handshake(c, i, a).0) <==> AllIncrease(c)
  {
    var d := Handshake(c, i, a).0;
    assert forall j :: 0 <= j < |c.made| && j != i ==> d.made[j].sent == c.made[j].sent;
    hide Handshake;
    forall j | 0 <= j < |c.made| ensures IdsIncrease(d.made[j].sent) <==> IdsIncrease(c.made[j].sent) {
      if j == i { NewTransportIncreases(c, i, a); }
    }
  }

  lemma NewTransportIncreases(c: ClientState, i: nat, a: InitAnswer)
    requires i < |c.made| && c.made[i].sent == []
    ensures IdsIncrease(Handshake(c, i, a).0.made[i].sent)
  {
  }

  lemma AddIncreases(c: ClientState, t: Transport)
    requires t.sent == []
    ensures AllIncrease(AddTransport(c, t)) <==> AllIncrease(c)
  {
    var d := AddTransport(c, t);
    assert forall i :: 0 <= i < |c.made| ==> d.made[i] == c.made[i];
    if AllIncrease(d) {
      forall i | 0 <= i < |c.made| ensures IdsIncrease(c.made[i].sent) { assert IdsIncrease(d.made[i].sent); }
    }
  }

  lemma ConnectIncreases(c: ClientState, a: ConnectAnswer)
    ensures AllIncrease(Connected(c, a).0) <==> AllIncrease(c)
  {
    TryIncreases(c, a.first);
    var c1 := TryStreamable(c, a.first).0;
    SseIncreases(c1, a.sse);
    TryIncreases(c1, a.second);
    SseIncreases(TryStreamable(c1, a.second).0, a.sse);
    hide AllIncrease, TryStreamable, ConnectSse;
  }

  lemma TryIncreases(c: ClientState, a: InitAnswer)
    ensures AllIncrease(TryStreamable(c, a).0) <==> AllIncrease(c)
  {
    var t := Transport(Streamable, false, false, false, []);
    AddIncreases(c, t);
    HandshakeIncreases(AddTransport(c, t), |c.made|, a);
    hide AllIncrease, Handshake;
  }

  lemma SseIncreases(c: ClientState, a: SseAnswer)
    ensures AllIncrease(ConnectSse(c, a).0) <==> AllIncrease(c)
  {
    var t := Transport(Sse, false, false, true, []);
    AddIncreases(c, t);
    AddIncreases(c, Transport(Sse, false, false, false, []));
    AddIncreases(c, Transport(Sse, false, true, true, []));
    if a.Endpoint? { HandshakeIncreases(AddTransport(c, t), |c.made|, a.init); }
    hide AllIncrease, Handshake;
  }

  lemma SameSent(c: ClientState, d: ClientState)
    requires |d.made| == |c.made| && forall i :: 0 <= i < |c.made| ==> d.made[i].sent == c.made[i].sent
    ensures AllIncrease(d) <==> AllIncrease(c)
  {
    hide IdsIncrease;
  }

  lemma SendIncreases(c: ClientState, k: CallerId, what: Method, accepted: bool)
    requires ClientOk(c) && Usable(c) && k in c.taken
    ensures var d := Send(c, k, what, accepted);
      AllIncrease(d) && RestAbove(d) <==> AllIncrease(c) && RestAbove(c) && !Overtakes(c, k)
  {
    var d := Send(c, k, what, accepted);
    var i := c.tp.value;
    var sent := c.made[i].sent;
    assert d.made[i].sent == sent + [Sent(what, Some(c.taken[k]), accepted)];
    AppendIncreases(sent, Sent(what, Some(c.taken[k]), accepted));
    assert forall j :: 0 <= j < |c.made| && j != i ==> d.made[j].sent == c.made[j].sent;
    hide IdsIncrease, ClientOk;
    if AllIncrease(d) && RestAbove(d) {
      assert IdsIncrease(d.made[i].sent);
      forall j | 0 <= j < |c.made| ensures IdsIncrease(c.made[j].sent) { assert IdsIncrease(d.made[j].sent); }
      assert forall j :: j in c.taken && j != k ==> j in d.taken;
      assert d.made[i].sent[|sent|].id == Some(c.taken[k]);
      forall j | j in c.taken ensures IdsUpTo(sent, c.taken[j] - 1) && c.taken[k] <= c.taken[j] {
        if j != k {
          assert IdsUpTo(d.made[i].sent, c.taken[j] - 1);
          assert forall m :: 0 <= m < |sent| ==> d.made[i].sent[m] == sent[m];
        }
      }
    }
    if AllIncrease(c) && RestAbove(c) && !Overtakes(c, k) {
      assert IdsUpTo(sent, c.taken[k] - 1);
      forall j | j in d.taken ensures IdsUpTo(d.made[i].sent, d.taken[j] - 1) {
        TakenDiffer(c, j, k);
        assert IdsUpTo(sent, c.taken[j] - 1);
      }
    }
  }

  lemma TakenDiffer(c: ClientState, j: CallerId, k: CallerId)
    requires j in c.taken && k in c.taken && j != k
    ensures ClientOk(c) ==> c.taken[j] != c.taken[k]
  {
  }

  lemma AppendIncreases(sent: seq<Sent>, m: Sent)
    requires m.id.Some?
    ensures IdsIncrease(sent + [m]) <==> IdsIncrease(sent) && IdsUpTo(sent, m.id.value - 1)
  {
    var all := sent + [m];
    assert forall k :: 0 <= k < |sent| ==> all[k] == sent[k];
    if IdsIncrease(all) {
      forall k | 0 <= k < |sent| && sent[k].id.Some? ensures sent[k].id.value <= m.id.value - 1 {
        assert all[k].id.value < all[|sent|].id.value;
      }
    }
  }

  /** For every run: no request overtook another exactly when the ids sent on every transport increase
      and those still to be sent are above them. */
  lemma {:induction false} SendOrder(ops: seq<Op>, c: ClientState)
    requires ClientRun(ops, c)
    ensures NoneOvertook(ops) <==> AllIncrease(c) && RestAbove(c)
    decreases |ops|
  {
    if ops != [] {
      var n := |ops| - 1;
      var before := RunBack(ops, c);
      SendOrder(ops[..n], before);
      RunKeeps(ops[..n], before);
      hide ClientOk, AllIncrease, RestAbove, After;
      PerformOrder(before, ops[n]);
    }
  }

  lemma PerformOrder(c: ClientState, op: Op)
    requires ClientOk(c) && OpEnabled(c, op)
    ensures AllIncrease(Perform(c, op)) && RestAbove(Perform(c, op)) <==>
      AllIncrease(c) && RestAbove(c) && (op.SendRequest? ==> !Overtakes(c, op.k))
  {
    match op
    case DoConnect(a) =>
      ConnectIncreases(c, a);
      ConnectKeeps(c, a);
      hide AllIncrease, ClientOk, Connected;
    case DoFallback(a) =>
      var closed := CloseAt(c, c.tp.value).(tp := None, idCounter := 0);
      SameSent(c, closed);
      SseIncreases(closed, a);
      FallbackKeeps(c, a);
      hide AllIncrease, ClientOk, ConnectSse;
    case TakeId(k) => TakeOrder(c, k);
    case SendRequest(k, what, accepted) =>
      SendIncreases(c, k, what, accepted);
      hide AllIncrease, ClientOk, RestAbove, Send;
    case DoClose => QuietOrder(c, Closed(c));
    case ContextEnded(i) => QuietOrder(c, EndAt(c, i));
  }

  lemma TakeOrder(c: ClientState, k: CallerId)
    requires ClientOk(c) && Usable(c) && k !in c.taken
    ensures AllIncrease(Take(c, k)) && RestAbove(Take(c, k)) <==> AllIncrease(c) && RestAbove(c)
  {
    var d := Take(c, k);
    SameSent(c, d);
    assert IdsUpTo(c.made[c.tp.value].sent, c.idCounter);
    assert d.taken[k] - 1 == c.idCounter;
    hide AllIncrease, ClientOk, IdsUpTo;
    assert forall j :: j in c.taken ==> j in d.taken && d.taken[j] == c.taken[j];
  }

  lemma QuietOrder(c: ClientState, d: ClientState)
    requires |d.made| == |c.made| && forall i :: 0 <= i < |c.made| ==> d.made[i].sent == c.made[i].sent
    requires d.tp == c.tp && d.taken == c.taken
    ensures AllIncrease(d) && RestAbove(d) <==> AllIncrease(c) && RestAbove(c)
  {
    SameSent(c, d);
    hide AllIncrease;
    if Usable(c) { assert d.made[c.tp.value].sent == c.made[c.tp.value].sent; }
  }

  /** When nobody stands between its two steps: ids increase on every transport exactly when no request
      overtook another. */
  lemma IdsIncreaseUnlessOvertaken(ops: seq<Op>, c: ClientState)
    requires ClientRun(ops, c) && c.taken == map[]
    ensures (forall i :: 0 <= i < |c.made| ==> IdsIncrease(c.made[i].sent)) <==> NoneOvertook(ops)
  {
    SendOrder(ops, c);
    hide NoneOvertook, ClientRun;
  }

  /** It does happen: caller 0 takes id 2, caller 1 takes id 3 and sends first. */
  lemma LaterIdSentFirst() returns (ops: seq<Op>, c: ClientState)
    ensures ClientRun(ops, c) && Usable(c) && !IdsIncrease(c.made[c.tp.value].sent) && c.taken == map[]
  {
    var a := ConnectAnswer(InitSucceeds(true, false), InitSucceeds(true, false), GetFails);
    var c0 := Connected(NEW_CLIENT, a).0;
    assert ClientRun([], NEW_CLIENT);
    RunMore([], NEW_CLIENT, DoConnect(a));
    RunMore([] + [DoConnect(a)], c0, TakeId(0));
    var c1 := Take(c0, 0);
    ops := [] + [DoConnect(a)] + [TakeId(0)];
    RunMore(ops, c1, TakeId(1));
    var c2 := Take(c1, 1);
    ops := ops + [TakeId(1)];
    hide ClientRun, After;
    RunMore(ops, c2, SendRequest(1, ToolsCall, true));
    var c3 := Send(c2, 1, ToolsCall, true);
    ops := ops + [SendRequest(1, ToolsCall, true)];
    RunMore(ops, c3, SendRequest(0, ToolsCall, true));
    c := Send(c3, 0, ToolsCall, true);
    ops := ops + [SendRequest(0, ToolsCall, true)];
    assert c.made[0].sent[2].id == Some(3) && c.made[0].sent[3].id == Some(2);
  }

  // ----- what the server accepted -----

  /** The messages whose POST went through. */
  function Accepted(sent: seq<Sent>): seq<Sent> {
    if sent == [] then []
    else
      var n := |sent| - 1;
      Accepted(sent[..n]) + (if sent[n].accepted then [sent[n]] else [])
  }

  /** The outcome of the initialized notification is ignored. On every transport of every run, what the
      server accepted is in handshake order exactly when the notification was not sent, or accepted, or
      nothing after it was. */
  lemma AcceptedOrder(ops: seq<Op>, c: ClientState, i: nat)
    requires ClientRun(ops, c) && i < |c.made|
    ensures var sent := c.made[i].sent;
      Ordered(Accepted(sent)) <==> |sent| < 2 || sent[1].accepted || forall k :: 2 <= k < |sent| ==> !sent[k].accepted
  {
    RunKeeps(ops, c);
    assert TransportOk(c.made[i]);
    hide ClientRun, IdsDiffer;
    var sent := c.made[i].sent;
    if |sent| >= 2 {
      AcceptedShape(sent);
    } else if |sent| == 1 {
      assert sent[..0] == [] && Accepted([]) == [];
    }
  }

  lemma {:induction false} AcceptedShape(sent: seq<Sent>)
    requires Ordered(sent) && |sent| >= 2 && sent[0].accepted
    ensures var a := Accepted(sent);
      var head := if sent[1].accepted then [sent[0], sent[1]] else [sent[0]];
      && head <= a
      && (forall k :: |head| <= k < |a| ==> a[k].what == ToolsList || a[k].what == ToolsCall)
      && (|a| == |head| <==> forall k :: 2 <= k < |sent| ==> !sent[k].accepted)
    decreases |sent|
  {
    var n := |sent| - 1;
    if n == 1 {
      assert sent[..1][..0] == [] && Accepted(sent[..1]) == [sent[0]];
    } else {
      AcceptedShape(sent[..n]);
    }
  }

  /** A run in which the server accepts a tools/call and never saw the notification. */
  lemma NotificationMayBeMissing() returns (ops: seq<Op>, c: ClientState)
    ensures ClientRun(ops, c) && Usable(c) && !Ordered(Accepted(c.made[c.tp.value].sent))
  {
    var a := ConnectAnswer(InitSucceeds(false, false), InitSucceeds(false, false), GetFails);
    var c0 := Connected(NEW_CLIENT, a).0;
    assert ClientRun([], NEW_CLIENT);
    RunMore([], NEW_CLIENT, DoConnect(a));
    RunMore([] + [DoConnect(a)], c0, TakeId(0));
    ops := [] + [DoConnect(a)] + [TakeId(0)];
    hide After, ClientRun;
    RunMore(ops, Take(c0, 0), SendRequest(0, ToolsCall, true));
    c := Send(Take(c0, 0), 0, ToolsCall, true);
    ops := ops + [SendRequest(0, ToolsCall, true)];
    assert |c.made[0].sent| == 3 && !c.made[0].sent[1].accepted && c.made[0].sent[2].accepted;
    AcceptedOrder(ops, c, 0);
  }

  // ----- connecting -----

  ghost predicate StreamableClosed(c: ClientState, except: nat) {
    forall i :: 0 <= i < |c.made| && i != except && c.made[i].kind == Streamable ==> c.made[i].closed
  }

  ghost predicate NothingReads(c: ClientState) {
    forall i :: 0 <= i < |c.made| && c.made[i].reading ==> Cancelled(c.made[i])
  }

  /** One attempt makes one transport and leaves the others alone. */
  lemma TryOutcome(c: ClientState, a: InitAnswer)
    ensures var (d, ok) := TryStreamable(c, a);
      && |d.made| == |c.made| + 1 && d.made[..|c.made|] == c.made
      && ok == a.InitSucceeds?
      && var t := d.made[|c.made|];
         && t.kind == Streamable && !t.reading && t.closed == !ok && t.ended == (ok && a.ended)
         && d.tp == (if ok then Some(|c.made|) else c.tp)
         && (ok ==> |t.sent| == 2)
  {
  }

  predicate SseConnects(a: SseAnswer) {
    a.Endpoint? && a.init.InitSucceeds?
  }

  /** The connection is made, and its context has ended again when that is reported. */
  predicate SseEnds(a: SseAnswer) {
    SseConnects(a) && a.init.ended
  }

  lemma SseOutcome(c: ClientState, a: SseAnswer)
    ensures var (d, ok) := ConnectSse(c, a);
      && |d.made| == |c.made| + 1 && d.made[..|c.made|] == c.made
      && ok == SseConnects(a)
      && var t := d.made[|c.made|];
         && t.kind == Sse && (ok ==> t.reading && !t.closed && t.ended == SseEnds(a))
           && (!ok && t.reading ==> Cancelled(t))
         && d.tp == (if ok then Some(|c.made|) else c.tp)
         && (ok ==> |t.sent| == 2)
  {
  }

  predicate StreamableConnects(a: ConnectAnswer) {
    a.first.InitSucceeds? || (a.first.transient && a.second.InitSucceeds?)
  }

  /** Connect on a new client: one or two Streamable HTTP transports, then at most one SSE connection,
      as the answers say. On success the client has the last one made, which it did not close itself,
      and every Streamable HTTP transport before it is closed; on failure it has none, and no read loop
      is left running. */
  lemma ConnectOutcome(a: ConnectAnswer)
    ensures var (c, ok) := Connected(NEW_CLIENT, a);
      var n := |c.made|;
      && 1 <= n <= 3
      && (forall i :: 0 <= i < n - 1 ==> c.made[i].kind == Streamable && !c.made[i].reading)
      && c.made[0].kind == Streamable && (n == 3 ==> c.made[2].kind == Sse)
      && ok == (StreamableConnects(a) || SseConnects(a.sse))
      && (ok ==> c.tp == Some(n - 1) && !c.made[n - 1].closed && StreamableClosed(c, n - 1)
                 && c.made[n - 1].kind == (if StreamableConnects(a) then Streamable else Sse)
                 && c.made[n - 1].reading == c.made[n - 1].kind.Sse? && |c.made[n - 1].sent| == 2)
      && (!ok ==> c.tp == None && StreamableClosed(c, n) && NothingReads(c))
  {
    var c1 := TryStreamable(NEW_CLIENT, a.first).0;
    var c2 := TryStreamable(c1, a.second).0;
    TryOutcome(NEW_CLIENT, a.first);
    TryOutcome(c1, a.second);
    SseOutcome(c1, a.sse);
    SseOutcome(c2, a.sse);
    hide TryStreamable, ConnectSse;
    var c := Connected(NEW_CLIENT, a).0;
    assert |c.made| > 1 ==> c.made[..1][0] == c1.made[0];
    assert |c.made| > 2 ==> c.made[..2][1] == c2.made[1] && c.made[..2][0] == c2.made[0];
  }

  /** When an SSE transport carries the context's end already, as its answer says. */
  lemma ConnectEnded(a: ConnectAnswer)
    requires !StreamableConnects(a) && SseConnects(a.sse)
    ensures var c := Connected(NEW_CLIENT, a).0; Usable(c) && c.made[c.tp.value].ended == SseEnds(a.sse)
  {
    var c1 := TryStreamable(NEW_CLIENT, a.first).0;
    TryOutcome(NEW_CLIENT, a.first);
    TryOutcome(c1, a.second);
    SseOutcome(c1, a.sse);
    SseOutcome(TryStreamable(c1, a.second).0, a.sse);
    hide TryStreamable, ConnectSse;
  }

  /** The SSE connection of fetchTools, if it makes one: for lack of Streamable HTTP or as a fallback. */
  function SseOf(a: FetchAnswer): SseAnswer {
    if StreamableConnects(a.connect) then a.fallback else a.connect.sse
  }

  /** The last tools/list of fetchTools goes out over SSE. */
  predicate LastListOnSse(a: FetchAnswer) {
    SseConnects(SseOf(a)) && (StreamableConnects(a.connect) ==> !a.listed.Listed?)
  }

  /** What fetchTools returns, by its answers: the list of the first tools/list, or that of the second,
      which is made only after Streamable HTTP failed to list and SSE connected. */
  function ListedBy(a: FetchAnswer): Option<seq<Tool>> {
    if StreamableConnects(a.connect) && !a.listed.Listed? then
      if SseConnects(a.fallback) then ToolsOf(a.listedAgain) else None
    else if StreamableConnects(a.connect) || SseConnects(a.connect.sse) then ToolsOf(a.listed)
    else None
  }

  /** A client whose last message was a tools/list, on a transport that it did not close. */
  ghost predicate JustListed(c: ClientState, accepted: bool, kind: Kind, ended: bool) {
    && Usable(c)
    && var t := c.made[c.tp.value];
       && t.kind == kind && t.reading == kind.Sse? && !t.closed && (kind.Sse? ==> t.ended == ended)
       && |t.sent| == 3 && t.sent[2].what == ToolsList && t.sent[2].accepted == accepted
       && forall i :: 0 <= i < |c.made| && i != c.tp.value ==> !c.made[i].reading
  }

  lemma ListedOn(c: ClientState, r: ListReply, kind: Kind, ended: bool)
    requires Usable(c) && |c.made[c.tp.value].sent| == 2 && !c.made[c.tp.value].closed
    requires c.made[c.tp.value].kind == kind && c.made[c.tp.value].reading == kind.Sse?
    requires kind.Sse? ==> c.made[c.tp.value].ended == ended
    requires forall i :: 0 <= i < |c.made| && i != c.tp.value ==> !c.made[i].reading
    ensures JustListed(ListOnce(c, r), !r.NotPosted?, kind, ended)
  {
  }

  lemma EndedListed(c: ClientState, accepted: bool, kind: Kind, ended: bool, now: bool)
    requires JustListed(c, accepted, kind, ended)
    ensures JustListed(EndedIf(c, now), accepted, kind, ended || now)
    ensures NothingReads(EndedIf(c, now)) <==> kind.Streamable? || ended || now
  {
  }

  /** What fetchTools leaves behind, by its answers alone: the list it returns, with which the client
      has an accepted tools/list on a transport that it did not close itself; and when it returns none,
      whether a read loop is left on a live context. It is, exactly when the last tools/list failed over
      SSE and the stream has not ended. */
  lemma FetchOutcome(a: FetchAnswer)
    ensures var (c, tools) := Fetched(a);
      && tools == ListedBy(a)
      && (tools.Some? ==> Usable(c) && !c.made[c.tp.value].closed
                          && var sent := c.made[c.tp.value].sent;
                             |sent| == 3 && sent[2].what == ToolsList && sent[2].accepted)
      && (tools.None? ==> (NothingReads(c) <==> !LastListOnSse(a) || SseEnds(SseOf(a)) || a.ended))
  {
    ConnectOutcome(a.connect);
    var (c, ok) := Connected(NEW_CLIENT, a.connect);
    hide Connected, Fallback, StreamableConnects, SseConnects, SseEnds;
    if ok {
      var kind := c.made[c.tp.value].kind;
      var ended := c.made[c.tp.value].ended;
      ListedOn(c, a.listed, kind, ended);
      var listed := ListOnce(c, a.listed);
      hide ListOnce;
      EndedListed(listed, !a.listed.NotPosted?, kind, ended, a.ended);
      if kind == Sse {
        assert ended == SseEnds(a.connect.sse) by { ConnectEnded(a.connect); }
      } else if !a.listed.Listed? {
        FetchFallback(listed, a.fallback, a.listedAgain);
        if SseConnects(a.fallback) {
          var d := Fallback(listed, a.fallback).0;
          EndedListed(ListOnce(d, a.listedAgain), !a.listedAgain.NotPosted?, Sse, SseEnds(a.fallback), a.ended);
        }
      }
      hide NothingReads, EndedIf;
    }
  }

  lemma FetchFallback(c: ClientState, a: SseAnswer, r: ListReply)
    requires c.tp.Some? && c.tp.value == |c.made| - 1 && c.made[c.tp.value].kind == Streamable
    requires forall i :: 0 <= i < |c.made| ==> !c.made[i].reading
    ensures var (d, ok) := Fallback(c, a);
      && ok == SseConnects(a)
      && (!ok ==> !Usable(d) && NothingReads(d))
      && (ok ==> Usable(d) && JustListed(ListOnce(d, r), !r.NotPosted?, Sse, SseEnds(a)))
  {
    var closed := CloseAt(c, c.tp.value).(tp := None, idCounter := 0);
    SseOutcome(closed, a);
    var (d, ok) := Fallback(c, a);
    hide ConnectSse;
    assert forall i :: 0 <= i < |c.made| ==> d.made[..|c.made|][i] == closed.made[i];
    if ok { ListedOn(d, r, Sse, SseEnds(a)); }
  }

  /** It does leave one: no Streamable HTTP, an SSE handshake, and a tools/list that brings no list. */
  lemma FetchMayLeak(r: ListReply)
    requires !r.Listed?
    ensures var no, yes := InitFails(true, false), InitSucceeds(true, false);
      var a := FetchAnswer(ConnectAnswer(no, no, Endpoint(yes)), r, GetFails, r, false);
      Fetched(a).1.None? && !NothingReads(Fetched(a).0)
  {
    var no, yes := InitFails(true, false), InitSucceeds(true, false);
    var a := FetchAnswer(ConnectAnswer(no, no, Endpoint(yes)), r, GetFails, r, false);
    FetchOutcome(a);
    hide Fetched, NothingReads;
  }

  // ----- which transports, which ids -----

  /** The id of a transport's initialize is `id`, and later messages have the ids after it. */
  ghost predicate Numbered(t: Transport, id: int) {
    && (|t.sent| >= 1 ==> t.sent[0].id == Some(id))
    && (|t.sent| >= 2 ==> t.sent[1].id == None)
    && (|t.sent| >= 3 ==> t.sent[2].id == Some(id + 1))
  }

  /** How many transports Connect makes: a second Streamable HTTP one only if the first failed with what looks
      transient, and an SSE one only if none of those connected. */
  function TransportsOf(a: ConnectAnswer): nat {
    1 + (if a.first.InitFails? && a.first.transient then 1 else 0) + (if StreamableConnects(a) then 0 else 1)
  }

  /** Each initialize of a new client has the next id, and is recorded as accepted exactly if its POST was. */
  lemma ConnectNumbers(a: ConnectAnswer)
    ensures var c := Connected(NEW_CLIENT, a).0;
      && |c.made| == TransportsOf(a)
      && (forall i :: 0 <= i < |c.made| ==> Numbered(c.made[i], i + 1))
      && c.made[0].sent != [] && c.made[0].sent[0] == Sent(Initialize, Some(1), a.first.InitSucceeds? || a.first.posted)
      && (Connected(NEW_CLIENT, a).1 ==> c.idCounter == |c.made|)
  {
    var c1 := TryStreamable(NEW_CLIENT, a.first).0;
    var c2 := TryStreamable(c1, a.second).0;
    TryNumbers(NEW_CLIENT, a.first);
    TryNumbers(c1, a.second);
    SseNumbers(c1, a.sse);
    SseNumbers(c2, a.sse);
    TryOutcome(NEW_CLIENT, a.first);
    TryOutcome(c1, a.second);
    hide TryStreamable, ConnectSse, Numbered;
    var c := Connected(NEW_CLIENT, a).0;
    assert |c.made| > 1 ==> c.made[..1][0] == c1.made[0];
    assert |c.made| > 2 ==>
      c.made[..2][1] == c2.made[1] && c2.made[..1][0] == c1.made[0] && c.made[..2][0] == c2.made[0];
  }

  lemma TryNumbers(c: ClientState, a: InitAnswer)
    ensures var d := TryStreamable(c, a).0;
      && d.idCounter == c.idCounter + 1 && |d.made| == |c.made| + 1 && d.made[..|c.made|] == c.made
      && Numbered(d.made[|c.made|], d.idCounter)
      && d.made[|c.made|].sent != []
      && d.made[|c.made|].sent[0] == Sent(Initialize, Some(d.idCounter), a.InitSucceeds? || a.posted)
  {
  }

  lemma SseNumbers(c: ClientState, a: SseAnswer)
    ensures var d := ConnectSse(c, a).0;
      && |d.made| == |c.made| + 1 && d.made[..|c.made|] == c.made
      && Numbered(d.made[|c.made|], c.idCounter + 1)
      && (ConnectSse(c, a).1 ==> d.idCounter == c.idCounter + 1)
  {
  }

  /** A client whose abandoned Streamable HTTP transports are closed. */
  ghost predicate AbandonedClosed(c: ClientState) {
    forall i :: 0 <= i < |c.made| && c.made[i].kind == Streamable && c.tp != Some(i) ==> c.made[i].closed
  }

  lemma ListNumbers(c: ClientState, r: ListReply, ended: bool, id: int)
    requires Usable(c) && |c.made[c.tp.value].sent| == 2 && Numbered(c.made[c.tp.value], id) && c.idCounter == id
    requires AbandonedClosed(c)
    ensures var d := EndedIf(ListOnce(c, r), ended);
      && Usable(d) && d.tp == c.tp && |d.made| == |c.made| && |d.made[d.tp.value].sent| == 3
      && Numbered(d.made[d.tp.value], id) && AbandonedClosed(d)
  {
  }

  lemma WithoutFallback(a: FetchAnswer)
    requires var (c, ok) := Connected(NEW_CLIENT, a.connect);
      !ok || a.listed.Listed? || (Usable(c) && c.made[c.tp.value].kind == Sse)
    ensures var c := Fetched(a).0;
      && AbandonedClosed(c)
      && (Fetched(a).1.Some? ==>
            Usable(c) && |c.made[c.tp.value].sent| == 3 && Numbered(c.made[c.tp.value], |c.made|))
  {
    ConnectOutcome(a.connect);
    ConnectNumbers(a.connect);
    var (c, ok) := Connected(NEW_CLIENT, a.connect);
    hide Connected, Fallback, Numbered;
    assert AbandonedClosed(c);
    if ok { ListNumbers(c, a.listed, a.ended, |c.made|); }
  }

  lemma WithFallback(a: FetchAnswer)
    requires var (c, ok) := Connected(NEW_CLIENT, a.connect);
      ok && !a.listed.Listed? && Usable(c) && c.made[c.tp.value].kind == Streamable
    ensures var c := Fetched(a).0;
      && AbandonedClosed(c)
      && (Fetched(a).1.Some? ==> Usable(c) && |c.made[c.tp.value].sent| == 3 && Numbered(c.made[c.tp.value], 1))
  {
    ConnectOutcome(a.connect);
    ConnectNumbers(a.connect);
    var c := Connected(NEW_CLIENT, a.connect).0;
    hide Connected, Fallback, Numbered;
    ListNumbers(c, a.listed, false, |c.made|);
    var listed := ListOnce(c, a.listed);
    FallbackNumbers(listed, a.fallback);
    var (d, ok') := Fallback(listed, a.fallback);
    FallbackCloses(listed, d);
    if ok' { ListNumbers(d, a.listedAgain, a.ended, 1); }
  }

  /** The list that fetchTools returns was asked for with the second id of the current transport: the numbers
      begin again with the fallback. Every Streamable HTTP transport that is not the client's is closed, so
      the one that a fallback abandons is. */
  lemma FetchNumbers(a: FetchAnswer)
    ensures var (c, tools) := Fetched(a);
      && AbandonedClosed(c)
      && (tools.Some? ==>
            && Usable(c) && |c.made[c.tp.value].sent| == 3
            && Numbered(c.made[c.tp.value],
                        if StreamableConnects(a.connect) && !a.listed.Listed? then 1 else |c.made|))
  {
    ConnectOutcome(a.connect);
    var (c, ok) := Connected(NEW_CLIENT, a.connect);
    hide Connected, StreamableConnects, SseConnects, Fetched, Numbered, AbandonedClosed;
    if ok && !a.listed.Listed? && c.made[c.tp.value].kind == Streamable {
      WithFallback(a);
    } else {
      WithoutFallback(a);
    }
  }

  lemma FallbackCloses(c: ClientState, d: ClientState)
    requires AbandonedClosed(c) && c.tp.Some? && c.tp.value == |c.made| - 1
    requires |d.made| == |c.made| + 1 && d.made[|c.made|].kind == Sse
    requires d.made[..|c.made|] == c.made[c.tp.value := c.made[c.tp.value].(closed := true)]
    ensures AbandonedClosed(d)
  {
    forall i | 0 <= i < |c.made| ensures d.made[i].kind == Streamable ==> d.made[i].closed {
      assert d.made[i] == d.made[..|c.made|][i];
    }
  }

  lemma FallbackNumbers(c: ClientState, a: SseAnswer)
    requires c.tp.Some? && c.tp.value == |c.made| - 1
    ensures var (d, ok) := Fallback(c, a);
      && |d.made| == |c.made| + 1
      && d.made[..|c.made|] == c.made[c.tp.value := c.made[c.tp.value].(closed := true)]
      && d.made[|c.made|].kind == Sse && Numbered(d.made[|c.made|], 1)
      && (ok ==> d.tp == Some(|c.made|) && d.idCounter == 1 && |d.made[|c.made|].sent| == 2)
      && (!ok ==> d.tp == None)
  {
    var closed := CloseAt(c, c.tp.value).(tp := None, idCounter := 0);
    SseNumbers(closed, a);
    SseOutcome(closed, a);
    hide ConnectSse;
  }

  // ----- every client of fetchTools and Connect lives such a run -----

  ghost predicate Lives(c: ClientState) {
    exists ops :: ClientRun(ops, c)
  }

  lemma LivesOn(c: ClientState, op: Op)
    requires Lives(c) && OpEnabled(c, op)
    ensures Lives(Perform(c, op))
  {
    hide ClientRun, OpEnabled, Perform;
    var ops :| ClientRun(ops, c);
    RunMore(ops, c, op);
  }

  /** A run of a client in which no request overtook another. */
  ghost predicate LivesInOrder(c: ClientState) {
    Lives(c) && AllIncrease(c) && RestAbove(c)
  }

  lemma OrderGoesOn(c: ClientState, op: Op)
    requires LivesInOrder(c) && OpEnabled(c, op) && (op.SendRequest? ==> !Overtakes(c, op.k))
    ensures LivesInOrder(Perform(c, op))
  {
    hide ClientRun, OpEnabled, Perform, AllIncrease, RestAbove, ClientOk;
    LivesOn(c, op);
    var ops :| ClientRun(ops, c);
    RunKeeps(ops, c);
    PerformOrder(c, op);
  }

  lemma ConnectedLives(a: ConnectAnswer)
    ensures LivesInOrder(Connected(NEW_CLIENT, a).0) && Connected(NEW_CLIENT, a).0.taken == map[]
  {
    assert ClientRun([], NEW_CLIENT);
    OrderGoesOn(NEW_CLIENT, DoConnect(a));
    ConnectKeeps(NEW_CLIENT, a);
  }

  lemma RequestLives(c: ClientState, r: ListReply)
    requires LivesInOrder(c) && Usable(c) && c.taken == map[]
    ensures LivesInOrder(ListOnce(c, r)) && ListOnce(c, r).taken == map[] && Usable(ListOnce(c, r))
      && ListOnce(c, r).tp == c.tp
  {
    hide LivesInOrder;
    OrderGoesOn(c, Op.TakeId(FETCHER));
    OrderGoesOn(Take(c, FETCHER), SendRequest(FETCHER, ToolsList, !r.NotPosted?));
  }

  lemma EndedLives(c: ClientState, ended: bool)
    requires LivesInOrder(c)
    ensures LivesInOrder(EndedIf(c, ended))
  {
    hide LivesInOrder;
    if ended && Usable(c) { OrderGoesOn(c, ContextEnded(c.tp.value)); }
  }

  lemma FetchedLives(a: FetchAnswer)
    ensures LivesInOrder(Fetched(a).0) && Fetched(a).0.taken == map[]
  {
    ConnectedLives(a.connect);
    var (c, ok) := Connected(NEW_CLIENT, a.connect);
    hide LivesInOrder, Connected;
    if ok && Usable(c) {
      RequestLives(c, a.listed);
      var listed := ListOnce(c, a.listed);
      hide ListOnce;
      EndedLives(listed, a.ended);
      if !(a.listed.Listed? || listed.made[c.tp.value].kind == Sse) {
        OrderGoesOn(listed, DoFallback(a.fallback));
        var (d, ok') := Fallback(listed, a.fallback);
        assert d.taken == map[] by { FallbackTaken(listed, a.fallback); }
        hide Fallback;
        if ok' && Usable(d) {
          RequestLives(d, a.listedAgain);
          EndedLives(ListOnce(d, a.listedAgain), a.ended);
        }
      }
    }
  }

  lemma FallbackTaken(c: ClientState, a: SseAnswer)
    requires Usable(c) && c.taken == map[]
    ensures Fallback(c, a).0.taken == map[]
  {
  }
}
