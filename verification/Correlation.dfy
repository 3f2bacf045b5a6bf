/** mcp/sse.go: matching responses to callers on one SSE connection, with any number of callers. */
module Correlation {
  import opened Options
  import opened Json
  import opened JsonRpc

  // ----- ids -----

  const EXACT := 0x20_0000_0000_0000
  const MIN_INT64 := -0x8000_0000_0000_0000
  const MAX_INT64 := 0x7fff_ffff_ffff_ffff

  function TowardsZero(v: real): int {
    if v >= 0.0 then v.Floor else -(-v).Floor
  }

  /** Go's conversion of a float64 to an int64: truncation, and the least int64 when out of range. */
  function Truncate(v: real): int {
    if MIN_INT64 <= TowardsZero(v) <= MAX_INT64 then TowardsZero(v) else MIN_INT64
  }

  /** The id that dispatch looks up, if any. */
  function IdOf(resp: Response): Option<int> {
    match resp.id
    case Number(v) => Some(Truncate(v))
    case NotANumber => None
  }

  /** The distance between neighbouring float64 values at n: 53 significant bits. */
  function Gap(n: nat, g: nat := 1): (r: nat)
    requires g >= 1
    ensures r >= 1
    decreases n - g
  {
    if n < EXACT * g then g else Gap(n, 2 * g)
  }

  /** The float64 nearest to n, ties going to the even significand. */
  function ToFloat64(n: nat): nat {
    var g := Gap(n);
    var q, r := n / g, n % g;
    if 2 * r < g || (2 * r == g && q % 2 == 0) then q * g else (q + 1) * g
  }

  lemma RoundingIsExact(n: nat)
    ensures ToFloat64(n) == n <==> n % Gap(n) == 0
    ensures n <= EXACT ==> ToFloat64(n) == n
  {
    var g := Gap(n);
    var q, r := n / g, n % g;
    assert n == q * g + r && (q + 1) * g == q * g + g;
    if n == EXACT { assert Gap(n) == Gap(n, 2) == 2; }
  }

  /** A server's answer to request n that repeats the id. */
  function Echo(n: nat, body: Json): Response {
    Response(Number(ToFloat64(n) as real), body, true)
  }

  /** The answer finds request n exactly when n survives being a float64; all ids up to 2^53 do. */
  lemma EchoKeepsId(n: nat, body: Json)
    requires n <= MAX_INT64
    ensures IdOf(Echo(n, body)) == Some(n) <==> n % Gap(n) == 0
    ensures n <= EXACT ==> IdOf(Echo(n, body)) == Some(n)
  {
    RoundingIsExact(n);
    assert (ToFloat64(n) as real).Floor == ToFloat64(n);
  }

  /** The first id that does not: its answer goes to the request before it. */
  lemma FirstLostId(body: Json)
    ensures IdOf(Echo(EXACT + 1, body)) == Some(EXACT)
  {
    var n := EXACT + 1;
    assert Gap(n) == Gap(n, 2) == 2;
    assert ToFloat64(n) == EXACT;
    assert (EXACT as real).Floor == EXACT;
  }

  predicate Integral(v: real) {
    v == v.Floor as real
  }

  lemma NegatedIntegral(v: real)
    requires Integral(v)
    ensures Integral(-v)
  {
    assert -v == (-v.Floor) as real;
    assert (-v).Floor == -v.Floor;
  }

  /** Ids are not compared before the conversion. A number in the range of int64 keeps its value exactly
      when it is an integer. */
  lemma CutOff(v: real)
    requires MIN_INT64 <= TowardsZero(v) <= MAX_INT64
    ensures Truncate(v) as real == v <==> Integral(v)
  {
    if v < 0.0 {
      if Integral(v) { NegatedIntegral(v); }
      if Integral(-v) { NegatedIntegral(-v); }
      assert Truncate(v) as real == -((-v).Floor as real);
    }
  }

  /** Any other number goes to the request nearest below: 3.5 is taken for 3. */
  lemma FractionIsCutOff(n: nat, f: real, body: Json)
    requires n <= MAX_INT64 && 0.0 < f < 1.0
    ensures IdOf(Response(Number(n as real + f), body, true)) == Some(n) && !Integral(n as real + f)
  {
    assert (n as real + f).Floor == n;
  }

  // ----- the shared table -----

  /** Each roundTrip makes its own channel; callers and channels share names. */
  type CallerId = nat

  function Subscribed(pending: map<int, CallerId>, id: int, c: CallerId): map<int, CallerId> {
    pending[id := c]
  }

  function Unsubscribed(pending: map<int, CallerId>, id: int): map<int, CallerId> {
    pending - {id}
  }

  /** The channel dispatch finds under its mutex. */
  function Route(pending: map<int, CallerId>, resp: Response): Option<CallerId> {
    match IdOf(resp)
    case Some(id) => if id in pending then Some(pending[id]) else None
    case None => None
  }

  /** The three sections that sseConn's mutex protects. */
  class SseConn {
    var pending: map<int, CallerId>

    constructor ()
      ensures pending == map[]
    {
      pending := map[];
    }

    method Subscribe(id: int, ch: CallerId)
      modifies this
      ensures pending == Subscribed(old(pending), id, ch)
    {
      pending := pending[id := ch];
    }

    method Unsubscribe(id: int)
      modifies this
      ensures pending == Unsubscribed(old(pending), id)
    {
      pending := map k | k in pending && k != id :: pending[k];
    }

    method Lookup(resp: Response) returns (ch: Option<CallerId>)
      ensures ch == Route(pending, resp)
    {
      match resp.id
      case NotANumber => ch := None;
      case Number(v) =>
        var id := Truncate(v);
        if id in pending { ch := Some(pending[id]); } else { ch := None; }
    }
  }

  // ----- the protocol -----

  datatype Outcome = Got(resp: Response) | PostFailed | TimedOut | Closed

  /** Where a roundTrip stands. It is subscribed while posting, waiting and leaving. */
  datatype Phase = Allocated | Posting | Waiting | Leaving(out: Outcome) | Gone(out: Outcome)

  datatype Caller = Caller(id: int, phase: Phase)

  predicate InWindow(c: Caller) {
    c.phase.Posting? || c.phase.Waiting? || c.phase.Leaving?
  }

  function Received(c: Caller): seq<Response> {
    if (c.phase.Leaving? || c.phase.Gone?) && c.phase.out.Got? then [c.phase.out.resp] else []
  }

  /** A connection. `base` ids were used up before it was made, by failed attempts on other transports.
      Its first `alone` calls are made one after the other, before the client is shared, each only when
      the one before was a success: initialize, and in fetchTools tools/list. `issued`, `seen`, `dropped`
      and `routed` are histories: who was given which id (id base + k + 1 went to issued[k]), all responses
      read, those that found no channel, and per caller those that found its channel. */
  datatype State = State(
    base: nat,
    alone: nat,
    issued: seq<CallerId>,
    callers: map<CallerId, Caller>,
    pending: map<int, CallerId>,
    channels: map<CallerId, seq<Response>>,
    reader: Option<(CallerId, Response)>,
    cancelled: bool,
    seen: seq<Response>,
    dropped: seq<Response>,
    routed: map<CallerId, seq<Response>>)

  function Initial(base: nat, alone: nat): State {
    State(base, alone, [], map[], map[], map[], None, false, [], [], map[])
  }

  /** Atomic steps: nextID, the mutex sections, channel operations, and the outside world. */
  datatype Step =
    | Allocate(c: CallerId)
    | Subscribe(c: CallerId)
    | PostReturns(c: CallerId, ok: bool)
    | Receive(c: CallerId)
    | Timeout(c: CallerId)
    | SeeClosed(c: CallerId)
    | Unsubscribe(c: CallerId)
    | Lookup(resp: Response)
    | Send
    | Cancel

  predicate At(s: State, c: CallerId, phase: Phase) {
    c in s.callers && s.callers[c].phase == phase
  }

  /** The k-th call of the connection has returned with a success. */
  predicate Done(s: State, k: nat)
    requires k < |s.issued|
  {
    && s.issued[k] in s.callers
    && var phase := s.callers[s.issued[k]].phase;
       phase.Gone? && phase.out.Got? && phase.out.resp.good
  }

  /** Nobody takes an id while one of the calls made alone is outstanding or has failed. */
  predicate MayCall(s: State) {
    forall k :: 0 <= k < |s.issued| && k < s.alone ==> Done(s, k)
  }

  predicate Enabled(s: State, e: Step) {
    match e
    case Allocate(c) => c !in s.callers && MayCall(s)
    case Subscribe(c) => At(s, c, Allocated)
    case PostReturns(c, _) => At(s, c, Posting)
    case Receive(c) => At(s, c, Waiting) && c in s.channels && s.channels[c] != []
    case Timeout(c) => At(s, c, Waiting)
    case SeeClosed(c) => At(s, c, Waiting) && s.cancelled
    case Unsubscribe(c) => c in s.callers && s.callers[c].phase.Leaving?
    case Lookup(_) => s.reader.None?
    case Send => s.reader.Some? && s.reader.value.0 in s.channels && |s.channels[s.reader.value.0]| < 1
    case Cancel => true
  }

  function Move(s: State, c: CallerId, phase: Phase): State
    requires c in s.callers
  {
    s.(callers := s.callers[c := s.callers[c].(phase := phase)])
  }

  function Dispatch(s: State, resp: Response): State {
    match Route(s.pending, resp)
    case None => s.(seen := s.seen + [resp], dropped := s.dropped + [resp])
    case Some(c) =>
      s.(seen := s.seen + [resp], reader := Some((c, resp)),
         routed := s.routed[c := (if c in s.routed then s.routed[c] else []) + [resp]])
  }

  function Enter(s: State, c: CallerId): State
    requires c in s.callers
  {
    Move(s, c, Posting).(pending := Subscribed(s.pending, s.callers[c].id, c))
  }

  function Leave(s: State, c: CallerId): State
    requires c in s.callers && s.callers[c].phase.Leaving?
  {
    Move(s, c, Gone(s.callers[c].phase.out)).(pending := Unsubscribed(s.pending, s.callers[c].id))
  }

  function Take(s: State, c: CallerId): State
    requires c in s.callers && c in s.channels && s.channels[c] != []
  {
    Move(s, c, Leaving(Got(s.channels[c][0]))).(channels := s.channels[c := s.channels[c][1..]])
  }

  function Deliver(s: State): State
    requires s.reader.Some? && s.reader.value.0 in s.channels
  {
    var (c, resp) := s.reader.value;
    s.(reader := None, channels := s.channels[c := s.channels[c] + [resp]])
  }

  function Apply(s: State, e: Step): State
    requires Enabled(s, e)
  {
    match e
    case Allocate(c) =>
      s.(issued := s.issued + [c], callers := s.callers[c := Caller(s.base + |s.issued| + 1, Allocated)],
         channels := s.channels[c := []], routed := s.routed[c := []])
    case Subscribe(c) => Enter(s, c)
    case PostReturns(c, ok) => Move(s, c, if ok then Waiting else Leaving(PostFailed))
    case Receive(c) => Take(s, c)
    case Timeout(c) => Move(s, c, Leaving(TimedOut))
    case SeeClosed(c) => Move(s, c, Leaving(Closed))
    case Unsubscribe(c) => Leave(s, c)
    case Lookup(resp) => Dispatch(s, resp)
    case Send => Deliver(s)
    case Cancel => s.(cancelled := true)
  }

  /** Some step leads from each state of a run to the next. */
  ghost predicate StepAt(states: seq<State>, i: nat)
    requires i + 1 < |states|
  {
    exists e :: Enabled(states[i], e) && states[i + 1] == Apply(states[i], e)
  }

  ghost predicate Run(states: seq<State>) {
    |states| > 0 && forall i :: 0 <= i < |states| - 1 ==> StepAt(states, i)
  }

  /** Some run begins in `from` and ends in `s`. */
  ghost predicate Leads(from: State, s: State) {
    exists states :: Run(states) && states[0] == from && states[|states| - 1] == s
  }

  ghost predicate Reached(s: State) {
    Leads(Initial(s.base, s.alone), s)
  }

  lemma StepFrom(states: seq<State>, i: nat) returns (e: Step)
    requires Run(states) && i + 1 < |states|
    ensures Enabled(states[i], e) && states[i + 1] == Apply(states[i], e)
  {
    hide Enabled, Apply;
    assert StepAt(states, i);
    e :| Enabled(states[i], e) && states[i + 1] == Apply(states[i], e);
  }

  function InHand(s: State, c: CallerId): seq<Response> {
    if s.reader.Some? && s.reader.value.0 == c then [s.reader.value.1] else []
  }

  /** How many of the calls made alone can have succeeded on these responses: each answer counts once
      the answers to all calls before it have been read. */
  function Progress(seen: seq<Response>, base: nat, alone: nat): (p: nat)
    ensures p <= alone
  {
    if seen == [] then 0
    else
      var n := |seen| - 1;
      var p := Progress(seen[..n], base, alone);
      if p < alone && IdOf(seen[n]) == Some(base + p + 1) && seen[n].good then p + 1 else p
  }

  /** By then the id may have been given out. */
  predicate Open(seen: seq<Response>, base: nat, alone: nat, id: int) {
    id - base - 1 <= Progress(seen, base, alone) || alone <= Progress(seen, base, alone)
  }

  /** The responses to an id that came when it may have been given out. */
  function Count(seen: seq<Response>, base: nat, alone: nat, id: int): nat {
    if seen == [] then 0
    else
      var n := |seen| - 1;
      Count(seen[..n], base, alone, id)
        + (if IdOf(seen[n]) == Some(id) && Open(seen[..n], base, alone, id) then 1 else 0)
  }

  // ----- the invariant -----

  ghost predicate Registered(s: State, c: CallerId)
    requires c in s.callers
  {
    var id := s.callers[c].id;
    && s.base < id <= s.base + |s.issued| && s.issued[id - s.base - 1] == c
    && c in s.channels && c in s.routed
    && (InWindow(s.callers[c]) ==> id in s.pending && s.pending[id] == c)
  }

  /** Every response routed to a caller was received by it, sits in its channel, or is in the reader's hand. */
  ghost predicate Accounted(s: State, c: CallerId)
    requires c in s.callers && c in s.channels && c in s.routed
  {
    && s.routed[c] == Received(s.callers[c]) + s.channels[c] + InHand(s, c)
    && |s.channels[c]| <= 1
    && (forall r :: r in s.routed[c] ==> IdOf(r) == Some(s.callers[c].id))
    && |s.routed[c]| <= Count(s.seen, s.base, s.alone, s.callers[c].id)
  }

  /** A success routed to a caller opens the next id. */
  ghost predicate Timely(s: State, c: CallerId)
    requires c in s.callers && c in s.routed
  {
    (exists r :: r in s.routed[c] && r.good) ==> Open(s.seen, s.base, s.alone, s.callers[c].id + 1)
  }

  /** Ids are given out in turn, and the last one only after the successes it takes. */
  ghost predicate InTurn(s: State) {
    && (forall k :: 0 <= k < |s.issued| ==> s.issued[k] in s.callers && s.callers[s.issued[k]].id == s.base + k + 1)
    && (s.issued != [] ==> Open(s.seen, s.base, s.alone, s.base + |s.issued|))
    && (forall c :: c in s.callers && c in s.routed ==> Timely(s, c))
  }

  /** A table entry belongs to a round trip between subscribe and unsubscribe. */
  ghost predicate EntryOk(s: State, id: int)
    requires id in s.pending
  {
    var c := s.pending[id];
    c in s.callers && s.callers[c].id == id && InWindow(s.callers[c])
  }

  ghost predicate Matching(s: State) {
    && (forall c :: c in s.callers ==> Registered(s, c) && Accounted(s, c))
    && (forall id :: id in s.pending ==> EntryOk(s, id))
    && (s.reader.Some? ==> s.reader.value.0 in s.callers)
  }

  ghost predicate Inv(s: State) {
    Matching(s) && InTurn(s)
  }

  /** What a step leaves alone for caller d. */
  ghost predicate Untouched(s: State, s': State, d: CallerId)
    requires d in s.callers && d in s.channels && d in s.routed
  {
    && d in s'.callers && s'.callers[d] == s.callers[d]
    && d in s'.channels && s'.channels[d] == s.channels[d]
    && d in s'.routed && s'.routed[d] == s.routed[d]
    && InHand(s', d) == InHand(s, d)
    && s'.seen == s.seen && s.issued <= s'.issued && s'.base == s.base && s'.alone == s.alone
    && (InWindow(s.callers[d]) && s.callers[d].id in s.pending && s.pending[s.callers[d].id] == d ==>
          s.callers[d].id in s'.pending && s'.pending[s.callers[d].id] == d)
  }

  lemma UntouchedKeeps(s: State, s': State, d: CallerId)
    requires d in s.callers && Registered(s, d) && Accounted(s, d) && Untouched(s, s', d)
    ensures Registered(s', d) && Accounted(s', d)
  {
  }

  /** All invariants after a step that touches caller c alone. */
  lemma OnlyTouches(s: State, s': State, c: CallerId)
    requires Matching(s) && c in s'.callers
    requires s'.callers.Keys == s.callers.Keys + {c}
    requires forall d :: d in s.callers && d != c && d in s.channels && d in s.routed ==> Untouched(s, s', d)
    requires Registered(s', c) && Accounted(s', c)
    requires s'.reader.Some? ==> s'.reader.value.0 in s'.callers
    requires forall id :: id in s'.pending ==> EntryOk(s', id)
    ensures Matching(s')
  {
    hide Untouched;
    forall d | d in s'.callers ensures Registered(s', d) && Accounted(s', d) {
      if d != c {
        assert Registered(s, d) && Accounted(s, d);
        UntouchedKeeps(s, s', d);
      }
    }
  }

  lemma MoveKeeps(s: State, c: CallerId, phase: Phase)
    requires Matching(s) && c in s.callers
    requires InWindow(s.callers[c]) && InWindow(Caller(s.callers[c].id, phase))
    requires Received(Caller(s.callers[c].id, phase)) == Received(s.callers[c])
    ensures Matching(Move(s, c, phase))
  {
    hide IdOf, Count, Progress;
    var s' := Move(s, c, phase);
    assert Registered(s, c) && Accounted(s, c);
    forall id | id in s'.pending ensures EntryOk(s', id) { assert EntryOk(s, id); }
    OnlyTouches(s, s', c);
  }

  lemma AllocateKeeps(s: State, c: CallerId)
    requires Matching(s) && Enabled(s, Allocate(c))
    ensures Matching(Apply(s, Allocate(c)))
  {
    var s' := Apply(s, Allocate(c));
    hide IdOf, Count, Progress, MayCall;
    forall id | id in s'.pending ensures EntryOk(s', id) { assert EntryOk(s, id); }
    OnlyTouches(s, s', c);
  }

  lemma IdNotPending(s: State, c: CallerId)
    requires Matching(s) && At(s, c, Allocated)
    ensures s.callers[c].id !in s.pending
  {
    hide IdOf, Count, Progress, Accounted;
    var id := s.callers[c].id;
    assert Registered(s, c);
    assert id in s.pending ==> EntryOk(s, id) && Registered(s, s.pending[id]);
  }

  lemma EntriesAfterEnter(s: State, c: CallerId)
    requires Matching(s) && At(s, c, Allocated) && s.callers[c].id !in s.pending
    ensures forall i :: i in Enter(s, c).pending ==> EntryOk(Enter(s, c), i)
  {
    hide IdOf, Count, Progress, Accounted, Registered;
    var s' := Enter(s, c);
    forall i | i in s'.pending ensures EntryOk(s', i) { if i != s.callers[c].id { assert EntryOk(s, i); } }
  }

  lemma EnteredCaller(s: State, c: CallerId)
    requires At(s, c, Allocated) && Registered(s, c) && Accounted(s, c)
    ensures Registered(Enter(s, c), c) && Accounted(Enter(s, c), c)
  {
    hide IdOf, Count, Progress;
  }

  lemma SubscribeKeeps(s: State, c: CallerId)
    requires Matching(s) && At(s, c, Allocated)
    ensures s.callers[c].id !in s.pending
    ensures Matching(Enter(s, c))
  {
    IdNotPending(s, c);
    EntriesAfterEnter(s, c);
    MatchingCaller(s, c);
    EnteredCaller(s, c);
    hide IdOf, Count, Progress, EntryOk, Registered, Accounted, Matching;
    OnlyTouches(s, Enter(s, c), c);
  }

  lemma TakenCaller(s: State, c: CallerId)
    requires At(s, c, Waiting) && Registered(s, c) && Accounted(s, c) && s.channels[c] != []
    ensures Registered(Take(s, c), c) && Accounted(Take(s, c), c)
  {
    hide IdOf, Count, Progress;
    assert s.channels[c] == [s.channels[c][0]] && s.channels[c][1..] == [];
  }

  lemma EntriesAfterTake(s: State, c: CallerId)
    requires Matching(s) && At(s, c, Waiting) && c in s.channels && s.channels[c] != []
    ensures forall id :: id in Take(s, c).pending ==> EntryOk(Take(s, c), id)
  {
    hide IdOf, Count, Progress, Accounted, Registered;
    var s' := Take(s, c);
    forall id | id in s'.pending ensures EntryOk(s', id) { assert EntryOk(s, id); }
  }

  lemma ReceiveKeeps(s: State, c: CallerId)
    requires Matching(s) && At(s, c, Waiting) && c in s.channels && s.channels[c] != []
    ensures Matching(Take(s, c))
  {
    MatchingCaller(s, c);
    TakenCaller(s, c);
    EntriesAfterTake(s, c);
    hide IdOf, Count, Progress, EntryOk, Registered, Accounted;
    OnlyTouches(s, Take(s, c), c);
  }

  lemma EntriesAfterLeave(s: State, c: CallerId)
    requires Matching(s) && c in s.callers && s.callers[c].phase.Leaving?
    ensures forall id :: id in Leave(s, c).pending ==> EntryOk(Leave(s, c), id)
  {
    hide IdOf, Count, Progress, Accounted;
    var s' := Leave(s, c);
    forall id | id in s'.pending ensures EntryOk(s', id) { assert EntryOk(s, id); }
  }

  lemma LeftCaller(s: State, c: CallerId)
    requires c in s.callers && s.callers[c].phase.Leaving? && Registered(s, c) && Accounted(s, c)
    ensures Registered(Leave(s, c), c) && Accounted(Leave(s, c), c)
  {
    hide IdOf, Count, Progress;
  }

  lemma UnsubscribeKeeps(s: State, c: CallerId)
    requires Matching(s) && c in s.callers && s.callers[c].phase.Leaving?
    ensures Matching(Leave(s, c))
  {
    var s' := Leave(s, c);
    MatchingCaller(s, c);
    EntriesAfterLeave(s, c);
    LeftCaller(s, c);
    hide IdOf, Count, Progress, EntryOk, Registered, Accounted;
    OnlyTouches(s, s', c);
  }

  lemma SeenMore(seen: seq<Response>, base: nat, alone: nat, resp: Response, id: int)
    ensures Count(seen + [resp], base, alone, id)
      == Count(seen, base, alone, id) + (if IdOf(resp) == Some(id) && Open(seen, base, alone, id) then 1 else 0)
    ensures Open(seen, base, alone, id) ==> Open(seen + [resp], base, alone, id)
    ensures Open(seen, base, alone, id) && IdOf(resp) == Some(id) && resp.good ==>
      Open(seen + [resp], base, alone, id + 1)
  {
    assert (seen + [resp])[..|seen|] == seen;
  }

  lemma AccountedMore(s: State, resp: Response, d: CallerId)
    requires d in s.callers && Registered(s, d) && Accounted(s, d) && s.reader.None?
    requires Open(s.seen, s.base, s.alone, s.callers[d].id)
    requires Route(s.pending, resp) == Some(d) ==> IdOf(resp) == Some(s.callers[d].id)
    ensures var s' := Dispatch(s, resp); d in s'.channels && d in s'.routed && Accounted(s', d)
  {
    SeenMore(s.seen, s.base, s.alone, resp, s.callers[d].id);
    var s' := Dispatch(s, resp);
    hide IdOf, Count, Progress, Open;
    if Route(s.pending, resp) == Some(d) {
      assert s'.routed[d] == s.routed[d] + [resp] && InHand(s', d) == [resp] && InHand(s, d) == [];
      assert s.routed[d] == Received(s.callers[d]) + s.channels[d];
    }
  }

  lemma IssuedIsOpen(s: State, d: CallerId)
    requires InTurn(s) && d in s.callers && Registered(s, d)
    ensures Open(s.seen, s.base, s.alone, s.callers[d].id)
  {
    hide Progress;
  }

  lemma EntriesAfterLookup(s: State, resp: Response)
    requires Matching(s)
    ensures forall id :: id in Dispatch(s, resp).pending ==> EntryOk(Dispatch(s, resp), id)
  {
    hide IdOf, Route, Accounted, Registered;
    var s' := Dispatch(s, resp);
    assert s'.pending == s.pending && s'.callers == s.callers;
    forall id | id in s'.pending ensures EntryOk(s', id) { assert EntryOk(s, id); }
  }

  lemma RoutedToOwner(s: State, resp: Response)
    requires Matching(s)
    ensures var to := Route(s.pending, resp);
      to.Some? ==> to.value in s.callers && IdOf(resp) == Some(s.callers[to.value].id)
  {
    hide Accounted, Registered;
    assert Route(s.pending, resp).Some? ==> EntryOk(s, IdOf(resp).value);
  }

  lemma RegisteredAfterLookup(s: State, resp: Response, d: CallerId)
    requires d in s.callers && Registered(s, d)
    ensures d in Dispatch(s, resp).callers && Registered(Dispatch(s, resp), d)
  {
    hide IdOf, Route;
  }

  ghost predicate CallerOk(s: State, c: CallerId) {
    c in s.callers && Registered(s, c) && Accounted(s, c)
  }

  lemma AllMatching(s: State)
    requires forall c :: c in s.callers ==> CallerOk(s, c)
    requires forall id :: id in s.pending ==> EntryOk(s, id)
    requires s.reader.Some? ==> s.reader.value.0 in s.callers
    ensures Matching(s)
  {
    hide EntryOk, Registered, Accounted;
  }

  lemma LookupKeeps(s: State, resp: Response)
    requires Inv(s) && Enabled(s, Lookup(resp))
    ensures Matching(Dispatch(s, resp))
  {
    assert Matching(s);
    EntriesAfterLookup(s, resp);
    RoutedToOwner(s, resp);
    hide IdOf, Route, Inv, EntryOk, CallerOk, Matching;
    forall d | d in s.callers ensures CallerOk(Dispatch(s, resp), d) { CallerOkAfterLookup(s, resp, d); }
    AllMatching(Dispatch(s, resp));
  }

  lemma MatchingCaller(s: State, c: CallerId)
    requires Matching(s) && c in s.callers
    ensures CallerOk(s, c) && c in s.channels && c in s.routed
  {
    hide Accounted, EntryOk;
    assert Registered(s, c);
  }

  lemma CallerOkAfterLookup(s: State, resp: Response, d: CallerId)
    requires Inv(s) && s.reader.None? && d in s.callers
    ensures CallerOk(Dispatch(s, resp), d)
  {
    hide Matching, InTurn, Route, IdOf, Registered, Accounted;
    MatchingCaller(s, d);
    RoutedToOwner(s, resp);
    IssuedIsOpen(s, d);
    RegisteredAfterLookup(s, resp, d);
    AccountedMore(s, resp, d);
  }

  lemma DeliveredAccounted(s: State, c: CallerId)
    requires c in s.callers && Registered(s, c) && Accounted(s, c) && s.reader.Some? && s.reader.value.0 == c
      && s.channels[c] == []
    ensures Registered(Deliver(s), c) && Accounted(Deliver(s), c)
  {
    hide IdOf, Count, Progress;
    assert s.channels[c] + [s.reader.value.1] == [s.reader.value.1];
    assert Received(s.callers[c]) + [] + [s.reader.value.1] == Received(s.callers[c]) + [s.reader.value.1] + [];
  }

  lemma SendKeeps(s: State)
    requires Matching(s) && s.reader.Some? && s.reader.value.0 in s.channels && s.channels[s.reader.value.0] == []
    ensures Matching(Deliver(s))
  {
    var s' := Deliver(s);
    var c := s.reader.value.0;
    assert Registered(s, c) && Accounted(s, c);
    DeliveredAccounted(s, c);
    hide IdOf, Count, Progress, Accounted, Registered;
    forall id | id in s'.pending ensures EntryOk(s', id) { assert EntryOk(s, id); }
    OnlyTouches(s, s', c);
  }

  lemma CancelKeeps(s: State)
    requires Matching(s)
    ensures Matching(s.(cancelled := true))
  {
    hide IdOf, Count, Progress;
    var s' := s.(cancelled := true);
    forall d | d in s'.callers ensures Registered(s', d) && Accounted(s', d) {
      assert Registered(s, d) && Accounted(s, d);
    }
    forall id | id in s'.pending ensures EntryOk(s', id) { assert EntryOk(s, id); }
  }

  // ----- in turn -----

  /** The steps that give out no id keep the ids as they are. */
  lemma TurnStays(s: State, s': State)
    requires InTurn(s) && s'.issued == s.issued && s'.base == s.base && s'.alone == s.alone && s'.seen == s.seen
    requires s'.routed == s.routed && s'.callers.Keys == s.callers.Keys
    requires forall c :: c in s.callers ==> s'.callers[c].id == s.callers[c].id
    ensures InTurn(s')
  {
    hide Open;
    forall c | c in s'.callers && c in s'.routed ensures Timely(s', c) { assert Timely(s, c); }
  }

  /** When an id may be taken, the successes it takes have been read. */
  lemma NextIsOpen(s: State)
    requires Inv(s) && MayCall(s)
    ensures Open(s.seen, s.base, s.alone, s.base + |s.issued| + 1)
  {
    hide IdOf, Count, Progress;
    if 0 < |s.issued| <= s.alone {
      var k := |s.issued| - 1;
      var c := s.issued[k];
      assert Done(s, k) && Registered(s, c) && Accounted(s, c);
      assert s.routed[c][0] == s.callers[c].phase.out.resp && s.routed[c][0] in s.routed[c];
      assert Timely(s, c);
    }
  }

  lemma AllocateInTurn(s: State, c: CallerId)
    requires Inv(s) && Enabled(s, Allocate(c))
    ensures InTurn(Apply(s, Allocate(c)))
  {
    var s' := Apply(s, Allocate(c));
    NextIsOpen(s);
    hide IdOf, Count, Progress, Open, MayCall, Accounted;
    forall d | d in s'.callers && d in s'.routed ensures Timely(s', d) {
      if d != c { assert Registered(s, d) && Timely(s, d); }
    }
  }

  lemma TimelyAfterLookup(s: State, resp: Response, d: CallerId)
    requires d in s.callers && d in s.routed && Timely(s, d) && Open(s.seen, s.base, s.alone, s.callers[d].id)
    requires Route(s.pending, resp) == Some(d) ==> IdOf(resp) == Some(s.callers[d].id)
    ensures d in Dispatch(s, resp).routed && Timely(Dispatch(s, resp), d)
  {
    SeenMore(s.seen, s.base, s.alone, resp, s.callers[d].id);
    SeenMore(s.seen, s.base, s.alone, resp, s.callers[d].id + 1);
    hide IdOf, Count, Progress, Open;
  }

  lemma TurnAfterLookup(s: State, resp: Response)
    requires Inv(s) && s.reader.None?
    ensures InTurn(Dispatch(s, resp))
  {
    SeenMore(s.seen, s.base, s.alone, resp, s.base + |s.issued|);
    var s' := Dispatch(s, resp);
    var to := Route(s.pending, resp);
    assert to.Some? ==> EntryOk(s, IdOf(resp).value);
    hide Open, Count, Progress, Route, IdOf, Accounted;
    forall d | d in s'.callers && d in s'.routed ensures Timely(s', d) {
      assert Registered(s, d) && Timely(s, d);
      IssuedIsOpen(s, d);
      TimelyAfterLookup(s, resp, d);
    }
  }

  lemma TurnKeeps(s: State, e: Step)
    requires Inv(s) && Enabled(s, e)
    ensures InTurn(Apply(s, e))
  {
    match e
    case Allocate(c) => AllocateInTurn(s, c);
    case Lookup(resp) => TurnAfterLookup(s, resp);
    case _ =>
      hide Inv, Enabled, Apply, InTurn;
      QuietSteps(s, e);
      TurnStays(s, Apply(s, e));
  }

  lemma QuietSteps(s: State, e: Step)
    requires Enabled(s, e) && !e.Allocate? && !e.Lookup?
    ensures var s' := Apply(s, e);
      && s'.issued == s.issued && s'.base == s.base && s'.alone == s.alone && s'.seen == s.seen
      && s'.routed == s.routed && s'.callers.Keys == s.callers.Keys
      && forall c :: c in s.callers ==> s'.callers[c].id == s.callers[c].id
  {
    hide IdOf;
  }

  lemma StepKeeps(s: State, e: Step)
    requires Inv(s) && Enabled(s, e)
    ensures Inv(Apply(s, e))
  {
    hide Matching, InTurn;
    TurnKeeps(s, e);
    match e
    case Allocate(c) => AllocateKeeps(s, c);
    case Subscribe(c) => SubscribeKeeps(s, c);
    case PostReturns(c, ok) => MoveKeeps(s, c, if ok then Waiting else Leaving(PostFailed));
    case Receive(c) => ReceiveKeeps(s, c);
    case Timeout(c) => MoveKeeps(s, c, Leaving(TimedOut));
    case SeeClosed(c) => MoveKeeps(s, c, Leaving(Closed));
    case Unsubscribe(c) => UnsubscribeKeeps(s, c);
    case Lookup(resp) => LookupKeeps(s, resp);
    case Send => SendKeeps(s);
    case Cancel => CancelKeeps(s);
  }

  lemma {:induction false} RunInv(states: seq<State>, n: nat)
    requires Run(states) && Inv(states[0]) && n < |states|
    ensures Inv(states[n])
  {
    hide Inv, Enabled, Apply, Run;
    if n > 0 {
      RunInv(states, n - 1);
      var e := StepFrom(states, n - 1);
      StepKeeps(states[n - 1], e);
    }
  }

  lemma StartInv(base: nat, alone: nat)
    ensures Inv(Initial(base, alone))
  {
  }

  /** Every reachable state satisfies the invariant. */
  lemma ReachedInv(s: State)
    requires Reached(s)
    ensures Inv(s)
  {
    StartInv(s.base, s.alone);
    hide Inv, StepAt, Initial;
    var states :| Run(states) && states[0] == Initial(s.base, s.alone) && states[|states| - 1] == s;
    RunInv(states, |states| - 1);
  }

  // ----- what decides a round trip -----

  /** A run together with the steps that it took. */
  ghost predicate Trace(steps: seq<Step>, states: seq<State>) {
    && |states| == |steps| + 1 && states[0] == Initial(states[0].base, states[0].alone)
    && forall i :: 0 <= i < |steps| ==> Enabled(states[i], steps[i]) && states[i + 1] == Apply(states[i], steps[i])
  }

  predicate Ended(phase: Phase, out: Outcome) {
    phase == Leaving(out) || phase == Gone(out)
  }

  predicate EndedWithResponse(phase: Phase) {
    (phase.Leaving? || phase.Gone?) && phase.out.Got?
  }

  ghost function Happened(steps: seq<Step>, n: nat): (past: set<Step>)
    requires n <= |steps|
    ensures forall e :: e in past <==> e in steps[..n]
  {
    set e | e in steps[..n]
  }

  /** What has happened to caller c, event by event. */
  ghost predicate Fate(past: set<Step>, phase: Phase, c: CallerId) {
    && (PostReturns(c, false) in past <==> Ended(phase, PostFailed))
    && (PostReturns(c, true) in past <==> !phase.Allocated? && !phase.Posting? && !Ended(phase, PostFailed))
    && (Receive(c) in past <==> EndedWithResponse(phase))
    && (Timeout(c) in past <==> Ended(phase, TimedOut))
    && (SeeClosed(c) in past <==> Ended(phase, Closed))
    && (Unsubscribe(c) in past <==> phase.Gone?)
  }

  /** A caller without an id has not started. */
  function PhaseOf(s: State, c: CallerId): Phase {
    if c in s.callers then s.callers[c].phase else Allocated
  }

  lemma FateGoesOn(past: set<Step>, s: State, e: Step, c: CallerId)
    requires Fate(past, PhaseOf(s, c), c) && Enabled(s, e)
    ensures Fate(past + {e}, PhaseOf(Apply(s, e), c), c)
  {
    hide Enabled, Apply, Fate, PhaseOf;
    if IsOf(e, c) { OwnEvent(past, s, e, c); } else { OthersEvent(past, s, e, c); }
  }

  /** The steps in which caller c acts. */
  predicate IsOf(e: Step, c: CallerId) {
    !e.Lookup? && !e.Send? && !e.Cancel? && e.c == c
  }

  /** How a caller's own step moves it on. */
  predicate Moves(e: Step, before: Phase, after: Phase) {
    match e
    case Allocate(_) => before == after == Allocated
    case Subscribe(_) => before.Allocated? && after.Posting?
    case PostReturns(_, ok) => before.Posting? && (if ok then after.Waiting? else after == Leaving(PostFailed))
    case Receive(_) => before.Waiting? && after.Leaving? && after.out.Got?
    case Timeout(_) => before.Waiting? && after == Leaving(TimedOut)
    case SeeClosed(_) => before.Waiting? && after == Leaving(Closed)
    case Unsubscribe(_) => before.Leaving? && after == Gone(before.out)
    case _ => false
  }

  lemma OwnMoves(s: State, e: Step, c: CallerId)
    requires Enabled(s, e) && IsOf(e, c)
    ensures Moves(e, PhaseOf(s, c), PhaseOf(Apply(s, e), c))
  {
    hide IdOf, Route, MayCall, Subscribed, Unsubscribed;
  }

  lemma OwnEvent(past: set<Step>, s: State, e: Step, c: CallerId)
    requires Fate(past, PhaseOf(s, c), c) && Enabled(s, e) && IsOf(e, c)
    ensures Fate(past + {e}, PhaseOf(Apply(s, e), c), c)
  {
    OwnMoves(s, e, c);
    hide Enabled, Apply, PhaseOf;
  }

  lemma OthersEvent(past: set<Step>, s: State, e: Step, c: CallerId)
    requires Fate(past, PhaseOf(s, c), c) && Enabled(s, e) && !IsOf(e, c)
    ensures Fate(past + {e}, PhaseOf(Apply(s, e), c), c)
  {
    var s' := Apply(s, e);
    assert PhaseOf(s', c) == PhaseOf(s, c) by { hide IdOf, Route, MayCall, Subscribed, Unsubscribed, Fate; }
    hide Enabled, Apply, PhaseOf;
  }

  lemma {:induction false} FateAt(steps: seq<Step>, states: seq<State>, n: nat, c: CallerId)
    requires Trace(steps, states) && n <= |steps|
    ensures Fate(Happened(steps, n), PhaseOf(states[n], c), c)
    ensures states[n].cancelled <==> Cancel in Happened(steps, n)
  {
    hide Enabled, Apply, Fate, PhaseOf;
    if n == 0 {
      NothingYet(states[0], c);
      assert Happened(steps, 0) == {};
    } else {
      FateAt(steps, states, n - 1, c);
      var e := steps[n - 1];
      assert Enabled(states[n - 1], e) && states[n] == Apply(states[n - 1], e);
      FateGoesOn(Happened(steps, n - 1), states[n - 1], e, c);
      CancelledBy(states[n - 1], e);
      assert Happened(steps, n) == Happened(steps, n - 1) + {e};
    }
  }

  lemma NothingYet(s: State, c: CallerId)
    requires s == Initial(s.base, s.alone)
    ensures Fate({}, PhaseOf(s, c), c) && !s.cancelled
  {
  }

  lemma CancelledBy(s: State, e: Step)
    requires Enabled(s, e)
    ensures Apply(s, e).cancelled <==> s.cancelled || e == Cancel
  {
    hide IdOf, Route;
  }

  /** After any number of steps, a round trip stands where the events say: it ended in PostFailed exactly
      when its POST failed, it waits or ended otherwise exactly when its POST was accepted, and how it ended
      is what it saw first: its response, the timeout, or the end of the connection. */
  lemma FateIsExact(steps: seq<Step>, states: seq<State>, n: nat, c: CallerId)
    requires Trace(steps, states) && n <= |steps| && c in states[n].callers
    ensures var past, phase := steps[..n], states[n].callers[c].phase;
      && (PostReturns(c, false) in past <==> phase == Leaving(PostFailed) || phase == Gone(PostFailed))
      && (PostReturns(c, true) in past <==>
            || phase == Waiting
            || ((phase.Leaving? || phase.Gone?) && (phase.out.Got? || phase.out == TimedOut || phase.out == Closed)))
      && (Timeout(c) in past <==> phase == Leaving(TimedOut) || phase == Gone(TimedOut))
      && (SeeClosed(c) in past <==> phase == Leaving(Closed) || phase == Gone(Closed))
      && (Receive(c) in past <==> (phase.Leaving? || phase.Gone?) && phase.out.Got?)
  {
    FateAt(steps, states, n, c);
    hide Trace;
  }

  /** A round trip gives up only while it waits, for a closed connection only after that was cancelled; and
      it takes the response that is first in its channel. */
  lemma EndsAreTimely(steps: seq<Step>, states: seq<State>, i: nat, c: CallerId)
    requires Trace(steps, states) && i < |steps|
    requires steps[i] == Timeout(c) || steps[i] == SeeClosed(c) || steps[i] == Receive(c)
    ensures PostReturns(c, true) in steps[..i] && !(PostReturns(c, false) in steps[..i])
    ensures steps[i] == SeeClosed(c) ==> Cancel in steps[..i]
    ensures steps[i] == Receive(c) ==>
      && c in states[i].channels && states[i].channels[c] != [] && c in states[i + 1].callers
      && states[i + 1].callers[c].phase == Leaving(Got(states[i].channels[c][0]))
  {
    FateAt(steps, states, i, c);
    assert Enabled(states[i], steps[i]) && states[i + 1] == Apply(states[i], steps[i]);
    hide Trace;
  }

  /** Every reachable state is the end of such a run. */
  lemma ReachedByTrace(s: State) returns (steps: seq<Step>, states: seq<State>)
    requires Reached(s)
    ensures Trace(steps, states) && states[|steps|] == s
  {
    states :| Run(states) && states[0] == Initial(s.base, s.alone) && states[|states| - 1] == s;
    hide Enabled, Apply, StepAt;
    steps := [];
    while |steps| < |states| - 1
      invariant |steps| <= |states| - 1
      invariant forall i :: 0 <= i < |steps| ==>
        Enabled(states[i], steps[i]) && states[i + 1] == Apply(states[i], steps[i])
    {
      var e := StepFrom(states, |steps|);
      steps := steps + [e];
    }
  }

  // ----- what follows, for every run -----

  /** The keys of the table are exactly the ids of the round trips between subscribe and unsubscribe. */
  lemma PendingExactly(s: State, id: int)
    requires Reached(s)
    ensures id in s.pending <==> exists c :: c in s.callers && InWindow(s.callers[c]) && s.callers[c].id == id
  {
    hide Reached;
    ReachedInv(s);
    if id in s.pending { assert EntryOk(s, id); }
    if c :| c in s.callers && InWindow(s.callers[c]) && s.callers[c].id == id { assert Registered(s, c); }
  }

  /** No two round trips on the connection ever carry the same id. */
  lemma IdsAreUnique(s: State, c: CallerId, d: CallerId)
    requires Reached(s) && c in s.callers && d in s.callers && c != d
    ensures s.callers[c].id != s.callers[d].id
  {
    hide Reached;
    ReachedInv(s);
    assert Registered(s, c) && Registered(s, d);
  }

  /** A caller that got a response got one whose id, cut off to an integer, is its own; and the response
      carries exactly the caller's id when that id was an integer to begin with. */
  lemma OwnResponse(s: State, c: CallerId)
    requires Reached(s) && c in s.callers && Received(s.callers[c]) != []
    ensures var resp := Received(s.callers[c])[0];
      && IdOf(resp) == Some(s.callers[c].id) && resp.id.Number?
      && (resp.id.value == s.callers[c].id as real <==> Integral(resp.id.value))
  {
    ReachedInv(s);
    hide Reached, Inv, Integral;
    ReceivedOwn(s, c);
    CutOff(Received(s.callers[c])[0].id.value);
  }

  lemma ReceivedOwn(s: State, c: CallerId)
    requires Inv(s) && c in s.callers && Received(s.callers[c]) != []
    ensures IdOf(Received(s.callers[c])[0]) == Some(s.callers[c].id) && s.callers[c].id > 0
  {
    hide IdOf, Count, Progress;
    assert Registered(s, c) && Accounted(s, c);
    assert Received(s.callers[c])[0] == s.routed[c][0];
    assert s.routed[c][0] in s.routed[c];
  }

  /** Subscribing never overwrites a live entry. */
  lemma SubscribeIsFresh(s: State, c: CallerId)
    requires Reached(s) && Enabled(s, Subscribe(c))
    ensures s.callers[c].id !in s.pending
  {
    hide Reached;
    ReachedInv(s);
    IdNotPending(s, c);
  }

  /** A response is dropped exactly when no round trip with its id is between subscribe and
      unsubscribe; otherwise it is routed to that one. */
  lemma DroppedExactly(s: State, resp: Response)
    requires Reached(s) && Enabled(s, Lookup(resp))
    ensures var s' := Apply(s, Lookup(resp));
      && (s'.dropped == s.dropped + [resp] <==>
            !exists c :: c in s.callers && InWindow(s.callers[c]) && IdOf(resp) == Some(s.callers[c].id))
      && (forall c :: c in s.callers && InWindow(s.callers[c]) && IdOf(resp) == Some(s.callers[c].id) ==>
            && s'.dropped == s.dropped
            && c in s.routed && c in s'.routed && s'.routed[c] == s.routed[c] + [resp])
  {
    if IdOf(resp).Some? { PendingExactly(s, IdOf(resp).value); }
    hide Reached;
    ReachedInv(s);
    assert s.dropped != s.dropped + [resp];
    forall c | c in s.callers && InWindow(s.callers[c]) && IdOf(resp) == Some(s.callers[c].id)
      ensures c in s.routed && Route(s.pending, resp) == Some(c)
    {
      assert Registered(s, c);
    }
  }

  lemma RoutedGrows(s: State, e: Step, c: CallerId)
    requires Inv(s) && Enabled(s, e) && c in s.callers
    ensures var s' := Apply(s, e);
      c in s'.callers && s'.callers[c].id == s.callers[c].id
      && c in s.routed && c in s'.routed && s.routed[c] <= s'.routed[c]
  {
    hide IdOf, Accounted, EntryOk, Route;
    assert Registered(s, c);
  }

  lemma HasRoutes(s: State, c: CallerId)
    requires Inv(s) && c in s.callers
    ensures c in s.channels && c in s.routed
  {
    assert Registered(s, c);
  }

  /** What was routed to a caller stays routed to it. */
  lemma {:induction false} RoutedStays(states: seq<State>, n: nat, c: CallerId)
    requires Run(states) && Inv(states[0]) && c in states[0].callers && n < |states|
    ensures Inv(states[n]) && c in states[n].callers && c in states[0].routed && c in states[n].routed
    ensures states[0].routed[c] <= states[n].routed[c]
  {
    hide Run, Inv, Enabled, Apply;
    HasRoutes(states[0], c);
    RunInv(states, n);
    if n > 0 {
      var e := StepFrom(states, n - 1);
      RoutedStays(states, n - 1, c);
      RoutedGrows(states[n - 1], e, c);
    }
  }

  lemma RoutedIsSomewhere(s: State, c: CallerId, resp: Response)
    requires Inv(s) && c in s.callers && c in s.routed && resp in s.routed[c]
    ensures c in s.channels && (resp in InHand(s, c) || resp in s.channels[c] || resp in Received(s.callers[c]))
  {
    hide IdOf, Count, Progress;
    assert Registered(s, c) && Accounted(s, c);
  }

  lemma RoutedNow(s: State, resp: Response, c: CallerId)
    requires Reached(s) && Enabled(s, Lookup(resp))
    requires c in s.callers && InWindow(s.callers[c]) && IdOf(resp) == Some(s.callers[c].id)
    ensures var s' := Apply(s, Lookup(resp)); Inv(s') && c in s'.callers && c in s'.routed && resp in s'.routed[c]
  {
    hide IdOf, Inv, Route;
    ReachedInv(s);
    DroppedExactly(s, resp);
    hide Reached;
    StepKeeps(s, Lookup(resp));
    assert Apply(s, Lookup(resp)).routed[c][|s.routed[c]|] == resp;
  }

  lemma RoutedLater(from: State, later: State, c: CallerId, resp: Response)
    requires Inv(from) && Leads(from, later) && c in from.callers && c in from.routed && resp in from.routed[c]
    ensures Inv(later) && c in later.callers && c in later.routed && resp in later.routed[c]
  {
    hide IdOf, StepAt, Inv;
    var states :| Run(states) && states[0] == from && states[|states| - 1] == later;
    hide Run;
    RoutedStays(states, |states| - 1, c);
    var i :| 0 <= i < |from.routed[c]| && from.routed[c][i] == resp;
    assert later.routed[c][i] == resp;
  }

  /** So a response that arrives while its caller is subscribed is, at every later time, in the
      reader's hand, in the caller's channel, or received by the caller. */
  lemma NeverLost(s: State, resp: Response, c: CallerId, later: State)
    requires Reached(s) && Enabled(s, Lookup(resp)) && Leads(Apply(s, Lookup(resp)), later)
    requires c in s.callers && InWindow(s.callers[c]) && IdOf(resp) == Some(s.callers[c].id)
    ensures c in later.callers && c in later.channels
    ensures resp in InHand(later, c) || resp in later.channels[c] || resp in Received(later.callers[c])
  {
    hide IdOf, Leads, Inv, Enabled, Apply;
    RoutedNow(s, resp, c);
    RoutedLater(Apply(s, Lookup(resp)), later, c, resp);
    RoutedIsSomewhere(later, c, resp);
  }

  /** The server answers some id of this connection twice, the first time when the id may have been given
      out. Ids up to `base` are none of its. */
  ghost predicate AnsweredTwice(seen: seq<Response>, base: nat, alone: nat) {
    exists i, j :: 0 <= i < j < |seen| && Answers(seen, base, alone, i) && IdOf(seen[j]) == IdOf(seen[i])
  }

  /** Response i is the first one that its request may get. */
  ghost predicate Answers(seen: seq<Response>, base: nat, alone: nat, i: nat)
    requires i < |seen|
  {
    IdOf(seen[i]).Some? && IdOf(seen[i]).value > base && Open(seen[..i], base, alone, IdOf(seen[i]).value)
  }

  lemma {:induction false} CountedOnce(seen: seq<Response>, base: nat, alone: nat, id: int) returns (i: nat)
    requires Count(seen, base, alone, id) >= 1 && id > base
    ensures i < |seen| && IdOf(seen[i]) == Some(id) && Answers(seen, base, alone, i)
  {
    hide IdOf, Open;
    var n := |seen| - 1;
    if IdOf(seen[n]) == Some(id) && Open(seen[..n], base, alone, id) {
      i := n;
    } else {
      i := CountedOnce(seen[..n], base, alone, id);
      assert seen[..n][..i] == seen[..i];
    }
  }

  lemma {:induction false} CountedTwice(seen: seq<Response>, base: nat, alone: nat, id: int)
    requires Count(seen, base, alone, id) >= 2 && id > base
    ensures AnsweredTwice(seen, base, alone)
  {
    hide IdOf, Open;
    var n := |seen| - 1;
    if IdOf(seen[n]) == Some(id) && Open(seen[..n], base, alone, id) {
      var i := CountedOnce(seen[..n], base, alone, id);
      assert seen[..n][..i] == seen[..i];
    } else {
      CountedTwice(seen[..n], base, alone, id);
      TwiceStays(seen[..n], seen, base, alone);
    }
  }

  lemma TwiceStays(a: seq<Response>, b: seq<Response>, base: nat, alone: nat)
    requires a <= b && AnsweredTwice(a, base, alone)
    ensures AnsweredTwice(b, base, alone)
  {
    hide IdOf, Open;
    var i, j :| 0 <= i < j < |a| && Answers(a, base, alone, i) && IdOf(a[j]) == IdOf(a[i]);
    assert b[i] == a[i] && b[j] == a[j] && b[..i] == a[..i];
    assert Answers(b, base, alone, i);
  }

  /** For a connection whose client is shared after initialize: the answer that counts is one to
      initialize, or comes after a successful one. */
  lemma AfterInitialize(seen: seq<Response>, base: nat, i: nat)
    requires i < |seen| && IdOf(seen[i]).Some? && IdOf(seen[i]).value > base
    ensures Answers(seen, base, 1, i) <==>
      IdOf(seen[i]).value == base + 1 || exists k: nat :: k < i && IdOf(seen[k]) == Some(base + 1) && seen[k].good
  {
    FirstSuccess(seen[..i], base);
    hide IdOf;
    assert forall k: nat :: k < i ==> seen[..i][k] == seen[k];
  }

  lemma {:induction false} FirstSuccess(seen: seq<Response>, base: nat)
    ensures Progress(seen, base, 1) == 1 <==>
      exists k: nat :: k < |seen| && IdOf(seen[k]) == Some(base + 1) && seen[k].good
  {
    hide IdOf;
    if seen != [] {
      var n := |seen| - 1;
      FirstSuccess(seen[..n], base);
      assert forall k: nat :: k < n ==> seen[..n][k] == seen[k];
    }
  }

  /** The reader has a response to send and cannot. */
  predicate Blocked(s: State) {
    s.reader.Some? && !Enabled(s, Send)
  }

  /** A blocked reader has read two answers to one id of the connection: although it sends after
      releasing the mutex, when the caller may have timed out and unsubscribed, one answer always fits. */
  lemma BlockedNeedsTwoAnswers(s: State)
    requires Reached(s) && Blocked(s)
    ensures AnsweredTwice(s.seen, s.base, s.alone)
  {
    ReachedInv(s);
    var c := s.reader.value.0;
    var id := s.callers[c].id;
    assert id > s.base by { assert Registered(s, c); }
    hide Reached, AnsweredTwice, Count;
    if Count(s.seen, s.base, s.alone, id) <= 1 {
      RoomToSend(s);
    } else {
      CountedTwice(s.seen, s.base, s.alone, id);
    }
  }

  /** So if the server answers each id at most once, the reader never blocks. */
  lemma ReaderNeverBlocks(s: State)
    requires Reached(s) && !AnsweredTwice(s.seen, s.base, s.alone) && s.reader.Some?
    ensures Enabled(s, Send)
  {
    hide Reached, AnsweredTwice, Enabled;
    if Blocked(s) { BlockedNeedsTwoAnswers(s); }
  }

  lemma RoomToSend(s: State)
    requires Inv(s) && s.reader.Some? && Count(s.seen, s.base, s.alone, s.callers[s.reader.value.0].id) <= 1
    ensures Enabled(s, Send)
  {
    hide IdOf, Count, Progress;
    var c := s.reader.value.0;
    assert Registered(s, c) && Accounted(s, c);
    assert |s.routed[c]| == |Received(s.callers[c])| + |s.channels[c]| + 1;
  }

  // ----- and without that assumption -----

  lemma Extend(from: State, s: State, e: Step)
    requires Leads(from, s) && Enabled(s, e)
    ensures Leads(from, Apply(s, e))
  {
    hide Apply, Enabled;
    var states :| Run(states) && states[0] == from && states[|states| - 1] == s;
    var more := states + [Apply(s, e)];
    forall i | 0 <= i < |more| - 1 ensures StepAt(more, i) {
      if i < |states| - 1 {
        var d := StepFrom(states, i);
        assert Enabled(more[i], d) && more[i + 1] == Apply(more[i], d);
      } else {
        assert Enabled(more[i], e) && more[i + 1] == Apply(more[i], e);
      }
    }
    assert Run(more) && more[|more| - 1] == Apply(s, e);
  }

  /** The reader holds a response for a caller that is gone and whose channel is full. */
  ghost predicate Stuck(s: State, c: CallerId) {
    && s.reader.Some? && s.reader.value.0 == c
    && c in s.callers && s.callers[c].phase.Gone?
    && c in s.channels && |s.channels[c]| == 1
  }

  /** The calls 0 to p - 1 have been made alone and succeeded, and nothing else has happened but reading. */
  ghost predicate Served(s: State, p: nat) {
    && |s.issued| == p && s.pending == map[] && s.reader.None?
    && (forall k: nat :: (k in s.callers <==> k < p) && (k in s.channels <==> k < p))
    && (forall k :: 0 <= k < p ==> s.issued[k] == k && Done(s, k))
  }

  lemma StartReached(base: nat, alone: nat)
    ensures Reached(Initial(base, alone))
  {
    assert Run([Initial(base, alone)]);
  }

  lemma Go(s: State, e: Step)
    requires Reached(s) && Enabled(s, e)
    ensures Reached(Apply(s, e)) && Apply(s, e).base == s.base && Apply(s, e).alone == s.alone
  {
    hide Leads, IdOf, Route;
    Extend(Initial(s.base, s.alone), s, e);
  }

  /** One more call, made and answered. */
  lemma ServeOne(s: State, p: nat, resp: Response) returns (later: State)
    requires Reached(s) && Served(s, p) && IdOf(resp) == Some(s.base + p + 1) && resp.good
    ensures Reached(later) && Served(later, p + 1)
    ensures later.seen == s.seen + [resp] && later.base == s.base && later.alone == s.alone
  {
    hide IdOf, Reached;
    var s4 := Answered(s, p, resp);
    later := TakeAnswer(s4, p, s.base + p + 1, resp);
    assert forall k :: 0 <= k < p ==> Done(s, k);
  }

  lemma TakeAnswer(s: State, c: CallerId, id: int, resp: Response) returns (later: State)
    requires Reached(s) && At(s, c, Waiting) && s.callers[c].id == id && s.pending == map[id := c] && s.reader.None?
    requires c in s.channels && s.channels[c] == [resp]
    ensures Reached(later) && later.base == s.base && later.alone == s.alone && later.seen == s.seen
    ensures later.issued == s.issued && later.pending == map[] && later.reader.None?
    ensures later.callers.Keys == s.callers.Keys && later.channels.Keys == s.channels.Keys
    ensures later.callers[c] == Caller(id, Gone(Got(resp)))
    ensures forall d :: d in s.callers && d != c ==> later.callers[d] == s.callers[d]
  {
    hide IdOf, Reached;
    Go(s, Receive(c));
    var s1 := Apply(s, Receive(c));
    Go(s1, Unsubscribe(c));
    later := Apply(s1, Unsubscribe(c));
    assert s1.pending - {s1.callers[c].id} == map[];
  }

  /** A call that is answered and has not taken its answer yet; the others are as they were. */
  ghost predicate AnsweredIn(s: State, s': State, c: CallerId, id: int, resp: Response) {
    && Reached(s') && s'.base == s.base && s'.alone == s.alone && s'.seen == s.seen + [resp]
    && s'.callers.Keys == s.callers.Keys + {c} && s'.channels.Keys == s.channels.Keys + {c}
    && s'.callers[c] == Caller(id, Waiting) && s'.channels[c] == [resp] && s'.pending == map[id := c] && s'.reader.None?
    && (forall d :: d in s.callers && d != c ==> s'.callers[d] == s.callers[d])
  }

  lemma Answered(s: State, p: nat, resp: Response) returns (s4: State)
    requires Reached(s) && |s.issued| == p && s.pending == map[] && s.reader.None? && MayCall(s)
    requires p !in s.callers && IdOf(resp) == Some(s.base + p + 1)
    ensures AnsweredIn(s, s4, p, s.base + p + 1, resp) && s4.issued == s.issued + [p]
  {
    hide IdOf, Reached;
    Go(s, Allocate(p));
    var s1 := Apply(s, Allocate(p));
    s4 := SubscribedAnswered(s1, p, resp);
  }

  lemma SubscribedAnswered(s: State, c: CallerId, resp: Response) returns (later: State)
    requires Reached(s) && At(s, c, Allocated) && s.pending == map[] && s.reader.None?
    requires c in s.channels && s.channels[c] == [] && IdOf(resp) == Some(s.callers[c].id)
    ensures AnsweredIn(s, later, c, s.callers[c].id, resp) && later.issued == s.issued
  {
    hide IdOf, Reached;
    Go(s, Subscribe(c));
    var s1 := Apply(s, Subscribe(c));
    Go(s1, PostReturns(c, true));
    var s2 := Apply(s1, PostReturns(c, true));
    Go(s2, Lookup(resp));
    var s3 := Apply(s2, Lookup(resp));
    Go(s3, Send);
    later := Apply(s3, Send);
  }

  /** All calls made alone that the responses allow, up to n. */
  lemma {:induction false} Serving(base: nat, alone: nat, n: nat, rs: seq<Response>) returns (s: State)
    requires n <= alone
    ensures Reached(s) && Served(s, Progress(rs, base, n)) && s.seen == rs && s.base == base && s.alone == alone
  {
    hide IdOf, Reached;
    if rs == [] {
      StartReached(base, alone);
      s := Initial(base, alone);
    } else {
      var m := |rs| - 1;
      var before := Serving(base, alone, n, rs[..m]);
      var p := Progress(rs[..m], base, n);
      assert rs[..m] + [rs[m]] == rs;
      if p < n && IdOf(rs[m]) == Some(base + p + 1) && rs[m].good {
        s := ServeOne(before, p, rs[m]);
      } else {
        Go(before, Lookup(rs[m]));
        s := Apply(before, Lookup(rs[m]));
        assert forall k :: 0 <= k < p ==> Done(before, k);
      }
    }
  }

  /** Progress with a lower goal stops there. */
  lemma {:induction false} ProgressStops(seen: seq<Response>, base: nat, alone: nat, n: nat)
    requires n <= alone
    ensures Progress(seen, base, n) == if Progress(seen, base, alone) < n then Progress(seen, base, alone) else n
  {
    hide IdOf;
    if seen != [] { ProgressStops(seen[..|seen| - 1], base, alone, n); }
  }

  /** After the n calls made alone, callers up to t - 1 have an id each and nothing more. */
  ghost predicate OnlyAllocated(s: State, n: nat, t: nat) {
    && n <= t == |s.issued| && s.pending == map[] && s.reader.None?
    && (forall k: nat :: (k in s.callers <==> k < t) && (k in s.channels <==> k < t))
    && (forall k :: 0 <= k < n ==> s.issued[k] == k && Done(s, k))
    && (forall k :: n <= k < t ==> s.callers[k] == Caller(s.base + k + 1, Allocated) && s.channels[k] == [])
  }

  lemma AllocateOne(s: State, n: nat, t: nat)
    requires OnlyAllocated(s, n, t) && (t <= n || s.alone <= n)
    ensures Enabled(s, Allocate(t)) && OnlyAllocated(Apply(s, Allocate(t)), n, t + 1)
    ensures Apply(s, Allocate(t)).seen == s.seen
  {
    var s' := Apply(s, Allocate(t));
    forall k | 0 <= k < n ensures s'.issued[k] == k && Done(s', k) { assert Done(s, k); }
  }

  lemma {:induction false} Allocating(s: State, n: nat, t: nat) returns (later: State)
    requires Reached(s) && Served(s, n) && n <= t && (t <= n + 1 || s.alone <= n)
    ensures Reached(later) && OnlyAllocated(later, n, t)
    ensures later.seen == s.seen && later.base == s.base && later.alone == s.alone
    decreases t - n
  {
    if n == t {
      later := s;
    } else {
      var before := Allocating(s, n, t - 1);
      AllocateOne(before, n, t - 1);
      hide Reached, OnlyAllocated, Served, Enabled, Apply;
      Go(before, Allocate(t - 1));
      later := Apply(before, Allocate(t - 1));
    }
  }

  /** Caller c waits, alone in the table, with one answer in its channel. */
  ghost predicate Full(s: State, c: CallerId, id: int) {
    && At(s, c, Waiting) && s.callers[c].id == id && s.pending == map[id := c]
    && c in s.channels && |s.channels[c]| == 1 && s.reader.None?
  }

  lemma FirstAnswerWaits(seen: seq<Response>, base: nat, alone: nat, i: nat) returns (s: State, c: CallerId)
    requires i < |seen| && Answers(seen, base, alone, i)
    ensures Reached(s) && s.base == base && s.alone == alone
    ensures Full(s, c, IdOf(seen[i]).value) && s.seen == seen[..i] + [seen[i]]
  {
    hide Reached;
    c := IdOf(seen[i]).value - base - 1;
    var n := if c <= alone then c else alone;
    ProgressStops(seen[..i], base, alone, n);
    var s0 := Serving(base, alone, n, seen[..i]);
    hide IdOf, Progress;
    var s1 := Allocating(s0, n, c + 1);
    s := SubscribedAnswered(s1, c, seen[i]);
  }

  /** The next answer to its id, wherever it comes, leaves the reader stuck if the caller then gives up. */
  lemma {:induction false} ReadUntilStuck(s: State, c: CallerId, rest: seq<Response>, j: nat) returns (later: State)
    requires Reached(s) && c in s.callers && Full(s, c, s.callers[c].id)
    requires j < |rest| && IdOf(rest[j]) == Some(s.callers[c].id)
    ensures Reached(later) && later.base == s.base && later.alone == s.alone
    ensures Stuck(later, c) && later.seen <= s.seen + rest
    decreases |rest|
  {
    hide IdOf, Reached;
    Go(s, Lookup(rest[0]));
    var s1 := Apply(s, Lookup(rest[0]));
    assert s.seen + rest == s1.seen + rest[1..];
    if IdOf(rest[0]) == Some(s.callers[c].id) {
      Go(s1, Timeout(c));
      var s2 := Apply(s1, Timeout(c));
      Go(s2, Unsubscribe(c));
      later := Apply(s2, Unsubscribe(c));
    } else {
      later := ReadUntilStuck(s1, c, rest[1..], j - 1);
    }
  }

  lemma DuplicateAnswersBlock(seen: seq<Response>, base: nat, alone: nat) returns (s: State, c: CallerId)
    requires AnsweredTwice(seen, base, alone)
    ensures Reached(s) && s.base == base && s.alone == alone && Stuck(s, c) && s.seen <= seen
  {
    hide IdOf, Reached, Full, Stuck;
    var i, j :| 0 <= i < j < |seen| && Answers(seen, base, alone, i) && IdOf(seen[j]) == IdOf(seen[i]);
    var full;
    full, c := FirstAnswerWaits(seen, base, alone, i);
    FullId(full, c, IdOf(seen[i]).value);
    s := ReadUntilStuck(full, c, seen[i + 1..], j - i - 1);
    assert seen[..i] + [seen[i]] + seen[i + 1..] == seen;
  }

  lemma FullId(s: State, c: CallerId, id: int)
    requires Full(s, c, id)
    ensures c in s.callers && s.callers[c].id == id
  {
  }

  ghost predicate BlocksOn(s: State, seen: seq<Response>, base: nat, alone: nat) {
    Reached(s) && s.base == base && s.alone == alone && s.seen <= seen && Blocked(s)
  }

  ghost predicate SticksOn(s: State, seen: seq<Response>, base: nat, alone: nat) {
    Reached(s) && s.base == base && s.alone == alone && s.seen <= seen && exists c :: Stuck(s, c)
  }

  /** On what the server sends, the reader can be blocked in some run, and can be blocked for good,
      exactly when some id of the connection is answered twice, the first time when the id may have been
      given out. */
  lemma BlockingIsExact(seen: seq<Response>, base: nat, alone: nat)
    ensures (exists s :: BlocksOn(s, seen, base, alone)) <==> AnsweredTwice(seen, base, alone)
    ensures (exists s :: SticksOn(s, seen, base, alone)) <==> AnsweredTwice(seen, base, alone)
  {
    hide Reached;
    if AnsweredTwice(seen, base, alone) {
      var s, c := DuplicateAnswersBlock(seen, base, alone);
      assert SticksOn(s, seen, base, alone);
    }
    hide AnsweredTwice;
    forall s | SticksOn(s, seen, base, alone) ensures BlocksOn(s, seen, base, alone) { }
    forall s | BlocksOn(s, seen, base, alone) ensures AnsweredTwice(seen, base, alone) {
      BlockedNeedsTwoAnswers(s);
      TwiceStays(s.seen, seen, base, alone);
    }
  }

  lemma StuckStays(s: State, e: Step, c: CallerId)
    requires Stuck(s, c) && Enabled(s, e)
    ensures Stuck(Apply(s, e), c) && Apply(s, e).seen == s.seen
  {
    hide IdOf, Route;
  }

  lemma {:induction false} StuckAlong(states: seq<State>, n: nat, c: CallerId)
    requires Run(states) && Stuck(states[0], c) && n < |states|
    ensures Stuck(states[n], c) && states[n].seen == states[0].seen
  {
    hide Run, Enabled, Apply, Stuck;
    if n > 0 {
      StuckAlong(states, n - 1, c);
      var e := StepFrom(states, n - 1);
      StuckStays(states[n - 1], e, c);
    }
  }

  /** And nothing that can happen afterwards frees it: the connection is dead to all its callers. */
  lemma StuckForever(from: State, s: State, c: CallerId)
    requires Stuck(from, c) && Leads(from, s)
    ensures Stuck(s, c) && s.seen == from.seen && !Enabled(s, Send)
  {
    hide StepAt;
    var states :| Run(states) && states[0] == from && states[|states| - 1] == s;
    StuckAlong(states, |states| - 1, c);
  }
}
