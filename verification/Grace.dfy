/** Calls in flight on a registry that is replaced, and its delayed close: plugin/handler.go
    (graceCloseRegistry), mcp/streamable.go and mcp/sse.go (roundTrip), in seconds. Timers of calls
    fire on time; the closing goroutine may be late. */
module Grace {
  import opened Options

  const TIMEOUT := 60
  const GRACE := 70

  datatype Kind = Streamable | Sse

  datatype Phase = Waiting | Finished | Cut

  /** `accepted` is the moment an SSE call's POST went through. */
  datatype Call = Call(kind: Kind, start: nat, accepted: Option<nat>, phase: Phase)

  datatype State = State(now: nat, alive: bool, replaced: Option<nat>, closed: bool, calls: seq<Call>)

  const INITIAL := State(0, true, None, false, [])

  /** When a waiting call gives up: counted from the start on Streamable HTTP, and on SSE from the
      moment the POST was accepted. */
  function Deadline(c: Call): Option<nat> {
    match c.kind
    case Streamable => Some(c.start + TIMEOUT)
    case Sse => if c.accepted.Some? then Some(c.accepted.value + TIMEOUT) else None
  }

  predicate Due(c: Call, now: nat) {
    c.phase == Waiting && Deadline(c).Some? && Deadline(c).value <= now
  }

  datatype Step = Tick | Begin(kind: Kind) | Accept(k: nat) | Answer(k: nat) | Fail(k: nat) | Timeout(k: nat)
                | Replace | HandlerDone | GraceClose

  predicate Enabled(s: State, e: Step) {
    match e
    case Tick => forall k :: 0 <= k < |s.calls| ==> !Due(s.calls[k], s.now)
    case Begin(_) => true
    case Accept(k) =>
      k < |s.calls| && s.calls[k].phase == Waiting && s.calls[k].kind == Sse && s.calls[k].accepted.None?
    case Answer(k) =>
      k < |s.calls| && s.calls[k].phase == Waiting && (s.calls[k].kind == Sse ==> s.calls[k].accepted.Some?)
    case Fail(k) => k < |s.calls| && s.calls[k].phase == Waiting
    case Timeout(k) => k < |s.calls| && Due(s.calls[k], s.now)
    case Replace => s.replaced.None?
    case HandlerDone => s.alive
    case GraceClose => s.replaced.Some? && !s.closed && (!s.alive || s.now >= s.replaced.value + GRACE)
  }

  function CutOff(c: Call): Call {
    if c.phase == Waiting then c.(phase := Cut) else c
  }

  function Apply(s: State, e: Step): State
    requires Enabled(s, e)
  {
    match e
    case Tick => s.(now := s.now + 1)
    case Begin(kind) => s.(calls := s.calls + [Call(kind, s.now, None, if s.closed then Cut else Waiting)])
    case Accept(k) => s.(calls := s.calls[k := s.calls[k].(accepted := Some(s.now))])
    case Answer(k) => s.(calls := s.calls[k := s.calls[k].(phase := Finished)])
    case Fail(k) => s.(calls := s.calls[k := s.calls[k].(phase := Finished)])
    case Timeout(k) => s.(calls := s.calls[k := s.calls[k].(phase := Finished)])
    case Replace => s.(replaced := Some(s.now))
    case HandlerDone => s.(alive := false)
    case GraceClose => s.(closed := true, calls := seq(|s.calls|, k requires 0 <= k < |s.calls| => CutOff(s.calls[k])))
  }

  ghost predicate Run(steps: seq<Step>, s: State)
    decreases |steps|
  {
    if steps == [] then s == INITIAL
    else
      var n := |steps| - 1;
      exists mid :: Run(steps[..n], mid) && Enabled(mid, steps[n]) && s == Apply(mid, steps[n])
  }

  /** The call's clock starts less than ten seconds after the replacement, or before it. */
  predicate InTime(c: Call, replaced: nat) {
    Deadline(c).Some? && Deadline(c).value < replaced + GRACE
  }

  ghost predicate CallOk(s: State, c: Call) {
    && c.start <= s.now && (c.accepted.Some? ==> c.start <= c.accepted.value <= s.now)
    && (c.phase == Waiting ==> !s.closed && (Deadline(c).Some? ==> s.now <= Deadline(c).value))
    && (c.phase == Cut ==> s.closed && s.replaced.Some? && (s.alive ==> !InTime(c, s.replaced.value)))
  }

  ghost predicate Inv(s: State) {
    && (s.closed ==> s.replaced.Some? && (s.alive ==> s.now >= s.replaced.value + GRACE))
    && (forall k :: 0 <= k < |s.calls| ==> CallOk(s, s.calls[k]))
  }

  lemma StepKeeps(s: State, e: Step)
    requires Inv(s) && Enabled(s, e)
    ensures Inv(Apply(s, e))
  {
    var s' := Apply(s, e);
    forall k | 0 <= k < |s'.calls| ensures CallOk(s', s'.calls[k]) {
      if k < |s.calls| { assert CallOk(s, s.calls[k]); }
    }
  }

  lemma {:induction false} RunKeeps(steps: seq<Step>, s: State)
    requires Run(steps, s)
    ensures Inv(s)
    decreases |steps|
  {
    if steps != [] {
      var n := |steps| - 1;
      var mid :| Run(steps[..n], mid) && Enabled(mid, steps[n]) && s == Apply(mid, steps[n]);
      RunKeeps(steps[..n], mid);
      StepKeeps(mid, steps[n]);
    }
  }

  /** While the handler lives, the close cuts off no Streamable HTTP call that started less than ten
      seconds after the replacement, and no SSE call whose POST was accepted by then. */
  lemma EarlyCallsFinish(steps: seq<Step>, s: State, k: nat)
    requires Run(steps, s) && s.alive && s.replaced.Some? && k < |s.calls|
    requires match s.calls[k].kind
      case Streamable => s.calls[k].start < s.replaced.value + 10
      case Sse => s.calls[k].accepted.Some? && s.calls[k].accepted.value < s.replaced.value + 10
    ensures s.calls[k].phase != Cut
    ensures s.closed ==> s.calls[k].phase == Finished
  {
    RunKeeps(steps, s);
    assert CallOk(s, s.calls[k]);
  }

  // ----- ten seconds are the limit -----

  lemma Extend(steps: seq<Step>, s: State, e: Step)
    requires Run(steps, s) && Enabled(s, e)
    ensures Run(steps + [e], Apply(s, e))
  {
    assert (steps + [e])[..|steps|] == steps;
  }

  ghost predicate NothingDueBefore(s: State, moment: nat) {
    forall k :: 0 <= k < |s.calls| && Deadline(s.calls[k]).Some? ==> moment <= Deadline(s.calls[k]).value
  }

  /** Time may pass as long as nothing is due. */
  lemma {:induction false} TimePasses(steps: seq<Step>, s: State, n: nat) returns (steps': seq<Step>)
    requires Run(steps, s) && NothingDueBefore(s, s.now + n)
    ensures Run(steps', s.(now := s.now + n))
    decreases n
  {
    hide Run, Deadline;
    if n == 0 {
      steps' := steps;
      assert s.(now := s.now + 0) == s;
    } else {
      Extend(steps, s, Tick);
      steps' := TimePasses(steps + [Tick], Apply(s, Tick), n - 1);
    }
  }

  ghost predicate CutAfter(kind: Kind, delay: nat, steps: seq<Step>, s: State) {
    Run(steps, s) && s.alive && s.replaced.Some? && |s.calls| == 1 && s.calls[0].kind == kind
    && s.calls[0].start == s.replaced.value + delay && s.calls[0].phase == Cut
  }

  lemma LateCallIsCut(kind: Kind, delay: nat) returns (steps: seq<Step>, s: State)
    requires kind == Streamable ==> delay >= 10
    ensures CutAfter(kind, delay, steps, s)
  {
    assert Run([], INITIAL);
    Extend([], INITIAL, Replace);
    var s1 := Apply(INITIAL, Replace);
    steps := TimePasses([] + [Replace], s1, delay);
    var s2 := s1.(now := delay);
    Extend(steps, s2, Begin(kind));
    var s3 := Apply(s2, Begin(kind));
    steps := steps + [Begin(kind)];
    var rest := if delay < GRACE then GRACE - delay else 0;
    steps := TimePasses(steps, s3, rest);
    var s4 := s3.(now := s3.now + rest);
    Extend(steps, s4, GraceClose);
    s := Apply(s4, GraceClose);
    steps := steps + [GraceClose];
  }

  /** Ten seconds are exact on Streamable HTTP: a later start may be cut off, an earlier one never.
      An SSE call may be cut off whenever it started, for as long as its POST is not accepted. */
  lemma TenSecondsAreExact(delay: nat)
    ensures (exists steps, s :: CutAfter(Streamable, delay, steps, s)) <==> delay >= 10
    ensures exists steps, s :: CutAfter(Sse, delay, steps, s)
  {
    if delay >= 10 {
      var steps, s := LateCallIsCut(Streamable, delay);
    } else {
      forall steps, s ensures !CutAfter(Streamable, delay, steps, s) {
        if CutAfter(Streamable, delay, steps, s) { EarlyCallsFinish(steps, s, 0); }
      }
    }
    var steps, s := LateCallIsCut(Sse, delay);
  }

  ghost predicate AcceptedAndCut(delay: nat, steps: seq<Step>, s: State) {
    Run(steps, s) && s.alive && s.replaced.Some? && |s.calls| == 1 && s.calls[0].kind == Sse
    && s.calls[0].accepted == Some(s.replaced.value + delay) && s.calls[0].phase == Cut
  }

  lemma AcceptedLate(delay: nat) returns (steps: seq<Step>, s: State)
    ensures Run(steps, s) && s == State(delay, true, Some(0), false, [Call(Sse, delay, Some(delay), Waiting)])
  {
    assert Run([], INITIAL);
    Extend([], INITIAL, Replace);
    var s1 := Apply(INITIAL, Replace);
    steps := TimePasses([] + [Replace], s1, delay);
    var s2 := s1.(now := delay);
    hide Run;
    Extend(steps, s2, Begin(Sse));
    var s3 := Apply(s2, Begin(Sse));
    steps := steps + [Begin(Sse)];
    Extend(steps, s3, Accept(0));
    s := Apply(s3, Accept(0));
    steps := steps + [Accept(0)];
  }

  lemma LateAcceptanceIsCut(delay: nat) returns (steps: seq<Step>, s: State)
    requires delay >= 10
    ensures AcceptedAndCut(delay, steps, s)
  {
    var s1;
    steps, s1 := AcceptedLate(delay);
    hide Run;
    var rest := if delay < GRACE then GRACE - delay else 0;
    steps := TimePasses(steps, s1, rest);
    var s2 := s1.(now := s1.now + rest);
    Extend(steps, s2, GraceClose);
    s := Apply(s2, GraceClose);
    steps := steps + [GraceClose];
  }

  /** On SSE ten seconds are exact for the moment of acceptance. */
  lemma TenSecondsAfterAcceptance(delay: nat)
    ensures (exists steps, s :: AcceptedAndCut(delay, steps, s)) <==> delay >= 10
  {
    if delay >= 10 {
      var steps, s := LateAcceptanceIsCut(delay);
    } else {
      forall steps, s ensures !AcceptedAndCut(delay, steps, s) {
        if AcceptedAndCut(delay, steps, s) { EarlyCallsFinish(steps, s, 0); }
      }
    }
  }
}
