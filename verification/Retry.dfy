/** plugin/registry.go: retryLoop and reconnectOfflineLoop, with time as seconds waited. The network
    is an oracle: `answered(n)` says which of the servers tried in round n answer, by their turn. The
    context ends while waiting before round `rounds`. */
module Retry {
  import opened RegistrySpec

  // ----- waits -----

  const FAILED_CAP := 30
  const OFFLINE_CAP := 120

  function Min(a: nat, b: nat): nat {
    if a < b then a else b
  }

  function Pow2(n: nat): nat {
    if n == 0 then 1 else 2 * Pow2(n - 1)
  }

  /** retryLoop doubles only below its limit, but may then pass it. */
  function NextFailedWait(wait: nat): nat {
    if wait < FAILED_CAP then 2 * wait else wait
  }

  function NextOfflineWait(wait: nat): nat {
    if wait < OFFLINE_CAP then Min(2 * wait, OFFLINE_CAP) else wait
  }

  lemma {:induction false} Pow2Grows(m: nat, n: nat)
    requires m <= n
    ensures Pow2(m) <= Pow2(n)
  {
    if m < n { Pow2Grows(m, n - 1); }
  }

  function FailedWait(n: nat): nat {
    Min(Pow2(n), 32)
  }

  function OfflineWait(n: nat): nat {
    Min(5 * Pow2(n), OFFLINE_CAP)
  }

  /** The doubling passes the 30-second constant once, to 32 seconds, and stays there. */
  lemma FailedWaits(n: nat)
    ensures NextFailedWait(FailedWait(n)) == FailedWait(n + 1)
  {
    assert Pow2(5) == 32 && Pow2(4) == 16;
    if n >= 5 { Pow2Grows(5, n); } else { Pow2Grows(n, 4); }
  }

  lemma OfflineWaits(n: nat)
    ensures NextOfflineWait(OfflineWait(n)) == OfflineWait(n + 1)
  {
  }

  /** In seconds. */
  lemma WaitsInSeconds(n: nat)
    ensures FailedWait(n) == if n < 5 then [1, 2, 4, 8, 16][n] else 32
    ensures OfflineWait(n) == if n < 5 then [5, 10, 20, 40, 80][n] else 120
  {
    assert Pow2(1) == 2 && Pow2(2) == 4 && Pow2(3) == 8 && Pow2(4) == 16 && Pow2(5) == 32;
    if n >= 5 { Pow2Grows(5, n); }
  }

  lemma FirstWaits()
    ensures FailedWait(0) == 1 && OfflineWait(0) == 5
  {
  }

  // ----- who is still pending -----

  /** The servers whose turn did not succeed, in order. */
  function Unreached(tried: seq<ServerConfig>, answered: set<nat>): seq<ServerConfig> {
    if tried == [] then []
    else
      var n := |tried| - 1;
      if n in answered then Unreached(tried[..n], answered) else Unreached(tried[..n], answered) + [tried[n]]
  }

  function Pending(servers: seq<ServerConfig>, answered: nat -> set<nat>, rounds: nat): seq<ServerConfig> {
    if rounds == 0 then servers else Unreached(Pending(servers, answered, rounds - 1), answered(rounds - 1))
  }

  /** The servers whose turn succeeded, in order. */
  function ReachedIn(tried: seq<ServerConfig>, answered: set<nat>): seq<ServerConfig> {
    if tried == [] then []
    else
      var n := |tried| - 1;
      if n in answered then ReachedIn(tried[..n], answered) + [tried[n]] else ReachedIn(tried[..n], answered)
  }

  /** The servers reached in the rounds so far: those whose tool list was saved to the cache. */
  function Reached(servers: seq<ServerConfig>, answered: nat -> set<nat>, rounds: nat): seq<ServerConfig> {
    if rounds == 0 then []
    else
      var before := Reached(servers, answered, rounds - 1);
      before + ReachedIn(Pending(servers, answered, rounds - 1), answered(rounds - 1))
  }

  lemma {:induction false} RoundConserves(tried: seq<ServerConfig>, answered: set<nat>)
    ensures multiset(ReachedIn(tried, answered)) + multiset(Unreached(tried, answered)) == multiset(tried)
  {
    if tried != [] {
      var n := |tried| - 1;
      RoundConserves(tried[..n], answered);
      assert tried == tried[..n] + [tried[n]];
    }
  }

  /** No server is lost: after any number of rounds those reached and those pending make up the initial list. */
  lemma {:induction false} ServersAreConserved(servers: seq<ServerConfig>, answered: nat -> set<nat>, rounds: nat)
    ensures multiset(Reached(servers, answered, rounds)) + multiset(Pending(servers, answered, rounds))
      == multiset(servers)
  {
    if rounds > 0 {
      ServersAreConserved(servers, answered, rounds - 1);
      RoundConserves(Pending(servers, answered, rounds - 1), answered(rounds - 1));
    }
  }

  lemma ReachedNext(servers: seq<ServerConfig>, answered: nat -> set<nat>, n: nat)
    ensures Reached(servers, answered, n + 1)
      == Reached(servers, answered, n) + ReachedIn(Pending(servers, answered, n), answered(n))
    ensures Reached(servers, answered, 0) == []
  {
  }

  lemma PendingFirst(servers: seq<ServerConfig>, answered: nat -> set<nat>)
    ensures Pending(servers, answered, 0) == servers
  {
  }

  lemma PendingNext(servers: seq<ServerConfig>, answered: nat -> set<nat>, n: nat)
    ensures Pending(servers, answered, n + 1) == Unreached(Pending(servers, answered, n), answered(n))
  {
  }

  /** The same on positions in the initial list. */
  function UnreachedAt(tried: seq<nat>, answered: set<nat>): seq<nat> {
    if tried == [] then []
    else
      var n := |tried| - 1;
      if n in answered then UnreachedAt(tried[..n], answered) else UnreachedAt(tried[..n], answered) + [tried[n]]
  }

  function PendingAt(count: nat, answered: nat -> set<nat>, rounds: nat): seq<nat> {
    if rounds == 0 then seq(count, i => i)
    else UnreachedAt(PendingAt(count, answered, rounds - 1), answered(rounds - 1))
  }

  ghost predicate Selects(at: seq<nat>, servers: seq<ServerConfig>, selected: seq<ServerConfig>) {
    |selected| == |at| && forall i :: 0 <= i < |at| ==> at[i] < |servers| && selected[i] == servers[at[i]]
  }

  lemma SelectsPrefix(at: seq<nat>, servers: seq<ServerConfig>, selected: seq<ServerConfig>)
    requires at != [] && Selects(at, servers, selected)
    ensures |selected| == |at| && Selects(at[..|at| - 1], servers, selected[..|at| - 1])
    ensures at[|at| - 1] < |servers| && selected[|at| - 1] == servers[at[|at| - 1]]
  {
  }

  lemma SelectsAppend(at: seq<nat>, servers: seq<ServerConfig>, selected: seq<ServerConfig>, p: nat)
    requires Selects(at, servers, selected) && p < |servers|
    ensures Selects(at + [p], servers, selected + [servers[p]])
  {
  }

  lemma {:induction false} UnreachedSelects(servers: seq<ServerConfig>, at: seq<nat>, tried: seq<ServerConfig>,
      answered: set<nat>)
    requires Selects(at, servers, tried)
    ensures Selects(UnreachedAt(at, answered), servers, Unreached(tried, answered))
  {
    if at == [] {
      assert tried == [];
    } else {
      var n := |at| - 1;
      SelectsPrefix(at, servers, tried);
      hide Selects;
      UnreachedSelects(servers, at[..n], tried[..n], answered);
      SelectsAppend(UnreachedAt(at[..n], answered), servers, Unreached(tried[..n], answered), at[n]);
    }
  }

  lemma {:induction false} UnreachedMember(at: seq<nat>, answered: set<nat>, p: nat)
    ensures p in UnreachedAt(at, answered) <==> exists i: nat :: i < |at| && at[i] == p && i !in answered
  {
    if at != [] {
      var n := |at| - 1;
      UnreachedMember(at[..n], answered, p);
      assert forall i: nat :: i < n ==> at[..n][i] == at[i];
      if n !in answered { assert UnreachedAt(at, answered)[|UnreachedAt(at[..n], answered)|] == at[n]; }
    }
  }

  lemma {:induction false} UnreachedIncreases(at: seq<nat>, answered: set<nat>)
    requires Increasing(at)
    ensures Increasing(UnreachedAt(at, answered))
  {
    if at != [] {
      var n := |at| - 1;
      var before := UnreachedAt(at[..n], answered);
      UnreachedIncreases(at[..n], answered);
      forall i | 0 <= i < |before| ensures before[i] < at[n] {
        UnreachedMember(at[..n], answered, before[i]);
        assert before[i] in before;
      }
    }
  }

  /** Pending is always a subsequence of the initial list, in its order. */
  lemma {:induction false} PendingIsSublist(servers: seq<ServerConfig>, answered: nat -> set<nat>, rounds: nat)
    ensures var at := PendingAt(|servers|, answered, rounds);
      Increasing(at) && Selects(at, servers, Pending(servers, answered, rounds))
  {
    if rounds > 0 {
      PendingIsSublist(servers, answered, rounds - 1);
      var at := PendingAt(|servers|, answered, rounds - 1);
      UnreachedSelects(servers, at, Pending(servers, answered, rounds - 1), answered(rounds - 1));
      UnreachedIncreases(at, answered(rounds - 1));
    }
  }

  lemma {:induction false} PositionsIncrease(count: nat, answered: nat -> set<nat>, rounds: nat)
    ensures Increasing(PendingAt(count, answered, rounds))
  {
    if rounds > 0 {
      PositionsIncrease(count, answered, rounds - 1);
      UnreachedIncreases(PendingAt(count, answered, rounds - 1), answered(rounds - 1));
    }
  }

  /** Server p was tried in round n, and answered. */
  ghost predicate Succeeded(count: nat, answered: nat -> set<nat>, n: nat, p: nat) {
    var at := PendingAt(count, answered, n);
    exists i: nat :: i < |at| && at[i] == p && i in answered(n)
  }

  /** A server leaves the pending ones in the round in which it answers, and in no other. */
  lemma RoundRemoves(count: nat, answered: nat -> set<nat>, n: nat, p: nat)
    ensures p in PendingAt(count, answered, n + 1) <==>
      p in PendingAt(count, answered, n) && !Succeeded(count, answered, n, p)
  {
    var at := PendingAt(count, answered, n);
    PositionsIncrease(count, answered, n);
    UnreachedMember(at, answered(n), p);
  }

  /** A server is no longer pending exactly when it answered in some round so far. */
  lemma {:induction false} RemovedWasReached(count: nat, answered: nat -> set<nat>, rounds: nat, p: nat)
    requires p < count
    ensures p !in PendingAt(count, answered, rounds) <==>
      exists n: nat :: n < rounds && Succeeded(count, answered, n, p)
  {
    hide Succeeded;
    if rounds == 0 {
      assert PendingAt(count, answered, 0)[p] == p;
    } else {
      RemovedWasReached(count, answered, rounds - 1, p);
      RoundRemoves(count, answered, rounds - 1, p);
    }
  }

  /** A server that answered is not tried again. */
  lemma SucceedsOnce(count: nat, answered: nat -> set<nat>, m: nat, n: nat, p: nat)
    requires p < count && m < n && Succeeded(count, answered, m, p)
    ensures !Succeeded(count, answered, n, p)
  {
    RemovedWasReached(count, answered, n, p);
  }

  // ----- the loops -----

  method TryAll(pending: seq<ServerConfig>, answered: set<nat>)
      returns (still: seq<ServerConfig>, saved: seq<ServerConfig>)
    ensures still == Unreached(pending, answered) && saved == ReachedIn(pending, answered)
  {
    still, saved := [], [];
    for i := 0 to |pending|
      invariant still == Unreached(pending[..i], answered) && saved == ReachedIn(pending[..i], answered)
    {
      assert pending[..i + 1][..i] == pending[..i];
      if i !in answered {
        still := still + [pending[i]];
        continue;
      }
      saved := saved + [pending[i]];
    }
    assert pending[..|pending|] == pending;
  }

  /** retryLoop: `exited` is the process exit, `waits` the waits made, `saved` the servers whose tool list
      was written to the cache, in order. */
  method RetryLoop(failed: seq<ServerConfig>, rounds: nat, answered: nat -> set<nat>)
    returns (exited: bool, waits: seq<nat>, saved: seq<ServerConfig>)
    ensures |waits| <= rounds && forall n :: 0 <= n < |waits| ==> waits[n] == FailedWait(n)
    ensures exited <==> failed != [] && Pending(failed, answered, |waits|) == []
    ensures !exited && failed != [] ==> |waits| == rounds
    ensures forall n :: 0 <= n < |waits| ==> Pending(failed, answered, n) != []
    ensures saved == Reached(failed, answered, |waits|)
  {
    hide Pow2, FailedWait, Unreached, Pending, Reached, ReachedIn;
    var pending, backoff := failed, 1;
    exited, waits, saved := false, [], [];
    FirstWaits();
    PendingFirst(failed, answered);
    ReachedNext(failed, answered, 0);
    while |pending| > 0
      invariant |waits| <= rounds && pending == Pending(failed, answered, |waits|)
      invariant backoff == FailedWait(|waits|)
      invariant forall n :: 0 <= n < |waits| ==> waits[n] == FailedWait(n)
      invariant forall n :: 0 <= n < |waits| ==> Pending(failed, answered, n) != []
      invariant failed != [] ==> pending != []
      invariant saved == Reached(failed, answered, |waits|)
      decreases rounds - |waits|
    {
      if |waits| == rounds { return; }
      var n := |waits|;
      waits := waits + [backoff];
      PendingNext(failed, answered, n);
      ReachedNext(failed, answered, n);
      var here;
      pending, here := TryAll(pending, answered(n));
      saved := saved + here;
      if |pending| == 0 { return true, waits, saved; }
      FailedWaits(n);
      if backoff < FAILED_CAP { backoff := backoff * 2; }
    }
  }

  /** reconnectOfflineLoop returns once every server was reached, or when the context ends. */
  method ReconnectOfflineLoop(offline: seq<ServerConfig>, rounds: nat, answered: nat -> set<nat>)
    returns (pending: seq<ServerConfig>, waits: seq<nat>, online: seq<ServerConfig>)
    ensures |waits| <= rounds && forall n :: 0 <= n < |waits| ==> waits[n] == OfflineWait(n)
    ensures pending == Pending(offline, answered, |waits|)
    ensures pending != [] ==> |waits| == rounds
    ensures forall n :: 0 <= n < |waits| ==> Pending(offline, answered, n) != []
    ensures online == Reached(offline, answered, |waits|)
  {
    hide Pow2, OfflineWait, Unreached, Pending, Reached, ReachedIn;
    pending, waits, online := offline, [], [];
    var backoff := 5;
    FirstWaits();
    PendingFirst(offline, answered);
    ReachedNext(offline, answered, 0);
    while |pending| > 0
      invariant |waits| <= rounds && pending == Pending(offline, answered, |waits|)
      invariant backoff == OfflineWait(|waits|)
      invariant forall n :: 0 <= n < |waits| ==> waits[n] == OfflineWait(n)
      invariant forall n :: 0 <= n < |waits| ==> Pending(offline, answered, n) != []
      invariant online == Reached(offline, answered, |waits|)
      decreases rounds - |waits|
    {
      if |waits| == rounds { return; }
      var n := |waits|;
      waits := waits + [backoff];
      PendingNext(offline, answered, n);
      ReachedNext(offline, answered, n);
      var here;
      pending, here := TryAll(pending, answered(n));
      online := online + here;
      OfflineWaits(n);
      if backoff < OFFLINE_CAP {
        backoff := backoff * 2;
        if backoff > OFFLINE_CAP { backoff := OFFLINE_CAP; }
      }
    }
  }

  ghost predicate AnsweredBy(count: nat, answered: nat -> set<nat>, rounds: nat, p: nat) {
    exists n: nat :: n < rounds && Succeeded(count, answered, n, p)
  }

  /** Nothing is pending exactly when every server answered in some round: retryLoop exits only then. */
  lemma ExitMeansAllReached(failed: seq<ServerConfig>, answered: nat -> set<nat>, rounds: nat)
    ensures Pending(failed, answered, rounds) == [] <==>
      forall p: nat :: p < |failed| ==> AnsweredBy(|failed|, answered, rounds, p)
  {
    PendingIsSublist(failed, answered, rounds);
    var at := PendingAt(|failed|, answered, rounds);
    forall p: nat | p < |failed| ensures p !in at <==> AnsweredBy(|failed|, answered, rounds, p) {
      RemovedWasReached(|failed|, answered, rounds, p);
    }
    hide AnsweredBy;
    if at != [] { assert at[0] in at; }
  }
}
