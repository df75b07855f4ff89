// The bootstrap accesses of src/rdap.rs in the order in which they hold the mutex: how often
// they may ask for the registry, and what they keep. Who makes them does not matter.
module BootstrapPacing {
  import opened Wrappers
  import opened Spacing
  import opened Bootstrap

  // One access: the clock as it reads it, and what a fetch would bring.
  datatype Turn = Turn(times: Times, fetched: Result<Registry, RdapError>)

  // The bookkeeping after some turns, the attempt stamps, and each attempt's success stamp.
  datatype Trace = Trace(state: State, attempts: seq<int>, done: seq<Option<int>>)

  function Next(t: Trace, turn: Turn): Trace {
    var state := GetOrFetch(t.state, turn.times, turn.fetched).state;
    if Decide(t.state, turn.times).Fetch?
    then Trace(state, t.attempts + [turn.times.attempt],
               t.done + [if turn.fetched.Success? then Some(turn.times.fetched) else None])
    else Trace(state, t.attempts, t.done)
  }

  function Turns(turns: seq<Turn>): Trace {
    if turns == [] then Trace(INITIAL, [], [])
    else Next(Turns(turns[..|turns| - 1]), turns[|turns| - 1])
  }

  lemma OneMoreTurn(turns: seq<Turn>, turn: Turn)
    ensures Turns(turns + [turn]) == Next(Turns(turns), turn)
  {
    assert (turns + [turn])[..|turns|] == turns;
  }

  // The clock is monotonic and the mutex lets one access at a time read it.
  ghost predicate Ordered(turns: seq<Turn>) {
    && (forall t :: t in turns ==> t.times.Ordered())
    && (forall i, j :: 0 <= i < j < |turns| ==> turns[i].times.fetched <= turns[j].times.freshness)
  }

  // The bookkeeping fields against the trace.
  ghost predicate Recorded(t: Trace, end: int) {
    && |t.done| == |t.attempts|
    && (t.state.data.Some? <==> t.state.fetchedAt.Some?)
    && (t.attempts == [] <==> t.state.lastAttempt.None?)
    && (t.attempts != [] ==> t.state.lastAttempt == Some(t.attempts[|t.attempts| - 1]))
    && (forall i :: 0 <= i < |t.attempts| ==> t.attempts[i] <= end)
    && (forall i :: 0 <= i < |t.done| && t.done[i].Some? ==>
          t.state.fetchedAt.Some? && t.done[i].value <= t.state.fetchedAt.value <= end)
    && (t.state.fetchedAt.Some? ==> t.state.fetchedAt in t.done)
  }

  // Attempts are at least the retry delay apart, and after a success the refresh period away.
  ghost predicate Paced(t: Trace) {
    && Spaced(t.attempts, 300)
    && |t.done| == |t.attempts|
    && forall i, j :: 0 <= i < j < |t.attempts| && t.done[i].Some? ==>
         t.attempts[j] >= t.done[i].value + 86400
  }

  lemma NextKeepsPace(t: Trace, turn: Turn, end: int)
    requires Recorded(t, end) && Paced(t) && turn.times.Ordered() && end <= turn.times.freshness
    ensures Recorded(Next(t, turn), turn.times.fetched) && Paced(Next(t, turn))
  {
    if Decide(t.state, turn.times).Fetch? && t.attempts != [] {
      assert turn.times.attempt - t.attempts[|t.attempts| - 1] >= 300;
    }
  }

  function End(turns: seq<Turn>): int {
    if turns == [] then 0 else turns[|turns| - 1].times.fetched
  }

  // Over every sequence of accesses and every outcome of their fetches: attempts are 300 s
  // apart and 24 h after a success, and the stamps are the history's.
  lemma {:induction false} TurnsArePaced(turns: seq<Turn>)
    requires Ordered(turns)
    ensures Paced(Turns(turns)) && Recorded(Turns(turns), End(turns))
  {
    if turns != [] {
      var init, turn := turns[..|turns| - 1], turns[|turns| - 1];
      TurnsArePaced(init);
      NextKeepsPace(Turns(init), turn, if init == [] then turn.times.freshness else End(init));
    }
  }

  lemma TurnsInWindow(turns: seq<Turn>, start: int, length: nat)
    requires Ordered(turns)
    ensures CountWithin(Turns(turns).attempts, start, start + length) <= length / 300 + 1
  {
    TurnsArePaced(turns);
    WindowBound(Turns(turns).attempts, 300, start, length);
  }

  // No fetch succeeded within the refresh period and none was attempted within the retry delay.
  ghost predicate Due(t: Trace, times: Times) {
    && (forall i :: 0 <= i < |t.done| && t.done[i].Some? ==> times.freshness - t.done[i].value >= 86400)
    && (forall i :: 0 <= i < |t.attempts| ==> times.retry - t.attempts[i] >= 300)
  }

  // An access fetches exactly when, by the whole history, one is due.
  lemma TurnFetchesExactly(turns: seq<Turn>, times: Times)
    requires Ordered(turns)
    ensures Decide(Turns(turns).state, times).Fetch? <==> Due(Turns(turns), times)
  {
    TurnsArePaced(turns);
    var t := Turns(turns);
    if t.state.fetchedAt.Some? {
      var i :| 0 <= i < |t.done| && t.done[i] == t.state.fetchedAt;
    }
    LastIsLatest(t.attempts, 300);
  }

  // Data once fetched never disappears, and from then on no access to it fails.
  lemma {:induction false} TurnsKeepData(a: seq<Turn>, b: seq<Turn>, turn: Turn)
    requires Turns(a).state.data.Some?
    ensures Turns(a + b).state.data.Some?
    ensures GetOrFetch(Turns(a + b).state, turn.times, turn.fetched).data.Success?
    decreases |b|
  {
    if b == [] {
      assert a + b == a;
    } else {
      assert (a + b)[..|a + b| - 1] == a + b[..|b| - 1];
      TurnsKeepData(a, b[..|b| - 1], turn);
    }
  }
}
