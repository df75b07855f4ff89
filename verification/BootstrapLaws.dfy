// What holds over whole runs of find_rdap_server calls that follow one another.
module BootstrapLaws {
  import opened Wrappers
  import opened Spacing
  import opened Bootstrap
  import opened BootstrapPacing

  // The service a run of calls leaves.
  function Run(calls: seq<Call>): Rdap {
    if calls == [] then Rdap(INITIAL, map[])
    else FindServer(Run(calls[..|calls| - 1]), calls[|calls| - 1]).after
  }

  // The bootstrap accesses of a run: its calls that miss the index.
  function Accesses(calls: seq<Call>): seq<Turn> {
    if calls == [] then []
    else
      var init, c := calls[..|calls| - 1], calls[|calls| - 1];
      if c.tld in Run(init).index then Accesses(init) else Accesses(init) + [Turn(c.times, c.fetched)]
  }

  // Calls do not overlap and the clock is monotonic.
  ghost predicate Sequential(calls: seq<Call>) {
    && (forall c :: c in calls ==> c.times.Ordered())
    && (forall i, j :: 0 <= i < j < |calls| ==> calls[i].times.fetched <= calls[j].times.freshness)
  }

  lemma {:induction false} RunIsItsAccesses(calls: seq<Call>)
    ensures Run(calls).state == Turns(Accesses(calls)).state
  {
    if calls != [] {
      var init, c := calls[..|calls| - 1], calls[|calls| - 1];
      RunIsItsAccesses(init);
      OneMoreTurn(Accesses(init), Turn(c.times, c.fetched));
    }
  }

  lemma {:induction false} SequentialIsOrdered(calls: seq<Call>)
    requires Sequential(calls)
    ensures Ordered(Accesses(calls))
    ensures forall t :: t in Accesses(calls) ==> calls != [] && t.times.fetched <= calls[|calls| - 1].times.fetched
  {
    if calls != [] {
      var init, c := calls[..|calls| - 1], calls[|calls| - 1];
      SequentialIsOrdered(init);
      assert init != [] ==> calls[|init| - 1].times.fetched <= calls[|init|].times.freshness;
      OneMoreOrdered(Accesses(init), Turn(c.times, c.fetched));
    }
  }

  lemma OneMoreOrdered(turns: seq<Turn>, turn: Turn)
    requires Ordered(turns) && turn.times.Ordered() && forall t :: t in turns ==> t.times.fetched <= turn.times.freshness
    ensures Ordered(turns + [turn]) && forall t :: t in turns + [turn] ==> t.times.fetched <= turn.times.fetched
  {
  }

  // The pacing of accesses, for calls that follow one another.
  lemma RunIsPaced(calls: seq<Call>)
    requires Sequential(calls)
    ensures var t := Turns(Accesses(calls));
            Run(calls).state == t.state && Paced(t) && Recorded(t, End(Accesses(calls)))
  {
    RunIsItsAccesses(calls);
    SequentialIsOrdered(calls);
    TurnsArePaced(Accesses(calls));
  }

  lemma AttemptsInWindow(calls: seq<Call>, start: int, length: nat)
    requires Sequential(calls)
    ensures CountWithin(Turns(Accesses(calls)).attempts, start, start + length) <= length / 300 + 1
  {
    SequentialIsOrdered(calls);
    TurnsInWindow(Accesses(calls), start, length);
  }

  // A call has answered for the label since the last refresh of the data.
  ghost predicate Remembered(calls: seq<Call>, tld: string) {
    calls != [] &&
    var init, c := calls[..|calls| - 1], calls[|calls| - 1];
    || (c.tld == tld && FindServer(Run(init), c).server.Some?)
    || (Remembered(init, tld) && !(Attempts(Run(init), c) && c.fetched.Success? && Run(init).state.data.Some?))
  }

  lemma {:induction false} IndexedExactly(calls: seq<Call>, tld: string)
    ensures tld in Run(calls).index <==> Remembered(calls, tld)
  {
    if calls != [] {
      IndexedExactly(calls[..|calls| - 1], tld);
      IndexedExactly(calls[..|calls| - 1], calls[|calls| - 1].tld);
    }
  }

  // When a call fetches, by the calls before it: none has answered for its label since the
  // last refresh, and a fetch is due.
  lemma CallFetchesExactly(calls: seq<Call>, c: Call)
    requires Sequential(calls)
    ensures Attempts(Run(calls), c) <==> !Remembered(calls, c.tld) && Due(Turns(Accesses(calls)), c.times)
  {
    RunIsItsAccesses(calls);
    SequentialIsOrdered(calls);
    TurnFetchesExactly(Accesses(calls), c.times);
    IndexedExactly(calls, c.tld);
  }

  // Data once fetched never disappears, and from then on no access to it fails.
  lemma {:induction false} DataPersists(a: seq<Call>, b: seq<Call>, t: Times, fetched: Result<Registry, RdapError>)
    requires Run(a).state.data.Some?
    ensures Run(a + b).state.data.Some? && GetOrFetch(Run(a + b).state, t, fetched).data.Success?
    decreases |b|
  {
    if b == [] {
      assert a + b == a;
    } else {
      assert (a + b)[..|a + b| - 1] == a + b[..|b| - 1];
      DataPersists(a, b[..|b| - 1], t, fetched);
    }
  }

  // The refresh promise reaches only calls that miss the index: an indexed label never causes
  // a fetch and keeps its answer, however much time passes.
  lemma {:induction false} IndexedLabelNeverRefreshes(a: seq<Call>, b: seq<Call>)
    requires forall c :: c in b ==> c.tld in Run(a).index
    ensures Run(a + b) == Run(a) && Accesses(a + b) == Accesses(a)
    decreases |b|
  {
    if b == [] {
      assert a + b == a;
    } else {
      var init, c := b[..|b| - 1], b[|b| - 1];
      assert (a + b)[..|a + b| - 1] == a + init;
      assert forall d :: d in init ==> d in b;
      IndexedLabelNeverRefreshes(a, init);
    }
  }
}
