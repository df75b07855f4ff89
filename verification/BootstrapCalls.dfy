// Calls that follow one another are one of the interleavings.
module BootstrapCalls {
  import opened Wrappers
  import opened Bootstrap
  import opened BootstrapOverlap
  import opened BootstrapAgreement
  import BootstrapLaws

  // One call, section by section; the sections it does not reach are not enabled.
  function Sections(c: Call): seq<(nat, Move)> {
    [(0, Hit(c.tld))] + [(0, Miss(c.tld))] + [(0, Consult(c.times, c.fetched))] + [(0, Clear)] + [(0, Insert)]
  }

  function MovesOf(calls: seq<Call>): seq<(nat, Move)> {
    if calls == [] then [] else MovesOf(calls[..|calls| - 1]) + Sections(calls[|calls| - 1])
  }

  function Step(s: Shared, m: Move): Shared {
    if Enabled(s, 0, m) then Moved(s, 0, m) else s
  }

  function Called(s: Shared, c: Call): Shared {
    Step(Step(Step(Step(Step(s, Hit(c.tld)), Miss(c.tld)), Consult(c.times, c.fetched)), Clear), Insert)
  }

  lemma SectionsAreCall(before: seq<(nat, Move)>, c: Call)
    ensures Interleave(before + Sections(c)) == Called(Interleave(before), c)
  {
    var m, s := before, Interleave(before);
    m, s := MoveOn(m, (0, Hit(c.tld)), s);
    m, s := MoveOn(m, (0, Miss(c.tld)), s);
    m, s := MoveOn(m, (0, Consult(c.times, c.fetched)), s);
    m, s := MoveOn(m, (0, Clear), s);
    m, s := MoveOn(m, (0, Insert), s);
    assert m == before + Sections(c);
  }

  // A call that was handed a registry clears the index if it must, and inserts its answer.
  lemma CallFinishes(s: Shared, tld: string, clears: bool, began: nat)
    requires s.published != []
    requires var g := |s.published| - 1; s.tasks == map[0 := if clears then Clearing(tld, g, began) else Holding(tld, g, began)]
    ensures var index := if clears then map[] else s.rdap.index;
            var server := Match(s.published[|s.published| - 1], tld);
            Step(Step(s, Clear), Insert) ==
            Shared(s.rdap.(index := Remember(index, tld, server)), s.published, map[],
                   s.replies + [Reply(tld, server, false, began, |s.published|)])
  {
    var n := Step(Step(s, Clear), Insert);
    assert n.tasks == map[];
  }

  lemma CallMisses(s: Shared, tld: string, missed: Shared)
    requires s.tasks == map[] && tld !in s.rdap.index && missed == s.(tasks := map[0 := Missed(tld, |s.published|)])
    ensures Step(Step(s, Hit(tld)), Miss(tld)) == missed
  {
  }

  // Between calls no task is left; a call leaves the service as specified, with its answer.
  lemma CallIsFindServer(s: Shared, c: Call)
    requires Grounded(s) && s.tasks == map[]
    ensures var n, a := Called(s, c), FindServer(s.rdap, c);
            && n.rdap == a.after && n.tasks == map[]
            && |n.replies| == |s.replies| + 1 && n.replies[|s.replies|].tld == c.tld && n.replies[|s.replies|].server == a.server
  {
    if c.tld !in s.rdap.index {
      var missed := s.(tasks := map[0 := Missed(c.tld, |s.published|)]);
      CallMisses(s, c.tld, missed);
      var consulted := Step(missed, Consult(c.times, c.fetched));
      var a := GetOrFetch(s.rdap.state, c.times, c.fetched);
      if a.data.Success? {
        CallFinishes(consulted, c.tld, a.refreshed, |s.published|);
      } else {
        assert consulted.tasks == map[];
      }
    }
  }

  // A run of calls that follow one another is an interleaving: same state, same index, and as
  // its latest answer that of the last call.
  lemma {:induction false} RunIsInterleaving(calls: seq<Call>)
    ensures var s := Interleave(MovesOf(calls));
            && s.rdap == BootstrapLaws.Run(calls) && s.tasks == map[] && |s.replies| == |calls|
            && (calls != [] ==>
                s.replies[|calls| - 1].server == FindServer(BootstrapLaws.Run(calls[..|calls| - 1]), calls[|calls| - 1]).server)
  {
    if calls != [] {
      var init, c := calls[..|calls| - 1], calls[|calls| - 1];
      RunIsInterleaving(init);
      InterleavingIsGrounded(MovesOf(init));
      SectionsAreCall(MovesOf(init), c);
      CallIsFindServer(Interleave(MovesOf(init)), c);
    }
  }

  // With one call at a time, every task holds the latest registry.
  ghost predicate Alone(s: Shared) {
    forall id :: id in s.tasks ==> id == 0 && (!s.tasks[id].Missed? ==> s.tasks[id].generation == |s.published| - 1)
  }

  lemma StepStaysAlone(s: Shared, m: Move)
    requires Alone(s)
    ensures Alone(Step(s, m))
  {
  }

  lemma AloneIsTimely(s: Shared, m: Move)
    requires Alone(s) && Enabled(s, 0, m)
    ensures !LateInsert(s, 0, m)
  {
  }

  lemma {:induction false} OneAtATimeIsTimely(moves: seq<(nat, Move)>, k: nat)
    requires k <= |moves| && forall i :: 0 <= i < |moves| ==> moves[i].0 == 0
    ensures Alone(Interleave(moves[..k])) && (k < |moves| ==> TimelyAt(moves, k))
  {
    if k > 0 {
      OneAtATimeIsTimely(moves, k - 1);
      InterleaveStep(moves, k - 1);
      StepStaysAlone(Interleave(moves[..k - 1]), moves[k - 1].1);
    }
    if k < |moves| && Enabled(Interleave(moves[..k]), 0, moves[k].1) {
      AloneIsTimely(Interleave(moves[..k]), moves[k].1);
    }
  }

  lemma {:induction false} MovesAreAlone(calls: seq<Call>)
    ensures forall i :: 0 <= i < |MovesOf(calls)| ==> MovesOf(calls)[i].0 == 0
  {
    if calls != [] {
      MovesAreAlone(calls[..|calls| - 1]);
    }
  }

  lemma CallAnswersCurrent(r: Rdap, c: Call)
    requires Agrees(r)
    ensures var a := FindServer(r, c);
            a.server == (match a.after.state.data case Some(reg) => Match(reg, c.tld) case None => None)
  {
  }

  lemma RunIsInStep(calls: seq<Call>)
    ensures Agrees(BootstrapLaws.Run(calls))
  {
    var moves := MovesOf(calls);
    MovesAreAlone(calls);
    forall i | 0 <= i < |moves| ensures TimelyAt(moves, i) {
      OneAtATimeIsTimely(moves, i);
    }
    TimelyAgrees(moves);
    RunIsInterleaving(calls);
  }

  // When calls follow one another no insertion is late: the index agrees with the data, and
  // every call answers exactly as a lookup without an index would in the data it leaves.
  lemma RunAgrees(calls: seq<Call>)
    ensures Agrees(BootstrapLaws.Run(calls))
    ensures calls != [] ==>
            var before, c := BootstrapLaws.Run(calls[..|calls| - 1]), calls[|calls| - 1];
            FindServer(before, c).server ==
              (match BootstrapLaws.Run(calls).state.data case Some(reg) => Match(reg, c.tld) case None => None)
  {
    RunIsInStep(calls);
    if calls != [] {
      RunIsInStep(calls[..|calls| - 1]);
      CallAnswersCurrent(BootstrapLaws.Run(calls[..|calls| - 1]), calls[|calls| - 1]);
    }
  }
}
