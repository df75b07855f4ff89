// When the index of src/rdap.rs agrees with the current registry, for every interleaving.
module BootstrapAgreement {
  import opened Wrappers
  import opened Text
  import opened Bootstrap
  import opened BootstrapOverlap

  // Each index entry is what the current data says; no data, no entries.
  ghost predicate Agrees(r: Rdap) {
    && (r.state.data.None? ==> r.index == map[])
    && (r.state.data.Some? ==> forall t :: t in r.index ==> Match(r.state.data.value, t) == Some(r.index[t]))
  }

  // A call that brought the latest registry has yet to clear the index.
  ghost predicate ClearPending(s: Shared) {
    exists id :: id in s.tasks && s.tasks[id].Clearing? && s.tasks[id].generation == |s.published| - 1
  }

  ghost predicate InStep(s: Shared) {
    ClearPending(s) || Agrees(s.rdap)
  }

  // A superseded answer is inserted after the clearing: no clearing is pending, the label is not
  // indexed, and the registry the call was handed gives a server that the latest does not.
  predicate Superseded(s: Shared, id: nat)
    requires Enabled(s, id, Insert)
  {
    var t := s.tasks[id];
    var server := Match(s.published[t.generation], t.tld);
    t.tld !in s.rdap.index && server.Some? && server != Match(s.published[|s.published| - 1], t.tld)
  }

  ghost predicate LateInsert(s: Shared, id: nat, m: Move)
    requires Enabled(s, id, m)
  {
    m.Insert? && !ClearPending(s) && Superseded(s, id)
  }

  lemma PendingAfter(s: Shared, id: nat, m: Move)
    requires Grounded(s) && Enabled(s, id, m) && !m.Clear?
    ensures ClearPending(s) ==> ClearPending(Moved(s, id, m))
    ensures m.Insert? ==> (ClearPending(Moved(s, id, m)) <==> ClearPending(s))
  {
    var n := Moved(s, id, m);
    if ClearPending(s) {
      var c :| c in s.tasks && s.tasks[c].Clearing? && s.tasks[c].generation == |s.published| - 1;
      assert c != id;
      if n.published != s.published {
        assert id in n.tasks && n.tasks[id].Clearing?;
      } else {
        assert c in n.tasks && n.tasks[c] == s.tasks[c];
      }
    }
    if m.Insert? && ClearPending(n) {
      var c :| c in n.tasks && n.tasks[c].Clearing? && n.tasks[c].generation == |n.published| - 1;
      assert c in s.tasks && s.tasks[c] == n.tasks[c];
    }
  }

  lemma ConsultStaysInStep(s: Shared, id: nat, m: Move)
    requires Grounded(s) && InStep(s) && Enabled(s, id, m) && m.Consult?
    ensures InStep(Moved(s, id, m))
  {
    var n := Moved(s, id, m);
    PendingAfter(s, id, m);
    if n.published != s.published && s.published != [] {
      assert id in n.tasks && n.tasks[id].Clearing? && n.tasks[id].generation == |n.published| - 1;
    }
    if ClearPending(s) {
      var c :| c in s.tasks && s.tasks[c].Clearing? && s.tasks[c].generation == |s.published| - 1;
      assert TaskOk(s, c);
    }
  }

  lemma InsertStaysInStepExactly(s: Shared, id: nat)
    requires Grounded(s) && InStep(s) && Enabled(s, id, Insert)
    ensures InStep(Moved(s, id, Insert)) <==> !LateInsert(s, id, Insert)
  {
    var n, t := Moved(s, id, Insert), s.tasks[id];
    PendingAfter(s, id, Insert);
    assert TaskOk(s, id);
    if !ClearPending(s) && Superseded(s, id) {
      assert n.rdap.index[t.tld] == Match(s.published[t.generation], t.tld).value;
    }
  }

  // One move, from any state that is in step: it stays in step exactly unless it is late.
  lemma MoveStaysInStepExactly(s: Shared, id: nat, m: Move)
    requires Grounded(s) && InStep(s) && Enabled(s, id, m)
    ensures InStep(Moved(s, id, m)) <==> !LateInsert(s, id, m)
  {
    match m {
      case Consult(_, _) => ConsultStaysInStep(s, id, m);
      case Insert => InsertStaysInStepExactly(s, id);
      case Clear =>
      case _ => PendingAfter(s, id, m);
    }
  }

  ghost predicate TimelyAt(moves: seq<(nat, Move)>, i: nat)
    requires i < |moves|
  {
    var s, m := Interleave(moves[..i]), moves[i];
    Enabled(s, m.0, m.1) ==> !LateInsert(s, m.0, m.1)
  }

  ghost predicate InStepAt(moves: seq<(nat, Move)>, k: nat)
    requires k <= |moves|
  {
    InStep(Interleave(moves[..k]))
  }

  lemma InterleaveStep(moves: seq<(nat, Move)>, k: nat)
    requires k < |moves|
    ensures var s, m := Interleave(moves[..k]), moves[k];
            Interleave(moves[..k + 1]) == if Enabled(s, m.0, m.1) then Moved(s, m.0, m.1) else s
  {
    assert moves[..k + 1][..k] == moves[..k];
  }

  lemma NextInStepExactly(moves: seq<(nat, Move)>, k: nat)
    requires k < |moves| && InStepAt(moves, k)
    ensures InStepAt(moves, k + 1) <==> TimelyAt(moves, k)
  {
    var s, m := Interleave(moves[..k]), moves[k];
    InterleaveStep(moves, k);
    InterleavingIsGrounded(moves[..k]);
    if Enabled(s, m.0, m.1) {
      MoveStaysInStepExactly(s, m.0, m.1);
    }
  }

  lemma {:induction false} TimelyIsInStep(moves: seq<(nat, Move)>, k: nat)
    requires k <= |moves| && forall i :: 0 <= i < k ==> TimelyAt(moves, i)
    ensures InStepAt(moves, k)
  {
    if k > 0 {
      TimelyIsInStep(moves, k - 1);
      NextInStepExactly(moves, k - 1);
    }
  }

  // Exactly when an interleaving is in step all along: none of its insertions is late.
  lemma InStepExactly(moves: seq<(nat, Move)>)
    ensures (forall k :: 0 <= k <= |moves| ==> InStepAt(moves, k)) <==> (forall i :: 0 <= i < |moves| ==> TimelyAt(moves, i))
  {
    if forall i :: 0 <= i < |moves| ==> TimelyAt(moves, i) {
      forall k | 0 <= k <= |moves| ensures InStepAt(moves, k) {
        TimelyIsInStep(moves, k);
      }
    }
    if forall k :: 0 <= k <= |moves| ==> InStepAt(moves, k) {
      forall i | 0 <= i < |moves| ensures TimelyAt(moves, i) {
        assert InStepAt(moves, i) && InStepAt(moves, i + 1);
        NextInStepExactly(moves, i);
      }
    }
  }

  // Without late insertions the index agrees with the current data whenever no clearing is
  // under way, so also when all calls are over.
  lemma TimelyAgrees(moves: seq<(nat, Move)>)
    requires forall i :: 0 <= i < |moves| ==> TimelyAt(moves, i)
    ensures ClearPending(Interleave(moves)) || Agrees(Interleave(moves).rdap)
    ensures Interleave(moves).tasks == map[] ==> Agrees(Interleave(moves).rdap)
  {
    TimelyIsInStep(moves, |moves|);
    assert moves[..|moves|] == moves;
  }

  function Com(server: string): Registry { [Service(["com"], [server])] }

  // Agreement with the current data is lost: call 0 brings the first registry, call 1 reads it
  // a second before it expires, call 2 refreshes it and clears the index, and only then does
  // call 1 insert. With every call over, the old entry stays.
  lemma StaleEntrySurvives() returns (moves: seq<(nat, Move)>)
    ensures var s := Interleave(moves);
            && s.tasks == map[]
            && s.rdap.state.data.Some? && "com" in s.rdap.index
            && Match(s.rdap.state.data.value, "com") != Some(s.rdap.index["com"])
  {
    var ms, s := RefreshBehindCallOne();
    ms, s := MoveOn(ms, (2, Clear), s);
    ms, s := MoveOn(ms, (2, Insert), s);
    assert ServerFor(Com("b"), "y").None? && LastLabel("y") == "y";
    assert s.tasks == map[1 := Holding("com", 0, 1)] && s.rdap.index == map[];
    ms, s := MoveOn(ms, (1, Insert), s);
    assert ServerFor(Com("a"), "com") == Some("a") && ServerFor(Com("b"), "com") == Some("b");
    assert s.tasks == map[];
    moves := ms;
  }

  lemma RefreshBehindCallOne() returns (moves: seq<(nat, Move)>, s: Shared)
    ensures s == Interleave(moves)
    ensures s.rdap == Rdap(State(Some(Com("b")), Some(86400), Some(86400)), map[]) && s.published == [Com("a"), Com("b")]
    ensures s.tasks == map[1 := Holding("com", 0, 1), 2 := Clearing("y", 1, 1)]
  {
    moves, s := FirstRegistry();
    moves, s := MoveOn(moves, (1, Miss("com")), s);
    moves, s := MoveOn(moves, (1, Consult(At(86399), Success(Com("b")))), s);
    assert s.tasks == map[1 := Holding("com", 0, 1)];
    moves, s := MoveOn(moves, (2, Miss("y")), s);
    moves, s := MoveOn(moves, (2, Consult(At(86400), Success(Com("b")))), s);
    assert s.tasks == map[1 := Holding("com", 0, 1), 2 := Clearing("y", 1, 1)];
  }

  lemma FirstRegistry() returns (moves: seq<(nat, Move)>, s: Shared)
    ensures s == Interleave(moves)
    ensures s.rdap == Rdap(State(Some(Com("a")), Some(0), Some(0)), map[]) && s.published == [Com("a")] && s.tasks == map[]
  {
    moves, s := [], BEGINNING;
    moves, s := MoveOn(moves, (0, Miss("x")), s);
    moves, s := MoveOn(moves, (0, Consult(At(0), Success(Com("a")))), s);
    moves, s := MoveOn(moves, (0, Insert), s);
    assert ServerFor(Com("a"), "x").None? && LastLabel("x") == "x";
    assert s.tasks == map[];
  }
}
