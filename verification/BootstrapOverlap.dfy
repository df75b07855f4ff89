// src/rdap.rs under overlapping calls: what the index still guarantees, and what it loses.
module BootstrapOverlap {
  import opened Wrappers
  import opened Spacing
  import opened Bootstrap
  import opened BootstrapPacing

  // Where a call stands between its critical sections. The generation is the position, in
  // publication order, of the registry the call was handed; began counts the registries
  // published when the call found its label missing.
  datatype Task =
    | Missed(tld: string, began: nat)
    | Clearing(tld: string, generation: nat, began: nat)
    | Holding(tld: string, generation: nat, began: nat)

  // What a call returned, from the index or not, and how many registries were published when
  // it began and when it ended.
  datatype Reply = Reply(tld: string, server: Option<string>, indexed: bool, began: nat, ended: nat)

  datatype Shared = Shared(rdap: Rdap, published: seq<Registry>, tasks: map<nat, Task>, replies: seq<Reply>)

  // One critical section of one call: the index read that hits or misses, the bootstrap access
  // under its mutex, the clearing after a refresh, the final insertion.
  datatype Move =
    | Hit(tld: string)
    | Miss(tld: string)
    | Consult(times: Times, fetched: Result<Registry, RdapError>)
    | Clear
    | Insert

  predicate Enabled(s: Shared, id: nat, m: Move) {
    match m
    case Hit(tld) => id !in s.tasks && tld in s.rdap.index
    case Miss(tld) => id !in s.tasks && tld !in s.rdap.index
    case Consult(_, _) => id in s.tasks && s.tasks[id].Missed?
    case Clear => id in s.tasks && s.tasks[id].Clearing?
    case Insert => id in s.tasks && s.tasks[id].Holding? && s.tasks[id].generation < |s.published|
  }

  // The call ends with an answer that does not come from the index.
  function Answered(s: Shared, id: nat, server: Option<string>): Shared
    requires id in s.tasks
  {
    var t := s.tasks[id];
    s.(tasks := s.tasks - {id}, replies := s.replies + [Reply(t.tld, server, false, t.began, |s.published|)])
  }

  function Consulted(s: Shared, id: nat, times: Times, fetched: Result<Registry, RdapError>): Shared
    requires id in s.tasks && s.tasks[id].Missed?
  {
    var t, a := s.tasks[id], GetOrFetch(s.rdap.state, times, fetched);
    var fetchedNew := Decide(s.rdap.state, times).Fetch? && fetched.Success?;
    var published := if fetchedNew then s.published + [fetched.value] else s.published;
    var n := s.(rdap := s.rdap.(state := a.state), published := published);
    if a.data.Failure? || published == [] then Answered(n, id, None)
    else
      var g := |published| - 1;
      n.(tasks := n.tasks[id := if a.refreshed then Clearing(t.tld, g, t.began) else Holding(t.tld, g, t.began)])
  }

  function Moved(s: Shared, id: nat, m: Move): Shared
    requires Enabled(s, id, m)
  {
    match m
    case Hit(tld) =>
      s.(replies := s.replies + [Reply(tld, Some(s.rdap.index[tld]), true, |s.published|, |s.published|)])
    case Miss(tld) => s.(tasks := s.tasks[id := Missed(tld, |s.published|)])
    case Consult(times, fetched) => Consulted(s, id, times, fetched)
    case Clear =>
      var t := s.tasks[id];
      s.(rdap := s.rdap.(index := map[]), tasks := s.tasks[id := Holding(t.tld, t.generation, t.began)])
    case Insert =>
      var t := s.tasks[id];
      var server := Match(s.published[t.generation], t.tld);
      Answered(s.(rdap := s.rdap.(index := Remember(s.rdap.index, t.tld, server))), id, server)
  }

  const BEGINNING := Shared(Rdap(INITIAL, map[]), [], map[], [])

  // An interleaving: which call moves, and how. Moves that are not enabled change nothing.
  function Interleave(moves: seq<(nat, Move)>): Shared {
    if moves == [] then BEGINNING
    else
      var s, last := Interleave(moves[..|moves| - 1]), moves[|moves| - 1];
      if Enabled(s, last.0, last.1) then Moved(s, last.0, last.1) else s
  }

  // The answer of a registry published at a position in the given range.
  ghost predicate FromGeneration(published: seq<Registry>, tld: string, server: Option<string>, from: int, to: int) {
    exists g :: 0 <= g < |published| && from <= g < to && Match(published[g], tld) == server
  }

  ghost predicate IndexOk(s: Shared, tld: string) {
    tld in s.rdap.index ==> FromGeneration(s.published, tld, Some(s.rdap.index[tld]), 0, |s.published|)
  }

  ghost predicate TaskOk(s: Shared, id: nat) {
    id in s.tasks ==>
      var t := s.tasks[id];
      t.began <= |s.published| && (!t.Missed? ==> t.began - 1 <= t.generation < |s.published|)
  }

  // An answer from the index is some registry's; any other is that of a registry which was the
  // latest at some moment of the call, or no server because there was no registry yet.
  ghost predicate ReplyOk(s: Shared, r: Reply) {
    && r.began <= r.ended <= |s.published|
    && (if r.indexed then r.server.Some? && FromGeneration(s.published, r.tld, r.server, 0, r.ended)
        else (r.server.None? && r.ended == 0) || FromGeneration(s.published, r.tld, r.server, r.began - 1, r.ended))
  }

  ghost predicate Grounded(s: Shared) {
    && s.rdap.state.data == (if s.published == [] then None else Some(s.published[|s.published| - 1]))
    && (forall t :: IndexOk(s, t))
    && (forall id :: TaskOk(s, id))
    && (forall i :: 0 <= i < |s.replies| ==> ReplyOk(s, s.replies[i]))
  }

  lemma GenerationStays(a: seq<Registry>, b: seq<Registry>, tld: string, server: Option<string>, from: int, to: int)
    requires a <= b && FromGeneration(a, tld, server, from, to)
    ensures FromGeneration(b, tld, server, from, to) && FromGeneration(b, tld, server, from, |a|)
  {
    var g :| 0 <= g < |a| && from <= g < to && Match(a[g], tld) == server;
    assert b[g] == a[g];
  }

  lemma WiderRange(a: seq<Registry>, tld: string, server: Option<string>, from: int, to: int, wider: int)
    requires FromGeneration(a, tld, server, from, to) && to <= wider
    ensures FromGeneration(a, tld, server, from, wider)
  {
    var g :| 0 <= g < |a| && from <= g < to && Match(a[g], tld) == server;
  }

  lemma MoveKeepsIndex(s: Shared, id: nat, m: Move, tld: string)
    requires Grounded(s) && Enabled(s, id, m)
    ensures IndexOk(Moved(s, id, m), tld)
  {
    var n := Moved(s, id, m);
    assert IndexOk(s, tld);
    if tld in n.rdap.index {
      if tld in s.rdap.index && n.rdap.index[tld] == s.rdap.index[tld] {
        GenerationStays(s.published, n.published, tld, Some(s.rdap.index[tld]), 0, |s.published|);
        WiderRange(n.published, tld, Some(s.rdap.index[tld]), 0, |s.published|, |n.published|);
      } else {
        assert m.Insert? && TaskOk(s, id);
      }
    }
  }

  lemma MoveKeepsTask(s: Shared, id: nat, m: Move, other: nat)
    requires Grounded(s) && Enabled(s, id, m)
    ensures TaskOk(Moved(s, id, m), other)
  {
    assert TaskOk(s, id) && TaskOk(s, other);
  }

  // The reply a move adds, if any.
  lemma MoveReplies(s: Shared, id: nat, m: Move)
    requires Grounded(s) && Enabled(s, id, m)
    ensures var n := Moved(s, id, m);
            && s.published <= n.published
            && (n.replies == s.replies || (|n.replies| == |s.replies| + 1 && s.replies <= n.replies && ReplyOk(n, n.replies[|s.replies|])))
  {
    var n := Moved(s, id, m);
    assert TaskOk(s, id);
    if m.Hit? { assert IndexOk(s, m.tld); }
    if m.Insert? {
      var t := s.tasks[id];
      assert FromGeneration(s.published, t.tld, Match(s.published[t.generation], t.tld), t.began - 1, |s.published|);
    }
  }

  lemma ReplyStays(s: Shared, n: Shared, r: Reply)
    requires ReplyOk(s, r) && s.published <= n.published
    ensures ReplyOk(n, r)
  {
    if r.indexed {
      GenerationStays(s.published, n.published, r.tld, r.server, 0, r.ended);
    } else if !(r.server.None? && r.ended == 0) {
      GenerationStays(s.published, n.published, r.tld, r.server, r.began - 1, r.ended);
    }
  }

  lemma MoveKeepsGrounded(s: Shared, id: nat, m: Move)
    requires Grounded(s) && Enabled(s, id, m)
    ensures Grounded(Moved(s, id, m))
  {
    var n := Moved(s, id, m);
    forall t ensures IndexOk(n, t) {
      MoveKeepsIndex(s, id, m, t);
    }
    forall other ensures TaskOk(n, other) {
      MoveKeepsTask(s, id, m, other);
    }
    MoveReplies(s, id, m);
    forall i | 0 <= i < |n.replies| ensures ReplyOk(n, n.replies[i]) {
      if i < |s.replies| {
        assert n.replies[i] == s.replies[i];
        ReplyStays(s, n, s.replies[i]);
      }
    }
  }

  // Under every interleaving each index entry comes from some registry published so far, and
  // so does each answer; a call that missed the index answers by a registry that was the latest
  // while it ran.
  lemma {:induction false} InterleavingIsGrounded(moves: seq<(nat, Move)>)
    ensures Grounded(Interleave(moves))
  {
    if moves != [] {
      var s, last := Interleave(moves[..|moves| - 1]), moves[|moves| - 1];
      InterleavingIsGrounded(moves[..|moves| - 1]);
      if Enabled(s, last.0, last.1) {
        MoveKeepsGrounded(s, last.0, last.1);
      }
    }
  }

  // What overlapping calls answer: a server is that of a registry published before the call
  // ended; and when it does not come from the index, of one that was the latest while it ran.
  lemma InterleavingAnswers(moves: seq<(nat, Move)>, i: nat)
    requires i < |Interleave(moves).replies|
    ensures var s := Interleave(moves); var r := s.replies[i];
            && r.began <= r.ended <= |s.published|
            && (r.indexed ==> r.server.Some? && FromGeneration(s.published, r.tld, r.server, 0, r.ended))
            && (!r.indexed && r.ended > 0 ==> FromGeneration(s.published, r.tld, r.server, r.began - 1, r.ended))
            && (!r.indexed && r.ended == 0 ==> r.server.None?)
  {
    InterleavingIsGrounded(moves);
    assert ReplyOk(Interleave(moves), Interleave(moves).replies[i]);
  }

  // The accesses of an interleaving, in the order in which they held the mutex.
  function Accesses(moves: seq<(nat, Move)>): seq<Turn> {
    if moves == [] then []
    else
      var init, last := moves[..|moves| - 1], moves[|moves| - 1];
      if last.1.Consult? && Enabled(Interleave(init), last.0, last.1)
      then Accesses(init) + [Turn(last.1.times, last.1.fetched)] else Accesses(init)
  }

  lemma {:induction false} InterleavingIsItsAccesses(moves: seq<(nat, Move)>)
    ensures Interleave(moves).rdap.state == Turns(Accesses(moves)).state
  {
    if moves != [] {
      var init, last := moves[..|moves| - 1], moves[|moves| - 1];
      InterleavingIsItsAccesses(init);
      if last.1.Consult? {
        OneMoreTurn(Accesses(init), Turn(last.1.times, last.1.fetched));
      }
    }
  }

  // However calls overlap, the accesses are paced: 300 s between attempts, 24 h after a
  // success, so a window holds at most its share; and the state is what they left.
  lemma InterleavingIsPaced(moves: seq<(nat, Move)>, start: int, length: nat)
    requires Ordered(Accesses(moves))
    ensures var t := Turns(Accesses(moves));
            && Interleave(moves).rdap.state == t.state && Paced(t) && Recorded(t, End(Accesses(moves)))
            && CountWithin(t.attempts, start, start + length) <= length / 300 + 1
  {
    InterleavingIsItsAccesses(moves);
    TurnsArePaced(Accesses(moves));
    TurnsInWindow(Accesses(moves), start, length);
  }

  // An access made at any point of any interleaving fetches exactly when one is due by the
  // history of all calls.
  lemma ConsultFetchesExactly(moves: seq<(nat, Move)>, times: Times)
    requires Ordered(Accesses(moves))
    ensures Decide(Interleave(moves).rdap.state, times).Fetch? <==> Due(Turns(Accesses(moves)), times)
  {
    InterleavingIsItsAccesses(moves);
    TurnFetchesExactly(Accesses(moves), times);
  }

  lemma {:induction false} AccessesExtend(a: seq<(nat, Move)>, b: seq<(nat, Move)>) returns (more: seq<Turn>)
    ensures Accesses(a + b) == Accesses(a) + more
    decreases |b|
  {
    if b == [] {
      assert a + b == a;
      more := [];
    } else {
      assert (a + b)[..|a + b| - 1] == a + b[..|b| - 1];
      more := AccessesExtend(a, b[..|b| - 1]);
      more := more + Accesses(a + b)[|Accesses(a + b[..|b| - 1])|..];
    }
  }

  // Once some call has published data, the data stays whatever calls do, and no call that
  // consults it comes back empty-handed.
  lemma InterleavingKeepsData(a: seq<(nat, Move)>, b: seq<(nat, Move)>)
    requires Interleave(a).rdap.state.data.Some?
    ensures Interleave(a + b).rdap.state.data.Some?
    ensures forall id, m: Move :: m.Consult? && Enabled(Interleave(a + b), id, m) ==> StillHolds(Moved(Interleave(a + b), id, m), id)
  {
    InterleavingIsItsAccesses(a);
    InterleavingIsItsAccesses(a + b);
    InterleavingIsGrounded(a + b);
    var more := AccessesExtend(a, b);
    TurnsKeepData(Accesses(a), more, Turn(At(0), Failure(RetryPending)));
    forall id, m: Move | m.Consult? && Enabled(Interleave(a + b), id, m) ensures StillHolds(Moved(Interleave(a + b), id, m), id) {
      ConsultServes(Interleave(a + b), id, m);
    }
  }

  // The call was handed a registry.
  predicate StillHolds(s: Shared, id: nat) {
    s.rdap.state.data.Some? && id in s.tasks && !s.tasks[id].Missed?
  }

  lemma ConsultServes(s: Shared, id: nat, m: Move)
    requires Grounded(s) && s.rdap.state.data.Some? && m.Consult? && Enabled(s, id, m)
    ensures StillHolds(Moved(s, id, m), id)
  {
  }

  function At(now: int): Times { Times(now, now, now, now) }

  lemma MoveOn(moves: seq<(nat, Move)>, m: (nat, Move), s: Shared) returns (longer: seq<(nat, Move)>, n: Shared)
    requires s == Interleave(moves)
    ensures longer == moves + [m] && n == Interleave(longer)
    ensures n == if Enabled(s, m.0, m.1) then Moved(s, m.0, m.1) else s
  {
    longer := moves + [m];
    assert longer[..|moves|] == moves;
    n := Interleave(longer);
  }
}
