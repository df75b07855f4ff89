// src/whois.rs: the referral walk, follow_referrals, for every reply oracle.
module Walk {
  import opened Wrappers
  import opened Network
  import opened Referral
  import Text

  datatype Hop = Hop(server: string, data: string)

  // What a walk needs: the world, how a referral is read from a reply, the text it asks for.
  datatype Walker = Walker(world: World, referral: string -> Option<string>, text: string) {
    function Ask(log: History, server: string): Reply { world.reply(log, Query(server, text)) }

    function Sent(log: History, server: string): History { log + [Query(server, text)] }
  }

  // Where a walk ends, the hops it adopted on the way, and the traffic so far.
  datatype WalkEnd = WalkEnd(at: Hop, path: seq<Hop>, log: History)

  // One query is attempted per hop; the first failure ends the walk.
  function Follow(k: Walker, log: History, at: Hop, visited: set<string>, hops: nat): WalkEnd
    decreases hops
  {
    var next := k.referral(at.data);
    if hops == 0 || next.None? || next.value in visited then WalkEnd(at, [], log)
    else
      match k.Ask(log, next.value)
      case Failure(_) => WalkEnd(at, [], k.Sent(log, next.value))
      case Success(data) =>
        var hop := Hop(next.value, data);
        var rest := Follow(k, k.Sent(log, next.value), hop, visited + {next.value}, hops - 1);
        rest.(path := [hop] + rest.path)
  }

  function ReferralWalker(w: World, text: string): Walker {
    Walker(w, ExtractWhoisServer, text)
  }

  function FollowReferrals(w: World, log: History, start: Hop, maxReferrals: nat, text: string): WalkEnd {
    Follow(ReferralWalker(w, text), log, start, {start.server}, maxReferrals)
  }

  function Servers(path: seq<Hop>): set<string> {
    set h | h in path :: h.server
  }

  // Each hop answers the referral in the data before it, with its own reply at that moment.
  ghost predicate Chain(k: Walker, log: History, at: Hop, path: seq<Hop>)
    decreases |path|
  {
    path == [] ||
    (&& k.referral(at.data) == Some(path[0].server)
     && k.Ask(log, path[0].server) == Success(path[0].data)
     && Chain(k, k.Sent(log, path[0].server), path[0], path[1..]))
  }

  ghost predicate Simple(path: seq<Hop>, visited: set<string>) {
    && (forall i :: 0 <= i < |path| ==> path[i].server !in visited)
    && (forall i, j :: 0 <= i < j < |path| ==> path[i].server != path[j].server)
  }

  // Why a walk stopped: the cap, no referral, a visited one, or one whose query failed.
  ghost predicate Exhausted(k: Walker, log: History, end: WalkEnd, visited: set<string>, hops: nat) {
    var next := k.referral(end.at.data);
    || |end.path| == hops
    || next.None?
    || next.value in visited + Servers(end.path)
    || (exists before: History :: end.log == k.Sent(before, next.value) && k.Ask(before, next.value).Failure?)
  }

  // The hop adopted from here, if any.
  ghost function Adopted(k: Walker, log: History, at: Hop, visited: set<string>, hops: nat): Option<Hop> {
    var next := k.referral(at.data);
    if hops == 0 || next.None? || next.value in visited then None
    else
      var reply := k.Ask(log, next.value);
      if reply.Success? then Some(Hop(next.value, reply.value)) else None
  }

  lemma FollowUnfolds(k: Walker, log: History, at: Hop, visited: set<string>, hops: nat)
    ensures var end, hop := Follow(k, log, at, visited, hops), Adopted(k, log, at, visited, hops);
            && (hop.None? ==> end.at == at && end.path == [])
            && (hop.Some? ==>
                var rest := Follow(k, k.Sent(log, hop.value.server), hop.value, visited + {hop.value.server}, hops - 1);
                end == WalkEnd(rest.at, [hop.value] + rest.path, rest.log))
  {
  }

  lemma SimpleCons(hop: Hop, path: seq<Hop>, visited: set<string>)
    requires hop.server !in visited && Simple(path, visited + {hop.server})
    ensures Simple([hop] + path, visited)
  {
  }

  lemma ChainCons(k: Walker, log: History, at: Hop, hop: Hop, path: seq<Hop>)
    requires k.referral(at.data) == Some(hop.server) && k.Ask(log, hop.server) == Success(hop.data)
    requires Chain(k, k.Sent(log, hop.server), hop, path)
    ensures Chain(k, log, at, [hop] + path)
  {
    assert ([hop] + path)[1..] == path;
  }

  lemma ServersCons(hop: Hop, path: seq<Hop>, visited: set<string>)
    ensures visited + {hop.server} + Servers(path) == visited + Servers([hop] + path)
  {
    assert Servers([hop] + path) == {hop.server} + Servers(path);
  }

  // The adopted servers form a simple path, each hop holding its own server's reply.
  lemma {:induction false} FollowIsSimpleChain(k: Walker, log: History, at: Hop, visited: set<string>, hops: nat)
    ensures var end := Follow(k, log, at, visited, hops);
            && |end.path| <= hops
            && Simple(end.path, visited)
            && Chain(k, log, at, end.path)
            && end.at == (if end.path == [] then at else end.path[|end.path| - 1])
    decreases hops
  {
    FollowUnfolds(k, log, at, visited, hops);
    var hop := Adopted(k, log, at, visited, hops);
    if hop.Some? {
      var h, sent := hop.value, k.Sent(log, hop.value.server);
      var rest := Follow(k, sent, h, visited + {h.server}, hops - 1);
      FollowIsSimpleChain(k, sent, h, visited + {h.server}, hops - 1);
      SimpleCons(h, rest.path, visited);
      ChainCons(k, log, at, h, rest.path);
    }
  }

  // Traffic of a walk: only queries for the walk's own text, to clean hosts.
  ghost predicate WalkTraffic(k: Walker, log: History, sent: History) {
    && log <= sent
    && forall i :: |log| <= i < |sent| ==> sent[i].Query? && sent[i].text == k.text && Clean(sent[i].server)
  }

  lemma {:induction false} FollowTraffic(k: Walker, log: History, at: Hop, visited: set<string>, hops: nat)
    requires forall d :: k.referral(d).Some? ==> Clean(k.referral(d).value)
    ensures var end := Follow(k, log, at, visited, hops);
            WalkTraffic(k, log, end.log) && |end.path| <= |end.log| - |log| <= hops
    decreases hops
  {
    var next := k.referral(at.data);
    if hops > 0 && next.Some? && next.value !in visited {
      var reply := k.Ask(log, next.value);
      if reply.Success? {
        FollowTraffic(k, k.Sent(log, next.value), Hop(next.value, reply.value), visited + {next.value}, hops - 1);
      }
    }
  }

  lemma FollowStops(k: Walker, log: History, at: Hop, visited: set<string>, hops: nat)
    requires Adopted(k, log, at, visited, hops).None?
    ensures Exhausted(k, log, Follow(k, log, at, visited, hops), visited, hops)
  {
  }

  lemma ExhaustedCons(k: Walker, log: History, hop: Hop, end: WalkEnd, visited: set<string>, hops: nat)
    requires hops > 0 && Exhausted(k, k.Sent(log, hop.server), end, visited + {hop.server}, hops - 1)
    ensures Exhausted(k, log, end.(path := [hop] + end.path), visited, hops)
  {
    ServersCons(hop, end.path, visited);
  }

  lemma {:induction false} FollowExhausts(k: Walker, log: History, at: Hop, visited: set<string>, hops: nat)
    ensures Exhausted(k, log, Follow(k, log, at, visited, hops), visited, hops)
    decreases hops
  {
    FollowUnfolds(k, log, at, visited, hops);
    var hop := Adopted(k, log, at, visited, hops);
    if hop.Some? {
      var h, sent := hop.value, k.Sent(log, hop.value.server);
      var rest := Follow(k, sent, h, visited + {h.server}, hops - 1);
      FollowExhausts(k, sent, h, visited + {h.server}, hops - 1);
      ExhaustedCons(k, log, h, rest, visited, hops);
    } else {
      FollowStops(k, log, at, visited, hops);
    }
  }

  // The history holds the exchange in which the hop's server gave the hop's data.
  ghost predicate Answered(k: Walker, log: History, from: nat, hop: Hop) {
    exists i :: from <= i < |log| && log[i] == Query(hop.server, k.text) && k.Ask(log[..i], hop.server) == Success(hop.data)
  }

  lemma {:induction false} FollowEndIsAnswered(k: Walker, log: History, at: Hop, visited: set<string>, hops: nat)
    ensures var end := Follow(k, log, at, visited, hops);
            log <= end.log && (end.path != [] ==> Answered(k, end.log, |log|, end.at))
    decreases hops
  {
    FollowUnfolds(k, log, at, visited, hops);
    var hop := Adopted(k, log, at, visited, hops);
    if hop.Some? {
      var h, sent := hop.value, k.Sent(log, hop.value.server);
      var rest := Follow(k, sent, h, visited + {h.server}, hops - 1);
      FollowEndIsAnswered(k, sent, h, visited + {h.server}, hops - 1);
      if rest.path == [] {
        FollowIsSimpleChain(k, sent, h, visited + {h.server}, hops - 1);
        assert rest.log[..|log|] == sent[..|log|] == log;
        assert rest.log[|log|] == Query(h.server, k.text);
      }
    }
  }

  // The walk of follow_referrals: a simple path of own replies, at most the cap of queries
  // to clean hosts, and a reason for stopping.
  lemma ReferralWalkSafety(w: World, log: History, start: Hop, maxReferrals: nat, text: string)
    ensures var k, end := ReferralWalker(w, text), FollowReferrals(w, log, start, maxReferrals, text);
            && |end.path| <= maxReferrals
            && Simple(end.path, {start.server})
            && Chain(k, log, start, end.path)
            && end.at == (if end.path == [] then start else end.path[|end.path| - 1])
            && WalkTraffic(k, log, end.log)
            && Queries(log) <= Queries(end.log) <= Queries(log) + maxReferrals
            && Exhausted(k, log, end, {start.server}, maxReferrals)
            && (end.at.server != start.server ==> Answered(k, end.log, |log|, end.at))
  {
    var k := ReferralWalker(w, text);
    forall d | k.referral(d).Some?
      ensures Clean(k.referral(d).value)
    {
      var _ := FirstReferralIsFirst(Text.Lines(d));
    }
    FollowIsSimpleChain(k, log, start, {start.server}, maxReferrals);
    FollowTraffic(k, log, start, {start.server}, maxReferrals);
    SameQueries(log, FollowReferrals(w, log, start, maxReferrals, text).log);
    FollowExhausts(k, log, start, {start.server}, maxReferrals);
    FollowEndIsAnswered(k, log, start, {start.server}, maxReferrals);
  }

  // A walk that ends where it began changed nothing: the source's `server != whois_server`
  // test decides whether the data changed.
  lemma SameServerSameData(w: World, log: History, start: Hop, maxReferrals: nat, text: string)
    ensures var end := FollowReferrals(w, log, start, maxReferrals, text);
            && (end.at.server == start.server <==> end.path == [])
            && (end.at.server == start.server ==> end.at == start)
  {
    FollowIsSimpleChain(ReferralWalker(w, text), log, start, {start.server}, maxReferrals);
  }

  // The loop of follow_referrals with its mutable current hop, visited set and history.
  method FollowLoop(k: Walker, log: History, start: Hop, maxReferrals: nat) returns (current: Hop, sent: History)
    ensures var end := Follow(k, log, start, {start.server}, maxReferrals);
            current == end.at && sent == end.log
  {
    current, sent := start, log;
    var visited, count := {start.server}, 0;
    ghost var end := Follow(k, log, start, visited, maxReferrals);
    while count < maxReferrals
      invariant count <= maxReferrals
      invariant Follow(k, sent, current, visited, maxReferrals - count).at == end.at
      invariant Follow(k, sent, current, visited, maxReferrals - count).log == end.log
      decreases maxReferrals - count
    {
      FollowUnfolds(k, sent, current, visited, maxReferrals - count);
      var referral := k.referral(current.data);
      if referral.None? || referral.value in visited {
        break;
      }
      var reply := k.Ask(sent, referral.value);
      if reply.Failure? {
        sent := k.Sent(sent, referral.value);
        return;
      }
      visited := visited + {referral.value};
      sent, current, count := k.Sent(sent, referral.value), Hop(referral.value, reply.value), count + 1;
    }
  }
}
