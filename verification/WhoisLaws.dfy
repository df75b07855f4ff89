// What every WHOIS lookup keeps: the registry's record, a healed server map, a query budget.
module WhoisLaws {
  import opened Wrappers
  import opened Records
  import opened Parser
  import opened IpParser
  import opened Network
  import opened Walk
  import opened Whois
  import Routing

  // Record data is always read as Found.
  ghost predicate Coherent(r: Reading) {
    HasRecordData(r.parsed) ==> r.status == Found
  }

  // Whatever the registrar answered, the registry's record survives, field by field, unless
  // both servers throttled; and the result is one of the two answers with its own data.
  lemma ComposeKeepsRecord(registry: Hop, r: Reading, last: Hop, l: Reading)
    requires Coherent(r) && Coherent(l)
    requires last.server == registry.server ==> last == registry && l == r
    ensures var res := Compose(registry, r, last, l);
            && (HasRecordData(r.parsed) ==> HasRecordData(res.parsed))
            && (Covers(res.parsed, r.parsed) || (r.status == RateLimited && l.status == RateLimited && res.status == RateLimited))
            && (res.status == RateLimited <==> r.status == RateLimited && l.status == RateLimited)
  {
    FilledCoversFallback(l.parsed, r.parsed);
  }

  lemma BackedKeepsOwn(own: Record, gap: Record)
    ensures var r := Filled(own, gap); Keeps(r, own) && BackedBy(r, own, gap)
    ensures Keeps(own, own)
  {
    FilledKeepsOwn(own, gap);
    FilledIsBacked(own, gap);
  }

  // Which side wins. Only a throttled registrar gives way, to a registry that is not; otherwise
  // the result is the registrar's, its own fields first, and the registry's in the gaps.
  lemma ComposeOwnFieldsWin(registry: Hop, r: Reading, last: Hop, l: Reading)
    ensures var res := Compose(registry, r, last, l);
            if last.server != registry.server && l.status == RateLimited && r.status != RateLimited then
              res.source == registry && res.parsed == r.parsed && res.status == r.status
            else
              && res.source == last && res.status == l.status && Keeps(res.parsed, l.parsed)
              && (last.server == registry.server || l.status == RateLimited ==> res.parsed == l.parsed)
              && (last.server != registry.server && l.status != RateLimited ==> BackedBy(res.parsed, l.parsed, r.parsed))
  {
    BackedKeepsOwn(l.parsed, r.parsed);
  }

  // A domain result can carry record data without being Found: exactly when a registrar's own
  // reply is an empty NotFound and the registry's record was filled in behind it.
  lemma ComposeFoundExactly(registry: Hop, r: Reading, last: Hop, l: Reading)
    requires Coherent(r) && Coherent(l)
    ensures var res := Compose(registry, r, last, l);
            HasRecordData(res.parsed) && res.status != Found <==>
            last.server != registry.server && l.status == NotFound && HasRecordData(r.parsed)
  {
  }

  // The same through the whole domain lookup: a registrar with nothing to say behind a registry
  // that has the record.
  lemma LookupFoundExactly(s: Setup, log: History, servers: ServerMap, domain: string, tld: string)
    requires ExtractTld(s.suffix, domain) == Some(tld)
    ensures var p, run := Primary(s.world, log, servers, tld, domain), Lookup(s, log, servers, domain);
            run.answer.Success? ==>
              var end := FollowReferrals(s.world, p.log, p.answer.value, s.maxReferrals, domain);
              HasRecordData(run.answer.value.parsed) && run.answer.value.status != Found <==>
              && end.path != []
              && Read(s.dates, end.at.data).status == NotFound && HasRecordData(Parse(s.dates, p.answer.value.data))
  {
    var p := Primary(s.world, log, servers, tld, domain);
    if p.answer.Success? {
      var registry := p.answer.value;
      var end := FollowReferrals(s.world, p.log, registry, s.maxReferrals, domain);
      SameServerSameData(s.world, p.log, registry, s.maxReferrals, domain);
      ComposeFoundExactly(registry, Read(s.dates, registry.data), end.at, Read(s.dates, end.at.data));
    }
  }

  // For IP lookups the status is computed after filling up, so it speaks for both replies.
  lemma IpStatusSpeaksForBoth(dates: Dates, first: Hop, last: Hop)
    requires last.server == first.server ==> last == first
    ensures var res := ComposeIp(dates, first, last);
            && (res.status != Found ==>
                  !HasRecordData(ParseIp(dates, first.data)) && !HasRecordData(ParseIp(dates, last.data)))
            && res.source == last
  {
  }

  lemma ComposeIpMerges(dates: Dates, first: Hop, last: Hop)
    requires last.server == first.server ==> last == first
    ensures var res := ComposeIp(dates, first, last);
            && Keeps(res.parsed, ParseIp(dates, last.data)) && Covers(res.parsed, ParseIp(dates, first.data))
            && BackedBy(res.parsed, ParseIp(dates, last.data), ParseIp(dates, first.data))
  {
    FilledKeepsOwn(ParseIp(dates, last.data), ParseIp(dates, first.data));
    FilledCoversFallback(ParseIp(dates, last.data), ParseIp(dates, first.data));
    FilledIsBacked(ParseIp(dates, last.data), ParseIp(dates, first.data));
  }

  // The same through the whole domain lookup, for any world, map and history.
  lemma LookupKeepsRecord(s: Setup, log: History, servers: ServerMap, domain: string, tld: string)
    requires ExtractTld(s.suffix, domain) == Some(tld)
    ensures var p, run := Primary(s.world, log, servers, tld, domain), Lookup(s, log, servers, domain);
            && (run.answer.Success? <==> p.answer.Success?)
            && (run.answer.Success? ==>
                var res, r := run.answer.value, Read(s.dates, p.answer.value.data);
                && (HasRecordData(r.parsed) ==> HasRecordData(res.parsed))
                && (Covers(res.parsed, r.parsed) || (r.status == RateLimited && res.status == RateLimited))
                && (res.status == RateLimited ==> r.status == RateLimited))
  {
    var p := Primary(s.world, log, servers, tld, domain);
    if p.answer.Success? {
      var registry := p.answer.value;
      var end := FollowReferrals(s.world, p.log, registry, s.maxReferrals, domain);
      SameServerSameData(s.world, p.log, registry, s.maxReferrals, domain);
      ComposeKeepsRecord(registry, Read(s.dates, registry.data), end.at, Read(s.dates, end.at.data));
    }
  }

  lemma AnsweredLater(k: Walker, log: History, later: History, from: nat, start: nat, hop: Hop)
    requires Answered(k, log, from, hop) && log <= later && start <= from
    ensures Answered(k, later, start, hop)
  {
    var i :| from <= i < |log| && log[i] == Query(hop.server, k.text) && k.Ask(log[..i], hop.server) == Success(hop.data);
    assert later[..i] == log[..i];
  }

  lemma PrimaryIsAnswered(w: World, log: History, servers: ServerMap, tld: string, domain: string)
    ensures var p := Primary(w, log, servers, tld, domain);
            p.answer.Success? ==> log <= p.log && Answered(ReferralWalker(w, domain), p.log, |log|, p.answer.value)
  {
    var p, k := Primary(w, log, servers, tld, domain), ReferralWalker(w, domain);
    PrimaryCosts(w, log, servers, tld, domain);
    PrimaryAsks(w, log, servers, tld, domain);
    PrimaryHeals(w, log, servers, tld, domain);
    if p.answer.Success? {
      var i := |p.log| - 1;
      assert p.log[i] == Query(p.answer.value.server, k.text);
    }
  }

  lemma PrimaryAsks(w: World, log: History, servers: ServerMap, tld: string, domain: string)
    ensures var p := Primary(w, log, servers, tld, domain); p.answer.Success? ==> |log| < |p.log|
  {
    var f := Find(w, log, servers, tld);
    DiscoverCosts(w, log, tld);
    if f.answer.Success? {
      var q := RawQuery(w, f.log, f.answer.value, domain);
      RetriedTrace(w, f.log, f.answer.value, domain, MAX_RETRY_ATTEMPTS);
      if q.value.Failure? {
        RediscoverCosts(w, q.log, f.servers, tld, f.answer.value, domain, q.value.error);
      }
    }
  }

  // The registry's own reply, or the walk's last one: both are in the history of the lookup.
  lemma WalkEndIsAnswered(w: World, log: History, from: nat, registry: Hop, maxReferrals: nat, text: string)
    requires from <= |log| && Answered(ReferralWalker(w, text), log, from, registry)
    ensures var end := FollowReferrals(w, log, registry, maxReferrals, text);
            Answered(ReferralWalker(w, text), end.log, from, registry) && Answered(ReferralWalker(w, text), end.log, from, end.at)
  {
    var k, end := ReferralWalker(w, text), FollowReferrals(w, log, registry, maxReferrals, text);
    ReferralWalkSafety(w, log, registry, maxReferrals, text);
    SameServerSameData(w, log, registry, maxReferrals, text);
    AnsweredLater(k, log, end.log, from, from, registry);
    if end.at.server != registry.server {
      AnsweredLater(k, end.log, end.log, |log|, from, end.at);
    }
  }

  // A successful domain lookup reports data that the reported server itself sent for this
  // domain during this lookup.
  lemma LookupReportsOwnReply(s: Setup, log: History, servers: ServerMap, domain: string)
    ensures var run := Lookup(s, log, servers, domain);
            run.answer.Success? ==> Answered(ReferralWalker(s.world, domain), run.log, |log|, run.answer.value.source)
  {
    var tld := ExtractTld(s.suffix, domain);
    if tld.Some? {
      var p := Primary(s.world, log, servers, tld.value, domain);
      PrimaryIsAnswered(s.world, log, servers, tld.value, domain);
      if p.answer.Success? {
        WalkEndIsAnswered(s.world, p.log, |log|, p.answer.value, s.maxReferrals, domain);
      }
    }
  }

  lemma LookupIpStatus(s: Setup, log: History, ip: Routing.Ip, text: string)
    ensures var rir, run := Routing.DetectRir(ip), LookupIp(s, log, ip, text);
            && (run.value.Success? ==>
                && rir.Success?
                && var q := RawQuery(s.world, log, Routing.WhoisServer(rir.value), text);
                && q.value.Success?
                && (run.value.value.status != Found ==>
                    && !HasRecordData(ParseIp(s.dates, q.value.value))
                    && !HasRecordData(ParseIp(s.dates, run.value.value.source.data))))
  {
    var rir := Routing.DetectRir(ip);
    if rir.Success? {
      var q := RawQuery(s.world, log, Routing.WhoisServer(rir.value), text);
      if q.value.Success? {
        var first := Hop(Routing.WhoisServer(rir.value), q.value.value);
        var end := FollowReferrals(s.world, q.log, first, s.maxReferrals, text);
        SameServerSameData(s.world, q.log, first, s.maxReferrals, text);
        IpStatusSpeaksForBoth(s.dates, first, end.at);
      }
    }
  }

  // Later traffic only adds to the history, and adds at most so many query attempts.
  ghost predicate Costs(log: History, sent: History, budget: nat) {
    log <= sent && Queries(log) <= Queries(sent) <= Queries(log) + budget
  }

  // The candidate chosen is the first that is up; each one before it was probed and is not.
  lemma {:induction false} FirstUpIsFirst(w: World, log: History, candidates: seq<string>) returns (n: nat)
    ensures var r := FirstUp(w, log, candidates);
            && n <= |candidates| && log <= r.log
            && |r.log| == |log| + (if r.value.Some? then n + 1 else n)
            && (r.value.None? ==> n == |candidates|)
            && (r.value.Some? ==> n < |candidates| && r.value.value == candidates[n] && w.up(r.log[..|log| + n], candidates[n]))
            && (forall i :: 0 <= i < |r.log| - |log| ==> r.log[|log| + i] == Probe(candidates[i]))
            && (forall i :: 0 <= i < n ==> !w.up(r.log[..|log| + i], candidates[i]))
    decreases candidates
  {
    n := 0;
    if candidates != [] {
      var probed := log + [Probe(candidates[0])];
      assert probed[..|log|] == log;
      if !w.up(log, candidates[0]) {
        var k := FirstUpIsFirst(w, probed, candidates[1..]);
        n := k + 1;
        var r := FirstUp(w, probed, candidates[1..]);
        assert r.log[..|log|] == probed[..|log|];
        assert |probed| == |log| + 1 && forall i :: 1 <= i < |candidates| ==> candidates[i] == candidates[1..][i - 1];
      }
    }
  }

  lemma {:induction false} FirstUpCosts(w: World, log: History, candidates: seq<string>)
    ensures Costs(log, FirstUp(w, log, candidates).log, 0)
    decreases candidates
  {
    if candidates != [] {
      QueriesSnoc(log, Probe(candidates[0]));
      FirstUpCosts(w, log + [Probe(candidates[0])], candidates[1..]);
    }
  }

  lemma DiscoverCosts(w: World, log: History, tld: string)
    ensures Costs(log, Discover(w, log, tld).log, 4)
  {
    var root := RawQuery(w, log, ROOT_WHOIS_SERVER, tld);
    RetriedIsOwnReply(w, log, ROOT_WHOIS_SERVER, tld, MAX_RETRY_ATTEMPTS);
    FirstUpCosts(w, root.log, Candidates(root.value, tld));
  }

  // What the registry stage does to the map: its own label maps to the server that just
  // answered, or is absent when none did; every other label is as before.
  ghost predicate Healed(w: World, servers: ServerMap, tld: string, domain: string, stage: Stage<Hop>) {
    && (stage.answer.Success? <==> tld in stage.servers)
    && (stage.answer.Success? ==>
        && stage.servers[tld] == stage.answer.value.server
        && OwnReply(w, stage.log, stage.answer.value.server, domain, stage.answer.value.data))
    && stage.servers - {tld} == servers - {tld}
  }

  lemma RediscoverHeals(w: World, log: History, servers: ServerMap, tld: string, failed: string, domain: string, original: WhoisError)
    ensures var stage := Rediscover(w, log, servers, tld, failed, domain, original);
            && Healed(w, servers, tld, domain, stage) && (stage.answer.Success? ==> stage.answer.value.server != failed)
            && var d := Discover(w, log, tld);
               if d.value.None? || d.value.value == failed then stage.answer == Failure(original)
               else
                 var q := RawQuery(w, d.log, d.value.value, domain);
                 stage.answer == if q.value.Success? then Success(Hop(d.value.value, q.value.value)) else Failure(q.value.error)
  {
    var d := Discover(w, log, tld);
    if d.value.Some? {
      RetriedIsOwnReply(w, d.log, d.value.value, domain, MAX_RETRY_ATTEMPTS);
    }
  }

  lemma RediscoverCosts(w: World, log: History, servers: ServerMap, tld: string, failed: string, domain: string, original: WhoisError)
    ensures Costs(log, Rediscover(w, log, servers, tld, failed, domain, original).log, 8)
  {
    var d := Discover(w, log, tld);
    DiscoverCosts(w, log, tld);
    if d.value.Some? {
      RetriedIsOwnReply(w, d.log, d.value.value, domain, MAX_RETRY_ATTEMPTS);
    }
  }

  lemma PrimaryHeals(w: World, log: History, servers: ServerMap, tld: string, domain: string)
    ensures Healed(w, servers, tld, domain, Primary(w, log, servers, tld, domain))
  {
    var f := Find(w, log, servers, tld);
    assert f.servers - {tld} == servers - {tld};
    if f.answer.Success? {
      var q := RawQuery(w, f.log, f.answer.value, domain);
      RetriedIsOwnReply(w, f.log, f.answer.value, domain, MAX_RETRY_ATTEMPTS);
      if q.value.Failure? {
        RediscoverHeals(w, q.log, f.servers, tld, f.answer.value, domain, q.value.error);
      }
    }
  }

  lemma PrimaryCosts(w: World, log: History, servers: ServerMap, tld: string, domain: string)
    ensures Costs(log, Primary(w, log, servers, tld, domain).log, 16)
  {
    var f := Find(w, log, servers, tld);
    DiscoverCosts(w, log, tld);
    if f.answer.Success? {
      var q := RawQuery(w, f.log, f.answer.value, domain);
      RetriedIsOwnReply(w, f.log, f.answer.value, domain, MAX_RETRY_ATTEMPTS);
      if q.value.Failure? {
        RediscoverCosts(w, q.log, f.servers, tld, f.answer.value, domain, q.value.error);
      }
    }
  }

  // A known server is asked at once; discovery runs only for an unknown label or after it fails.
  lemma KnownServerIsAskedFirst(w: World, log: History, servers: ServerMap, tld: string, domain: string)
    requires tld in servers
    ensures var sent := Primary(w, log, servers, tld, domain).log;
            |log| < |sent| && log <= sent && sent[|log|] == Query(servers[tld], domain)
  {
    var q := RawQuery(w, log, servers[tld], domain);
    RetriedTrace(w, log, servers[tld], domain, MAX_RETRY_ATTEMPTS);
    if q.value.Failure? {
      RediscoverCosts(w, q.log, servers, tld, servers[tld], domain, q.value.error);
    }
  }

  // Self-healing: after any domain lookup the map holds the domain's label exactly when the
  // lookup succeeded, and then names the server whose reply the lookup is based on.
  lemma LookupHealsMap(s: Setup, log: History, servers: ServerMap, domain: string, tld: string)
    requires ExtractTld(s.suffix, domain) == Some(tld)
    ensures var p, run := Primary(s.world, log, servers, tld, domain), Lookup(s, log, servers, domain);
            && run.servers == p.servers
            && (run.answer.Success? <==> tld in run.servers)
            && Healed(s.world, servers, tld, domain, p)
  {
    PrimaryHeals(s.world, log, servers, tld, domain);
  }

  // Query budget of one lookup, retries included.
  lemma LookupBudget(s: Setup, log: History, servers: ServerMap, domain: string)
    ensures Costs(log, Lookup(s, log, servers, domain).log, 16 + s.maxReferrals)
  {
    var tld := ExtractTld(s.suffix, domain);
    if tld.Some? {
      var p := Primary(s.world, log, servers, tld.value, domain);
      PrimaryCosts(s.world, log, servers, tld.value, domain);
      if p.answer.Success? {
        ReferralWalkSafety(s.world, p.log, p.answer.value, s.maxReferrals, domain);
      }
    }
  }

  lemma LookupIpBudget(s: Setup, log: History, ip: Routing.Ip, text: string)
    ensures Costs(log, LookupIp(s, log, ip, text).log, 4 + s.maxReferrals)
  {
    var rir := Routing.DetectRir(ip);
    if rir.Success? {
      var server := Routing.WhoisServer(rir.value);
      var q := RawQuery(s.world, log, server, text);
      RetriedIsOwnReply(s.world, log, server, text, MAX_RETRY_ATTEMPTS);
      if q.value.Success? {
        ReferralWalkSafety(s.world, q.log, Hop(server, q.value.value), s.maxReferrals, text);
      }
    }
  }

  // A run of lookups, one after the other.
  function LookupAll(s: Setup, log: History, servers: ServerMap, domains: seq<string>): Traced<ServerMap> {
    if domains == [] then Traced(servers, log)
    else
      var before := LookupAll(s, log, servers, domains[..|domains| - 1]);
      var run := Lookup(s, before.log, before.value, domains[|domains| - 1]);
      Traced(run.servers, run.log)
  }

  ghost function Entry(servers: ServerMap, tld: string): Option<string> {
    if tld in servers then Some(servers[tld]) else None
  }

  // The server that answered the latest lookup under a label; None when that lookup failed.
  ghost function LatestAnswer(s: Setup, log: History, servers: ServerMap, domains: seq<string>, tld: string): Option<string> {
    if domains == [] then Entry(servers, tld)
    else
      var init, domain := domains[..|domains| - 1], domains[|domains| - 1];
      if ExtractTld(s.suffix, domain) != Some(tld) then LatestAnswer(s, log, servers, init, tld)
      else
        var before := LookupAll(s, log, servers, init);
        var p := Primary(s.world, before.log, before.value, tld, domain);
        if p.answer.Success? then Some(p.answer.value.server) else None
  }

  // Over any run of lookups in any world, the map remembers exactly the latest answer per label.
  lemma {:induction false} MapIsLatestAnswer(s: Setup, log: History, servers: ServerMap, domains: seq<string>, tld: string)
    ensures Entry(LookupAll(s, log, servers, domains).value, tld) == LatestAnswer(s, log, servers, domains, tld)
  {
    if domains != [] {
      var init, domain := domains[..|domains| - 1], domains[|domains| - 1];
      MapIsLatestAnswer(s, log, servers, init, tld);
      var before, own := LookupAll(s, log, servers, init), ExtractTld(s.suffix, domain);
      if own.Some? {
        var run := Lookup(s, before.log, before.value, domain);
        LookupHealsMap(s, before.log, before.value, domain, own.value);
        SameElsewhere(run.servers, before.value, own.value, tld);
      }
    }
  }

  lemma SameElsewhere(a: ServerMap, b: ServerMap, own: string, tld: string)
    requires a - {own} == b - {own}
    ensures tld != own ==> Entry(a, tld) == Entry(b, tld)
  {
    if tld != own {
      assert tld in a <==> tld in a - {own};
      assert tld in b <==> tld in b - {own};
      if tld in a { assert (a - {own})[tld] == (b - {own})[tld]; }
    }
  }
}
