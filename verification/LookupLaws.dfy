// What a lookup answers: who was asked, whose reply is reported, and what fills its gaps.
module LookupLaws {
  import opened Wrappers
  import opened Text
  import opened Records
  import opened Parser
  import opened IpParser
  import opened Network
  import opened Referral
  import opened Walk
  import opened Whois
  import opened WhoisLaws
  import Routing

  // The public suffix is the label; without one, the text after the last of some dots.
  lemma LabelExactly(suffix: string -> Option<string>, domain: string)
    ensures suffix(domain).Some? ==> ExtractTld(suffix, domain) == suffix(domain)
    ensures suffix(domain).None? && '.' in domain ==> ExtractTld(suffix, domain) == Some(LastLabel(domain))
    ensures suffix(domain).None? && '.' !in domain ==> ExtractTld(suffix, domain) == None
  {
  }

  // The servers discovery tries, in order: what the root names, then the naming patterns.
  ghost predicate Tried(root: Reply, tld: string, candidates: seq<string>) {
    var named := if root.Success? && ParseRootResponse(root.value).Some? then [ParseRootResponse(root.value).value] else [];
    candidates == named + ["whois.nic." + tld, "whois." + tld] +
                  (if |tld| == 2 then ["whois.domain." + tld, "whois.registry." + tld, "whois.dns." + tld]
                   else ["whois.registry." + tld])
  }

  lemma CandidatesExactly(root: Reply, tld: string)
    ensures Tried(root, tld, Candidates(root, tld))
  {
  }

  // The first n candidates were probed and are down; the next one, if any, was probed and is up.
  ghost predicate FirstAccepted(w: World, log: History, candidates: seq<string>, n: nat, d: Traced<Option<string>>) {
    && n <= |candidates| && log <= d.log
    && |d.log| == |log| + (if d.value.Some? then n + 1 else n)
    && (d.value.None? <==> n == |candidates|)
    && (d.value.Some? ==> d.value.value == candidates[n] && w.up(d.log[..|log| + n], candidates[n]))
    && (forall i :: 0 <= i < |d.log| - |log| ==> d.log[|log| + i] == Probe(candidates[i]))
    && (forall i :: 0 <= i < n ==> !w.up(d.log[..|log| + i], candidates[i]))
  }

  lemma FirstUpAccepted(w: World, log: History, candidates: seq<string>) returns (n: nat)
    ensures FirstAccepted(w, log, candidates, n, FirstUp(w, log, candidates))
  {
    n := FirstUpIsFirst(w, log, candidates);
  }

  // Discovery asks the root for the label, then connects to the candidates until one accepts.
  lemma DiscoverExactly(w: World, log: History, tld: string) returns (candidates: seq<string>, n: nat)
    ensures var root := RawQuery(w, log, "whois.iana.org", tld);
            Tried(root.value, tld, candidates) && FirstAccepted(w, root.log, candidates, n, Discover(w, log, tld))
  {
    var root := RawQuery(w, log, "whois.iana.org", tld);
    candidates := Candidates(root.value, tld);
    CandidatesExactly(root.value, tld);
    n := FirstUpAccepted(w, root.log, candidates);
  }

  // The server in charge of a label: the mapped one, else one discovered.
  ghost function InCharge(w: World, log: History, servers: ServerMap, tld: string): Traced<Option<string>> {
    if tld in servers then Traced(Some(servers[tld]), log) else Discover(w, log, tld)
  }

  // The registry's answer when a server is in charge and replies.
  lemma RegistryAnswers(w: World, log: History, servers: ServerMap, tld: string, domain: string)
    requires InCharge(w, log, servers, tld).value.Some?
    ensures var c := InCharge(w, log, servers, tld); var q := RawQuery(w, c.log, c.value.value, domain);
            q.value.Success? ==>
              Primary(w, log, servers, tld, domain) ==
              Stage(Success(Hop(c.value.value, q.value.value)), servers[tld := c.value.value], q.log)
  {
    if tld in servers { assert servers[tld := servers[tld]] == servers; }
  }

  // Healing: the server in charge fails, discovery now finds another one, and it is asked.
  lemma RegistryHeals(w: World, log: History, servers: ServerMap, tld: string, domain: string)
    requires InCharge(w, log, servers, tld).value.Some?
    ensures var c := InCharge(w, log, servers, tld); var q := RawQuery(w, c.log, c.value.value, domain);
            q.value.Failure? ==>
              var p, d := Primary(w, log, servers, tld, domain), Discover(w, q.log, tld);
              && (d.value.Some? && d.value != c.value ==>
                  var again := RawQuery(w, d.log, d.value.value, domain);
                  && p.log == again.log
                  && (again.value.Success? ==>
                      p.answer == Success(Hop(d.value.value, again.value.value)) && p.servers == servers[tld := d.value.value])
                  && (again.value.Failure? ==> p.answer == Failure(again.value.error) && p.servers == servers - {tld}))
              && (d.value.None? || d.value == c.value ==>
                  p.answer == Failure(q.value.error) && p.servers == servers - {tld} && p.log == d.log)
  {
    var c := InCharge(w, log, servers, tld);
    var f := Find(w, log, servers, tld);
    assert f.servers - {tld} == servers - {tld};
    var q := RawQuery(w, c.log, c.value.value, domain);
    if q.value.Failure? {
      var d := Discover(w, q.log, tld);
      if d.value.Some? {
        assert (f.servers - {tld})[tld := d.value.value] == servers[tld := d.value.value];
      }
    }
  }

  // No server in charge: the label is unsupported and nothing changes.
  lemma NobodyInCharge(w: World, log: History, servers: ServerMap, tld: string, domain: string)
    requires InCharge(w, log, servers, tld).value.None?
    ensures Primary(w, log, servers, tld, domain) == Stage(Failure(UnsupportedTld(tld)), servers, InCharge(w, log, servers, tld).log)
  {
  }

  // A domain lookup succeeds exactly when its label's server answers, or fails and another one
  // that discovery then finds answers.
  lemma LookupSucceedsExactly(s: Setup, log: History, servers: ServerMap, domain: string)
    ensures var tld := ExtractTld(s.suffix, domain);
            Lookup(s, log, servers, domain).answer.Success? <==>
              && tld.Some? && InCharge(s.world, log, servers, tld.value).value.Some?
              && var c := InCharge(s.world, log, servers, tld.value); var q := RawQuery(s.world, c.log, c.value.value, domain);
                 || q.value.Success?
                 || (var d := Discover(s.world, q.log, tld.value);
                     d.value.Some? && d.value != c.value && RawQuery(s.world, d.log, d.value.value, domain).value.Success?)
  {
    var tld := ExtractTld(s.suffix, domain);
    if tld.Some? {
      if InCharge(s.world, log, servers, tld.value).value.Some? {
        RegistryAnswers(s.world, log, servers, tld.value, domain);
        RegistryHeals(s.world, log, servers, tld.value, domain);
      } else {
        NobodyInCharge(s.world, log, servers, tld.value, domain);
      }
    }
  }

  // Which reply a domain lookup reports: the end of the referral walk from the registry's reply,
  // backed by the registry's record; only a throttled end gives way to a registry that is not.
  lemma LookupReportsWalkEnd(s: Setup, log: History, servers: ServerMap, domain: string, tld: string)
    requires ExtractTld(s.suffix, domain) == Some(tld) && Primary(s.world, log, servers, tld, domain).answer.Success?
    ensures var p := Primary(s.world, log, servers, tld, domain);
            var registry := p.answer.value; var end := FollowReferrals(s.world, p.log, registry, s.maxReferrals, domain);
            var own, first := Parse(s.dates, end.at.data), Parse(s.dates, registry.data);
            var throttled := Classify(end.at.data, own) == RateLimited;
            var registryThrottled := Classify(registry.data, first) == RateLimited;
            var run := Lookup(s, log, servers, domain);
            && run.answer.Success? && run.log == end.log && run.servers == p.servers
            && (throttled && !registryThrottled ==>
                && run.answer.value.source == registry && run.answer.value.parsed == first
                && run.answer.value.status == Classify(registry.data, first))
            && (!(throttled && !registryThrottled) ==>
                && run.answer.value.source == end.at && run.answer.value.status == Classify(end.at.data, own)
                && (throttled ==> run.answer.value.parsed == own)
                && (!throttled ==> BackedBy(run.answer.value.parsed, own, first)))
  {
    var p := Primary(s.world, log, servers, tld, domain);
    SameServerSameData(s.world, p.log, p.answer.value, s.maxReferrals, domain);
  }

  // Where there is no registry answer the lookup fails with its error, and asks nobody else.
  lemma LookupFailsWithRegistry(s: Setup, log: History, servers: ServerMap, domain: string)
    ensures var tld, run := ExtractTld(s.suffix, domain), Lookup(s, log, servers, domain);
            && (tld.None? ==> run == Stage(Failure(InvalidDomain), servers, log))
            && (tld.Some? ==>
                var p := Primary(s.world, log, servers, tld.value, domain);
                p.answer.Failure? ==> run == Stage(Failure(p.answer.error), p.servers, p.log))
  {
  }

  // The server asked first for an address.
  lemma RegistryServers()
    ensures Routing.WhoisServer(Routing.ARIN) == "whois.arin.net" && Routing.WhoisServer(Routing.RIPE) == "whois.ripe.net"
    ensures Routing.WhoisServer(Routing.APNIC) == "whois.apnic.net" && Routing.WhoisServer(Routing.LACNIC) == "whois.lacnic.net"
    ensures Routing.WhoisServer(Routing.AFRINIC) == "whois.afrinic.net"
  {
  }

  // An IP lookup succeeds exactly when the address is routed and the first query succeeds, and
  // reports the end of the referral walk from that reply, backed by the first record. The
  // status is read off the backed record.
  lemma LookupIpReportsWalkEnd(s: Setup, log: History, ip: Routing.Ip, text: string)
    ensures var rir, run := Routing.DetectRir(ip), LookupIp(s, log, ip, text);
            && (rir.Failure? ==> run == Traced(Failure(UnsupportedIpAddress), log))
            && (rir.Success? ==>
                var server := Routing.WhoisServer(rir.value); var q := RawQuery(s.world, log, server, text);
                && (q.value.Failure? ==> run == Traced(Failure(q.value.error), q.log))
                && (q.value.Success? ==>
                    var end := FollowReferrals(s.world, q.log, Hop(server, q.value.value), s.maxReferrals, text);
                    && run.value.Success? && run.log == end.log && run.value.value.source == end.at
                    && BackedBy(run.value.value.parsed, ParseIp(s.dates, end.at.data), ParseIp(s.dates, q.value.value))
                    && run.value.value.status == Classify(end.at.data, run.value.value.parsed)))
  {
    var rir := Routing.DetectRir(ip);
    if rir.Success? {
      var server := Routing.WhoisServer(rir.value);
      var q := RawQuery(s.world, log, server, text);
      if q.value.Success? {
        SameServerSameData(s.world, q.log, Hop(server, q.value.value), s.maxReferrals, text);
      }
    }
  }

  lemma RawQueryAnswers(w: World, log: History, server: string, text: string)
    ensures var q := RawQuery(w, log, server, text);
            q.value.Success? ==> Answered(ReferralWalker(w, text), q.log, |log|, Hop(server, q.value.value))
  {
    var q := RawQuery(w, log, server, text);
    RawQueryAttempts(w, log, server, text);
    if q.value.Success? {
      assert q.log[|q.log| - 1] == Query(server, text);
    }
  }

  // The data of a successful IP lookup was sent by the reported server during the lookup.
  lemma LookupIpReportsOwnReply(s: Setup, log: History, ip: Routing.Ip, text: string)
    ensures var run := LookupIp(s, log, ip, text);
            run.value.Success? ==> Answered(ReferralWalker(s.world, text), run.log, |log|, run.value.value.source)
  {
    var rir := Routing.DetectRir(ip);
    LookupIpReportsWalkEnd(s, log, ip, text);
    if rir.Success? {
      var server := Routing.WhoisServer(rir.value);
      var q := RawQuery(s.world, log, server, text);
      RawQueryAnswers(s.world, log, server, text);
      RawQueryAttempts(s.world, log, server, text);
      if q.value.Success? {
        WalkEndIsAnswered(s.world, q.log, |log|, Hop(server, q.value.value), s.maxReferrals, text);
      }
    }
  }

  // What each status means: data always speaks for itself; without it, a throttling phrase
  // comes before a phrase of absence, and silence is a record.
  ghost predicate Throttles(text: string) {
    exists p :: Contains(text, p) && p in [
      "rate limit", "ratelimit", "quota exceeded", "exceeded your quota", "lookup quota",
      "number of allowed queries exceeded", "exceeded the maximum", "maximum number of queries",
      "whois limit exceeded", "too many requests", "excessive quer", "request limit reached",
      "access denied", "connection limit"]
  }

  ghost predicate Denies(text: string) {
    exists p :: Contains(text, p) && p in [
      "no match", "not found", "no data found", "no entries found", "no object found",
      "object does not exist", "nothing found", "not registered", "no information available",
      "status: available", "status: free", "is available for registration"]
  }

  lemma StatusExactly(raw: string, r: Record)
    ensures var data, text := r.registrar.Some? || r.creationDate.Some? || r.nameServers != [], Lower(raw);
            && (Classify(raw, r) == RateLimited <==> !data && Throttles(text))
            && (Classify(raw, r) == NotFound <==> !data && !Throttles(text) && Denies(text))
  {
    assert ContainsAny(Lower(raw), RATE_LIMIT_PATTERNS) <==> Throttles(Lower(raw));
    assert ContainsAny(Lower(raw), NOT_FOUND_PATTERNS) <==> Denies(Lower(raw));
  }
}
