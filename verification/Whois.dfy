// src/whois.rs: discovery, the self-healing server map, domain and IP lookups.
module Whois {
  import opened Wrappers
  import opened Text
  import opened Records
  import opened Parser
  import opened IpParser
  import opened Network
  import opened Referral
  import opened Walk
  import Routing

  type ServerMap = map<string, string>

  const ROOT_WHOIS_SERVER := "whois.iana.org"

  // The service's surroundings: network, public suffix list, dates, and the referral cap.
  datatype Setup = Setup(world: World, suffix: string -> Option<string>, dates: Dates, maxReferrals: nat)

  // src/tld.rs: the public suffix, else the last of at least two labels.
  function ExtractTld(suffix: string -> Option<string>, domain: string): Option<string> {
    match suffix(domain)
    case Some(s) => Some(s)
    case None => if '.' in domain then Some(LastLabel(domain)) else None
  }

  // The first candidate that accepts a connection.
  function FirstUp(w: World, log: History, candidates: seq<string>): Traced<Option<string>>
    decreases candidates
  {
    if candidates == [] then Traced(None, log)
    else
      var probed := log + [Probe(candidates[0])];
      if w.up(log, candidates[0]) then Traced(Some(candidates[0]), probed) else FirstUp(w, probed, candidates[1..])
  }

  function Candidates(root: Reply, tld: string): seq<string> {
    var referred := if root.Success? then ParseRootResponse(root.value) else None;
    (if referred.Some? then [referred.value] else []) + Patterns(tld)
  }

  // discover_whois_server_dynamic: the root's referral first, then the naming patterns.
  function Discover(w: World, log: History, tld: string): Traced<Option<string>> {
    var root := RawQuery(w, log, ROOT_WHOIS_SERVER, tld);
    FirstUp(w, root.log, Candidates(root.value, tld))
  }

  // Outcome of one stage: an answer with its server, the server map, the traffic so far.
  datatype Stage<T> = Stage(answer: Result<T, WhoisError>, servers: ServerMap, log: History)

  function Find(w: World, log: History, servers: ServerMap, tld: string): Stage<string> {
    if tld in servers then Stage(Success(servers[tld]), servers, log)
    else
      var d := Discover(w, log, tld);
      match d.value
      case Some(server) => Stage(Success(server), servers[tld := server], d.log)
      case None => Stage(Failure(UnsupportedTld(tld)), servers, d.log)
  }

  function Rediscover(w: World, log: History, servers: ServerMap, tld: string, failed: string, domain: string,
                      original: WhoisError): Stage<Hop> {
    var purged := servers - {tld};
    var d := Discover(w, log, tld);
    if d.value.Some? && d.value.value != failed then
      var q := RawQuery(w, d.log, d.value.value, domain);
      match q.value
      case Success(data) => Stage(Success(Hop(d.value.value, data)), purged[tld := d.value.value], q.log)
      case Failure(e) => Stage(Failure(e), purged, q.log)
    else Stage(Failure(original), purged, d.log)
  }

  // The registry's answer: find the server, query it, heal the map and retry once.
  function Primary(w: World, log: History, servers: ServerMap, tld: string, domain: string): Stage<Hop> {
    var f := Find(w, log, servers, tld);
    match f.answer
    case Failure(e) => Stage(Failure(e), f.servers, f.log)
    case Success(server) =>
      var q := RawQuery(w, f.log, server, domain);
      match q.value
      case Success(data) => Stage(Success(Hop(server, data)), f.servers, q.log)
      case Failure(e) => Rediscover(w, q.log, f.servers, tld, server, domain, e)
  }

  // A reply as the parser and the classifier read it.
  datatype Reading = Reading(parsed: Record, status: LookupStatus)

  function Read(dates: Dates, data: string): Reading {
    Reading(Parse(dates, data), Classify(data, Parse(dates, data)))
  }

  datatype LookupResult = LookupResult(source: Hop, parsed: Record, status: LookupStatus)

  // Registry answer against the walk's last answer: a throttled registrar gives way to an
  // unthrottled registry, any other registrar answer is filled up from the registry.
  function Compose(registry: Hop, r: Reading, last: Hop, l: Reading): LookupResult {
    if last.server == registry.server then LookupResult(last, l.parsed, l.status)
    else if l.status == RateLimited then
      if r.status != RateLimited then LookupResult(registry, r.parsed, r.status)
      else LookupResult(last, l.parsed, l.status)
    else LookupResult(last, Filled(l.parsed, r.parsed), l.status)
  }

  function Lookup(s: Setup, log: History, servers: ServerMap, domain: string): Stage<LookupResult> {
    var tld := ExtractTld(s.suffix, domain);
    if tld.None? then Stage(Failure(InvalidDomain), servers, log)
    else
      var p := Primary(s.world, log, servers, tld.value, domain);
      match p.answer
      case Failure(e) => Stage(Failure(e), p.servers, p.log)
      case Success(registry) =>
        var end := FollowReferrals(s.world, p.log, registry, s.maxReferrals, domain);
        Stage(Success(Compose(registry, Read(s.dates, registry.data), end.at, Read(s.dates, end.at.data))), p.servers, end.log)
  }

  // The IP answer: filled up first, classified afterwards.
  function ComposeIp(dates: Dates, first: Hop, last: Hop): LookupResult {
    var own := ParseIp(dates, last.data);
    var parsed := if last.server != first.server then Filled(own, ParseIp(dates, first.data)) else own;
    LookupResult(last, parsed, Classify(last.data, parsed))
  }

  function LookupIp(s: Setup, log: History, ip: Routing.Ip, text: string): Traced<Result<LookupResult, WhoisError>> {
    match Routing.DetectRir(ip)
    case Failure(_) => Traced(Failure(UnsupportedIpAddress), log)
    case Success(rir) =>
      var server := Routing.WhoisServer(rir);
      var q := RawQuery(s.world, log, server, text);
      match q.value
      case Failure(e) => Traced(Failure(e), q.log)
      case Success(data) =>
        var end := FollowReferrals(s.world, q.log, Hop(server, data), s.maxReferrals, text);
        Traced(Success(ComposeIp(s.dates, Hop(server, data), end.at)), end.log)
  }

  // The service: its server map, and the traffic it has caused.
  class WhoisService {
    const setup: Setup
    var tldServers: ServerMap
    var log: History

    constructor (setup: Setup)
      ensures this.setup == setup && tldServers == map[] && log == []
    {
      this.setup, tldServers, log := setup, map[], [];
    }

    method RawWhoisQuery(server: string, text: string) returns (reply: Reply)
      modifies this`log
      ensures Traced(reply, log) == RawQuery(setup.world, old(log), server, text)
    {
      reply := setup.world.reply(log, Query(server, text));
      log := log + [Query(server, text)];
      var retries := MAX_RETRY_ATTEMPTS;
      while reply.Failure? && Transient(reply.error) && retries > 0
        invariant log != [] && log[|log| - 1] == Query(server, text)
        invariant reply == setup.world.reply(log[..|log| - 1], Query(server, text))
        invariant Retried(setup.world, log[..|log| - 1], server, text, retries) == RawQuery(setup.world, old(log), server, text)
        decreases retries
      {
        assert log[..|log| - 1] + [Query(server, text)] == log;
        reply := setup.world.reply(log, Query(server, text));
        log := log + [Query(server, text)];
        retries := retries - 1;
      }
      assert log[..|log| - 1] + [Query(server, text)] == log;
    }

    method DiscoverServer(tld: string) returns (server: Option<string>)
      modifies this`log
      ensures Traced(server, log) == Discover(setup.world, old(log), tld)
    {
      var root := RawWhoisQuery(ROOT_WHOIS_SERVER, tld);
      var candidates := Candidates(root, tld);
      ghost var start, all := log, candidates;
      while candidates != []
        invariant FirstUp(setup.world, log, candidates) == FirstUp(setup.world, start, all)
        decreases candidates
      {
        var up := setup.world.up(log, candidates[0]);
        log := log + [Probe(candidates[0])];
        if up {
          return Some(candidates[0]);
        }
        candidates := candidates[1..];
      }
      server := None;
    }

    method FindWhoisServer(tld: string) returns (server: Result<string, WhoisError>)
      modifies this
      ensures Stage(server, tldServers, log) == Find(setup.world, old(log), old(tldServers), tld)
    {
      if tld in tldServers {
        return Success(tldServers[tld]);
      }
      var discovered := DiscoverServer(tld);
      if discovered.None? {
        return Failure(UnsupportedTld(tld));
      }
      if tld !in tldServers {
        tldServers := tldServers[tld := discovered.value];
      }
      server := Success(discovered.value);
    }

    method RediscoverAndRetry(tld: string, failed: string, domain: string, original: WhoisError)
      returns (answer: Result<Hop, WhoisError>)
      modifies this
      ensures Stage(answer, tldServers, log) == Rediscover(setup.world, old(log), old(tldServers), tld, failed, domain, original)
    {
      tldServers := tldServers - {tld};
      var discovered := DiscoverServer(tld);
      if discovered.None? || discovered.value == failed {
        return Failure(original);
      }
      var reply := RawWhoisQuery(discovered.value, domain);
      if reply.Failure? {
        return Failure(reply.error);
      }
      tldServers := tldServers[tld := discovered.value];
      answer := Success(Hop(discovered.value, reply.value));
    }

    method QueryRegistry(tld: string, domain: string) returns (answer: Result<Hop, WhoisError>)
      modifies this
      ensures Stage(answer, tldServers, log) == Primary(setup.world, old(log), old(tldServers), tld, domain)
    {
      var server := FindWhoisServer(tld);
      if server.Failure? {
        return Failure(server.error);
      }
      var reply := RawWhoisQuery(server.value, domain);
      if reply.Success? {
        return Success(Hop(server.value, reply.value));
      }
      answer := RediscoverAndRetry(tld, server.value, domain, reply.error);
    }

    method LookupDomain(domain: string) returns (result: Result<LookupResult, WhoisError>)
      modifies this
      ensures Stage(result, tldServers, log) == Lookup(setup, old(log), old(tldServers), domain)
    {
      var tld := ExtractTld(setup.suffix, domain);
      if tld.None? {
        return Failure(InvalidDomain);
      }
      var registry := QueryRegistry(tld.value, domain);
      if registry.Failure? {
        return Failure(registry.error);
      }
      var last, sent := FollowLoop(ReferralWalker(setup.world, domain), log, registry.value, setup.maxReferrals);
      log := sent;
      var composed := ComposeAnswers(setup.dates, registry.value, last);
      result := Success(composed);
    }

    method LookupIpAddress(ip: Routing.Ip, text: string) returns (result: Result<LookupResult, WhoisError>)
      modifies this`log
      ensures Traced(result, log) == LookupIp(setup, old(log), ip, text)
    {
      var rir := Routing.DetectRir(ip);
      if rir.Failure? {
        return Failure(UnsupportedIpAddress);
      }
      var server := Routing.WhoisServer(rir.value);
      var reply := RawWhoisQuery(server, text);
      if reply.Failure? {
        return Failure(reply.error);
      }
      var first := Hop(server, reply.value);
      var last, sent := FollowLoop(ReferralWalker(setup.world, text), log, first, setup.maxReferrals);
      log := sent;
      var composed := ComposeIpAnswers(setup.dates, first, last);
      result := Success(composed);
    }
  }

  // The tail of the domain lookup, with its mutable server, data, parse and status.
  method ComposeAnswers(dates: Dates, registry: Hop, final: Hop) returns (result: LookupResult)
    ensures result == Compose(registry, Read(dates, registry.data), final, Read(dates, final.data))
  {
    var source := final;
    var own := ParseWhoisData(dates, final.data);
    var parsed := new ParsedWhoisData(own);
    var status := Classify(final.data, own);
    if final.server != registry.server {
      var registryParsed := ParseWhoisData(dates, registry.data);
      if status == RateLimited {
        var registryStatus := Classify(registry.data, registryParsed);
        if registryStatus != RateLimited {
          source, status := registry, registryStatus;
          parsed := new ParsedWhoisData(registryParsed);
        }
      } else {
        parsed.FillMissingFrom(registryParsed);
      }
    }
    result := LookupResult(source, parsed.fields, status);
  }

  method ComposeIpAnswers(dates: Dates, first: Hop, last: Hop) returns (result: LookupResult)
    ensures result == ComposeIp(dates, first, last)
  {
    var own := ParseIpWhoisData(dates, last.data);
    var parsed := new ParsedWhoisData(own);
    if last.server != first.server {
      var initial := ParseIpWhoisData(dates, first.data);
      parsed.FillMissingFrom(initial);
    }
    result := LookupResult(last, parsed.fields, Classify(last.data, parsed.fields));
  }
}
