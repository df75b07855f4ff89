// src/rdap.rs: the IANA bootstrap state machine and the discovered-server index.
module Bootstrap {
  import opened Wrappers
  import opened Text

  const BOOTSTRAP_REFRESH_SECS: nat := 24 * 60 * 60
  const BOOTSTRAP_RETRY_SECS: nat := 300

  datatype Service = Service(tlds: seq<string>, servers: seq<string>)

  type Registry = seq<Service>

  // The first service listing a key, and its first server.
  function ServerFor(reg: Registry, key: string): Option<string> {
    if reg == [] then None
    else if key in reg[0].tlds then (if reg[0].servers == [] then None else Some(reg[0].servers[0]))
    else ServerFor(reg[1..], key)
  }

  // The whole suffix first, then its last label.
  function Match(reg: Registry, tld: string): Option<string> {
    var exact := ServerFor(reg, tld);
    if exact.Some? || LastLabel(tld) == tld then exact else ServerFor(reg, LastLabel(tld))
  }

  datatype State = State(data: Option<Registry>, fetchedAt: Option<int>, lastAttempt: Option<int>)

  const INITIAL := State(None, None, None)

  datatype Action = UseCached | Fetch | ServeStale | Unavailable

  // The clock as one access reads it: freshness test, retry test, attempt stamp, fetch stamp.
  datatype Times = Times(freshness: int, retry: int, attempt: int, fetched: int) {
    ghost predicate Ordered() { freshness <= retry <= attempt <= fetched }
  }

  predicate Within(stamp: Option<int>, now: int, window: nat) {
    stamp.Some? && now - stamp.value < window
  }

  function Decide(s: State, t: Times): Action {
    if s.data.Some? && Within(s.fetchedAt, t.freshness, BOOTSTRAP_REFRESH_SECS) then UseCached
    else
      match (Within(s.lastAttempt, t.retry, BOOTSTRAP_RETRY_SECS), s.data.Some?)
      case (false, _) => Fetch
      case (true, true) => ServeStale
      case (true, false) => Unavailable
  }

  datatype RdapError = RetryPending | FetchFailed

  // One access: what it returns, the new state, and whether stale data was replaced.
  datatype Access = Access(data: Result<Registry, RdapError>, state: State, refreshed: bool)

  function GetOrFetch(s: State, t: Times, fetched: Result<Registry, RdapError>): Access {
    match Decide(s, t)
    case Unavailable => Access(Failure(RetryPending), s, false)
    case Fetch =>
      var tried := s.(lastAttempt := Some(t.attempt));
      (match fetched
       case Success(reg) => Access(Success(reg), State(Some(reg), Some(t.fetched), Some(t.attempt)), s.data.Some?)
       case Failure(e) => Access(if s.data.Some? then Success(s.data.value) else Failure(e), tried, false))
    case _ => Access(if s.data.Some? then Success(s.data.value) else Failure(RetryPending), s, false)
  }

  type Index = map<string, string>

  datatype Rdap = Rdap(state: State, index: Index)

  // One find_rdap_server call: its label, the clock, and what a fetch would bring.
  datatype Call = Call(tld: string, times: Times, fetched: Result<Registry, RdapError>)

  datatype Answer = Answer(server: Option<string>, after: Rdap)

  function Remember(index: Index, tld: string, server: Option<string>): Index {
    if server.Some? && tld !in index then index[tld := server.value] else index
  }

  function FindServer(r: Rdap, c: Call): Answer {
    if c.tld in r.index then Answer(Some(r.index[c.tld]), r)
    else
      var a := GetOrFetch(r.state, c.times, c.fetched);
      var index := if a.refreshed then map[] else r.index;
      match a.data
      case Failure(_) => Answer(None, Rdap(a.state, index))
      case Success(reg) => Answer(Match(reg, c.tld), Rdap(a.state, Remember(index, c.tld, Match(reg, c.tld))))
  }

  predicate Attempts(r: Rdap, c: Call) {
    c.tld !in r.index && Decide(r.state, c.times).Fetch?
  }

  // The service with its mutable bootstrap fields and index.
  class RdapService {
    var data: Option<Registry>
    var fetchedAt: Option<int>
    var lastAttempt: Option<int>
    var tldServers: Index

    function View(): Rdap
      reads this
    {
      Rdap(State(data, fetchedAt, lastAttempt), tldServers)
    }

    constructor ()
      ensures View() == Rdap(INITIAL, map[])
    {
      data, fetchedAt, lastAttempt, tldServers := None, None, None, map[];
    }

    // The decision guarantees data where the code expects it: once data is there, no access fails.
    method GetOrFetchBootstrap(t: Times, fetched: Result<Registry, RdapError>) returns (result: Result<Registry, RdapError>)
      modifies this
      ensures var a := GetOrFetch(old(View().state), t, fetched);
              && result == a.data
              && View() == Rdap(a.state, if a.refreshed then map[] else old(tldServers))
      ensures old(data.Some?) ==> result.Success?
    {
      match Decide(View().state, t) {
        case UseCached =>
          result := Success(data.value);
        case ServeStale =>
          result := Success(data.value);
        case Unavailable =>
          result := Failure(RetryPending);
        case Fetch =>
          var isRefresh := data.Some?;
          lastAttempt := Some(t.attempt);
          if fetched.Success? {
            data := Some(fetched.value);
            fetchedAt := Some(t.fetched);
            if isRefresh {
              tldServers := map[];
            }
            result := fetched;
          } else if data.Some? {
            result := Success(data.value);
          } else {
            result := fetched;
          }
      }
    }

    method FindRdapServer(c: Call) returns (server: Option<string>)
      modifies this
      ensures Answer(server, View()) == FindServer(old(View()), c)
    {
      if c.tld in tldServers {
        return Some(tldServers[c.tld]);
      }
      var got := GetOrFetchBootstrap(c.times, c.fetched);
      if got.Failure? {
        return None;
      }
      server := Match(got.value, c.tld);
      if server.Some? && c.tld !in tldServers {
        tldServers := tldServers[c.tld := server.value];
      }
    }
  }
}
