// src/cache.rs: one cache service, its in-process tier and the shared backend.
module Cache {
  import opened Wrappers
  import opened Records
  import opened Network
  import opened Validation

  // WhoisResponse without the analysis text.
  datatype Response = Response(
    domain: string, whoisServer: string, rawData: string, parsedData: Option<Record>,
    lookupStatus: LookupStatus, cached: bool, queryTimeMs: nat)

  datatype Policy = Policy(positive: nat, negative: nat)

  // StatusExpiry: lifetime of a new in-process entry.
  function L1Ttl(p: Policy, status: LookupStatus): nat {
    match status
    case Found => p.positive
    case NotFound => p.negative
    case RateLimited => 0
  }

  // backend_ttl: lifetime in the backend; None means do not store.
  function BackendTtl(p: Policy, status: LookupStatus): Option<nat> {
    if status == RateLimited || L1Ttl(p, status) == 0 then None else Some(L1Ttl(p, status))
  }

  // An in-process entry is live strictly before its deadline; so is a stored one.
  datatype Kept = Kept(value: Response, deadline: int)

  type L1 = map<string, Kept>

  type Store = map<string, Kept>

  predicate LiveIn(entries: map<string, Kept>, key: string, now: int) {
    key in entries && now < entries[key].deadline
  }

  // The backend's contract: it returns a stored response while its lifetime lasts, or fails.
  class Backend {
    var store: Store

    constructor ()
      ensures store == map[]
    {
      store := map[];
    }

    method Get(key: string, now: int, up: bool) returns (r: Result<Option<Response>, WhoisError>)
      ensures r == if !up then Failure(Internal)
                   else Success(if LiveIn(store, key, now) then Some(store[key].value) else None)
    {
      if !up {
        return Failure(Internal);
      }
      r := Success(if LiveIn(store, key, now) then Some(store[key].value) else None);
    }

    method Set(key: string, value: Response, ttl: nat, now: int, up: bool)
      modifies this
      ensures store == if up then old(store)[key := Kept(value, now + ttl)] else old(store)
    {
      if up {
        store := store[key := Kept(value, now + ttl)];
      }
    }
  }

  // One call: when it looks in the process, when the backend answers, when the write ends;
  // whether the backend answers reads and writes; and what the fetch would return.
  datatype Call = Call(domain: string, start: int, asked: int, written: int, getUp: bool, setUp: bool,
                       fetch: Result<Response, WhoisError>)

  datatype Outcome = Outcome(result: Result<Response, WhoisError>, fetched: bool, l1: L1, store: Option<Store>)

  function BackendHit(store: Option<Store>, key: string, c: Call): bool {
    store.Some? && c.getUp && LiveIn(store.value, key, c.asked)
  }

  function WriteThrough(p: Policy, store: Option<Store>, key: string, v: Response, c: Call): Option<Store> {
    var ttl := BackendTtl(p, v.lookupStatus);
    if store.Some? && ttl.Some? && c.setUp then Some(store.value[key := Kept(v, c.written + ttl.value)]) else store
  }

  function GetOrFetch(p: Policy, l1: L1, store: Option<Store>, c: Call): Outcome {
    var key := NormalizeDomain(c.domain);
    if LiveIn(l1, key, c.start) then Outcome(Success(l1[key].value.(cached := true)), false, l1, store)
    else if BackendHit(store, key, c) then
      var v := store.value[key].value.(cached := true);
      Outcome(Success(v), false, l1[key := Kept(v, c.asked + L1Ttl(p, v.lookupStatus))], store)
    else
      match c.fetch
      case Failure(e) => Outcome(Failure(e), true, l1, store)
      case Success(r) =>
        var v := r.(cached := false);
        Outcome(Success(v), true, l1[key := Kept(v, c.written + L1Ttl(p, v.lookupStatus))], WriteThrough(p, store, key, v, c))
  }

  class CacheService {
    const policy: Policy
    const backend: Backend?
    var cache: L1

    constructor (policy: Policy, backend: Backend?)
      ensures this.policy == policy && this.backend == backend && cache == map[]
    {
      this.policy, this.backend, cache := policy, backend, map[];
    }

    function Store(): (r: Option<Store>)
      reads this, backend
      ensures backend == null ==> r == None
      ensures backend != null ==> r == Some(backend.store)
    {
      if backend == null then None else Some(backend.store)
    }

    // A backend failure reads as a miss.
    method BackendGet(key: string, now: int, up: bool) returns (hit: Option<Response>)
      ensures hit == if Store().Some? && up && LiveIn(Store().value, key, now) then Some(Store().value[key].value) else None
    {
      if backend == null {
        return None;
      }
      var r := backend.Get(key, now, up);
      hit := if r.Success? then r.value else None;
    }

    method BackendSet(key: string, v: Response, now: int, up: bool)
      modifies backend
      ensures var ttl := BackendTtl(policy, v.lookupStatus);
              Store() == if old(Store()).Some? && ttl.Some? && up
                         then Some(old(Store()).value[key := Kept(v, now + ttl.value)]) else old(Store())
    {
      var ttl := BackendTtl(policy, v.lookupStatus);
      if backend != null && ttl.Some? {
        backend.Set(key, v, ttl.value, now, up);
      }
    }

    // get: no fetch and no write to the backend; a backend hit is promoted for a new lifetime.
    method Get(domain: string, start: int, asked: int, getUp: bool) returns (r: Option<Response>)
      modifies this`cache
      ensures var key, stored := NormalizeDomain(domain), if Store().Some? then Store().value else map[];
              if LiveIn(old(cache), key, start) then
                r == Some(old(cache)[key].value.(cached := true)) && cache == old(cache)
              else if getUp && LiveIn(stored, key, asked) then
                && r == Some(stored[key].value.(cached := true))
                && cache == old(cache)[key := Kept(stored[key].value, asked + L1Ttl(policy, stored[key].value.lookupStatus))]
              else r == None && cache == old(cache)
    {
      var key := NormalizeDomain(domain);
      if key in cache && start < cache[key].deadline {
        return Some(cache[key].value.(cached := true));
      }
      var hit := BackendGet(key, asked, getUp);
      if hit.None? {
        return None;
      }
      cache := cache[key := Kept(hit.value, asked + L1Ttl(policy, hit.value.lookupStatus))];
      r := Some(hit.value.(cached := true));
    }

    // get_or_fetch for calls that do not overlap.
    method GetOrFetchResponse(c: Call) returns (result: Result<Response, WhoisError>, fetched: bool)
      modifies this, backend
      ensures Outcome(result, fetched, cache, Store()) == GetOrFetch(policy, old(cache), old(Store()), c)
    {
      var key := NormalizeDomain(c.domain);
      fetched := false;
      if key in cache && c.start < cache[key].deadline {
        return Success(cache[key].value.(cached := true)), false;
      }
      var hit := BackendGet(key, c.asked, c.getUp);
      if hit.Some? {
        var v := hit.value.(cached := true);
        cache := cache[key := Kept(v, c.asked + L1Ttl(policy, v.lookupStatus))];
        return Success(v), false;
      }
      if c.fetch.Failure? {
        return Failure(c.fetch.error), true;
      }
      var v := c.fetch.value.(cached := false);
      BackendSet(key, v, c.written, c.setUp);
      cache := cache[key := Kept(v, c.written + L1Ttl(policy, v.lookupStatus))];
      result, fetched := Success(v), true;
    }
  }

  // A served response carries the cached mark exactly when the call asked nobody upstream, and
  // an error is always the fetch's own.
  lemma CachedMeansNotFetched(p: Policy, l1: L1, store: Option<Store>, c: Call)
    ensures var o := GetOrFetch(p, l1, store, c);
            && (o.result.Success? ==> (o.result.value.cached <==> !o.fetched))
            && (o.result.Failure? ==> o.fetched && o.result == c.fetch && o.l1 == l1 && o.store == store)
  {
  }

  // How long a status lasts: nothing for a throttle notice.
  ghost function Lifetime(p: Policy, status: LookupStatus): nat {
    if status == Found then p.positive else if status == NotFound then p.negative else 0
  }

  // A fetched answer is repeated without asking anyone for exactly its status's lifetime, the
  // positive or the negative one, and the process forgets it from then on; a throttle notice is
  // not repeated at all.
  lemma KeptForExactlyItsLifetime(p: Policy, l1: L1, store: Option<Store>, c: Call, again: Call)
    requires GetOrFetch(p, l1, store, c).fetched && c.fetch.Success?
    requires NormalizeDomain(again.domain) == NormalizeDomain(c.domain)
    ensures var o := GetOrFetch(p, l1, store, c); var next := GetOrFetch(p, o.l1, o.store, again);
            var deadline := c.written + Lifetime(p, c.fetch.value.lookupStatus);
            var elsewhere := o.store.Some? && again.getUp && NormalizeDomain(c.domain) in o.store.value &&
                             again.asked < o.store.value[NormalizeDomain(c.domain)].deadline;
            && (again.start < deadline ==> !next.fetched && next.result == Success(c.fetch.value.(cached := true)))
            && (again.start >= deadline && !elsewhere ==> next.fetched)
  {
  }

  // What a fetch leaves in the backend: the answer for its lifetime, if it has one.
  lemma StoredForExactlyItsLifetime(p: Policy, l1: L1, store: Store, c: Call)
    requires GetOrFetch(p, l1, Some(store), c).fetched && c.fetch.Success?
    ensures var life := Lifetime(p, c.fetch.value.lookupStatus);
            GetOrFetch(p, l1, Some(store), c).store ==
            Some(if life > 0 && c.setUp
                 then store[NormalizeDomain(c.domain) := Kept(c.fetch.value.(cached := false), c.written + life)] else store)
  {
  }

  // A backend answer is kept in the process for a new lifetime of its status.
  lemma PromotedForExactlyItsLifetime(p: Policy, l1: L1, store: Store, c: Call, again: Call)
    requires var o := GetOrFetch(p, l1, Some(store), c); !o.fetched && !LiveIn(l1, NormalizeDomain(c.domain), c.start)
    requires NormalizeDomain(again.domain) == NormalizeDomain(c.domain)
    ensures var o, key := GetOrFetch(p, l1, Some(store), c), NormalizeDomain(c.domain);
            && key in store && c.getUp && c.asked < store[key].deadline && o.store == Some(store)
            && o.result == Success(store[key].value.(cached := true))
            && (again.start < c.asked + Lifetime(p, store[key].value.lookupStatus) ==>
                  var next := GetOrFetch(p, o.l1, o.store, again); !next.fetched && next.result == o.result)
  {
  }

  // A name and the same name with a trailing dot share one entry.
  lemma TrailingDotSharesEntry(p: Policy, l1: L1, store: Option<Store>, c: Call, domain: string)
    requires c.domain == domain && (domain == "" || domain[|domain| - 1] != '.')
    ensures GetOrFetch(p, l1, store, c) == GetOrFetch(p, l1, store, c.(domain := domain + "."))
  {
    assert (domain + ".")[|domain + "."| - 1..] == ".";
    assert (domain + ".")[..|domain|] == domain;
  }

  // A run of calls on one service: every result, every fetch decision, the tiers at the end.
  datatype CacheRun = CacheRun(results: seq<Result<Response, WhoisError>>, fetches: seq<bool>, l1: L1, store: Option<Store>)

  function RunCalls(p: Policy, store: Option<Store>, calls: seq<Call>): (r: CacheRun)
    ensures |r.results| == |r.fetches| == |calls|
  {
    if calls == [] then CacheRun([], [], map[], store)
    else
      var r := RunCalls(p, store, calls[..|calls| - 1]);
      var o := GetOrFetch(p, r.l1, r.store, calls[|calls| - 1]);
      CacheRun(r.results + [o.result], r.fetches + [o.fetched], o.l1, o.store)
  }

  // A backend whose reads always fail is no backend: same results, same fetches, same
  // in-process entries, whatever it stored before and whatever its writes do.
  lemma {:induction false} OutageIsNoBackend(p: Policy, store: Store, calls: seq<Call>)
    requires forall c :: c in calls ==> !c.getUp
    ensures var down, none := RunCalls(p, Some(store), calls), RunCalls(p, None, calls);
            down.results == none.results && down.fetches == none.fetches && down.l1 == none.l1
    ensures RunCalls(p, None, calls).store.None? && RunCalls(p, Some(store), calls).store.Some?
  {
    if calls != [] {
      var init := calls[..|calls| - 1];
      assert calls[|calls| - 1] in calls && forall c :: c in init ==> c in calls;
      OutageIsNoBackend(p, store, init);
    }
  }
}
