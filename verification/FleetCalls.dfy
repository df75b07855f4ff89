// A call of the cache service that overlaps no other is a run of the fleet.
module FleetCalls {
  import opened Wrappers
  import opened Validation
  import opened Cache
  import opened Fleet

  // The service's entry for a key and the fleet's slot for it: the same while it lives.
  ghost predicate MirrorsL1(s: Fleet, at: Place, l1: L1) {
    if at in s.slots then
      && s.slots[at].Live? && at.1 in l1
      && l1[at.1] == Kept(s.slots[at].held.entry.value, s.slots[at].held.deadline)
    else at.1 in l1 ==> l1[at.1].deadline <= s.now
  }

  ghost predicate MirrorsStore(s: Fleet, key: string, store: Option<Store>) {
    store.Some? ==>
      && (key in store.value <==> key in s.store)
      && (key in s.store ==> store.value[key] == Kept(s.store[key].entry.value, s.store[key].deadline))
  }

  // A later state of the fleet in which only this place, its key and this call have moved.
  ghost predicate OnlyMoved(s: Fleet, n: Fleet, at: Place, call: nat) {
    && (forall p :: p != at ==> (p in n.slots <==> p in s.slots) && (p in s.slots ==> n.slots[p] == s.slots[p]))
    && (forall k :: k != at.1 ==> (k in n.store <==> k in s.store) && (k in s.store ==> n.store[k] == s.store[k]))
    && n.waiting == s.waiting && n.reading == s.reading
    && s.served == n.served - {call}
  }

  // The call's outcome, read off the fleet.
  ghost predicate Realises(s: Fleet, n: Fleet, at: Place, call: nat, o: Outcome, end: int) {
    && OnlyMoved(s, n, at, call)
    && MirrorsL1(n, at, o.l1) && MirrorsStore(n, at.1, o.store)
    && (o.result.Success? <==> call in n.served)
    && (o.result.Success? ==> n.served[call].at == at && n.served[call].entry.value == o.result.value)
    && s.starts <= n.starts && |n.starts| == |s.starts| + (if o.fetched then 1 else 0)
    && (o.fetched ==> n.starts[|s.starts|].at == at)
    && n.now <= end
  }

  ghost predicate Idle(s: Fleet, at: Place, call: nat) {
    && NewCall(s, call) && !InFlight(s, at)
    && forall c :: c in s.waiting ==> s.waiting[c].at != at
  }

  // The circumstances of a call that overlaps no other one at its place.
  ghost predicate Ready(s: Fleet, at: Place, call: nat, l1: L1, store: Option<Store>, c: Call, cfg: Config) {
    && Idle(s, at, call) && MirrorsL1(s, at, l1) && MirrorsStore(s, at.1, store)
    && cfg.hasBackend == store.Some?
    && at.1 == NormalizeDomain(c.domain)
    && s.now <= c.start <= c.asked <= c.written
  }

  lemma HitRealises(cfg: Config, s: Fleet, at: Place, call: nat, l1: L1, store: Option<Store>, c: Call) returns (actions: seq<Action>)
    requires Ready(s, at, call, l1, store, c, cfg) && LiveIn(l1, at.1, c.start)
    ensures Realises(s, Run(cfg, s, actions), at, call, GetOrFetch(cfg.policy, l1, store, c), c.written)
  {
    var n := s;
    actions := [];
    actions, n := Extend(cfg, s, actions, n, Tick(c.start - s.now));
    actions, n := Extend(cfg, s, actions, n, Hit(call, at));
  }

  // One caller has opened the place, which has come to the given slot; nothing else has moved.
  ghost predicate Opened(s: Fleet, at: Place, call: nat, n: Fleet, slot: Slot, now: int) {
    && n.slots == s.slots[at := slot] && n.waiting == s.waiting[call := Waiting(at, |s.fetches|)] && n.reading == s.reading
    && n.now == now && n.store == s.store && n.served == s.served && n.fetches == s.fetches && n.starts == s.starts
  }

  lemma CallOpens(cfg: Config, s: Fleet, at: Place, call: nat, l1: L1, store: Option<Store>, c: Call, n: Fleet)
    requires Ready(s, at, call, l1, store, c, cfg) && !LiveIn(l1, at.1, c.start)
    requires n == s.(now := c.start)
    ensures Enabled(cfg, n, Begin(call, at))
    ensures Opened(s, at, call, Apply(cfg, n, Begin(call, at)), if cfg.hasBackend then Asking else Missed, c.start)
  {
  }

  // The miss path up to the moment the backend is asked, or known not to exist.
  lemma MissOpens(cfg: Config, s: Fleet, at: Place, call: nat, l1: L1, store: Option<Store>, c: Call)
    returns (actions: seq<Action>, n: Fleet)
    requires Ready(s, at, call, l1, store, c, cfg) && !LiveIn(l1, at.1, c.start)
    ensures n == Run(cfg, s, actions)
    ensures Opened(s, at, call, n, if cfg.hasBackend then Asking else Missed, c.asked)
  {
    n := s;
    actions := [];
    actions, n := Extend(cfg, s, actions, n, Tick(c.start - s.now));
    CallOpens(cfg, s, at, call, l1, store, c, n);
    actions, n := Extend(cfg, s, actions, n, Begin(call, at));
    actions, n := Extend(cfg, s, actions, n, Tick(c.asked - c.start));
  }

  lemma AnswerRealises(cfg: Config, s: Fleet, at: Place, call: nat, l1: L1, store: Option<Store>, c: Call, n: Fleet)
    requires Ready(s, at, call, l1, store, c, cfg) && !LiveIn(l1, at.1, c.start) && BackendHit(store, at.1, c)
    requires Opened(s, at, call, n, Asking, c.asked)
    ensures Enabled(cfg, n, BackendAnswers(at))
    ensures var m := Apply(cfg, n, BackendAnswers(at));
            && Enabled(cfg, m, Deliver(at))
            && Realises(s, Apply(cfg, m, Deliver(at)), at, call, GetOrFetch(cfg.policy, l1, store, c), c.written)
  {
    var m := Apply(cfg, n, BackendAnswers(at));
    DeliveredToOne(cfg, m, s, at, m.slots[at].entry, call);
  }

  lemma BackendHitRealises(cfg: Config, s: Fleet, at: Place, call: nat, l1: L1, store: Option<Store>, c: Call) returns (actions: seq<Action>)
    requires Ready(s, at, call, l1, store, c, cfg) && !LiveIn(l1, at.1, c.start) && BackendHit(store, at.1, c)
    ensures Realises(s, Run(cfg, s, actions), at, call, GetOrFetch(cfg.policy, l1, store, c), c.written)
  {
    var n;
    actions, n := MissOpens(cfg, s, at, call, l1, store, c);
    AnswerRealises(cfg, s, at, call, l1, store, c, n);
    actions, n := Extend(cfg, s, actions, n, BackendAnswers(at));
    actions, n := Extend(cfg, s, actions, n, Deliver(at));
  }

  // With one caller at the place, delivery serves that caller and leaves the rest as it was.
  lemma DeliveredToOne(cfg: Config, n: Fleet, s: Fleet, at: Place, e: Tagged, call: nat)
    requires Idle(s, at, call) && n.waiting == s.waiting[call := Waiting(at, |s.fetches|)] && n.served == s.served
    ensures var d := Delivered(cfg, n, at, e);
            && d.waiting == s.waiting
            && d.served == s.served[call := Served(at, e, n.now, |s.fetches|)]
            && d.served - {call} == s.served
  {
  }

  // A fetch under way for one caller.
  ghost predicate UnderWay(s: Fleet, at: Place, call: nat, n: Fleet, end: int) {
    && n.slots == s.slots[at := Fetching] && n.waiting == s.waiting[call := Waiting(at, |s.fetches|)] && n.reading == s.reading
    && n.now == end && n.store == s.store && n.served == s.served && n.fetches == s.fetches
    && s.starts <= n.starts && |n.starts| == |s.starts| + 1 && n.starts[|s.starts|].at == at
  }

  lemma FailureRealises(cfg: Config, s: Fleet, at: Place, call: nat, l1: L1, store: Option<Store>, c: Call, n: Fleet)
    requires Ready(s, at, call, l1, store, c, cfg) && !LiveIn(l1, at.1, c.start) && !BackendHit(store, at.1, c)
    requires UnderWay(s, at, call, n, c.written) && c.fetch.Failure?
    ensures Enabled(cfg, n, FetchFails(at))
    ensures Realises(s, Apply(cfg, n, FetchFails(at)), at, call, GetOrFetch(cfg.policy, l1, store, c), c.written)
  {
    assert Apply(cfg, n, FetchFails(at)).waiting == s.waiting;
  }

  lemma DirectReturnRealises(cfg: Config, s: Fleet, at: Place, call: nat, l1: L1, store: Option<Store>, c: Call, n: Fleet)
    requires Ready(s, at, call, l1, store, c, cfg) && !LiveIn(l1, at.1, c.start) && !BackendHit(store, at.1, c)
    requires UnderWay(s, at, call, n, c.written) && c.fetch.Success?
    requires !(cfg.hasBackend && BackendTtl(cfg.policy, c.fetch.value.lookupStatus).Some?)
    ensures Enabled(cfg, n, FetchReturns(at, c.fetch.value))
    ensures Realises(s, Apply(cfg, n, FetchReturns(at, c.fetch.value)), at, call, GetOrFetch(cfg.policy, l1, store, c), c.written)
  {
    var v := Plain(c.fetch.value);
    var ended := n.(fetches := n.fetches + [Fetch(at.1, v, n.now)]);
    DeliveredToOne(cfg, ended, s, at, Tagged(v, |n.fetches|, n.now), call);
  }

  // The fetch has returned a response, which the backend may already have stored.
  ghost predicate BeingWritten(cfg: Config, s: Fleet, at: Place, call: nat, v: Response, m: Fleet, end: int, stored: bool) {
    && m.slots == s.slots[at := Publishing(v, |s.fetches|, stored)]
    && m.store == (if stored then s.store[at.1 := KeptNow(cfg, m, Tagged(v, |s.fetches|, end))] else s.store)
    && m.waiting == s.waiting[call := Waiting(at, |s.fetches|)] && m.reading == s.reading
    && m.now == end && m.served == s.served
    && m.fetches == s.fetches + [Fetch(at.1, v, end)]
    && s.starts <= m.starts && |m.starts| == |s.starts| + 1 && m.starts[|s.starts|].at == at
  }

  lemma PublishRealises(cfg: Config, s: Fleet, at: Place, call: nat, l1: L1, store: Option<Store>, c: Call, m: Fleet)
    requires Ready(s, at, call, l1, store, c, cfg) && !LiveIn(l1, at.1, c.start) && !BackendHit(store, at.1, c)
    requires c.fetch.Success? && cfg.hasBackend && BackendTtl(cfg.policy, c.fetch.value.lookupStatus).Some?
    requires BeingWritten(cfg, s, at, call, Plain(c.fetch.value), m, c.written, c.setUp)
    ensures Enabled(cfg, m, Publish(at))
    ensures Realises(s, Apply(cfg, m, Publish(at)), at, call, GetOrFetch(cfg.policy, l1, store, c), c.written)
  {
    DeliveredToOne(cfg, m, s, at, Tagged(Plain(c.fetch.value), |s.fetches|, m.now), call);
  }

  lemma ReturnIsWritten(cfg: Config, s: Fleet, at: Place, call: nat, n: Fleet, end: int, response: Response)
    requires UnderWay(s, at, call, n, end)
    requires cfg.hasBackend && BackendTtl(cfg.policy, response.lookupStatus).Some?
    ensures Enabled(cfg, n, FetchReturns(at, response))
    ensures BeingWritten(cfg, s, at, call, Plain(response), Apply(cfg, n, FetchReturns(at, response)), end, false)
  {
  }

  lemma WriteIsStored(cfg: Config, s: Fleet, at: Place, call: nat, v: Response, m: Fleet, end: int)
    requires BeingWritten(cfg, s, at, call, v, m, end, false)
    ensures Enabled(cfg, m, Write(at)) && BeingWritten(cfg, s, at, call, v, Apply(cfg, m, Write(at)), end, true)
  {
  }

  lemma FetchRealises(cfg: Config, s: Fleet, at: Place, call: nat, l1: L1, store: Option<Store>, c: Call, before: seq<Action>)
    returns (actions: seq<Action>)
    requires Ready(s, at, call, l1, store, c, cfg) && !LiveIn(l1, at.1, c.start) && !BackendHit(store, at.1, c)
    requires UnderWay(s, at, call, Run(cfg, s, before), c.written)
    ensures Realises(s, Run(cfg, s, actions), at, call, GetOrFetch(cfg.policy, l1, store, c), c.written)
  {
    var n := Run(cfg, s, before);
    if c.fetch.Failure? {
      FailureRealises(cfg, s, at, call, l1, store, c, n);
      actions, n := Extend(cfg, s, before, n, FetchFails(at));
    } else if !(cfg.hasBackend && BackendTtl(cfg.policy, c.fetch.value.lookupStatus).Some?) {
      DirectReturnRealises(cfg, s, at, call, l1, store, c, n);
      actions, n := Extend(cfg, s, before, n, FetchReturns(at, c.fetch.value));
    } else {
      ReturnIsWritten(cfg, s, at, call, n, c.written, c.fetch.value);
      actions, n := Extend(cfg, s, before, n, FetchReturns(at, c.fetch.value));
      actions := WriteRealises(cfg, s, at, call, l1, store, c, actions);
    }
  }

  lemma WriteRealises(cfg: Config, s: Fleet, at: Place, call: nat, l1: L1, store: Option<Store>, c: Call, before: seq<Action>)
    returns (actions: seq<Action>)
    requires Ready(s, at, call, l1, store, c, cfg) && !LiveIn(l1, at.1, c.start) && !BackendHit(store, at.1, c)
    requires c.fetch.Success? && cfg.hasBackend && BackendTtl(cfg.policy, c.fetch.value.lookupStatus).Some?
    requires BeingWritten(cfg, s, at, call, Plain(c.fetch.value), Run(cfg, s, before), c.written, false)
    ensures Realises(s, Run(cfg, s, actions), at, call, GetOrFetch(cfg.policy, l1, store, c), c.written)
  {
    var n := Run(cfg, s, before);
    actions := before;
    if c.setUp {
      WriteIsStored(cfg, s, at, call, Plain(c.fetch.value), n, c.written);
      actions, n := Extend(cfg, s, actions, n, Write(at));
    }
    PublishRealises(cfg, s, at, call, l1, store, c, n);
    actions, n := Extend(cfg, s, actions, n, Publish(at));
  }

  lemma AskedMisses(cfg: Config, s: Fleet, at: Place, call: nat, l1: L1, store: Option<Store>, c: Call, n: Fleet)
    requires Ready(s, at, call, l1, store, c, cfg) && !BackendHit(store, at.1, c) && cfg.hasBackend
    requires Opened(s, at, call, n, Asking, c.asked)
    ensures var a := if c.getUp then BackendMisses(at) else BackendFails(at);
            Enabled(cfg, n, a) && Opened(s, at, call, Apply(cfg, n, a), Missed, c.asked)
  {
    assert n.slots[at := Missed] == s.slots[at := Missed];
  }

  lemma FetchStarts(cfg: Config, s: Fleet, at: Place, call: nat, n: Fleet, now: int)
    requires Opened(s, at, call, n, Missed, now)
    ensures Enabled(cfg, n, FetchBegins(at)) && UnderWay(s, at, call, Apply(cfg, n, FetchBegins(at)), now)
  {
    assert n.slots[at := Fetching] == s.slots[at := Fetching];
  }

  // The miss path up to the end of the fetch.
  lemma MissFetches(cfg: Config, s: Fleet, at: Place, call: nat, l1: L1, store: Option<Store>, c: Call) returns (actions: seq<Action>)
    requires Ready(s, at, call, l1, store, c, cfg) && !LiveIn(l1, at.1, c.start) && !BackendHit(store, at.1, c)
    ensures UnderWay(s, at, call, Run(cfg, s, actions), c.written)
  {
    var n;
    actions, n := MissOpens(cfg, s, at, call, l1, store, c);
    if cfg.hasBackend {
      AskedMisses(cfg, s, at, call, l1, store, c, n);
      actions, n := Extend(cfg, s, actions, n, if c.getUp then BackendMisses(at) else BackendFails(at));
    }
    FetchStarts(cfg, s, at, call, n, c.asked);
    actions, n := Extend(cfg, s, actions, n, FetchBegins(at));
    actions, n := Extend(cfg, s, actions, n, Tick(c.written - c.asked));
  }

  // Every call of the service that overlaps no other at its place is a run of the fleet with
  // the same result, the same tiers afterwards and a fetch exactly when the call fetched.
  lemma CallIsFleetRun(cfg: Config, s: Fleet, at: Place, call: nat, l1: L1, store: Option<Store>, c: Call) returns (actions: seq<Action>)
    requires Ready(s, at, call, l1, store, c, cfg)
    ensures Realises(s, Run(cfg, s, actions), at, call, GetOrFetch(cfg.policy, l1, store, c), c.written)
  {
    if LiveIn(l1, at.1, c.start) {
      actions := HitRealises(cfg, s, at, call, l1, store, c);
    } else if BackendHit(store, at.1, c) {
      actions := BackendHitRealises(cfg, s, at, call, l1, store, c);
    } else {
      actions := MissFetches(cfg, s, at, call, l1, store, c);
      actions := FetchRealises(cfg, s, at, call, l1, store, c, actions);
    }
  }
}
