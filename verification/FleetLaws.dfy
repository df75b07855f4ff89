// What every run of the fleet keeps: provenance, bounded staleness, no kept throttle notices.
module FleetLaws {
  import opened Records
  import opened Cache
  import opened Fleet

  // A status no tier may keep.
  predicate Unkept(cfg: Config, status: LookupStatus) {
    BackendTtl(cfg.policy, status).None?
  }

  function Life(cfg: Config, e: Tagged): nat {
    L1Ttl(cfg.policy, e.value.lookupStatus)
  }

  // How long after its publication an entry can still be live in some process.
  function Reach(cfg: Config, e: Tagged): nat {
    if Unkept(cfg, e.value.lookupStatus) then 0 else cfg.readLag + 2 * Life(cfg, e)
  }

  // The entry is a fetch of this key, published within the write lag of that fetch's end.
  ghost predicate Genuine(cfg: Config, fetches: seq<Fetch>, now: int, key: string, e: Tagged) {
    && e.id < |fetches|
    && fetches[e.id].key == key
    && fetches[e.id].value == Plain(e.value)
    && fetches[e.id].ended <= e.since <= fetches[e.id].ended + cfg.writeLag
    && e.since <= now
  }

  // An answer read from the backend while it was stored there.
  ghost predicate ReadOk(cfg: Config, s: Fleet, key: string, e: Tagged, readAt: int) {
    && Genuine(cfg, s.fetches, s.now, key, e)
    && readAt < e.since + Life(cfg, e)
    && !Unkept(cfg, e.value.lookupStatus)
  }

  ghost predicate SlotOk(cfg: Config, s: Fleet, at: Place) {
    at in s.slots ==>
      match s.slots[at]
      case Live(h) => Genuine(cfg, s.fetches, s.now, at.1, h.entry) && h.deadline <= h.entry.since + Reach(cfg, h.entry)
      case Answered(e, readAt) => ReadOk(cfg, s, at.1, e, readAt)
      case Publishing(v, id, _) =>
        && id < |s.fetches| && s.fetches[id].key == at.1 && s.fetches[id].value == Plain(v) && s.fetches[id].ended <= s.now
        && !Unkept(cfg, v.lookupStatus)
      case _ => true
  }

  ghost predicate StoreOk(cfg: Config, s: Fleet, key: string) {
    key in s.store ==>
      var h := s.store[key];
      && Genuine(cfg, s.fetches, s.now, key, h.entry)
      && h.deadline <= h.entry.since + Life(cfg, h.entry)
      && !Unkept(cfg, h.entry.value.lookupStatus)
  }

  ghost predicate WaitingOk(s: Fleet, c: nat) {
    c in s.waiting ==> s.waiting[c].born <= |s.fetches| && InFlight(s, s.waiting[c].at)
  }

  ghost predicate ReadingOk(cfg: Config, s: Fleet, c: nat) {
    c in s.reading ==> ReadOk(cfg, s, s.reading[c].at.1, s.reading[c].entry, s.reading[c].readAt)
  }

  // What a caller is promised: its own key's response, served no later than the entry's reach
  // after its publication, and never an unkept status fetched before the call began.
  ghost predicate ServedOk(cfg: Config, s: Fleet, c: nat) {
    c in s.served ==>
      var v := s.served[c];
      && Genuine(cfg, s.fetches, s.now, v.at.1, v.entry)
      && v.entry.since <= v.time <= s.now
      && (v.time == v.entry.since || v.time < v.entry.since + Reach(cfg, v.entry))
      && (Unkept(cfg, v.entry.value.lookupStatus) ==> v.born <= v.entry.id)
  }

  ghost predicate Inv(cfg: Config, s: Fleet) {
    && (forall at :: SlotOk(cfg, s, at))
    && (forall key :: StoreOk(cfg, s, key))
    && (forall c :: WaitingOk(s, c))
    && (forall c :: ReadingOk(cfg, s, c))
    && (forall c :: ServedOk(cfg, s, c))
  }

  // A fleet whose instances are cold, in front of a well-formed backend content.
  ghost predicate Cold(cfg: Config, s: Fleet) {
    && s.slots == map[] && s.waiting == map[] && s.reading == map[] && s.served == map[] && s.starts == []
    && forall key :: StoreOk(cfg, s, key)
  }

  // A delivery keeps the invariant when the entry is genuine, within one lifetime and the read
  // lag of its publication, and newer than its callers if its status may not be kept.
  lemma DeliveryKeepsInv(cfg: Config, s: Fleet, at: Place, e: Tagged)
    requires Inv(cfg, s) && InFlight(s, at)
    requires Genuine(cfg, s.fetches, s.now, at.1, e)
    requires s.now == e.since || (!Unkept(cfg, e.value.lookupStatus) && s.now < e.since + cfg.readLag + Life(cfg, e))
    requires Unkept(cfg, e.value.lookupStatus) ==> forall c :: c in s.waiting && s.waiting[c].at == at ==> s.waiting[c].born <= e.id
    ensures Inv(cfg, Delivered(cfg, s, at, e))
  {
    var n := Delivered(cfg, s, at, e);
    forall c ensures ServedOk(cfg, n, c) {
      assert ServedOk(cfg, s, c);
    }
    forall c ensures WaitingOk(n, c) {
      assert WaitingOk(s, c);
    }
    forall c ensures ReadingOk(cfg, n, c) {
      assert ReadingOk(cfg, s, c);
    }
    forall p ensures SlotOk(cfg, n, p) {
      assert SlotOk(cfg, s, p);
    }
    forall key ensures StoreOk(cfg, n, key) {
      assert StoreOk(cfg, s, key);
    }
  }

  // Everything except deliveries, fetch returns and promotions, slot by slot.
  predicate Quiet(a: Action) {
    !(a.Hit? || a.Deliver? || a.FetchReturns? || a.Publish? || a.Promote?)
  }

  lemma QuietSlot(cfg: Config, s: Fleet, a: Action, p: Place)
    requires SlotOk(cfg, s, p) && StoreOk(cfg, s, p.1) && Enabled(cfg, s, a) && Quiet(a)
    ensures SlotOk(cfg, Apply(cfg, s, a), p)
  {
    var n := Apply(cfg, s, a);
    if p in n.slots ==> p in s.slots && n.slots[p] == s.slots[p] {
      SameSlot(cfg, s, n, p);
    }
  }

  lemma SameSlot(cfg: Config, s: Fleet, n: Fleet, p: Place)
    requires SlotOk(cfg, s, p) && s.now <= n.now && n.fetches == s.fetches
    requires p in n.slots ==> p in s.slots && n.slots[p] == s.slots[p]
    ensures SlotOk(cfg, n, p)
  {
  }

  lemma QuietStore(cfg: Config, s: Fleet, a: Action, key: string)
    requires StoreOk(cfg, s, key) && Enabled(cfg, s, a) && Quiet(a)
    requires a.Write? && a.at.1 == key ==> SlotOk(cfg, s, a.at)
    ensures StoreOk(cfg, Apply(cfg, s, a), key)
  {
  }

  lemma QuietReading(cfg: Config, s: Fleet, a: Action, c: nat)
    requires ReadingOk(cfg, s, c) && Enabled(cfg, s, a) && Quiet(a)
    requires a.ReadStore? ==> StoreOk(cfg, s, a.at.1)
    ensures ReadingOk(cfg, Apply(cfg, s, a), c)
  {
  }

  lemma QuietWaiting(cfg: Config, s: Fleet, a: Action)
    requires Inv(cfg, s) && Enabled(cfg, s, a) && Quiet(a)
    ensures forall c :: WaitingOk(Apply(cfg, s, a), c)
  {
    var n := Apply(cfg, s, a);
    forall c ensures WaitingOk(n, c) {
      assert WaitingOk(s, c);
    }
  }

  lemma QuietServed(cfg: Config, s: Fleet, a: Action, c: nat)
    requires ServedOk(cfg, s, c) && Enabled(cfg, s, a) && Quiet(a)
    ensures ServedOk(cfg, Apply(cfg, s, a), c)
  {
  }

  lemma QuietKeepsInv(cfg: Config, s: Fleet, a: Action)
    requires Inv(cfg, s) && Enabled(cfg, s, a) && Quiet(a)
    ensures Inv(cfg, Apply(cfg, s, a))
  {
    var n := Apply(cfg, s, a);
    forall p ensures SlotOk(cfg, n, p) {
      QuietSlot(cfg, s, a, p);
    }
    forall key ensures StoreOk(cfg, n, key) {
      QuietStore(cfg, s, a, key);
    }
    QuietWaiting(cfg, s, a);
    forall c ensures ReadingOk(cfg, n, c) && ServedOk(cfg, n, c) {
      QuietReading(cfg, s, a, c);
      QuietServed(cfg, s, a, c);
    }
  }

  // A hit is live, so its entry is within its reach and its status may be kept.
  lemma HitKeepsInv(cfg: Config, s: Fleet, c: nat, at: Place)
    requires Inv(cfg, s) && Enabled(cfg, s, Hit(c, at))
    ensures Inv(cfg, Apply(cfg, s, Hit(c, at)))
  {
    var n := Apply(cfg, s, Hit(c, at));
    assert SlotOk(cfg, s, at);
    forall p ensures SlotOk(cfg, n, p) {
      assert SlotOk(cfg, s, p);
    }
    forall key ensures StoreOk(cfg, n, key) {
      assert StoreOk(cfg, s, key);
    }
    forall d ensures WaitingOk(n, d) && ReadingOk(cfg, n, d) {
      assert WaitingOk(s, d) && ReadingOk(cfg, s, d);
    }
    forall d ensures ServedOk(cfg, n, d) {
      assert ServedOk(cfg, s, d);
    }
  }

  lemma PromoteKeepsInv(cfg: Config, s: Fleet, c: nat)
    requires Inv(cfg, s) && Enabled(cfg, s, Promote(c))
    ensures Inv(cfg, Apply(cfg, s, Promote(c)))
  {
    var n := Apply(cfg, s, Promote(c));
    assert ReadingOk(cfg, s, c);
    forall p ensures SlotOk(cfg, n, p) {
      assert SlotOk(cfg, s, p);
    }
    forall key ensures StoreOk(cfg, n, key) {
      assert StoreOk(cfg, s, key);
    }
    forall d ensures WaitingOk(n, d) && ReadingOk(cfg, n, d) {
      assert WaitingOk(s, d) && ReadingOk(cfg, s, d);
    }
    forall d ensures ServedOk(cfg, n, d) {
      assert ServedOk(cfg, s, d);
    }
  }

  // The fetch is recorded; until something is delivered nothing else changes.
  lemma FetchEndKeepsInv(cfg: Config, s: Fleet, at: Place, v: Response)
    requires Inv(cfg, s) && InFlight(s, at)
    ensures Inv(cfg, s.(fetches := s.fetches + [Fetch(at.1, v, s.now)]))
  {
    var n := s.(fetches := s.fetches + [Fetch(at.1, v, s.now)]);
    forall p ensures SlotOk(cfg, n, p) {
      assert SlotOk(cfg, s, p);
    }
    forall key ensures StoreOk(cfg, n, key) {
      assert StoreOk(cfg, s, key);
    }
    forall c ensures WaitingOk(n, c) && ReadingOk(cfg, n, c) {
      assert WaitingOk(s, c) && ReadingOk(cfg, s, c);
    }
    forall c ensures ServedOk(cfg, n, c) {
      assert ServedOk(cfg, s, c);
    }
  }

  // A place in flight may move to any well-formed place in flight.
  lemma MoveKeepsInv(cfg: Config, s: Fleet, at: Place, slot: Slot)
    requires Inv(cfg, s) && !slot.Live? && SlotOk(cfg, Moved(s, at, slot), at)
    ensures Inv(cfg, Moved(s, at, slot))
  {
    var n := Moved(s, at, slot);
    forall p ensures SlotOk(cfg, n, p) {
      assert SlotOk(cfg, s, p);
    }
    forall key ensures StoreOk(cfg, n, key) {
      assert StoreOk(cfg, s, key);
    }
    forall c ensures WaitingOk(n, c) && ReadingOk(cfg, n, c) {
      assert WaitingOk(s, c) && ReadingOk(cfg, s, c);
    }
    forall c ensures ServedOk(cfg, n, c) {
      assert ServedOk(cfg, s, c);
    }
  }

  lemma FetchReturnKeepsInv(cfg: Config, s: Fleet, at: Place, response: Response)
    requires Inv(cfg, s) && Enabled(cfg, s, FetchReturns(at, response))
    ensures Inv(cfg, Apply(cfg, s, FetchReturns(at, response)))
  {
    var v, id := Plain(response), |s.fetches|;
    var ended := s.(fetches := s.fetches + [Fetch(at.1, v, s.now)]);
    FetchEndKeepsInv(cfg, s, at, v);
    if cfg.hasBackend && BackendTtl(cfg.policy, v.lookupStatus).Some? {
      MoveKeepsInv(cfg, ended, at, Publishing(v, id, false));
    } else {
      forall c | c in s.waiting ensures s.waiting[c].born <= id {
        assert WaitingOk(s, c);
      }
      DeliveryKeepsInv(cfg, ended, at, Tagged(v, id, s.now));
    }
  }

  lemma StepKeepsInv(cfg: Config, s: Fleet, a: Action)
    requires Inv(cfg, s) && Enabled(cfg, s, a)
    ensures Inv(cfg, Apply(cfg, s, a))
  {
    match a {
      case Hit(c, at) => HitKeepsInv(cfg, s, c, at);
      case Promote(c) => PromoteKeepsInv(cfg, s, c);
      case Deliver(at) =>
        assert SlotOk(cfg, s, at);
        DeliveryKeepsInv(cfg, s, at, s.slots[at].entry);
      case FetchReturns(at, response) => FetchReturnKeepsInv(cfg, s, at, response);
      case Publish(at) =>
        assert SlotOk(cfg, s, at);
        DeliveryKeepsInv(cfg, s, at, Tagged(s.slots[at].value, s.slots[at].id, s.now));
      case _ => QuietKeepsInv(cfg, s, a);
    }
  }

  lemma {:induction false} RunKeepsInv(cfg: Config, s: Fleet, actions: seq<Action>)
    requires Cold(cfg, s)
    ensures Inv(cfg, Run(cfg, s, actions))
  {
    if actions != [] {
      var before, a := Run(cfg, s, actions[..|actions| - 1]), actions[|actions| - 1];
      RunKeepsInv(cfg, s, actions[..|actions| - 1]);
      if Enabled(cfg, before, a) {
        StepKeepsInv(cfg, before, a);
      }
    }
  }

  // Provenance and bounded staleness, for any fleet, any lags and any interleaving: every
  // response served for a key is a fetch of that key, and once its write-through is over it
  // is served for less than the read lag and two lifetimes of its status.
  lemma ServedIsGenuineAndFresh(cfg: Config, s: Fleet, actions: seq<Action>, c: nat)
    requires Cold(cfg, s) && c in Run(cfg, s, actions).served
    ensures var n := Run(cfg, s, actions);
            var v := n.served[c];
            && v.entry.id < |n.fetches|
            && n.fetches[v.entry.id].key == v.at.1
            && n.fetches[v.entry.id].value == Plain(v.entry.value)
            && var published := n.fetches[v.entry.id].ended + cfg.writeLag;
            && n.fetches[v.entry.id].ended <= v.time
            && (v.entry.value.lookupStatus == Found ==> v.time <= published || v.time < published + cfg.readLag + 2 * cfg.policy.positive)
            && (v.entry.value.lookupStatus == NotFound ==> v.time <= published || v.time < published + cfg.readLag + 2 * cfg.policy.negative)
            && (v.entry.value.lookupStatus == RateLimited ==> v.time <= published)
  {
    RunKeepsInv(cfg, s, actions);
    assert ServedOk(cfg, Run(cfg, s, actions), c);
  }

  // A throttle notice, or a status whose lifetime is configured to be zero.
  ghost predicate Fleeting(cfg: Config, status: LookupStatus) {
    || status == RateLimited
    || (status == NotFound && cfg.policy.negative == 0)
    || (status == Found && cfg.policy.positive == 0)
  }

  lemma FleetingIsUnkept(cfg: Config, status: LookupStatus)
    ensures Fleeting(cfg, status) <==> Unkept(cfg, status)
  {
  }

  // They are never kept: no tier holds a live one, and no call is served one fetched before it
  // began.
  lemma NothingUnkeptIsKept(cfg: Config, s: Fleet, actions: seq<Action>)
    requires Cold(cfg, s)
    ensures var n := Run(cfg, s, actions);
            && (forall key :: key in n.store ==> !Fleeting(cfg, n.store[key].entry.value.lookupStatus))
            && (forall at :: LiveAt(n, at) ==> !Fleeting(cfg, n.slots[at].held.entry.value.lookupStatus))
            && (forall c :: c in n.served && Fleeting(cfg, n.served[c].entry.value.lookupStatus) ==>
                  n.served[c].born <= n.served[c].entry.id)
  {
    RunKeepsInv(cfg, s, actions);
    var n := Run(cfg, s, actions);
    forall key | key in n.store ensures !Fleeting(cfg, n.store[key].entry.value.lookupStatus) {
      assert StoreOk(cfg, n, key);
      FleetingIsUnkept(cfg, n.store[key].entry.value.lookupStatus);
    }
    forall at | LiveAt(n, at) ensures !Fleeting(cfg, n.slots[at].held.entry.value.lookupStatus) {
      assert SlotOk(cfg, n, at);
      FleetingIsUnkept(cfg, n.slots[at].held.entry.value.lookupStatus);
    }
    forall c | c in n.served && Fleeting(cfg, n.served[c].entry.value.lookupStatus)
      ensures n.served[c].born <= n.served[c].entry.id
    {
      assert ServedOk(cfg, n, c);
      FleetingIsUnkept(cfg, n.served[c].entry.value.lookupStatus);
    }
  }
}
