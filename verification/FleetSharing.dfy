// Coalescing: the callers of a key in one instance share one outcome.
module FleetSharing {
  import opened Cache
  import opened Fleet

  // A new call always finds its way, and only one: it is served from the process, opens the
  // place, or joins the call that has it open.
  lemma CallerProceeds(cfg: Config, s: Fleet, c: nat, at: Place)
    requires NewCall(s, c)
    ensures Enabled(cfg, s, Hit(c, at)) <==> at in s.slots && s.slots[at].Live? && s.now < s.slots[at].held.deadline
    ensures Enabled(cfg, s, Join(c, at)) <==> at in s.slots && !s.slots[at].Live?
    ensures Enabled(cfg, s, Begin(c, at)) <==> !Enabled(cfg, s, Hit(c, at)) && !Enabled(cfg, s, Join(c, at))
  {
  }

  // A place at work always has a next move, as long as the lags are kept.
  lemma PlaceProceeds(cfg: Config, s: Fleet, at: Place, r: Response)
    requires at in s.slots
    ensures match s.slots[at]
            case Live(_) => Enabled(cfg, s, Evict(at))
            case Asking => Enabled(cfg, s, BackendFails(at)) && (Enabled(cfg, s, BackendAnswers(at)) <==> !Enabled(cfg, s, BackendMisses(at)))
            case Answered(_, readAt) => Enabled(cfg, s, Deliver(at)) <==> s.now <= readAt + cfg.readLag
            case Missed => Enabled(cfg, s, FetchBegins(at))
            case Fetching => Enabled(cfg, s, FetchFails(at)) && Enabled(cfg, s, FetchReturns(at, r))
            case Publishing(_, id, written) =>
              id < |s.fetches| && s.now <= s.fetches[id].ended + cfg.writeLag ==>
                Enabled(cfg, s, Publish(at)) && (!written ==> Enabled(cfg, s, Write(at)))
  {
  }

  // A caller that opens a place or joins it waits there.
  lemma CallerWaits(cfg: Config, s: Fleet, a: Action)
    requires (a.Begin? || a.Join?) && Enabled(cfg, s, a)
    ensures var n := Apply(cfg, s, a);
            a.call in n.waiting && n.waiting[a.call] == Waiting(a.at, |s.fetches|) && InFlight(n, a.at)
  {
  }

  // The call still waits at the place, or the place has kept an entry and the call was served
  // it, or the place's fetch failed and the call is gone.
  ghost predicate StillWaits(n: Fleet, c: nat, w: Waiting) {
    c in n.waiting && n.waiting[c] == w && InFlight(n, w.at)
  }

  ghost predicate ServedHere(n: Fleet, c: nat, w: Waiting) {
    && c !in n.waiting && c in n.served && w.at in n.slots && n.slots[w.at].Live?
    && n.served[c] == Served(w.at, n.slots[w.at].held.entry, n.now, w.born)
  }

  lemma DeliveryServes(cfg: Config, s: Fleet, at: Place, e: Tagged, c: nat)
    requires c in s.waiting && s.waiting[c].at == at
    ensures ServedHere(Delivered(cfg, s, at, e), c, s.waiting[c])
  {
  }

  lemma OthersWait(cfg: Config, s: Fleet, at: Place, e: Tagged, c: nat)
    requires c in s.waiting && s.waiting[c].at != at && InFlight(s, s.waiting[c].at)
    ensures StillWaits(Delivered(cfg, s, at, e), c, s.waiting[c])
  {
  }

  lemma WaiterDelivered(cfg: Config, s: Fleet, at: Place, e: Tagged, c: nat)
    requires c in s.waiting && InFlight(s, s.waiting[c].at)
    ensures var n := Delivered(cfg, s, at, e);
            if s.waiting[c].at == at then ServedHere(n, c, s.waiting[c]) else StillWaits(n, c, s.waiting[c])
  {
    if s.waiting[c].at == at {
      DeliveryServes(cfg, s, at, e, c);
    } else {
      OthersWait(cfg, s, at, e, c);
    }
  }

  lemma WaiterStep(cfg: Config, s: Fleet, a: Action, c: nat)
    requires Enabled(cfg, s, a) && c in s.waiting && InFlight(s, s.waiting[c].at)
    ensures var n, w := Apply(cfg, s, a), s.waiting[c];
            || StillWaits(n, c, w)
            || ((a == Deliver(w.at) || a == Publish(w.at) || (a.FetchReturns? && a.at == w.at)) && ServedHere(n, c, w))
            || (a == FetchFails(w.at) && c !in n.waiting && n.served == s.served)
  {
    match a {
      case Deliver(at) => WaiterDelivered(cfg, s, at, s.slots[at].entry, c);
      case Publish(at) => WaiterDelivered(cfg, s, at, Tagged(s.slots[at].value, s.slots[at].id, s.now), c);
      case FetchReturns(at, response) =>
        var v, id := Plain(response), |s.fetches|;
        WaiterDelivered(cfg, s.(fetches := s.fetches + [Fetch(at.1, v, s.now)]), at, Tagged(v, id, s.now), c);
      case _ =>
    }
  }

  // Two calls in one flight: both wait, both were served the same at the same time, or neither
  // is anywhere.
  ghost predicate Together(n: Fleet, c: nat, d: nat, at: Place) {
    || (c in n.waiting && d in n.waiting && n.waiting[c].at == at && n.waiting[d].at == at && InFlight(n, at))
    || (&& c in n.served && d in n.served && c !in n.waiting && d !in n.waiting
        && n.served[c].at == at && n.served[d].at == at
        && n.served[c].entry == n.served[d].entry && n.served[c].time == n.served[d].time)
    || (c !in n.waiting && d !in n.waiting && c !in n.served && d !in n.served)
  }

  // The action does not give the number to a new call.
  predicate Leaves(a: Action, c: nat) {
    match a
    case Hit(e, _) => e != c
    case Begin(e, _) => e != c
    case Join(e, _) => e != c
    case ReadStore(e, _) => e != c
    case Promote(e) => e != c
    case _ => true
  }

  lemma TogetherStep(cfg: Config, s: Fleet, a: Action, c: nat, d: nat, at: Place)
    requires Together(s, c, d, at) && Enabled(cfg, s, a) && Leaves(a, c) && Leaves(a, d)
    requires c in s.waiting ==> c !in s.served && d !in s.served
    ensures var n := Apply(cfg, s, a); Together(n, c, d, at) && (c in n.waiting ==> c !in n.served && d !in n.served)
  {
    if c in s.waiting {
      WaiterStep(cfg, s, a, c);
      WaiterStep(cfg, s, a, d);
    }
  }

  // One fetch for all: calls that wait at the same place get the same entry at the same moment,
  // or all fail, whatever happens meanwhile.
  lemma {:induction false} WaitersShare(cfg: Config, s: Fleet, actions: seq<Action>, c: nat, d: nat)
    requires c in s.waiting && d in s.waiting && s.waiting[c].at == s.waiting[d].at && InFlight(s, s.waiting[c].at)
    requires c !in s.served && d !in s.served && forall a :: a in actions ==> Leaves(a, c) && Leaves(a, d)
    ensures var n := Run(cfg, s, actions); Together(n, c, d, s.waiting[c].at) && (c in n.waiting ==> c !in n.served && d !in n.served)
  {
    if actions != [] {
      var init, a := actions[..|actions| - 1], actions[|actions| - 1];
      assert a in actions && forall b :: b in init ==> b in actions;
      WaitersShare(cfg, s, init, c, d);
      var before := Run(cfg, s, init);
      if Enabled(cfg, before, a) {
        TogetherStep(cfg, before, a, c, d, s.waiting[c].at);
      }
    }
  }

  // A plain read that finds the backend's record is served it, marked, however long the answer
  // travels within the lag, and the process keeps it as it was stored for a new lifetime.
  lemma ReadIsPromoted(cfg: Config, s: Fleet, c: nat, at: Place, travels: nat)
    requires Enabled(cfg, s, ReadStore(c, at)) && travels <= cfg.readLag
    ensures var n := Run(cfg, s, [ReadStore(c, at)] + [Tick(travels)] + [Promote(c)]);
            var e := s.store[at.1].entry;
            && c in n.served && n.served[c] == Served(at, e.(value := e.value.(cached := true)), s.now + travels, |s.fetches|)
            && at in n.slots && n.slots[at].Live? && n.slots[at].held.entry == e
            && n.slots[at].held.deadline == n.now + Lifetime(cfg.policy, e.value.lookupStatus)
  {
    var actions, n := [], s;
    actions, n := Extend(cfg, s, actions, n, ReadStore(c, at));
    actions, n := Extend(cfg, s, actions, n, Tick(travels));
    actions, n := Extend(cfg, s, actions, n, Promote(c));
    assert actions == [ReadStore(c, at)] + [Tick(travels)] + [Promote(c)];
  }
}
