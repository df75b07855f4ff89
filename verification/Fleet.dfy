// src/cache.rs as a fleet: many instances, overlapping calls, one shared backend, one clock.
module Fleet {
  import opened Cache

  // A response in a tier, with the fetch it came from and the time it was published.
  datatype Tagged = Tagged(value: Response, id: nat, since: int)

  datatype Held = Held(entry: Tagged, deadline: int)

  // A key inside one instance: kept, or being initialised by one caller, who waits for the
  // backend, holds its answer, knows it missed, fetches, or writes the fetched response
  // through. An absent key has no slot.
  datatype Slot =
    | Live(held: Held)
    | Asking
    | Answered(entry: Tagged, readAt: int)
    | Missed
    | Fetching
    | Publishing(value: Response, id: nat, written: bool)

  // Instance number and cache key.
  type Place = (nat, string)

  datatype Fetch = Fetch(key: string, value: Response, ended: int)

  // A call waiting on a place, and how many fetches had ended when it began.
  datatype Waiting = Waiting(at: Place, born: nat)

  // A plain read that holds the backend's answer and has not yet promoted it.
  datatype Reading = Reading(at: Place, entry: Tagged, readAt: int, born: nat)

  datatype Served = Served(at: Place, entry: Tagged, time: int, born: nat)

  datatype Start = Start(at: Place, time: int)

  datatype Fleet = Fleet(
    now: int, slots: map<Place, Slot>, store: map<string, Held>, fetches: seq<Fetch>,
    starts: seq<Start>, waiting: map<nat, Waiting>, reading: map<nat, Reading>, served: map<nat, Served>)

  // The longest a backend answer may travel, and the longest a write-through may take.
  datatype Config = Config(policy: Policy, hasBackend: bool, readLag: nat, writeLag: nat)

  // Calls are numbered; places move on their own once a call has opened them.
  datatype Action =
    | Tick(seconds: nat)
    | Evict(at: Place)
    | Lose(key: string)
    | Hit(call: nat, at: Place)
    | Begin(call: nat, at: Place)
    | Join(call: nat, at: Place)
    | BackendAnswers(at: Place)
    | Deliver(at: Place)
    | BackendMisses(at: Place)
    | BackendFails(at: Place)
    | FetchBegins(at: Place)
    | FetchFails(at: Place)
    | FetchReturns(at: Place, response: Response)
    | Write(at: Place)
    | Publish(at: Place)
    | ReadStore(call: nat, at: Place)
    | Promote(call: nat)

  function Plain(v: Response): Response { v.(cached := false) }

  function Marked(e: Tagged): Tagged { e.(value := e.value.(cached := true)) }

  predicate InFlight(s: Fleet, at: Place) {
    at in s.slots && !s.slots[at].Live?
  }

  predicate LiveAt(s: Fleet, at: Place) {
    at in s.slots && s.slots[at].Live? && s.now < s.slots[at].held.deadline
  }

  predicate StoredLive(s: Fleet, key: string) {
    key in s.store && s.now < s.store[key].deadline
  }

  predicate NewCall(s: Fleet, call: nat) {
    call !in s.waiting && call !in s.reading && call !in s.served
  }

  predicate WritingInTime(cfg: Config, s: Fleet, at: Place) {
    && at in s.slots && s.slots[at].Publishing? && s.slots[at].id < |s.fetches|
    && s.now <= s.fetches[s.slots[at].id].ended + cfg.writeLag
  }

  predicate Enabled(cfg: Config, s: Fleet, a: Action) {
    match a
    case Tick(_) => true
    case Evict(at) => at in s.slots && s.slots[at].Live?
    case Lose(_) => true
    case Hit(c, at) => NewCall(s, c) && LiveAt(s, at)
    case Begin(c, at) => NewCall(s, c) && !LiveAt(s, at) && !InFlight(s, at)
    case Join(c, at) => NewCall(s, c) && InFlight(s, at)
    case BackendAnswers(at) => at in s.slots && s.slots[at].Asking? && StoredLive(s, at.1)
    case Deliver(at) => at in s.slots && s.slots[at].Answered? && s.now <= s.slots[at].readAt + cfg.readLag
    case BackendMisses(at) => at in s.slots && s.slots[at].Asking? && !StoredLive(s, at.1)
    case BackendFails(at) => at in s.slots && s.slots[at].Asking?
    case FetchBegins(at) => at in s.slots && s.slots[at].Missed?
    case FetchFails(at) => at in s.slots && s.slots[at].Fetching?
    case FetchReturns(at, _) => at in s.slots && s.slots[at].Fetching?
    case Write(at) => WritingInTime(cfg, s, at) && !s.slots[at].written
    case Publish(at) => WritingInTime(cfg, s, at)
    case ReadStore(c, at) => NewCall(s, c) && !LiveAt(s, at) && !InFlight(s, at) && StoredLive(s, at.1)
    case Promote(c) =>
      && c in s.reading && s.now <= s.reading[c].readAt + cfg.readLag
      && !LiveAt(s, s.reading[c].at) && !InFlight(s, s.reading[c].at)
  }

  function KeptNow(cfg: Config, s: Fleet, e: Tagged): Held {
    Held(e, s.now + L1Ttl(cfg.policy, e.value.lookupStatus))
  }

  // The place keeps the entry for its status's lifetime and every call waiting there is served.
  function Delivered(cfg: Config, s: Fleet, at: Place, e: Tagged): Fleet {
    s.(slots := s.slots[at := Live(KeptNow(cfg, s, e))],
       served := s.served + map c | c in s.waiting && s.waiting[c].at == at :: Served(at, e, s.now, s.waiting[c].born),
       waiting := map c | c in s.waiting && s.waiting[c].at != at :: s.waiting[c])
  }

  function Moved(s: Fleet, at: Place, slot: Slot): Fleet {
    s.(slots := s.slots[at := slot])
  }

  function Apply(cfg: Config, s: Fleet, a: Action): Fleet
    requires Enabled(cfg, s, a)
  {
    match a
    case Tick(d) => s.(now := s.now + d)
    case Evict(at) => s.(slots := s.slots - {at})
    case Lose(key) => s.(store := s.store - {key})
    case Hit(c, at) => s.(served := s.served[c := Served(at, Marked(s.slots[at].held.entry), s.now, |s.fetches|)])
    case Begin(c, at) =>
      Moved(s.(waiting := s.waiting[c := Waiting(at, |s.fetches|)]), at, if cfg.hasBackend then Asking else Missed)
    case Join(c, at) => s.(waiting := s.waiting[c := Waiting(at, |s.fetches|)])
    case BackendAnswers(at) => Moved(s, at, Answered(Marked(s.store[at.1].entry), s.now))
    case Deliver(at) => Delivered(cfg, s, at, s.slots[at].entry)
    case BackendMisses(at) => Moved(s, at, Missed)
    case BackendFails(at) => Moved(s, at, Missed)
    case FetchBegins(at) => Moved(s.(starts := s.starts + [Start(at, s.now)]), at, Fetching)
    case FetchFails(at) =>
      s.(slots := s.slots - {at}, waiting := map c | c in s.waiting && s.waiting[c].at != at :: s.waiting[c])
    case FetchReturns(at, response) =>
      var v, id := Plain(response), |s.fetches|;
      var ended := s.(fetches := s.fetches + [Fetch(at.1, v, s.now)]);
      // nothing to write: no backend, or a status that is never stored
      if cfg.hasBackend && BackendTtl(cfg.policy, v.lookupStatus).Some? then Moved(ended, at, Publishing(v, id, false))
      else Delivered(cfg, ended, at, Tagged(v, id, s.now))
    case Write(at) =>
      var v, id := s.slots[at].value, s.slots[at].id;
      Moved(s.(store := s.store[at.1 := KeptNow(cfg, s, Tagged(v, id, s.now))]), at, Publishing(v, id, true))
    case Publish(at) => Delivered(cfg, s, at, Tagged(s.slots[at].value, s.slots[at].id, s.now))
    case ReadStore(c, at) =>
      s.(reading := s.reading[c := Reading(at, s.store[at.1].entry, s.now, |s.fetches|)])
    case Promote(c) =>
      var r := s.reading[c];
      s.(slots := s.slots[r.at := Live(KeptNow(cfg, s, r.entry))],
         reading := s.reading - {c},
         served := s.served[c := Served(r.at, Marked(r.entry), s.now, r.born)])
  }

  // A run; actions that are not enabled change nothing.
  function Run(cfg: Config, s: Fleet, actions: seq<Action>): Fleet {
    if actions == [] then s
    else
      var before, a := Run(cfg, s, actions[..|actions| - 1]), actions[|actions| - 1];
      if Enabled(cfg, before, a) then Apply(cfg, before, a) else before
  }

  // One more action.
  lemma Extend(cfg: Config, s: Fleet, actions: seq<Action>, now: Fleet, a: Action) returns (longer: seq<Action>, n: Fleet)
    requires now == Run(cfg, s, actions)
    ensures longer == actions + [a]
    ensures n == Run(cfg, s, longer) == (if Enabled(cfg, now, a) then Apply(cfg, now, a) else now)
  {
    longer := actions + [a];
    assert longer[..|actions|] == actions;
    n := Run(cfg, s, longer);
  }
}
