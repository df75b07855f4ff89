// What a fleet asks upstream for one key when its calls do not overlap, and when they do.
module FleetShares {
  import opened Spacing
  import opened Fleet
  import opened FleetLaws
  import opened FleetRate

  // The group's initialisations of the key do not overlap one another.
  ghost predicate Apart(s: Fleet, g: Group, a: Action) {
    a.Begin? && In(g, a.at) ==> forall p :: InFlight(s, p) ==> !In(g, p)
  }

  ghost predicate ApartRun(cfg: Config, s: Fleet, g: Group, actions: seq<Action>) {
    forall i :: 0 <= i < |actions| && Enabled(cfg, Run(cfg, s, actions[..i]), actions[i]) ==>
      Apart(Run(cfg, s, actions[..i]), g, actions[i])
  }

  ghost predicate OneAtWork(s: Fleet, g: Group) {
    forall p, q :: InFlight(s, p) && InFlight(s, q) && In(g, p) && In(g, q) ==> p == q
  }

  // Only Begin puts a place in flight.
  lemma FlightsStep(cfg: Config, s: Fleet, a: Action)
    requires Enabled(cfg, s, a)
    ensures forall p :: InFlight(Apply(cfg, s, a), p) ==> InFlight(s, p) || (a.Begin? && a.at == p)
  {
  }

  lemma {:induction false} ApartIsOneAtWork(cfg: Config, s: Fleet, g: Group, actions: seq<Action>, k: nat)
    requires s.slots == map[] && ApartRun(cfg, s, g, actions) && k <= |actions|
    ensures OneAtWork(Run(cfg, s, actions[..k]), g)
  {
    if k > 0 {
      ApartIsOneAtWork(cfg, s, g, actions, k - 1);
      RunStep(cfg, s, actions, k - 1);
      if Enabled(cfg, Run(cfg, s, actions[..k - 1]), actions[k - 1]) {
        FlightsStep(cfg, Run(cfg, s, actions[..k - 1]), actions[k - 1]);
      }
    }
  }

  // The only place at work may miss.
  lemma AloneIsSafe(cfg: Config, s: Fleet, g: Group, a: Action)
    requires OneAtWork(s, g) && Enabled(cfg, s, a)
    ensures Safe(cfg, s, g, a)
  {
    if a.BackendMisses? && In(g, a.at) {
      forall p | In(g, p) ensures !MissedAt(s, p) && !Begun(s, p) {
        assert InFlight(s, a.at) && (p != a.at ==> !InFlight(s, p));
      }
    }
  }

  lemma ApartIsSafe(cfg: Config, s: Fleet, g: Group, actions: seq<Action>)
    requires s.slots == map[] && ApartRun(cfg, s, g, actions)
    ensures SafeRun(cfg, s, g, actions)
  {
    forall i | 0 <= i < |actions| ensures SafeAt(cfg, s, g, actions, i) {
      ApartIsOneAtWork(cfg, s, g, actions, i);
      if Enabled(cfg, Run(cfg, s, actions[..i]), actions[i]) {
        AloneIsSafe(cfg, Run(cfg, s, actions[..i]), g, actions[i]);
      }
    }
  }

  // Initialisations of a key that do not overlap are safe, so they keep the bound.
  lemma ApartRateBound(cfg: Config, s: Fleet, g: Group, actions: seq<Action>, start: int, length: nat)
    requires Cold(cfg, s) && cfg.hasBackend && cfg.policy.positive > 0
    requires WorkingRun(cfg, s, g, actions) && ApartRun(cfg, s, g, actions)
    ensures var ts := StartTimes(Run(cfg, s, actions).starts, g);
            Spaced(ts, cfg.policy.positive) && CountWithin(ts, start, start + length) <= length / cfg.policy.positive + 1
  {
    ApartIsSafe(cfg, s, g, actions);
    FleetRateBound(cfg, s, g, actions, start, length);
  }

  // One instance coalesces its calls, so it meets the bound however calls overlap, in it and
  // elsewhere.
  lemma InstanceRateBound(cfg: Config, s: Fleet, at: Place, actions: seq<Action>, start: int, length: nat)
    requires Cold(cfg, s) && cfg.hasBackend && cfg.policy.positive > 0
    requires WorkingRun(cfg, s, Only(at), actions)
    ensures var ts := StartTimes(Run(cfg, s, actions).starts, Only(at));
            Spaced(ts, cfg.policy.positive) && CountWithin(ts, start, start + length) <= length / cfg.policy.positive + 1
  {
    forall i | 0 <= i < |actions| && Enabled(cfg, Run(cfg, s, actions[..i]), actions[i])
      ensures Apart(Run(cfg, s, actions[..i]), Only(at), actions[i])
    {
      assert forall p :: In(Only(at), p) ==> p == at;
    }
    ApartRateBound(cfg, s, Only(at), actions, start, length);
  }

  // Counting a group's fetches instance by instance.
  lemma {:induction false} CountSplits(starts: seq<Start>, key: string, ins: set<nat>, i: nat, lo: int, hi: int)
    requires i in ins
    ensures CountWithin(StartTimes(starts, Finite(key, ins)), lo, hi) ==
            CountWithin(StartTimes(starts, Finite(key, ins - {i})), lo, hi) + CountWithin(StartTimes(starts, Only((i, key))), lo, hi)
  {
    if starts != [] {
      var init, last := starts[..|starts| - 1], starts[|starts| - 1];
      assert init + [last] == starts;
      CountSplits(init, key, ins, i, lo, hi);
      CountSnocs(init, last, key, ins, i, lo, hi);
    }
  }

  lemma CountSnocs(starts: seq<Start>, last: Start, key: string, ins: set<nat>, i: nat, lo: int, hi: int)
    requires i in ins
    ensures var counts := last.at.1 == key && lo <= last.time <= hi;
            && CountWithin(StartTimes(starts + [last], Finite(key, ins)), lo, hi) ==
               CountWithin(StartTimes(starts, Finite(key, ins)), lo, hi) + (if counts && last.at.0 in ins then 1 else 0)
            && CountWithin(StartTimes(starts + [last], Finite(key, ins - {i})), lo, hi) ==
               CountWithin(StartTimes(starts, Finite(key, ins - {i})), lo, hi) + (if counts && last.at.0 in ins && last.at.0 != i then 1 else 0)
            && CountWithin(StartTimes(starts + [last], Only((i, key))), lo, hi) ==
               CountWithin(StartTimes(starts, Only((i, key))), lo, hi) + (if counts && last.at.0 == i then 1 else 0)
  {
    CountSnoc(starts, last, Finite(key, ins), lo, hi);
    CountSnoc(starts, last, Finite(key, ins - {i}), lo, hi);
    CountSnoc(starts, last, Only((i, key)), lo, hi);
  }

  lemma CountSnoc(starts: seq<Start>, last: Start, g: Group, lo: int, hi: int)
    ensures CountWithin(StartTimes(starts + [last], g), lo, hi) ==
            CountWithin(StartTimes(starts, g), lo, hi) + if In(g, last.at) && lo <= last.time <= hi then 1 else 0
  {
    StartTimesSnoc(starts, last, g);
    var ts := StartTimes(starts, g);
    assert (ts + [last.time])[..|ts|] == ts;
  }

  ghost function Finite(key: string, ins: set<nat>): Group {
    Group(key, i => i in ins)
  }

  lemma {:induction false} NoneCounted(starts: seq<Start>, key: string, lo: int, hi: int)
    ensures CountWithin(StartTimes(starts, Finite(key, {})), lo, hi) == 0
  {
    if starts != [] {
      NoneCounted(starts[..|starts| - 1], key, lo, hi);
    }
  }

  // Calls that overlap in any way cost at most one share for each instance.
  lemma {:induction false} OverlapCostsOnePerInstance(cfg: Config, s: Fleet, key: string, ins: set<nat>, actions: seq<Action>,
                                                      start: int, length: nat)
    requires Cold(cfg, s) && cfg.hasBackend && cfg.policy.positive > 0
    requires WorkingRun(cfg, s, Finite(key, ins), actions)
    ensures CountWithin(StartTimes(Run(cfg, s, actions).starts, Finite(key, ins)), start, start + length)
            <= |ins| * (length / cfg.policy.positive + 1)
    decreases |ins|
  {
    var starts, share := Run(cfg, s, actions).starts, length / cfg.policy.positive + 1;
    if ins == {} {
      NoneCounted(starts, key, start, start + length);
    } else {
      var i :| i in ins;
      CountSplits(starts, key, ins, i, start, start + length);
      SinglesWork(cfg, s, key, ins, i, actions);
      InstanceRateBound(cfg, s, (i, key), actions, start, length);
      OverlapCostsOnePerInstance(cfg, s, key, ins - {i}, actions, start, length);
      OneMoreShare(|ins| - 1, share);
    }
  }

  lemma OneMoreShare(n: nat, share: nat)
    ensures (n + 1) * share == n * share + share
  {
  }

  lemma SinglesWork(cfg: Config, s: Fleet, key: string, ins: set<nat>, i: nat, actions: seq<Action>)
    requires WorkingRun(cfg, s, Finite(key, ins), actions) && i in ins
    ensures WorkingRun(cfg, s, Only((i, key)), actions) && WorkingRun(cfg, s, Finite(key, ins - {i}), actions)
  {
    forall k | 0 <= k < |actions|
      ensures WorkingAt(cfg, s, Only((i, key)), actions, k) && WorkingAt(cfg, s, Finite(key, ins - {i}), actions, k)
    {
      assert WorkingAt(cfg, s, Finite(key, ins), actions, k);
    }
  }

  const NOBODY := Fleet(0, map[], map[], [], [], map[], map[], map[])

  lemma BothMiss(cfg: Config, key: string) returns (actions: seq<Action>, n: Fleet)
    requires cfg.hasBackend
    ensures n == Run(cfg, NOBODY, actions) && n.starts == [] && n.now == 0
    ensures n.slots == map[(0, key) := Missed, (1, key) := Missed]
    ensures actions == [Begin(0, (0, key)), Begin(1, (1, key)), BackendMisses((0, key)), BackendMisses((1, key))]
  {
    n := NOBODY;
    actions := [];
    actions, n := Extend(cfg, NOBODY, actions, n, Begin(0, (0, key)));
    actions, n := Extend(cfg, NOBODY, actions, n, Begin(1, (1, key)));
    assert n.slots == map[(0, key) := Asking, (1, key) := Asking] && n.store == map[];
    actions, n := Extend(cfg, NOBODY, actions, n, BackendMisses((0, key)));
    actions, n := Extend(cfg, NOBODY, actions, n, BackendMisses((1, key)));
  }

  // The whole fleet does not meet the bound of one: two instances that miss together both
  // fetch, although nothing in the run can fail.
  lemma OverlapBreaksBound(cfg: Config, key: string) returns (actions: seq<Action>)
    requires cfg.hasBackend && cfg.policy.positive > 0
    ensures Cold(cfg, NOBODY) && forall a, s: Fleet :: a in actions ==> Working(s, Everyone(key), a)
    ensures !Spaced(StartTimes(Run(cfg, NOBODY, actions).starts, Everyone(key)), cfg.policy.positive)
  {
    var n;
    actions, n := BothMiss(cfg, key);
    NotOverAfterBegin(cfg, n, Everyone(key), (0, key), (1, key));
    actions, n := Extend(cfg, NOBODY, actions, n, FetchBegins((0, key)));
    EarlyFetch(cfg, n, Everyone(key), (1, key));
    actions, n := Extend(cfg, NOBODY, actions, n, FetchBegins((1, key)));
  }

  // The bound needs the backend: without one, an eviction is enough for a second fetch.
  lemma EvictionBreaksBound(cfg: Config, s: Fleet, at: Place, call: nat)
    requires !cfg.hasBackend && at in s.slots && s.slots[at].Live? && NewCall(s, call)
    requires !Over(cfg, s, Only(at)) && cfg.policy.positive > 0
    ensures var evicted := [Evict(at)] + [Begin(call, at)] + [FetchBegins(at)];
            !Spaced(StartTimes(Run(cfg, s, evicted).starts, Only(at)), cfg.policy.positive)
  {
    var actions, n := [], s;
    actions, n := Extend(cfg, s, actions, n, Evict(at));
    actions, n := Extend(cfg, s, actions, n, Begin(call, at));
    EarlyFetch(cfg, n, Only(at), at);
    actions, n := Extend(cfg, s, actions, n, FetchBegins(at));
    assert actions == [Evict(at)] + [Begin(call, at)] + [FetchBegins(at)];
  }

  lemma ReopenedAfterLoss(cfg: Config, s: Fleet, at: Place, call: nat)
    requires cfg.hasBackend && at in s.slots && s.slots[at].Live? && NewCall(s, call)
    ensures var n := Run(cfg, s, [Evict(at)] + [Lose(at.1)] + [Begin(call, at)]);
            && at in n.slots && n.slots[at].Asking? && !StoredLive(n, at.1)
            && n.starts == s.starts && n.now == s.now
  {
    var actions, n := [], s;
    actions, n := Extend(cfg, s, actions, n, Evict(at));
    actions, n := Extend(cfg, s, actions, n, Lose(at.1));
    actions, n := Extend(cfg, s, actions, n, Begin(call, at));
    assert actions == [Evict(at)] + [Lose(at.1)] + [Begin(call, at)];
  }

  // And it needs the backend to keep what it stores: a record lost there and evicted from the
  // process is fetched again.
  lemma LossBreaksBound(cfg: Config, s: Fleet, at: Place, call: nat)
    requires cfg.hasBackend && at in s.slots && s.slots[at].Live? && NewCall(s, call)
    requires !Over(cfg, s, Only(at)) && cfg.policy.positive > 0
    ensures var lost := [Evict(at)] + [Lose(at.1)] + [Begin(call, at)] + [BackendMisses(at)] + [FetchBegins(at)];
            !Spaced(StartTimes(Run(cfg, s, lost).starts, Only(at)), cfg.policy.positive)
  {
    ReopenedAfterLoss(cfg, s, at, call);
    var actions := [Evict(at)] + [Lose(at.1)] + [Begin(call, at)];
    var n := Run(cfg, s, actions);
    actions, n := Extend(cfg, s, actions, n, BackendMisses(at));
    EarlyFetch(cfg, n, Only(at), at);
    actions, n := Extend(cfg, s, actions, n, FetchBegins(at));
  }
}
