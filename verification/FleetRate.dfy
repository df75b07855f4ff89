// How often a fleet asks upstream for one key while its shared backend works.
module FleetRate {
  import opened Records
  import opened Spacing
  import opened Fleet
  import opened FleetLaws

  // Some of the fleet's instances, looked at for one key.
  datatype Group = Group(key: string, instances: nat -> bool)

  ghost predicate In(g: Group, at: Place) {
    at.1 == g.key && g.instances(at.0)
  }

  ghost function Everyone(key: string): Group {
    Group(key, _ => true)
  }

  ghost function Only(at: Place): Group {
    Group(at.1, i => i == at.0)
  }

  // When the group's fetches began.
  ghost function StartTimes(starts: seq<Start>, g: Group): seq<int> {
    if starts == [] then []
    else
      var before, last := StartTimes(starts[..|starts| - 1], g), starts[|starts| - 1];
      if In(g, last.at) then before + [last.time] else before
  }

  lemma StartTimesSnoc(starts: seq<Start>, last: Start, g: Group)
    ensures StartTimes(starts + [last], g) ==
            if In(g, last.at) then StartTimes(starts, g) + [last.time] else StartTimes(starts, g)
  {
    assert (starts + [last])[..|starts|] == starts;
  }

  // The backend keeps what it stores, answers the group and takes the group's writes; the
  // group's fetches do not fail, and whoever fetches the key gets a record.
  ghost predicate Working(s: Fleet, g: Group, a: Action) {
    match a
    case Lose(k) => k != g.key
    case BackendFails(at) => !In(g, at)
    case FetchFails(at) => !In(g, at)
    case FetchReturns(at, r) => at.1 == g.key ==> r.lookupStatus == Found
    case Publish(at) => In(g, at) && at in s.slots && s.slots[at].Publishing? ==> s.slots[at].written
    case _ => true
  }

  ghost predicate WorkingAt(cfg: Config, s: Fleet, g: Group, actions: seq<Action>, i: nat)
    requires i < |actions|
  {
    Working(Run(cfg, s, actions[..i]), g, actions[i])
  }

  ghost predicate WorkingRun(cfg: Config, s: Fleet, g: Group, actions: seq<Action>) {
    forall i :: 0 <= i < |actions| ==> WorkingAt(cfg, s, g, actions, i)
  }

  // The group's latest fetch began a positive lifetime ago, or there was none.
  ghost predicate Over(cfg: Config, s: Fleet, g: Group) {
    var ts := StartTimes(s.starts, g);
    ts != [] ==> ts[|ts| - 1] + cfg.policy.positive <= s.now
  }

  // The backend holds a record until a positive lifetime after that fetch began.
  ghost predicate Stored(cfg: Config, s: Fleet, g: Group) {
    var ts := StartTimes(s.starts, g);
    ts != [] ==> g.key in s.store && ts[|ts| - 1] + cfg.policy.positive <= s.store[g.key].deadline
  }

  // About to fetch.
  ghost predicate MissedAt(s: Fleet, at: Place) {
    at in s.slots && s.slots[at].Missed?
  }

  // A fetch has begun whose response the backend does not hold yet.
  ghost predicate Begun(s: Fleet, at: Place) {
    at in s.slots && (s.slots[at].Fetching? || (s.slots[at].Publishing? && !s.slots[at].written))
  }

  // A miss of the group is safe when no other place of the group has missed and not yet begun
  // to fetch, and none has begun and not yet written within the positive lifetime.
  ghost predicate Safe(cfg: Config, s: Fleet, g: Group, a: Action) {
    a.BackendMisses? && In(g, a.at) ==>
      && (forall p :: In(g, p) ==> !MissedAt(s, p))
      && (Over(cfg, s, g) || forall p :: In(g, p) ==> !Begun(s, p))
  }

  ghost predicate SafeAt(cfg: Config, s: Fleet, g: Group, actions: seq<Action>, i: nat)
    requires i < |actions|
  {
    var now := Run(cfg, s, actions[..i]);
    Enabled(cfg, now, actions[i]) ==> Safe(cfg, now, g, actions[i])
  }

  ghost predicate SafeRun(cfg: Config, s: Fleet, g: Group, actions: seq<Action>) {
    forall i :: 0 <= i < |actions| ==> SafeAt(cfg, s, g, actions, i)
  }

  ghost predicate OnlyRecords(s: Fleet, g: Group) {
    forall p :: p in s.slots && p.1 == g.key && s.slots[p].Publishing? ==> s.slots[p].value.lookupStatus == Found
  }

  ghost predicate TimesOk(cfg: Config, s: Fleet, g: Group) {
    var ts := StartTimes(s.starts, g);
    Spaced(ts, cfg.policy.positive) && (ts != [] ==> ts[|ts| - 1] <= s.now)
  }

  ghost predicate Covered(cfg: Config, s: Fleet, g: Group) {
    Over(cfg, s, g) || Stored(cfg, s, g) || exists p :: In(g, p) && Begun(s, p)
  }

  // One place at a time is about to fetch, and it may.
  ghost predicate OneMissed(cfg: Config, s: Fleet, g: Group) {
    && (forall p, q :: In(g, p) && In(g, q) && MissedAt(s, p) && MissedAt(s, q) ==> p == q)
    && (forall p :: In(g, p) && MissedAt(s, p) ==> Over(cfg, s, g))
  }

  ghost predicate RateInv(cfg: Config, s: Fleet, g: Group) {
    OnlyRecords(s, g) && TimesOk(cfg, s, g) && Covered(cfg, s, g) && OneMissed(cfg, s, g)
  }

  lemma RecordsStep(cfg: Config, s: Fleet, g: Group, a: Action)
    requires OnlyRecords(s, g) && Enabled(cfg, s, a) && Working(s, g, a)
    ensures OnlyRecords(Apply(cfg, s, a), g)
  {
    var n := Apply(cfg, s, a);
    forall p | p in n.slots && p.1 == g.key && n.slots[p].Publishing?
      ensures n.slots[p].value.lookupStatus == Found
    {
      if a.FetchReturns? {
      } else if a.Write? {
      } else {
        assert p in s.slots && n.slots[p] == s.slots[p];
      }
    }
  }

  // A fetch begins only where the previous one's lifetime is over.
  lemma FetchBeginsLate(cfg: Config, s: Fleet, g: Group, at: Place)
    requires RateInv(cfg, s, g) && Enabled(cfg, s, FetchBegins(at))
    ensures RateInv(cfg, Apply(cfg, s, FetchBegins(at)), g)
    ensures In(g, at) ==> Over(cfg, s, g)
  {
    RecordsStep(cfg, s, g, FetchBegins(at));
    BeginTimes(cfg, s, g, at);
    BeginSlots(cfg, s, at);
    if !In(g, at) {
      BeginElsewhere(cfg, s, g, at);
    }
    assert MissedAt(s, at);
  }

  lemma TimesAfterBegin(cfg: Config, s: Fleet, g: Group, at: Place)
    requires Enabled(cfg, s, FetchBegins(at))
    ensures var n, ts := Apply(cfg, s, FetchBegins(at)), StartTimes(s.starts, g);
            && n.now == s.now && n.store == s.store
            && StartTimes(n.starts, g) == if In(g, at) then ts + [s.now] else ts
  {
    StartTimesSnoc(s.starts, Start(at, s.now), g);
  }

  lemma BeginTimes(cfg: Config, s: Fleet, g: Group, at: Place)
    requires TimesOk(cfg, s, g) && Enabled(cfg, s, FetchBegins(at)) && (In(g, at) ==> Over(cfg, s, g))
    ensures TimesOk(cfg, Apply(cfg, s, FetchBegins(at)), g)
  {
    TimesAfterBegin(cfg, s, g, at);
    if In(g, at) {
      SpacedSnoc(StartTimes(s.starts, g), cfg.policy.positive, s.now);
    }
  }

  lemma BeginElsewhere(cfg: Config, s: Fleet, g: Group, at: Place)
    requires Enabled(cfg, s, FetchBegins(at)) && !In(g, at)
    ensures var n := Apply(cfg, s, FetchBegins(at));
            (Over(cfg, n, g) <==> Over(cfg, s, g)) && (Stored(cfg, n, g) <==> Stored(cfg, s, g))
  {
    TimesAfterBegin(cfg, s, g, at);
  }

  lemma SpacedSnoc(ts: seq<int>, gap: nat, next: int)
    requires Spaced(ts, gap) && (ts != [] ==> ts[|ts| - 1] + gap <= next)
    ensures Spaced(ts + [next], gap)
  {
  }

  lemma BeginSlots(cfg: Config, s: Fleet, at: Place)
    requires Enabled(cfg, s, FetchBegins(at))
    ensures var n := Apply(cfg, s, FetchBegins(at));
            && Begun(n, at)
            && (forall p :: MissedAt(n, p) ==> p != at && MissedAt(s, p))
            && (forall p :: Begun(s, p) ==> Begun(n, p))
  {
  }

  // A safe miss means that the latest fetch's lifetime is over.
  lemma SafeMissKeepsInv(cfg: Config, s: Fleet, g: Group, at: Place)
    requires RateInv(cfg, s, g) && Enabled(cfg, s, BackendMisses(at)) && Safe(cfg, s, g, BackendMisses(at))
    ensures RateInv(cfg, Apply(cfg, s, BackendMisses(at)), g)
    ensures In(g, at) ==> Over(cfg, s, g)
  {
    var n := Apply(cfg, s, BackendMisses(at));
    RecordsStep(cfg, s, g, BackendMisses(at));
    assert forall p :: MissedAt(n, p) ==> p == at || MissedAt(s, p);
    assert forall p :: Begun(s, p) ==> Begun(n, p);
  }

  lemma WriteCovers(cfg: Config, s: Fleet, g: Group, at: Place)
    requires RateInv(cfg, s, g) && Enabled(cfg, s, Write(at))
    ensures RateInv(cfg, Apply(cfg, s, Write(at)), g)
  {
    var n := Apply(cfg, s, Write(at));
    RecordsStep(cfg, s, g, Write(at));
    assert at.1 == g.key ==> Stored(cfg, n, g);
    assert forall p :: p != at && Begun(s, p) ==> Begun(n, p);
    assert forall p :: MissedAt(n, p) ==> MissedAt(s, p);
  }

  // Moves that begin no fetch, miss nothing and store nothing.
  predicate Aside(a: Action) {
    !(a.FetchBegins? || a.BackendMisses? || a.Write?)
  }

  lemma AsideKeepsStore(cfg: Config, s: Fleet, g: Group, a: Action)
    requires Enabled(cfg, s, a) && Working(s, g, a) && Aside(a)
    ensures var n := Apply(cfg, s, a);
            && n.starts == s.starts && s.now <= n.now
            && (g.key in s.store ==> g.key in n.store && n.store[g.key] == s.store[g.key])
  {
  }

  lemma AsideKeepsBegun(cfg: Config, s: Fleet, g: Group, a: Action, p: Place)
    requires Enabled(cfg, s, a) && Working(s, g, a) && Aside(a) && cfg.hasBackend && cfg.policy.positive > 0
    requires In(g, p)
    ensures Begun(s, p) ==> Begun(Apply(cfg, s, a), p)
    ensures MissedAt(Apply(cfg, s, a), p) ==> MissedAt(s, p)
  {
  }

  lemma AsideKeepsInv(cfg: Config, s: Fleet, g: Group, a: Action)
    requires RateInv(cfg, s, g) && Enabled(cfg, s, a) && Working(s, g, a) && Aside(a)
    requires cfg.hasBackend && cfg.policy.positive > 0
    ensures RateInv(cfg, Apply(cfg, s, a), g)
  {
    RecordsStep(cfg, s, g, a);
    AsideKeepsStore(cfg, s, g, a);
    forall p | In(g, p) ensures Begun(s, p) ==> Begun(Apply(cfg, s, a), p) ensures MissedAt(Apply(cfg, s, a), p) ==> MissedAt(s, p) {
      AsideKeepsBegun(cfg, s, g, a, p);
    }
  }

  lemma RateStep(cfg: Config, s: Fleet, g: Group, a: Action)
    requires RateInv(cfg, s, g) && Enabled(cfg, s, a) && Working(s, g, a) && Safe(cfg, s, g, a)
    requires cfg.hasBackend && cfg.policy.positive > 0
    ensures RateInv(cfg, Apply(cfg, s, a), g)
  {
    match a {
      case FetchBegins(at) => FetchBeginsLate(cfg, s, g, at);
      case BackendMisses(at) => SafeMissKeepsInv(cfg, s, g, at);
      case Write(at) => WriteCovers(cfg, s, g, at);
      case _ => AsideKeepsInv(cfg, s, g, a);
    }
  }

  lemma RunStep(cfg: Config, s: Fleet, actions: seq<Action>, k: nat)
    requires k < |actions|
    ensures var now := Run(cfg, s, actions[..k]);
            Run(cfg, s, actions[..k + 1]) == if Enabled(cfg, now, actions[k]) then Apply(cfg, now, actions[k]) else now
  {
    assert actions[..k + 1][..k] == actions[..k];
  }

  // The invariant holds as long as the misses so far were safe.
  lemma {:induction false} RunKeepsRate(cfg: Config, s: Fleet, g: Group, actions: seq<Action>, k: nat)
    requires RateInv(cfg, s, g) && cfg.hasBackend && cfg.policy.positive > 0
    requires k <= |actions| && WorkingRun(cfg, s, g, actions) && forall i :: 0 <= i < k ==> SafeAt(cfg, s, g, actions, i)
    ensures RateInv(cfg, Run(cfg, s, actions[..k]), g)
  {
    if k > 0 {
      RunKeepsRate(cfg, s, g, actions, k - 1);
      assert WorkingAt(cfg, s, g, actions, k - 1) && SafeAt(cfg, s, g, actions, k - 1);
      RateAt(cfg, s, g, actions, k - 1);
    }
  }

  lemma RateAt(cfg: Config, s: Fleet, g: Group, actions: seq<Action>, k: nat)
    requires cfg.hasBackend && cfg.policy.positive > 0 && k < |actions|
    requires WorkingAt(cfg, s, g, actions, k) && SafeAt(cfg, s, g, actions, k) && RateInv(cfg, Run(cfg, s, actions[..k]), g)
    ensures RateInv(cfg, Run(cfg, s, actions[..k + 1]), g)
  {
    RunStep(cfg, s, actions, k);
    var now := Run(cfg, s, actions[..k]);
    if Enabled(cfg, now, actions[k]) {
      RateStep(cfg, now, g, actions[k]);
    }
  }

  // Any group of instances sharing a working backend with any others, whose misses are safe:
  // their fetches begin at least a positive lifetime apart, so a window holds at most its
  // share of them.
  lemma FleetRateBound(cfg: Config, s: Fleet, g: Group, actions: seq<Action>, start: int, length: nat)
    requires Cold(cfg, s) && cfg.hasBackend && cfg.policy.positive > 0
    requires WorkingRun(cfg, s, g, actions) && SafeRun(cfg, s, g, actions)
    ensures var ts := StartTimes(Run(cfg, s, actions).starts, g);
            Spaced(ts, cfg.policy.positive) && CountWithin(ts, start, start + length) <= length / cfg.policy.positive + 1
  {
    RunKeepsRate(cfg, s, g, actions, |actions|);
    assert actions[..|actions|] == actions;
    WindowBound(StartTimes(Run(cfg, s, actions).starts, g), cfg.policy.positive, start, length);
  }

  ghost predicate OnlyBegins(actions: seq<Action>) {
    forall a :: a in actions ==> a.FetchBegins?
  }

  // The group's fetches are apart, and stay so if the places that have missed go on to fetch
  // at once.
  ghost predicate StaysSpaced(cfg: Config, s: Fleet, g: Group) {
    forall more :: OnlyBegins(more) ==> Spaced(StartTimes(Run(cfg, s, more).starts, g), cfg.policy.positive)
  }

  lemma InvStaysSpaced(cfg: Config, s: Fleet, g: Group)
    requires RateInv(cfg, s, g) && cfg.hasBackend && cfg.policy.positive > 0
    ensures StaysSpaced(cfg, s, g)
  {
    forall more | OnlyBegins(more) ensures Spaced(StartTimes(Run(cfg, s, more).starts, g), cfg.policy.positive) {
      forall i | 0 <= i < |more|
        ensures WorkingAt(cfg, s, g, more, i) && SafeAt(cfg, s, g, more, i)
      {
        assert more[i] in more;
      }
      RunKeepsRate(cfg, s, g, more, |more|);
      assert more[..|more|] == more;
    }
  }

  // Two stamps too close at the end are not spaced.
  lemma TooClose(ts: seq<int>, gap: nat, next: int)
    requires ts != [] && next < ts[|ts| - 1] + gap
    ensures !Spaced(ts + [next], gap)
  {
    var all := ts + [next];
    assert all[|ts| - 1] == ts[|ts| - 1] && all[|ts|] == next;
  }

  // A place that fetches while the latest fetch's lifetime is not over breaks the spacing.
  lemma EarlyFetch(cfg: Config, s: Fleet, g: Group, at: Place)
    requires In(g, at) && MissedAt(s, at) && !Over(cfg, s, g)
    ensures !Spaced(StartTimes(Apply(cfg, s, FetchBegins(at)).starts, g), cfg.policy.positive)
  {
    TimesAfterBegin(cfg, s, g, at);
    TooClose(StartTimes(s.starts, g), cfg.policy.positive, s.now);
  }

  // After a fetch has begun its lifetime is not over, so a second place must not fetch.
  lemma NotOverAfterBegin(cfg: Config, s: Fleet, g: Group, at: Place, other: Place)
    requires In(g, at) && MissedAt(s, at) && other != at && MissedAt(s, other) && cfg.policy.positive > 0
    ensures var n := Apply(cfg, s, FetchBegins(at)); !Over(cfg, n, g) && MissedAt(n, other)
  {
    TimesAfterBegin(cfg, s, g, at);
  }

  lemma OneBegin(cfg: Config, s: Fleet, more: seq<Action>, at: Place)
    requires MissedAt(Run(cfg, s, more), at) && OnlyBegins(more)
    ensures Run(cfg, s, more + [FetchBegins(at)]) == Apply(cfg, Run(cfg, s, more), FetchBegins(at))
    ensures OnlyBegins(more + [FetchBegins(at)])
  {
    var _, _ := Extend(cfg, s, more, Run(cfg, s, more), FetchBegins(at));
  }

  // An unsafe miss lets two fetches begin too close: at once, with nothing failing.
  lemma UnsafeMissBreaks(cfg: Config, s: Fleet, g: Group, at: Place) returns (more: seq<Action>)
    requires Enabled(cfg, s, BackendMisses(at)) && !Safe(cfg, s, g, BackendMisses(at)) && cfg.policy.positive > 0
    ensures OnlyBegins(more) && |more| <= 2
    ensures !Spaced(StartTimes(Run(cfg, Apply(cfg, s, BackendMisses(at)), more).starts, g), cfg.policy.positive)
  {
    var n := Apply(cfg, s, BackendMisses(at));
    if Over(cfg, n, g) {
      var p :| In(g, p) && MissedAt(s, p);
      more := BothFetch(cfg, n, g, p, at);
    } else {
      more := [] + [FetchBegins(at)];
      OneBegin(cfg, n, [], at);
      EarlyFetch(cfg, n, g, at);
    }
  }

  lemma BothFetch(cfg: Config, s: Fleet, g: Group, p: Place, q: Place) returns (more: seq<Action>)
    requires In(g, p) && In(g, q) && p != q && MissedAt(s, p) && MissedAt(s, q) && cfg.policy.positive > 0
    ensures OnlyBegins(more) && |more| <= 2
    ensures !Spaced(StartTimes(Run(cfg, s, more).starts, g), cfg.policy.positive)
  {
    var first := [] + [FetchBegins(p)];
    more := first + [FetchBegins(q)];
    NotOverAfterBegin(cfg, s, g, p, q);
    OneBegin(cfg, s, [], p);
    EarlyFetch(cfg, Run(cfg, s, first), g, q);
    OneBegin(cfg, s, first, q);
  }

  // In any state a safe run reaches: a miss keeps the fetches apart exactly when it is safe.
  lemma SafeMissExactly(cfg: Config, s: Fleet, g: Group, at: Place)
    requires RateInv(cfg, s, g) && Enabled(cfg, s, BackendMisses(at)) && cfg.hasBackend && cfg.policy.positive > 0
    ensures StaysSpaced(cfg, Apply(cfg, s, BackendMisses(at)), g) <==> Safe(cfg, s, g, BackendMisses(at))
  {
    if Safe(cfg, s, g, BackendMisses(at)) {
      SafeMissKeepsInv(cfg, s, g, at);
      InvStaysSpaced(cfg, Apply(cfg, s, BackendMisses(at)), g);
    } else {
      var _ := UnsafeMissBreaks(cfg, s, g, at);
    }
  }

  ghost predicate SpacedAt(cfg: Config, s: Fleet, g: Group, actions: seq<Action>, k: nat)
    requires k <= |actions|
  {
    StaysSpaced(cfg, Run(cfg, s, actions[..k]), g)
  }

  ghost predicate AlwaysSpaced(cfg: Config, s: Fleet, g: Group, actions: seq<Action>) {
    forall k :: 0 <= k <= |actions| ==> SpacedAt(cfg, s, g, actions, k)
  }

  // Exactly when a working run keeps a group's fetches apart at every moment of it.
  lemma SafeRunExactly(cfg: Config, s: Fleet, g: Group, actions: seq<Action>)
    requires Cold(cfg, s) && cfg.hasBackend && cfg.policy.positive > 0 && WorkingRun(cfg, s, g, actions)
    ensures AlwaysSpaced(cfg, s, g, actions) <==> SafeRun(cfg, s, g, actions)
  {
    if SafeRun(cfg, s, g, actions) {
      forall k | 0 <= k <= |actions| ensures SpacedAt(cfg, s, g, actions, k) {
        RunKeepsRate(cfg, s, g, actions, k);
        InvStaysSpaced(cfg, Run(cfg, s, actions[..k]), g);
      }
    }
    if AlwaysSpaced(cfg, s, g, actions) {
      SpacedIsSafe(cfg, s, g, actions, |actions|);
    }
  }

  lemma {:induction false} SpacedIsSafe(cfg: Config, s: Fleet, g: Group, actions: seq<Action>, k: nat)
    requires RateInv(cfg, s, g) && cfg.hasBackend && cfg.policy.positive > 0 && WorkingRun(cfg, s, g, actions)
    requires k <= |actions| && forall i :: 0 <= i <= |actions| ==> SpacedAt(cfg, s, g, actions, i)
    ensures forall i :: 0 <= i < k ==> SafeAt(cfg, s, g, actions, i)
  {
    if k > 0 {
      SpacedIsSafe(cfg, s, g, actions, k - 1);
      NextIsSafe(cfg, s, g, actions, k - 1);
    }
  }

  lemma NextIsSafe(cfg: Config, s: Fleet, g: Group, actions: seq<Action>, k: nat)
    requires RateInv(cfg, s, g) && cfg.hasBackend && cfg.policy.positive > 0 && WorkingRun(cfg, s, g, actions)
    requires k < |actions| && SpacedAt(cfg, s, g, actions, k + 1) && forall i :: 0 <= i < k ==> SafeAt(cfg, s, g, actions, i)
    ensures SafeAt(cfg, s, g, actions, k)
  {
    RunKeepsRate(cfg, s, g, actions, k);
    RunStep(cfg, s, actions, k);
    StepIsSafe(cfg, Run(cfg, s, actions[..k]), g, actions[k], Run(cfg, s, actions[..k + 1]));
  }

  lemma StepIsSafe(cfg: Config, s: Fleet, g: Group, a: Action, n: Fleet)
    requires RateInv(cfg, s, g) && cfg.hasBackend && cfg.policy.positive > 0
    requires StaysSpaced(cfg, n, g) && (Enabled(cfg, s, a) ==> n == Apply(cfg, s, a))
    ensures Enabled(cfg, s, a) ==> Safe(cfg, s, g, a)
  {
    if Enabled(cfg, s, a) && a.BackendMisses? {
      SafeMissExactly(cfg, s, g, a.at);
    }
  }
}
