// When parsing the concatenation of two WHOIS texts is merging their parses.
module ParserConcat {
  import opened Wrappers
  import opened Text
  import opened Records
  import opened Entries
  import opened Parser

  function AppendNew(xs: seq<string>, ys: seq<string>): (zs: seq<string>)
    ensures forall v :: v in zs <==> v in xs || v in ys
  {
    if ys == [] then xs
    else
      var zs, y := AppendNew(xs, ys[..|ys| - 1]), ys[|ys| - 1];
      if y in zs then zs else zs + [y]
  }

  // First-wins scalars, deduplicated concatenation of the lists.
  function Joined(a: Record, b: Record): Record {
    Filled(a, b).(nameServers := AppendNew(a.nameServers, b.nameServers), status := AppendNew(a.status, b.status))
  }

  ghost predicate Merges(arms: Arms, a: seq<Entry>, b: seq<Entry>) {
    Scan(arms, a + b) == Joined(Scan(arms, a), Scan(arms, b))
  }

  function Bit(b: bool): nat { if b then 1 else 0 }

  // The arms ahead of the name servers that would still take the line.
  function OpenAhead(arms: Arms, r: Record, e: Entry): nat {
    Bit(arms.expiry(e) && r.expirationDate.None?) + Bit(arms.creation(e) && r.creationDate.None?) +
    Bit(arms.updated(e) && r.updatedDate.None?) + Bit(arms.registrar(e) && r.registrar.None?)
  }

  // The arms behind them.
  function OpenBehind(arms: Arms, r: Record, e: Entry): nat {
    Bit(arms.status(e) && e.value !in r.status) + Bit(arms.registrantName(e) && r.registrantName.None?) +
    Bit(arms.registrantEmail(e) && r.registrantEmail.None?) + Bit(arms.adminEmail(e) && r.adminEmail.None?) +
    Bit(arms.techEmail(e) && r.techEmail.None?)
  }

  // At most one field of the record can still take the line. The name-server arm has no
  // guard: a line that reaches it goes no further.
  predicate Settled(arms: Arms, r: Record, e: Entry) {
    if arms.nameServer(e) then OpenAhead(arms, r, e) == 0 || (OpenAhead(arms, r, e) == 1 && Host(e) in r.nameServers)
    else OpenAhead(arms, r, e) + OpenBehind(arms, r, e) <= 1
  }

  lemma TakeCommutes(open: bool, x: Option<string>, y: Option<string>, arm: Entry -> bool, e: Entry)
    ensures Take(open, arm, Or(x, y), e) == Or(x, Take(open, arm, y, e))
  {
  }

  lemma TakeIntoCommutes(open: bool, xs: seq<string>, ys: seq<string>, arm: Entry -> bool, f: Entry -> string, e: Entry)
    ensures TakeInto(open, arm, f, AppendNew(xs, ys), e) == AppendNew(xs, TakeInto(open, arm, f, ys, e))
  {
    assert (ys + [f(e)])[..|ys|] == ys;
  }

  // A settled line is taken by its arms independently, except that the name-server arm keeps
  // it from the arms behind.
  ghost function Apart(arms: Arms, r: Record, e: Entry): Record {
    var open := !arms.nameServer(e);
    r.(expirationDate := Take(true, arms.expiry, r.expirationDate, e),
       creationDate := Take(true, arms.creation, r.creationDate, e),
       updatedDate := Take(true, arms.updated, r.updatedDate, e),
       registrar := Take(true, arms.registrar, r.registrar, e),
       nameServers := TakeInto(true, arms.nameServer, Host, r.nameServers, e),
       status := TakeInto(open, arms.status, Value, r.status, e),
       registrantName := Take(open, arms.registrantName, r.registrantName, e),
       registrantEmail := Take(open, arms.registrantEmail, r.registrantEmail, e),
       adminEmail := Take(open, arms.adminEmail, r.adminEmail, e),
       techEmail := Take(open, arms.techEmail, r.techEmail, e))
  }

  lemma SettledIsApart(arms: Arms, r: Record, e: Entry)
    requires Settled(arms, r, e)
    ensures Step(arms, r, e) == Apart(arms, r, e)
  {
    StepIsByField(arms, r, e);
  }

  lemma JoinedStaysSettled(arms: Arms, a: Record, r: Record, e: Entry)
    requires Settled(arms, r, e)
    ensures Settled(arms, Joined(a, r), e)
  {
  }

  lemma ApartCommutes(arms: Arms, a: Record, r: Record, e: Entry)
    ensures Apart(arms, Joined(a, r), e) == Joined(a, Apart(arms, r, e))
  {
    var open := !arms.nameServer(e);
    TakeCommutes(true, a.expirationDate, r.expirationDate, arms.expiry, e);
    TakeCommutes(true, a.creationDate, r.creationDate, arms.creation, e);
    TakeCommutes(true, a.updatedDate, r.updatedDate, arms.updated, e);
    TakeCommutes(true, a.registrar, r.registrar, arms.registrar, e);
    TakeCommutes(open, a.registrantName, r.registrantName, arms.registrantName, e);
    TakeCommutes(open, a.registrantEmail, r.registrantEmail, arms.registrantEmail, e);
    TakeCommutes(open, a.adminEmail, r.adminEmail, arms.adminEmail, e);
    TakeCommutes(open, a.techEmail, r.techEmail, arms.techEmail, e);
    TakeIntoCommutes(true, a.nameServers, r.nameServers, arms.nameServer, Host, e);
    TakeIntoCommutes(open, a.status, r.status, arms.status, Value, e);
  }

  lemma StepCommutesWithJoin(arms: Arms, a: Record, r: Record, e: Entry)
    requires Settled(arms, r, e)
    ensures Step(arms, Joined(a, r), e) == Joined(a, Step(arms, r, e))
  {
    JoinedStaysSettled(arms, a, r, e);
    SettledIsApart(arms, r, e);
    SettledIsApart(arms, Joined(a, r), e);
    ApartCommutes(arms, a, r, e);
  }

  // A line that is not settled gets further when it is read again.
  lemma UnsettledFallsThrough(arms: Arms, r: Record, e: Entry)
    ensures Step(arms, Step(arms, r, e), e) == Step(arms, r, e) <==> Settled(arms, r, e)
  {
    StepIsByField(arms, r, e);
    StepIsByField(arms, Step(arms, r, e), e);
  }

  lemma {:induction false} AppendAbsorbs(xs: seq<string>, ys: seq<string>)
    requires forall v :: v in ys ==> v in xs
    ensures AppendNew(xs, ys) == xs
  {
    if ys != [] {
      AppendAbsorbs(xs, ys[..|ys| - 1]);
      assert ys[|ys| - 1] in ys;
    }
  }

  lemma JoinAbsorbs(s: Record, r: Record)
    requires Extends(s, r)
    ensures Joined(s, r) == s
  {
    AppendAbsorbs(s.nameServers, r.nameServers);
    AppendAbsorbs(s.status, r.status);
  }

  // Each line of b is settled when the lines of b before it have been read.
  ghost predicate AllSettled(arms: Arms, b: seq<Entry>) {
    forall k :: 0 <= k < |b| ==> Settled(arms, Scan(arms, b[..k]), b[k])
  }

  lemma {:induction false} ScanConcat(arms: Arms, a: seq<Entry>, b: seq<Entry>)
    requires AllSettled(arms, b)
    ensures Merges(arms, a, b)
    decreases |b|
  {
    if b == [] {
      assert a + b == a;
    } else {
      var init, last := b[..|b| - 1], b[|b| - 1];
      assert (a + b)[..|a + b| - 1] == a + init;
      PrefixSettled(arms, b, |init|);
      ScanConcat(arms, a, init);
      StepCommutesWithJoin(arms, Scan(arms, a), Scan(arms, init), last);
    }
  }

  lemma ScanLonger(arms: Arms, a: seq<Entry>, b: seq<Entry>, e: Entry)
    ensures Scan(arms, a + (b + [e])) == Step(arms, Scan(arms, a + b), e)
  {
    assert a + (b + [e]) == (a + b) + [e];
    ScanSnoc(arms, a + b, e);
  }

  // A record that extends another absorbs it; so do two equal ones.
  lemma MergedWithPrefix(s: Record, r: Record, joined: Record, twice: Record)
    requires Extends(s, r) && joined == Joined(s, r) && twice == Joined(s, s)
    ensures joined == s && twice == s
  {
    JoinAbsorbs(s, r);
    JoinAbsorbs(s, s);
  }

  // One line after some lines b: if b and b with the line merge with every text, the line is
  // settled. The text that tells is b with the line itself.
  lemma MergingNeedsSettled(arms: Arms, b: seq<Entry>, e: Entry)
    requires Merges(arms, b + [e], b) && Merges(arms, b + [e], b + [e])
    ensures Settled(arms, Scan(arms, b), e)
  {
    var a := b + [e];
    var r, s := Scan(arms, b), Scan(arms, a);
    ScanSnoc(arms, b, e);
    ScanLonger(arms, a, b, e);
    StepExtends(arms, r, e);
    MergedWithPrefix(s, r, Scan(arms, a + b), Scan(arms, a + a));
    UnsettledFallsThrough(arms, r, e);
  }

  ghost predicate MergesAlways(arms: Arms, b: seq<Entry>) {
    forall a :: Merges(arms, a, b)
  }

  // Exactly when a single line merges with every text before it.
  lemma LineMergesExactly(arms: Arms, e: Entry)
    ensures MergesAlways(arms, [e]) <==> Settled(arms, EMPTY, e)
  {
    assert [e][..0] == [] && [] + [e] == [e] && [e] + [] == [e];
    if Settled(arms, EMPTY, e) {
      forall a ensures Merges(arms, a, [e]) {
        ScanConcat(arms, a, [e]);
      }
    }
    if MergesAlways(arms, [e]) {
      JoinAbsorbs(Scan(arms, [e]), EMPTY);
      assert Merges(arms, [e], [e]);
      MergingNeedsSettled(arms, [], e);
    }
  }

  ghost predicate PrefixesMerge(arms: Arms, b: seq<Entry>) {
    forall a, k :: 0 <= k <= |b| ==> Merges(arms, a, b[..k])
  }

  // Exactly when a text, cut off anywhere, merges with every text before it.
  lemma TextMergesExactly(arms: Arms, b: seq<Entry>)
    ensures PrefixesMerge(arms, b) <==> AllSettled(arms, b)
  {
    if AllSettled(arms, b) {
      forall a, k | 0 <= k <= |b| ensures Merges(arms, a, b[..k]) {
        PrefixSettled(arms, b, k);
        ScanConcat(arms, a, b[..k]);
      }
    }
    if PrefixesMerge(arms, b) {
      forall k | 0 <= k < |b| ensures Settled(arms, Scan(arms, b[..k]), b[k]) {
        assert b[..k + 1] == b[..k] + [b[k]];
        assert Merges(arms, b[..k + 1], b[..k]) && Merges(arms, b[..k + 1], b[..k + 1]);
        MergingNeedsSettled(arms, b[..k], b[k]);
      }
    }
  }

  lemma PrefixSettled(arms: Arms, b: seq<Entry>, k: nat)
    requires AllSettled(arms, b) && k <= |b|
    ensures AllSettled(arms, b[..k])
  {
    assert forall i :: 0 <= i < k ==> b[..k][..i] == b[..i];
  }

  // A line that is settled on its own is settled wherever it stands.
  lemma SettledAlone(arms: Arms, b: seq<Entry>)
    requires forall e :: e in b ==> Settled(arms, EMPTY, e)
    ensures AllSettled(arms, b)
  {
    forall k | 0 <= k < |b| ensures Settled(arms, Scan(arms, b[..k]), b[k]) {
      assert b[k] in b;
    }
  }

  // Exactly when all texts made of certain lines merge with every text before them.
  lemma LinesMergeExactly(arms: Arms, lines: set<Entry>)
    ensures (forall b :: (forall e :: e in b ==> e in lines) ==> MergesAlways(arms, b)) <==>
            (forall e :: e in lines ==> Settled(arms, EMPTY, e))
  {
    if forall e :: e in lines ==> Settled(arms, EMPTY, e) {
      forall b | forall e :: e in b ==> e in lines ensures MergesAlways(arms, b) {
        SettledAlone(arms, b);
        forall a ensures Merges(arms, a, b) {
          ScanConcat(arms, a, b);
        }
      }
    }
    if forall b :: (forall e :: e in b ==> e in lines) ==> MergesAlways(arms, b) {
      forall e | e in lines ensures Settled(arms, EMPTY, e) {
        assert forall x :: x in [e] ==> x in lines;
        LineMergesExactly(arms, e);
      }
    }
  }

  // The same on texts, with the age fields computed from the merged dates.
  lemma ParseConcat(dates: Dates, a: string, b: string)
    requires a == "" || a[|a| - 1] == '\n'
    requires AllSettled(DOMAIN_ARMS, EntriesOf(Lines(b), COMMENTS))
    ensures Parse(dates, a + b) == WithAges(dates, Joined(Fields(a), Fields(b)))
  {
    LinesConcat(a, b);
    EntriesConcat(Lines(a), Lines(b), COMMENTS);
    ScanConcat(DOMAIN_ARMS, EntriesOf(Lines(a), COMMENTS), EntriesOf(Lines(b), COMMENTS));
  }

  const CREATED_EXPIRES := "created expires:x\n"

  // The failure on a text: parsed once the line is an expiry date, parsed twice also a
  // creation date.
  lemma ConcatFallsThrough(dates: Dates)
    ensures var t := CREATED_EXPIRES;
            && Parse(dates, t).creationDate == None && Parse(dates, t).expirationDate == Some("x")
            && Parse(dates, t + t).creationDate == Some("x")
            && Parse(dates, t + t) != WithAges(dates, Joined(Fields(t), Fields(t)))
  {
    var t, e := CREATED_EXPIRES, Entry("created expires", "x");
    EntryOfExample();
    ArmsOfExample(e);
    LinesConcat(t, t);
    EntriesConcat(Lines(t), Lines(t), COMMENTS);
    ReadTwice(DOMAIN_ARMS, e);
  }

  lemma EntryOfExample()
    ensures EntriesOf(Lines(CREATED_EXPIRES), COMMENTS) == [Entry("created expires", "x")]
  {
    PlainLine("created expires", "x", CREATED_EXPIRES, COMMENTS);
  }

  lemma ArmsOfExample(e: Entry)
    requires e.key == "created expires"
    ensures ExpiryArm(e) && CreationArm(e)
  {
    ContainsAt(e.key, 8, "expir");
    ContainsAt(e.key, 0, "created");
  }

  lemma ReadTwice(arms: Arms, e: Entry)
    requires arms.expiry(e) && arms.creation(e)
    ensures Scan(arms, [e]) == EMPTY.(expirationDate := Some(e.value))
    ensures Scan(arms, [e] + [e]) == EMPTY.(expirationDate := Some(e.value), creationDate := Some(e.value))
  {
    assert [] + [e] == [e];
    ScanSnoc(arms, [], e);
    ScanSnoc(arms, [e], e);
  }
}
