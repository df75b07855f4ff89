// src/parser.rs: the IP WHOIS parser, whose organisation lines override a network name.
module IpParser {
  import opened Wrappers
  import opened Text
  import opened Records
  import opened Entries
  import opened Parser

  const IP_COMMENTS := ["%", "#"]

  predicate OrgArm(e: Entry) { e.key in ["orgname", "org-name", "owner", "organization"] }

  predicate NetnameArm(e: Entry) { e.key == "netname" }

  predicate IpUpdatedArm(e: Entry) { e.key in ["updated", "lastupdated", "changed", "last-modified"] }

  predicate IpCreatedArm(e: Entry) { e.key in ["created", "regdate", "registration"] }

  predicate IpTechArm(e: Entry) {
    (Contains(e.key, "orgtechemail") || Contains(e.key, "tech-c") || Contains(e.key, "technical")) && '@' in e.value
  }

  predicate IpAbuseArm(e: Entry) {
    (Contains(e.key, "orgabuseemail") || Contains(e.key, "abuse-c") || Contains(e.key, "abuse")) && '@' in e.value
  }

  predicate IpEmailArm(e: Entry) {
    (Contains(e.key, "orgemail") || Contains(e.key, "e-mail") || Contains(e.key, "email")) && '@' in e.value
  }

  predicate IpStatusArm(e: Entry) { e.key in ["status", "nettype"] }

  datatype IpArms = IpArms(
    org: Entry -> bool, netname: Entry -> bool, updated: Entry -> bool, created: Entry -> bool,
    tech: Entry -> bool, abuse: Entry -> bool, email: Entry -> bool, status: Entry -> bool)

  const IP_ARMS := IpArms(OrgArm, NetnameArm, IpUpdatedArm, IpCreatedArm, IpTechArm, IpAbuseArm, IpEmailArm, IpStatusArm)

  // The record being filled and whether its registrar came from a network name.
  datatype IpState = IpState(record: Record, orgFromNetname: bool)

  // The match in the loop body; the range keys only feed the analysis text.
  function IpStep(arms: IpArms, s: IpState, e: Entry): IpState {
    var r := s.record;
    if arms.org(e) && (r.registrar.None? || s.orgFromNetname) then IpState(r.(registrar := Some(e.value)), false)
    else if arms.netname(e) && r.registrar.None? then IpState(r.(registrar := Some(e.value)), true)
    else if arms.updated(e) && r.updatedDate.None? then s.(record := r.(updatedDate := Some(e.value)))
    else if arms.created(e) && r.creationDate.None? then s.(record := r.(creationDate := Some(e.value)))
    else if arms.tech(e) && r.techEmail.None? then s.(record := r.(techEmail := Some(e.value)))
    else if arms.abuse(e) && r.adminEmail.None? then s.(record := r.(adminEmail := Some(e.value)))
    else if arms.email(e) && r.registrantEmail.None? then s.(record := r.(registrantEmail := Some(e.value)))
    else if arms.status(e) && e.value !in r.status then s.(record := r.(status := r.status + [e.value]))
    else s
  }

  function IpScan(arms: IpArms, es: seq<Entry>): IpState {
    if es == [] then IpState(EMPTY, false) else IpStep(arms, IpScan(arms, es[..|es| - 1]), es[|es| - 1])
  }

  // Reference reading, arm by arm: the organisation and network-name lines are set apart,
  // then each arm makes one pass over what the arms before it left.
  datatype IpPasses = IpPasses(
    afterOrg: seq<Entry>, afterNames: seq<Entry>, afterUpdated: seq<Entry>, afterCreated: seq<Entry>,
    afterTech: seq<Entry>, afterAbuse: seq<Entry>, afterEmail: seq<Entry>)

  function IpPassesOf(arms: IpArms, es: seq<Entry>): IpPasses {
    var p1 := WithoutFirst(es, arms.org);
    var p2 := Without(p1, arms.netname);
    var p3 := WithoutFirst(p2, arms.updated);
    var p4 := WithoutFirst(p3, arms.created);
    var p5 := WithoutFirst(p4, arms.tech);
    var p6 := WithoutFirst(p5, arms.abuse);
    IpPasses(p1, p2, p3, p4, p5, p6, WithoutFirst(p6, arms.email))
  }

  // The organisation wins over the network name, whichever line comes first.
  function IpByArms(arms: IpArms, es: seq<Entry>): Record {
    var p := IpPassesOf(arms, es);
    EMPTY.(registrar := Or(First(es, arms.org), First(es, arms.netname)),
           updatedDate := First(p.afterNames, arms.updated),
           creationDate := First(p.afterUpdated, arms.created),
           techEmail := First(p.afterCreated, arms.tech),
           adminEmail := First(p.afterTech, arms.abuse),
           registrantEmail := First(p.afterAbuse, arms.email),
           status := Distinct(p.afterEmail, arms.status, Value))
  }

  // Network-name lines suit no other arm, so a late one is simply ignored.
  ghost predicate NetnameAlone(arms: IpArms) {
    forall e :: arms.netname(e) ==>
      !arms.org(e) && !arms.updated(e) && !arms.created(e) && !arms.tech(e) && !arms.abuse(e) && !arms.email(e) && !arms.status(e)
  }

  // The match field by field, given the two name lines seen so far.
  ghost function IpStepByField(arms: IpArms, r: Record, org: Option<string>, netname: Option<string>, e: Entry): Record {
    var o1 := !(arms.org(e) && org.None?) && !arms.netname(e);
    var o2 := o1 && !(arms.updated(e) && r.updatedDate.None?);
    var o3 := o2 && !(arms.created(e) && r.creationDate.None?);
    var o4 := o3 && !(arms.tech(e) && r.techEmail.None?);
    var o5 := o4 && !(arms.abuse(e) && r.adminEmail.None?);
    var o6 := o5 && !(arms.email(e) && r.registrantEmail.None?);
    r.(registrar := Or(Take(true, arms.org, org, e), Take(true, arms.netname, netname, e)),
       updatedDate := Take(o1, arms.updated, r.updatedDate, e),
       creationDate := Take(o2, arms.created, r.creationDate, e),
       techEmail := Take(o3, arms.tech, r.techEmail, e),
       adminEmail := Take(o4, arms.abuse, r.adminEmail, e),
       registrantEmail := Take(o5, arms.email, r.registrantEmail, e),
       status := TakeInto(o6, arms.status, Value, r.status, e))
  }

  lemma IpStepIsByField(arms: IpArms, r: Record, org: Option<string>, netname: Option<string>, e: Entry)
    requires NetnameAlone(arms)
    requires r.registrar == Or(org, netname)
    ensures var s := IpStep(arms, IpState(r, org.None? && netname.Some?), e);
            && s.record == IpStepByField(arms, r, org, netname, e)
            && s.orgFromNetname == (Take(true, arms.org, org, e).None? && Take(true, arms.netname, netname, e).Some?)
  {
  }

  lemma IpDatesSnoc(arms: IpArms, es: seq<Entry>, e: Entry)
    requires NetnameAlone(arms)
    ensures var r, s := IpByArms(arms, es), IpByArms(arms, es + [e]);
            var t := IpStepByField(arms, r, First(es, arms.org), First(es, arms.netname), e);
            && First(es + [e], arms.org) == Take(true, arms.org, First(es, arms.org), e)
            && First(es + [e], arms.netname) == Take(true, arms.netname, First(es, arms.netname), e)
            && s.updatedDate == t.updatedDate && s.creationDate == t.creationDate
            && Reaches(IpPassesOf(arms, es + [e]).afterCreated, IpPassesOf(arms, es).afterCreated, e, OpenForMail(arms, es, e))
  {
    var p, q := IpPassesOf(arms, es), IpPassesOf(arms, es + [e]);
    var o0 := !(arms.org(e) && First(es, arms.org).None?);
    var o1 := o0 && !arms.netname(e);
    var o2 := o1 && !(arms.updated(e) && First(p.afterNames, arms.updated).None?);
    FirstPass(es + [e], es, e, true, arms.org);
    FirstPass(es + [e], es, e, true, arms.netname);
    WithoutSnoc(p.afterOrg, e, arms.netname);
    FirstPass(q.afterNames, p.afterNames, e, o1, arms.updated);
    FirstPass(q.afterUpdated, p.afterUpdated, e, o2, arms.created);
  }

  ghost predicate OpenForMail(arms: IpArms, es: seq<Entry>, e: Entry) {
    var r := IpByArms(arms, es);
    && !(arms.org(e) && First(es, arms.org).None?) && !arms.netname(e)
    && !(arms.updated(e) && r.updatedDate.None?) && !(arms.created(e) && r.creationDate.None?)
  }

  lemma IpMailSnoc(arms: IpArms, es: seq<Entry>, e: Entry)
    requires NetnameAlone(arms)
    ensures var r, s := IpByArms(arms, es), IpByArms(arms, es + [e]);
            var t := IpStepByField(arms, r, First(es, arms.org), First(es, arms.netname), e);
            && s.techEmail == t.techEmail && s.adminEmail == t.adminEmail
            && s.registrantEmail == t.registrantEmail && s.status == t.status
  {
    var p, q, o3 := IpPassesOf(arms, es), IpPassesOf(arms, es + [e]), OpenForMail(arms, es, e);
    var o4 := o3 && !(arms.tech(e) && First(p.afterCreated, arms.tech).None?);
    var o5 := o4 && !(arms.abuse(e) && First(p.afterTech, arms.abuse).None?);
    var o6 := o5 && !(arms.email(e) && First(p.afterAbuse, arms.email).None?);
    IpDatesSnoc(arms, es, e);
    FirstPass(q.afterCreated, p.afterCreated, e, o3, arms.tech);
    FirstPass(q.afterTech, p.afterTech, e, o4, arms.abuse);
    FirstPass(q.afterAbuse, p.afterAbuse, e, o5, arms.email);
    StatusPass(q.afterEmail, p.afterEmail, e, o6, arms.status);
  }

  // The line loop with its override flag equals the independent passes.
  lemma {:induction false} IpScanIsByArms(arms: IpArms, es: seq<Entry>)
    requires NetnameAlone(arms)
    ensures IpScan(arms, es).record == IpByArms(arms, es)
    ensures IpScan(arms, es).orgFromNetname == (First(es, arms.org).None? && First(es, arms.netname).Some?)
  {
    if es != [] {
      var init, last := es[..|es| - 1], es[|es| - 1];
      assert es == init + [last];
      IpScanIsByArms(arms, init);
      IpDatesSnoc(arms, init, last);
      IpMailSnoc(arms, init, last);
      IpStepIsByField(arms, IpByArms(arms, init), First(init, arms.org), First(init, arms.netname), last);
    }
  }

  lemma IpNetnameAlone()
    ensures NetnameAlone(IP_ARMS)
  {
    forall e | IP_ARMS.netname(e)
      ensures !OrgArm(e) && !IpUpdatedArm(e) && !IpCreatedArm(e) && !IpStatusArm(e)
      ensures !IpTechArm(e) && !IpAbuseArm(e) && !IpEmailArm(e)
    {
      NetnameIsNoTech(e.key);
      NetnameIsNoAbuse(e.key);
      NetnameIsNoEmail(e.key);
    }
  }

  lemma NetnameIsNoTech(key: string)
    requires key == "netname"
    ensures !Contains(key, "orgtechemail") && !Contains(key, "tech-c") && !Contains(key, "technical")
  {
    assert 'o' !in key && 'c' !in key;
    Lacks(key, "orgtechemail", 0);
    Lacks(key, "tech-c", 2);
    Lacks(key, "technical", 2);
  }

  lemma NetnameIsNoAbuse(key: string)
    requires key == "netname"
    ensures !Contains(key, "orgabuseemail") && !Contains(key, "abuse-c") && !Contains(key, "abuse")
  {
    assert 'o' !in key && 'b' !in key;
    Lacks(key, "orgabuseemail", 0);
    Lacks(key, "abuse-c", 1);
    Lacks(key, "abuse", 1);
  }

  lemma NetnameIsNoEmail(key: string)
    requires key == "netname"
    ensures !Contains(key, "orgemail") && !Contains(key, "e-mail") && !Contains(key, "email")
  {
    assert 'o' !in key && 'i' !in key;
    Lacks(key, "orgemail", 0);
    Lacks(key, "e-mail", 4);
    Lacks(key, "email", 3);
  }

  lemma Lacks(s: string, part: string, i: nat)
    requires i < |part| && part[i] !in s
    ensures !Contains(s, part)
  {
    if Contains(s, part) {
      ContainsChars(s, part);
    }
  }

  function IpEntries(data: string): seq<Entry> {
    EntriesOf(Lines(data), IP_COMMENTS)
  }

  function ParseIp(dates: Dates, data: string): Record {
    WithAges(dates, IpScan(IP_ARMS, IpEntries(data)).record)
  }

  lemma IpRegistrar(dates: Dates, data: string)
    ensures ParseIp(dates, data).registrar == Or(First(IpEntries(data), OrgArm), First(IpEntries(data), NetnameArm))
    ensures ParseIp(dates, data) == WithAges(dates, IpByArms(IP_ARMS, IpEntries(data)))
  {
    IpNetnameAlone();
    IpScanIsByArms(IP_ARMS, IpEntries(data));
  }

  // The loop of parse_ip_whois_data_with_analysis, without the analysis text.
  method ParseIpWhoisData(dates: Dates, data: string) returns (r: Record)
    ensures r == ParseIp(dates, data)
  {
    var state := IpScanLines(IP_ARMS, IP_COMMENTS, Lines(data));
    var parsed := new ParsedWhoisData(state.record);
    parsed.CalculateAgeFields(dates);
    r := parsed.fields;
  }

  method IpScanLines(arms: IpArms, comments: seq<string>, lines: seq<string>) returns (state: IpState)
    ensures state == IpScan(arms, EntriesOf(lines, comments))
  {
    state := IpState(EMPTY, false);
    for i := 0 to |lines|
      invariant state == IpScan(arms, EntriesOf(lines[..i], comments))
    {
      EntriesSnoc(lines, i, comments);
      var entry := EntryOf(lines[i], comments);
      if entry.Some? {
        ghost var before := EntriesOf(lines[..i], comments);
        assert (before + [entry.value])[..|before|] == before;
        state := IpStep(arms, state, entry.value);
      }
    }
    assert lines[..|lines|] == lines;
  }
}
