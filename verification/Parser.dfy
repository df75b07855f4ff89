// src/parser.rs: the domain WHOIS parser and the response classifier.
module Parser {
  import opened Wrappers
  import opened Text
  import opened Records
  import opened Entries

  const COMMENTS := ["%", "#", ">>>"]

  // The match arms, in source order, without their "field still empty" guards.
  predicate ExpiryArm(e: Entry) {
    Contains(e.key, "expir") || Contains(e.key, "expires")
  }

  predicate CreationArm(e: Entry) {
    Contains(e.key, "creation") || Contains(e.key, "created") || e.key == "registered"
  }

  predicate UpdatedArm(e: Entry) {
    Contains(e.key, "updated") || Contains(e.key, "modified") || Contains(e.key, "last updated")
  }

  predicate RegistrarArm(e: Entry) {
    && Contains(e.key, "registrar")
    && !Contains(e.key, "whois") && !Contains(e.key, "url") && !Contains(e.key, "abuse")
    && !Contains(e.key, "expir") && !Contains(e.key, "registration")
  }

  predicate NameServerArm(e: Entry) {
    Contains(e.key, "name server") || e.key == "nserver" || e.key == "ns"
  }

  predicate StatusArm(e: Entry) {
    Contains(e.key, "status") || e.key == "state"
  }

  predicate Redacted(value: string) {
    Contains(Lower(value), "select request")
  }

  predicate RegistrantNameArm(e: Entry) {
    && StartsWith(e.key, "registrant")
    && (Contains(e.key, "name") || Contains(e.key, "organization") || Contains(e.key, "org") || e.key == "registrant")
    && !Redacted(e.value)
  }

  predicate EmailArm(e: Entry, role: string) {
    Contains(e.key, role) && Contains(e.key, "email") && '@' in e.value && !Redacted(e.value)
  }

  predicate RegistrantEmailArm(e: Entry) { EmailArm(e, "registrant") }

  predicate AdminEmailArm(e: Entry) { EmailArm(e, "admin") }

  predicate TechEmailArm(e: Entry) { EmailArm(e, "tech") }

  // The arms as one value, so that the laws below hold for every choice of arms.
  datatype Arms = Arms(
    expiry: Entry -> bool, creation: Entry -> bool, updated: Entry -> bool, registrar: Entry -> bool,
    nameServer: Entry -> bool, status: Entry -> bool, registrantName: Entry -> bool,
    registrantEmail: Entry -> bool, adminEmail: Entry -> bool, techEmail: Entry -> bool)

  const DOMAIN_ARMS := Arms(ExpiryArm, CreationArm, UpdatedArm, RegistrarArm, NameServerArm, StatusArm,
                            RegistrantNameArm, RegistrantEmailArm, AdminEmailArm, TechEmailArm)

  function Host(e: Entry): string { FirstToken(e.value) }

  function Value(e: Entry): string { e.value }

  // The match in the loop body: the first arm that accepts it and is still open takes it.
  function Step(arms: Arms, r: Record, e: Entry): Record {
    if arms.expiry(e) && r.expirationDate.None? then r.(expirationDate := Some(e.value))
    else if arms.creation(e) && r.creationDate.None? then r.(creationDate := Some(e.value))
    else if arms.updated(e) && r.updatedDate.None? then r.(updatedDate := Some(e.value))
    else if arms.registrar(e) && r.registrar.None? then r.(registrar := Some(e.value))
    else if arms.nameServer(e) then
      if Host(e) in r.nameServers then r else r.(nameServers := r.nameServers + [Host(e)])
    else if arms.status(e) && e.value !in r.status then r.(status := r.status + [e.value])
    else if arms.registrantName(e) && r.registrantName.None? then r.(registrantName := Some(e.value))
    else if arms.registrantEmail(e) && r.registrantEmail.None? then r.(registrantEmail := Some(e.value))
    else if arms.adminEmail(e) && r.adminEmail.None? then r.(adminEmail := Some(e.value))
    else if arms.techEmail(e) && r.techEmail.None? then r.(techEmail := Some(e.value))
    else r
  }

  function Scan(arms: Arms, es: seq<Entry>): Record {
    if es == [] then EMPTY else Step(arms, Scan(arms, es[..|es| - 1]), es[|es| - 1])
  }

  lemma ScanSnoc(arms: Arms, es: seq<Entry>, e: Entry)
    ensures Scan(arms, es + [e]) == Step(arms, Scan(arms, es), e)
  {
    assert (es + [e])[..|es|] == es;
  }

  // Reference reading: arm by arm instead of line by line. Each arm makes one pass over
  // the lines the arms before it left behind.
  datatype Passes = Passes(
    afterExpiry: seq<Entry>, afterCreation: seq<Entry>, afterUpdated: seq<Entry>, afterRegistrar: seq<Entry>,
    afterNameServers: seq<Entry>, afterStatus: seq<Entry>, afterRegistrantName: seq<Entry>,
    afterRegistrantEmail: seq<Entry>, afterAdminEmail: seq<Entry>)

  function PassesOf(arms: Arms, es: seq<Entry>): Passes {
    var p1 := WithoutFirst(es, arms.expiry);
    var p2 := WithoutFirst(p1, arms.creation);
    var p3 := WithoutFirst(p2, arms.updated);
    var p4 := WithoutFirst(p3, arms.registrar);
    var p5 := Without(p4, arms.nameServer);
    var p6 := WithoutDistinct(p5, arms.status, Value);
    var p7 := WithoutFirst(p6, arms.registrantName);
    var p8 := WithoutFirst(p7, arms.registrantEmail);
    Passes(p1, p2, p3, p4, p5, p6, p7, p8, WithoutFirst(p8, arms.adminEmail))
  }

  function ByArms(arms: Arms, es: seq<Entry>): Record {
    var p := PassesOf(arms, es);
    EMPTY.(expirationDate := First(es, arms.expiry),
           creationDate := First(p.afterExpiry, arms.creation),
           updatedDate := First(p.afterCreation, arms.updated),
           registrar := First(p.afterUpdated, arms.registrar),
           nameServers := Distinct(p.afterRegistrar, arms.nameServer, Host),
           status := Distinct(p.afterNameServers, arms.status, Value),
           registrantName := First(p.afterStatus, arms.registrantName),
           registrantEmail := First(p.afterRegistrantName, arms.registrantEmail),
           adminEmail := First(p.afterRegistrantEmail, arms.adminEmail),
           techEmail := First(p.afterAdminEmail, arms.techEmail))
  }

  // An entry at the end either reaches a pass, still at the end, or was taken before it.
  ghost predicate Reaches(longer: seq<Entry>, shorter: seq<Entry>, e: Entry, open: bool) {
    longer == if open then shorter + [e] else shorter
  }

  lemma FirstPass(longer: seq<Entry>, shorter: seq<Entry>, e: Entry, open: bool, arm: Entry -> bool)
    requires Reaches(longer, shorter, e, open)
    ensures First(longer, arm) == Take(open, arm, First(shorter, arm), e)
    ensures Reaches(WithoutFirst(longer, arm), WithoutFirst(shorter, arm), e, open && !(arm(e) && First(shorter, arm).None?))
  {
    FirstSnoc(shorter, e, arm);
  }

  lemma HostPass(longer: seq<Entry>, shorter: seq<Entry>, e: Entry, open: bool, arm: Entry -> bool)
    requires Reaches(longer, shorter, e, open)
    ensures Distinct(longer, arm, Host) == TakeInto(open, arm, Host, Distinct(shorter, arm, Host), e)
    ensures Reaches(Without(longer, arm), Without(shorter, arm), e, open && !arm(e))
  {
    WithoutSnoc(shorter, e, arm);
    assert (shorter + [e])[..|shorter|] == shorter;
  }

  lemma StatusPass(longer: seq<Entry>, shorter: seq<Entry>, e: Entry, open: bool, arm: Entry -> bool)
    requires Reaches(longer, shorter, e, open)
    ensures Distinct(longer, arm, Value) == TakeInto(open, arm, Value, Distinct(shorter, arm, Value), e)
    ensures Reaches(WithoutDistinct(longer, arm, Value), WithoutDistinct(shorter, arm, Value), e,
                    open && !(arm(e) && e.value !in Distinct(shorter, arm, Value)))
  {
    assert (shorter + [e])[..|shorter|] == shorter;
  }

  // The match seen field by field: each field's arm, with what must have passed the line on.
  ghost function StepByField(arms: Arms, r: Record, e: Entry): Record {
    var o1 := !(arms.expiry(e) && r.expirationDate.None?);
    var o2 := o1 && !(arms.creation(e) && r.creationDate.None?);
    var o3 := o2 && !(arms.updated(e) && r.updatedDate.None?);
    var o4 := o3 && !(arms.registrar(e) && r.registrar.None?);
    var o5 := o4 && !arms.nameServer(e);
    var o6 := o5 && !(arms.status(e) && e.value !in r.status);
    var o7 := o6 && !(arms.registrantName(e) && r.registrantName.None?);
    var o8 := o7 && !(arms.registrantEmail(e) && r.registrantEmail.None?);
    var o9 := o8 && !(arms.adminEmail(e) && r.adminEmail.None?);
    r.(expirationDate := Take(true, arms.expiry, r.expirationDate, e),
       creationDate := Take(o1, arms.creation, r.creationDate, e),
       updatedDate := Take(o2, arms.updated, r.updatedDate, e),
       registrar := Take(o3, arms.registrar, r.registrar, e),
       nameServers := TakeInto(o4, arms.nameServer, Host, r.nameServers, e),
       status := TakeInto(o5, arms.status, Value, r.status, e),
       registrantName := Take(o6, arms.registrantName, r.registrantName, e),
       registrantEmail := Take(o7, arms.registrantEmail, r.registrantEmail, e),
       adminEmail := Take(o8, arms.adminEmail, r.adminEmail, e),
       techEmail := Take(o9, arms.techEmail, r.techEmail, e))
  }

  ghost function Take(open: bool, arm: Entry -> bool, field: Option<string>, e: Entry): Option<string> {
    if open && arm(e) && field.None? then Some(e.value) else field
  }

  ghost function TakeInto(open: bool, arm: Entry -> bool, f: Entry -> string, field: seq<string>, e: Entry): seq<string> {
    if open && arm(e) && f(e) !in field then field + [f(e)] else field
  }

  lemma StepIsByField(arms: Arms, r: Record, e: Entry)
    ensures Step(arms, r, e) == StepByField(arms, r, e)
  {
  }

  // One more line changes the pass reading exactly as the match changes the record:
  // first the four scalars ahead of the lists, then the two lists, then the contacts.
  ghost predicate OpenForLists(arms: Arms, r: Record, e: Entry) {
    && !(arms.expiry(e) && r.expirationDate.None?)
    && !(arms.creation(e) && r.creationDate.None?)
    && !(arms.updated(e) && r.updatedDate.None?)
    && !(arms.registrar(e) && r.registrar.None?)
  }

  ghost predicate OpenForContacts(arms: Arms, r: Record, e: Entry) {
    OpenForLists(arms, r, e) && !arms.nameServer(e) && !(arms.status(e) && e.value !in r.status)
  }

  lemma DatesSnoc(arms: Arms, es: seq<Entry>, e: Entry)
    ensures var r, s, t := ByArms(arms, es), ByArms(arms, es + [e]), StepByField(arms, ByArms(arms, es), e);
            && s.expirationDate == t.expirationDate && s.creationDate == t.creationDate
            && s.updatedDate == t.updatedDate && s.registrar == t.registrar
            && Reaches(PassesOf(arms, es + [e]).afterRegistrar, PassesOf(arms, es).afterRegistrar, e, OpenForLists(arms, r, e))
  {
    var p, q := PassesOf(arms, es), PassesOf(arms, es + [e]);
    var o1 := !(arms.expiry(e) && First(es, arms.expiry).None?);
    var o2 := o1 && !(arms.creation(e) && First(p.afterExpiry, arms.creation).None?);
    var o3 := o2 && !(arms.updated(e) && First(p.afterCreation, arms.updated).None?);
    FirstPass(es + [e], es, e, true, arms.expiry);
    FirstPass(q.afterExpiry, p.afterExpiry, e, o1, arms.creation);
    FirstPass(q.afterCreation, p.afterCreation, e, o2, arms.updated);
    FirstPass(q.afterUpdated, p.afterUpdated, e, o3, arms.registrar);
  }

  lemma ListsSnoc(arms: Arms, es: seq<Entry>, e: Entry)
    ensures var r, s, t := ByArms(arms, es), ByArms(arms, es + [e]), StepByField(arms, ByArms(arms, es), e);
            && s.nameServers == t.nameServers && s.status == t.status
            && Reaches(PassesOf(arms, es + [e]).afterStatus, PassesOf(arms, es).afterStatus, e, OpenForContacts(arms, r, e))
  {
    var p, q, open := PassesOf(arms, es), PassesOf(arms, es + [e]), OpenForLists(arms, ByArms(arms, es), e);
    DatesSnoc(arms, es, e);
    HostPass(q.afterRegistrar, p.afterRegistrar, e, open, arms.nameServer);
    StatusPass(q.afterNameServers, p.afterNameServers, e, open && !arms.nameServer(e), arms.status);
  }

  lemma ContactsSnoc(arms: Arms, es: seq<Entry>, e: Entry)
    ensures var s, t := ByArms(arms, es + [e]), StepByField(arms, ByArms(arms, es), e);
            && s.registrantName == t.registrantName && s.registrantEmail == t.registrantEmail
            && s.adminEmail == t.adminEmail && s.techEmail == t.techEmail
  {
    var p, q, o6 := PassesOf(arms, es), PassesOf(arms, es + [e]), OpenForContacts(arms, ByArms(arms, es), e);
    var o7 := o6 && !(arms.registrantName(e) && First(p.afterStatus, arms.registrantName).None?);
    var o8 := o7 && !(arms.registrantEmail(e) && First(p.afterRegistrantName, arms.registrantEmail).None?);
    var o9 := o8 && !(arms.adminEmail(e) && First(p.afterRegistrantEmail, arms.adminEmail).None?);
    ListsSnoc(arms, es, e);
    FirstPass(q.afterStatus, p.afterStatus, e, o6, arms.registrantName);
    FirstPass(q.afterRegistrantName, p.afterRegistrantName, e, o7, arms.registrantEmail);
    FirstPass(q.afterRegistrantEmail, p.afterRegistrantEmail, e, o8, arms.adminEmail);
    FirstPass(q.afterAdminEmail, p.afterAdminEmail, e, o9, arms.techEmail);
  }

  lemma ByArmsSnoc(arms: Arms, es: seq<Entry>, e: Entry)
    ensures ByArms(arms, es + [e]) == Step(arms, ByArms(arms, es), e)
  {
    DatesSnoc(arms, es, e);
    ListsSnoc(arms, es, e);
    ContactsSnoc(arms, es, e);
    StepIsByField(arms, ByArms(arms, es), e);
  }

  // The loop over lines equals the independent passes over arms, for any arms.
  lemma {:induction false} ScanIsByArms(arms: Arms, es: seq<Entry>)
    ensures Scan(arms, es) == ByArms(arms, es)
  {
    if es != [] {
      var init, last := es[..|es| - 1], es[|es| - 1];
      assert es == init + [last];
      ScanIsByArms(arms, init);
      ByArmsSnoc(arms, init, last);
    }
  }

  // ParsedWhoisData of a whole response.
  function Fields(data: string): Record {
    Scan(DOMAIN_ARMS, EntriesOf(Lines(data), COMMENTS))
  }

  function Parse(dates: Dates, data: string): Record {
    WithAges(dates, Fields(data))
  }

  // The longer alternative adds nothing.
  lemma ExpiryKey(e: Entry)
    ensures ExpiryArm(e) <==> Contains(e.key, "expir")
  {
    if Contains(e.key, "expires") { ContainsLonger(e.key, "expir", "expires", 0); }
  }

  // The expiry is the value of the first surviving line whose key contains "expir"; no other
  // arm can take it.
  lemma ExpiryIsFirstExpiryLine(dates: Dates, data: string) returns (i: nat)
    ensures var es, e := EntriesOf(Lines(data), COMMENTS), Parse(dates, data).expirationDate;
            && (e.None? ==> forall x :: x in es ==> !Contains(x.key, "expir"))
            && (e.Some? ==> i < |es| && Contains(es[i].key, "expir") && e.value == es[i].value &&
                            forall j :: 0 <= j < i ==> !Contains(es[j].key, "expir"))
  {
    var es := EntriesOf(Lines(data), COMMENTS);
    ScanIsByArms(DOMAIN_ARMS, es);
    i := FirstIndex(es, DOMAIN_ARMS.expiry);
    forall x: Entry ensures ExpiryArm(x) <==> Contains(x.key, "expir") {
      ExpiryKey(x);
    }
  }

  // The loop of parse_whois_data, filling one record in place.
  method ParseWhoisData(dates: Dates, data: string) returns (r: Record)
    ensures r == Parse(dates, data)
  {
    var scanned := ScanLines(DOMAIN_ARMS, COMMENTS, Lines(data));
    var parsed := new ParsedWhoisData(scanned);
    parsed.CalculateAgeFields(dates);
    r := parsed.fields;
  }

  method ScanLines(arms: Arms, comments: seq<string>, lines: seq<string>) returns (parsed: Record)
    ensures parsed == Scan(arms, EntriesOf(lines, comments))
  {
    parsed := EMPTY;
    for i := 0 to |lines|
      invariant parsed == Scan(arms, EntriesOf(lines[..i], comments))
    {
      EntriesSnoc(lines, i, comments);
      var entry := EntryOf(lines[i], comments);
      if entry.Some? {
        ScanSnoc(arms, EntriesOf(lines[..i], comments), entry.value);
        parsed := Step(arms, parsed, entry.value);
      }
    }
    assert lines[..|lines|] == lines;
  }

  // Scalars once set never change and lists only grow at the end.
  ghost predicate Extends(later: Record, earlier: Record) {
    && Keeps(later.(nameServers := earlier.nameServers, status := earlier.status), earlier)
    && earlier.nameServers <= later.nameServers && earlier.status <= later.status
  }

  lemma StepExtends(arms: Arms, r: Record, e: Entry)
    ensures Extends(Step(arms, r, e), r)
  {
    StepIsByField(arms, r, e);
  }

  lemma StepNoDuplicates(arms: Arms, r: Record, e: Entry)
    requires NoDuplicates(r.nameServers) && NoDuplicates(r.status)
    ensures NoDuplicates(Step(arms, r, e).nameServers) && NoDuplicates(Step(arms, r, e).status)
  {
    StepIsByField(arms, r, e);
  }

  lemma {:induction false} ScanNoDuplicates(arms: Arms, es: seq<Entry>)
    ensures NoDuplicates(Scan(arms, es).nameServers) && NoDuplicates(Scan(arms, es).status)
  {
    if es != [] {
      ScanNoDuplicates(arms, es[..|es| - 1]);
      StepNoDuplicates(arms, Scan(arms, es[..|es| - 1]), es[|es| - 1]);
    }
  }

  lemma {:induction false} ScanExtends(arms: Arms, a: seq<Entry>, b: seq<Entry>)
    ensures Extends(Scan(arms, a + b), Scan(arms, a))
    decreases |b|
  {
    if b == [] {
      assert a + b == a;
    } else {
      var init, last := b[..|b| - 1], b[|b| - 1];
      assert (a + b)[..|a + b| - 1] == a + init;
      ScanExtends(arms, a, init);
      StepExtends(arms, Scan(arms, a + init), last);
    }
  }

  const RATE_LIMIT_PATTERNS := [
    "rate limit", "ratelimit", "quota exceeded", "exceeded your quota", "lookup quota",
    "number of allowed queries exceeded", "exceeded the maximum", "maximum number of queries",
    "whois limit exceeded", "too many requests", "excessive quer", "request limit reached",
    "access denied", "connection limit"]

  const NOT_FOUND_PATTERNS := [
    "no match", "not found", "no data found", "no entries found", "no object found",
    "object does not exist", "nothing found", "not registered", "no information available",
    "status: available", "status: free", "is available for registration"]

  function Classify(raw: string, parsed: Record): (s: LookupStatus)
    ensures HasRecordData(parsed) ==> s == Found
  {
    if HasRecordData(parsed) then Found
    else
      var lower := Lower(raw);
      if ContainsAny(lower, RATE_LIMIT_PATTERNS) then RateLimited
      else if ContainsAny(lower, NOT_FOUND_PATTERNS) then NotFound
      else Found
  }
}
