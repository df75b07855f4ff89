// Where each field of a parsed domain reply comes from, line by line.
module ParserFields {
  import opened Wrappers
  import opened Text
  import opened Records
  import opened Entries
  import opened Parser
  import opened LineOwners

  // Which lines survive, and as what.
  lemma SurvivesExactly(raw: string, e: Entry)
    ensures EntryOf(raw, COMMENTS) == Some(e) <==>
            && !StartsWith(Trim(raw), "%") && !StartsWith(Trim(raw), "#") && !StartsWith(Trim(raw), ">>>")
            && exists k, v :: Reads(raw, e.key, e.value, k, v)
  {
    EntryExactly(raw, COMMENTS, e);
    assert COMMENTS[0] == "%" && COMMENTS[1] == "#" && COMMENTS[2] == ">>>";
  }

  datatype Field =
    | ExpirationDate | CreationDate | UpdatedDate | Registrar | NameServers | Status
    | RegistrantName | RegistrantEmail | AdminEmail | TechEmail

  // The keys of each field, and what its values must look like.
  ghost predicate Suits(f: Field, e: Entry) {
    var k, redacted := e.key, Contains(Lower(e.value), "select request");
    match f
    case ExpirationDate => Contains(k, "expir")
    case CreationDate => Contains(k, "creation") || Contains(k, "created") || k == "registered"
    case UpdatedDate => Contains(k, "updated") || Contains(k, "modified")
    case Registrar =>
      && Contains(k, "registrar")
      && !Contains(k, "whois") && !Contains(k, "url") && !Contains(k, "abuse") && !Contains(k, "expir") && !Contains(k, "registration")
    case NameServers => Contains(k, "name server") || k == "nserver" || k == "ns"
    case Status => Contains(k, "status") || k == "state"
    case RegistrantName => "registrant" <= k && (k == "registrant" || Contains(k, "name") || Contains(k, "org")) && !redacted
    case RegistrantEmail => Contains(k, "registrant") && Contains(k, "email") && '@' in e.value && !redacted
    case AdminEmail => Contains(k, "admin") && Contains(k, "email") && '@' in e.value && !redacted
    case TechEmail => Contains(k, "tech") && Contains(k, "email") && '@' in e.value && !redacted
  }

  // The order in which the fields are offered a line.
  function Rank(f: Field): nat {
    match f
    case ExpirationDate => 0
    case CreationDate => 1
    case UpdatedDate => 2
    case Registrar => 3
    case NameServers => 4
    case Status => 5
    case RegistrantName => 6
    case RegistrantEmail => 7
    case AdminEmail => 8
    case TechEmail => 9
  }

  // A field is free for a line while it owns no line, or for a list, always or for a new value.
  ghost predicate Free(es: seq<Entry>, owners: Owners<Field>, i: nat, f: Field)
    requires i < |es| && i <= |owners|
  {
    match f
    case NameServers => true
    case Status => forall j :: 0 <= j < i && owners[j] == Some(f) ==> es[j].value != es[i].value
    case _ => forall j :: 0 <= j < i ==> owners[j] != Some(f)
  }

  ghost predicate Takes(suits: (Field, Entry) -> bool, es: seq<Entry>, owners: Owners<Field>, i: nat, f: Field)
    requires i < |es| && i <= |owners|
  {
    suits(f, es[i]) && Free(es, owners, i, f)
  }

  // Every line belongs to the first field that suits it and is free, if there is one.
  ghost predicate OwnedAt(suits: (Field, Entry) -> bool, es: seq<Entry>, owners: Owners<Field>, i: nat)
    requires i < |es| && i < |owners|
  {
    match owners[i]
    case None => forall g: Field :: !Takes(suits, es, owners, i, g)
    case Some(f) => Takes(suits, es, owners, i, f) && forall g: Field :: Rank(g) < Rank(f) ==> !Takes(suits, es, owners, i, g)
  }

  ghost predicate Owned(suits: (Field, Entry) -> bool, es: seq<Entry>, owners: Owners<Field>) {
    |owners| == |es| && forall i :: 0 <= i < |es| ==> OwnedAt(suits, es, owners, i)
  }

  // Name servers are the first tokens of their lines, statuses the values.
  function Token(e: Entry): string { FirstToken(e.value) }

  function Whole(e: Entry): string { e.value }

  ghost predicate DatesFrom(r: Record, es: seq<Entry>, owners: Owners<Field>) {
    && ScalarFrom(r.expirationDate, es, owners, ExpirationDate) && ScalarFrom(r.creationDate, es, owners, CreationDate)
    && ScalarFrom(r.updatedDate, es, owners, UpdatedDate) && ScalarFrom(r.registrar, es, owners, Registrar)
  }

  ghost predicate ContactsFrom(r: Record, es: seq<Entry>, owners: Owners<Field>) {
    && ScalarFrom(r.registrantName, es, owners, RegistrantName) && ScalarFrom(r.registrantEmail, es, owners, RegistrantEmail)
    && ScalarFrom(r.adminEmail, es, owners, AdminEmail) && ScalarFrom(r.techEmail, es, owners, TechEmail)
  }

  ghost predicate FromLines(r: Record, es: seq<Entry>, owners: Owners<Field>) {
    && DatesFrom(r, es, owners) && ContactsFrom(r, es, owners)
    && ListFrom(r.nameServers, es, owners, NameServers, Token) && ListFrom(r.status, es, owners, Status, Whole)
  }

  // A field of the record that can still take a line.
  ghost predicate Open(r: Record, f: Field, e: Entry) {
    match f
    case ExpirationDate => r.expirationDate.None?
    case CreationDate => r.creationDate.None?
    case UpdatedDate => r.updatedDate.None?
    case Registrar => r.registrar.None?
    case NameServers => true
    case Status => e.value !in r.status
    case RegistrantName => r.registrantName.None?
    case RegistrantEmail => r.registrantEmail.None?
    case AdminEmail => r.adminEmail.None?
    case TechEmail => r.techEmail.None?
  }

  // The first field that suits the line and is open, for any notion of suiting.
  ghost function Owner(suits: (Field, Entry) -> bool, r: Record, e: Entry): Option<Field> {
    if Wants(suits, r, ExpirationDate, e) then Some(ExpirationDate)
    else if Wants(suits, r, CreationDate, e) then Some(CreationDate)
    else if Wants(suits, r, UpdatedDate, e) then Some(UpdatedDate)
    else if Wants(suits, r, Registrar, e) then Some(Registrar)
    else if Wants(suits, r, NameServers, e) then Some(NameServers)
    else if Wants(suits, r, Status, e) then Some(Status)
    else if Wants(suits, r, RegistrantName, e) then Some(RegistrantName)
    else if Wants(suits, r, RegistrantEmail, e) then Some(RegistrantEmail)
    else if Wants(suits, r, AdminEmail, e) then Some(AdminEmail)
    else if Wants(suits, r, TechEmail, e) then Some(TechEmail)
    else None
  }

  ghost predicate Wants(suits: (Field, Entry) -> bool, r: Record, f: Field, e: Entry) {
    suits(f, e) && Open(r, f, e)
  }

  ghost function Put(r: Record, owner: Option<Field>, e: Entry): Record {
    match owner
    case None => r
    case Some(f) =>
      match f
      case ExpirationDate => r.(expirationDate := Some(e.value))
      case CreationDate => r.(creationDate := Some(e.value))
      case UpdatedDate => r.(updatedDate := Some(e.value))
      case Registrar => r.(registrar := Some(e.value))
      case NameServers =>
        if FirstToken(e.value) in r.nameServers then r else r.(nameServers := r.nameServers + [FirstToken(e.value)])
      case Status => r.(status := r.status + [e.value])
      case RegistrantName => r.(registrantName := Some(e.value))
      case RegistrantEmail => r.(registrantEmail := Some(e.value))
      case AdminEmail => r.(adminEmail := Some(e.value))
      case TechEmail => r.(techEmail := Some(e.value))
  }

  lemma ArmsSuit(e: Entry)
    ensures ExpiryArm(e) == Suits(ExpirationDate, e) && CreationArm(e) == Suits(CreationDate, e)
    ensures UpdatedArm(e) == Suits(UpdatedDate, e) && RegistrarArm(e) == Suits(Registrar, e)
    ensures NameServerArm(e) == Suits(NameServers, e) && StatusArm(e) == Suits(Status, e)
  {
    ExpiryKey(e);
    assert "last updated"[5..12] == "updated";
    if Contains(e.key, "last updated") { ContainsLonger(e.key, "updated", "last updated", 5); }
  }

  lemma ContactArmsSuit(e: Entry)
    ensures RegistrantNameArm(e) == Suits(RegistrantName, e) && RegistrantEmailArm(e) == Suits(RegistrantEmail, e)
    ensures AdminEmailArm(e) == Suits(AdminEmail, e) && TechEmailArm(e) == Suits(TechEmail, e)
  {
    if Contains(e.key, "organization") { ContainsLonger(e.key, "org", "organization", 0); }
  }

  // The arms accept what suits the fields.
  ghost predicate Agree(arms: Arms, suits: (Field, Entry) -> bool, e: Entry) {
    && arms.expiry(e) == suits(ExpirationDate, e) && arms.creation(e) == suits(CreationDate, e)
    && arms.updated(e) == suits(UpdatedDate, e) && arms.registrar(e) == suits(Registrar, e)
    && arms.nameServer(e) == suits(NameServers, e) && arms.status(e) == suits(Status, e)
    && arms.registrantName(e) == suits(RegistrantName, e) && arms.registrantEmail(e) == suits(RegistrantEmail, e)
    && arms.adminEmail(e) == suits(AdminEmail, e) && arms.techEmail(e) == suits(TechEmail, e)
  }

  lemma DomainArmsAgree(e: Entry)
    ensures Agree(DOMAIN_ARMS, Suits, e)
  {
    ArmsSuit(e);
    ContactArmsSuit(e);
  }

  lemma StepIsOwner(arms: Arms, suits: (Field, Entry) -> bool, r: Record, e: Entry)
    requires Agree(arms, suits, e)
    ensures Step(arms, r, e) == Put(r, Owner(suits, r, e), e)
  {
  }

  lemma OwnerIsFirst(suits: (Field, Entry) -> bool, r: Record, e: Entry)
    ensures match Owner(suits, r, e)
            case None => forall g: Field :: !Wants(suits, r, g, e)
            case Some(f) => Wants(suits, r, f, e) && forall g: Field :: Rank(g) < Rank(f) ==> !Wants(suits, r, g, e)
  {
  }

  // Being free, told by the lines, is being open, told by the record.
  lemma FreeIsOpen(r: Record, es: seq<Entry>, owners: Owners<Field>, e: Entry, longer: Owners<Field>, f: Field)
    requires |owners| == |es| && FromLines(r, es, owners) && owners <= longer
    ensures Free(es + [e], longer, |es|, f) <==> Open(r, f, e)
  {
    forall j | 0 <= j < |es| ensures longer[j] == owners[j] && (owners[j] == Some(f) ==> Source(es, owners, f, j)) {
    }
    if f == Status {
      assert e.value in r.status <==> exists i :: Source(es, owners, Status, i) && Whole(es[i]) == e.value;
    }
  }

  // What the owner of a line changes.
  ghost predicate Gained(r: Record, n: Record, o: Option<Field>, e: Entry) {
    var h := FirstToken(e.value);
    && Gains(r.expirationDate, n.expirationDate, ExpirationDate, o, e) && Gains(r.creationDate, n.creationDate, CreationDate, o, e)
    && Gains(r.updatedDate, n.updatedDate, UpdatedDate, o, e) && Gains(r.registrar, n.registrar, Registrar, o, e)
    && Gains(r.registrantName, n.registrantName, RegistrantName, o, e)
    && Gains(r.registrantEmail, n.registrantEmail, RegistrantEmail, o, e)
    && Gains(r.adminEmail, n.adminEmail, AdminEmail, o, e) && Gains(r.techEmail, n.techEmail, TechEmail, o, e)
    && n.nameServers == (if o == Some(NameServers) && h !in r.nameServers then r.nameServers + [h] else r.nameServers)
    && n.status == (if o == Some(Status) then r.status + [e.value] else r.status) && (o == Some(Status) ==> e.value !in r.status)
  }

  lemma OwnerGains(suits: (Field, Entry) -> bool, r: Record, e: Entry)
    ensures Gained(r, Put(r, Owner(suits, r, e), e), Owner(suits, r, e), e)
  {
  }

  lemma DatesStep(r: Record, n: Record, es: seq<Entry>, owners: Owners<Field>, e: Entry, o: Option<Field>)
    requires |owners| == |es| && DatesFrom(r, es, owners) && Gained(r, n, o, e)
    ensures DatesFrom(n, es + [e], owners + [o])
  {
    ScalarStep(r.expirationDate, n.expirationDate, es, owners, ExpirationDate, e, o);
    ScalarStep(r.creationDate, n.creationDate, es, owners, CreationDate, e, o);
    ScalarStep(r.updatedDate, n.updatedDate, es, owners, UpdatedDate, e, o);
    ScalarStep(r.registrar, n.registrar, es, owners, Registrar, e, o);
  }

  lemma ContactsStep(r: Record, n: Record, es: seq<Entry>, owners: Owners<Field>, e: Entry, o: Option<Field>)
    requires |owners| == |es| && ContactsFrom(r, es, owners) && Gained(r, n, o, e)
    ensures ContactsFrom(n, es + [e], owners + [o])
  {
    ScalarStep(r.registrantName, n.registrantName, es, owners, RegistrantName, e, o);
    ScalarStep(r.registrantEmail, n.registrantEmail, es, owners, RegistrantEmail, e, o);
    ScalarStep(r.adminEmail, n.adminEmail, es, owners, AdminEmail, e, o);
    ScalarStep(r.techEmail, n.techEmail, es, owners, TechEmail, e, o);
  }

  lemma LinesStep(r: Record, n: Record, es: seq<Entry>, owners: Owners<Field>, e: Entry, o: Option<Field>)
    requires |owners| == |es| && FromLines(r, es, owners) && Gained(r, n, o, e)
    ensures FromLines(n, es + [e], owners + [o])
  {
    DatesStep(r, n, es, owners, e, o);
    ContactsStep(r, n, es, owners, e, o);
    ListStep(r.nameServers, n.nameServers, es, owners, NameServers, Token, e, o);
    ListStep(r.status, n.status, es, owners, Status, Whole, e, o);
  }

  // Later lines do not change who owns a line.
  lemma TakesStays(suits: (Field, Entry) -> bool, es: seq<Entry>, owners: Owners<Field>, fs: seq<Entry>, os: Owners<Field>, i: nat, f: Field)
    requires es <= fs && owners <= os && i < |es| && i < |owners|
    ensures Takes(suits, fs, os, i, f) <==> Takes(suits, es, owners, i, f)
  {
    assert forall j :: 0 <= j <= i ==> fs[j] == es[j] && os[j] == owners[j];
  }

  lemma OwnedStays(suits: (Field, Entry) -> bool, es: seq<Entry>, owners: Owners<Field>, fs: seq<Entry>, os: Owners<Field>, i: nat)
    requires es <= fs && owners <= os && i < |es| && i < |owners| && OwnedAt(suits, es, owners, i)
    ensures OwnedAt(suits, fs, os, i)
  {
    forall f: Field ensures Takes(suits, fs, os, i, f) <==> Takes(suits, es, owners, i, f) {
      TakesStays(suits, es, owners, fs, os, i, f);
    }
  }

  lemma LastIsOwned(suits: (Field, Entry) -> bool, r: Record, es: seq<Entry>, owners: Owners<Field>, e: Entry)
    requires |owners| == |es| && FromLines(r, es, owners)
    ensures OwnedAt(suits, es + [e], owners + [Owner(suits, r, e)], |es|)
  {
    var longer := owners + [Owner(suits, r, e)];
    forall f: Field ensures Takes(suits, es + [e], longer, |es|, f) <==> Wants(suits, r, f, e) {
      FreeIsOpen(r, es, owners, e, longer, f);
    }
    OwnerIsFirst(suits, r, e);
  }

  lemma OwnedSnoc(suits: (Field, Entry) -> bool, es: seq<Entry>, owners: Owners<Field>, fs: seq<Entry>, os: Owners<Field>)
    requires Owned(suits, es, owners) && es <= fs && owners <= os && |fs| == |os| == |es| + 1 && OwnedAt(suits, fs, os, |es|)
    ensures Owned(suits, fs, os)
  {
    forall i | 0 <= i < |es| ensures OwnedAt(suits, fs, os, i) {
      OwnedStays(suits, es, owners, fs, os, i);
    }
  }

  ghost predicate Explained(suits: (Field, Entry) -> bool, r: Record, es: seq<Entry>, owners: Owners<Field>) {
    Owned(suits, es, owners) && FromLines(r, es, owners)
  }

  lemma StepIsExplained(arms: Arms, suits: (Field, Entry) -> bool, r: Record, es: seq<Entry>, owners: Owners<Field>, e: Entry)
    requires Explained(suits, r, es, owners) && Agree(arms, suits, e)
    ensures Explained(suits, Step(arms, r, e), es + [e], owners + [Owner(suits, r, e)])
  {
    var o := Owner(suits, r, e);
    StepIsOwner(arms, suits, r, e);
    OwnerGains(suits, r, e);
    LinesStep(r, Put(r, o, e), es, owners, e, o);
    LastIsOwned(suits, r, es, owners, e);
    OwnedSnoc(suits, es, owners, es + [e], owners + [o]);
  }

  lemma {:induction false} ScanFromLines(arms: Arms, suits: (Field, Entry) -> bool, es: seq<Entry>) returns (owners: Owners<Field>)
    requires forall e :: Agree(arms, suits, e)
    ensures Explained(suits, Scan(arms, es), es, owners)
  {
    owners := [];
    if es != [] {
      var init, e := es[..|es| - 1], es[|es| - 1];
      var before := ScanFromLines(arms, suits, init);
      owners := before + [Owner(suits, Scan(arms, init), e)];
      StepIsExplained(arms, suits, Scan(arms, init), init, before, e);
      assert es == init + [e];
    }
  }

  // Every surviving line of a reply belongs to at most one field, the first one in order that
  // suits it and is free; and all ten fields hold exactly what their lines say.
  lemma FieldsComeFromLines(dates: Dates, data: string) returns (owners: Owners<Field>)
    ensures var es := EntriesOf(Lines(data), COMMENTS);
            Owned(Suits, es, owners) && FromLines(Parse(dates, data), es, owners)
  {
    forall e ensures Agree(DOMAIN_ARMS, Suits, e) {
      DomainArmsAgree(e);
    }
    owners := ScanFromLines(DOMAIN_ARMS, Suits, EntriesOf(Lines(data), COMMENTS));
  }

  // A line that some field could take has an owner no later than that field.
  lemma OwnedEarly(suits: (Field, Entry) -> bool, es: seq<Entry>, owners: Owners<Field>, i: nat, f: Field) returns (g: Field)
    requires Owned(suits, es, owners) && i < |es| && Takes(suits, es, owners, i, f)
    ensures owners[i] == Some(g) && Rank(g) <= Rank(f)
  {
    assert OwnedAt(suits, es, owners, i);
    g := owners[i].value;
  }

  // The name servers, spelled out: each surviving line with one of their keys gives its first
  // token, unless one of the four fields ahead owns it; and nothing else is there.
  predicate NameServerKey(key: string) {
    Contains(key, "name server") || key == "nserver" || key == "ns"
  }

  predicate OwnedAhead(owner: Option<Field>) {
    owner in [Some(ExpirationDate), Some(CreationDate), Some(UpdatedDate), Some(Registrar)]
  }

  lemma LineIsListed(es: seq<Entry>, owners: Owners<Field>, servers: seq<string>, i: nat)
    requires Owned(Suits, es, owners) && ListFrom(servers, es, owners, NameServers, Token)
    requires i < |es| && NameServerKey(es[i].key)
    ensures FirstToken(es[i].value) in servers || OwnedAhead(owners[i])
  {
    var g := OwnedEarly(Suits, es, owners, i, NameServers);
    if g == NameServers {
      assert Source(es, owners, NameServers, i) && Token(es[i]) in servers;
    }
  }

  lemma ListedIsLine(es: seq<Entry>, owners: Owners<Field>, servers: seq<string>, v: string) returns (i: nat)
    requires Owned(Suits, es, owners) && ListFrom(servers, es, owners, NameServers, Token) && v in servers
    ensures i < |es| && NameServerKey(es[i].key) && FirstToken(es[i].value) == v
  {
    i :| Source(es, owners, NameServers, i) && Token(es[i]) == v;
    assert OwnedAt(Suits, es, owners, i);
  }

  lemma NameServersAreListed(dates: Dates, data: string) returns (owners: Owners<Field>)
    ensures var es, servers := EntriesOf(Lines(data), COMMENTS), Parse(dates, data).nameServers;
            && |owners| == |es|
            && (forall i :: 0 <= i < |es| && NameServerKey(es[i].key) ==> FirstToken(es[i].value) in servers || OwnedAhead(owners[i]))
            && (forall v :: v in servers ==> exists i :: 0 <= i < |es| && NameServerKey(es[i].key) && FirstToken(es[i].value) == v)
  {
    owners := FieldsComeFromLines(dates, data);
    var es, servers := EntriesOf(Lines(data), COMMENTS), Parse(dates, data).nameServers;
    forall i | 0 <= i < |es| && NameServerKey(es[i].key) ensures FirstToken(es[i].value) in servers || OwnedAhead(owners[i]) {
      LineIsListed(es, owners, servers, i);
    }
    forall v | v in servers ensures exists i :: 0 <= i < |es| && NameServerKey(es[i].key) && FirstToken(es[i].value) == v {
      var i := ListedIsLine(es, owners, servers, v);
    }
  }

  // The ages are reckoned from their own dates.
  lemma AgesComeFromDates(dates: Dates, data: string)
    ensures var r := Parse(dates, data);
            && r.createdAgo == (if r.creationDate.None? then None else dates.since(r.creationDate.value))
            && r.updatedAgo == (if r.updatedDate.None? then None else dates.since(r.updatedDate.value))
            && r.expiresIn == (if r.expirationDate.None? then None else dates.until(r.expirationDate.value))
  {
  }
}
