// Where each field of a parsed IP reply comes from, line by line.
module IpFields {
  import opened Wrappers
  import opened Text
  import opened Records
  import opened Entries
  import opened IpParser
  import opened LineOwners

  lemma IpSurvivesExactly(raw: string, e: Entry)
    ensures EntryOf(raw, IP_COMMENTS) == Some(e) <==>
            && !StartsWith(Trim(raw), "%") && !StartsWith(Trim(raw), "#")
            && exists k, v :: Reads(raw, e.key, e.value, k, v)
  {
    EntryExactly(raw, IP_COMMENTS, e);
    assert IP_COMMENTS[0] == "%" && IP_COMMENTS[1] == "#";
  }

  // The registrar has two kinds of lines: organisations, and a network name for want of one.
  datatype Field =
    | Organisation | NetworkName | UpdatedDate | CreationDate | TechEmail | AdminEmail | RegistrantEmail | Status

  ghost predicate Suits(f: Field, e: Entry) {
    var k := e.key;
    match f
    case Organisation => k == "orgname" || k == "org-name" || k == "owner" || k == "organization"
    case NetworkName => k == "netname"
    case UpdatedDate => k == "updated" || k == "lastupdated" || k == "changed" || k == "last-modified"
    case CreationDate => k == "created" || k == "regdate" || k == "registration"
    case TechEmail => (Contains(k, "orgtechemail") || Contains(k, "tech-c") || Contains(k, "technical")) && '@' in e.value
    case AdminEmail => Contains(k, "abuse") && '@' in e.value
    case RegistrantEmail => (Contains(k, "e-mail") || Contains(k, "email")) && '@' in e.value
    case Status => k == "status" || k == "nettype"
  }

  function Rank(f: Field): nat {
    match f
    case Organisation => 0
    case NetworkName => 1
    case UpdatedDate => 2
    case CreationDate => 3
    case TechEmail => 4
    case AdminEmail => 5
    case RegistrantEmail => 6
    case Status => 7
  }

  // A network name is wanted only while there is no organisation either.
  ghost predicate Free(es: seq<Entry>, owners: Owners<Field>, i: nat, f: Field)
    requires i < |es| && i <= |owners|
  {
    match f
    case NetworkName => forall j :: 0 <= j < i ==> owners[j] != Some(NetworkName) && owners[j] != Some(Organisation)
    case Status => forall j :: 0 <= j < i && owners[j] == Some(f) ==> es[j].value != es[i].value
    case _ => forall j :: 0 <= j < i ==> owners[j] != Some(f)
  }

  ghost predicate Takes(suits: (Field, Entry) -> bool, es: seq<Entry>, owners: Owners<Field>, i: nat, f: Field)
    requires i < |es| && i <= |owners|
  {
    suits(f, es[i]) && Free(es, owners, i, f)
  }

  ghost predicate OwnedAt(suits: (Field, Entry) -> bool, es: seq<Entry>, owners: Owners<Field>, i: nat)
    requires i < |es| && i < |owners|
  {
    match owners[i]
    case None => forall g: Field :: !Takes(suits, es, owners, i, g)
    case Some(f) => Takes(suits, es, owners, i, f) && forall g: Field :: Rank(g) < Rank(f) ==> !Takes(suits, es, owners, i, g)
  }

  ghost predicate Owned(suits: (Field, Entry) -> bool, es: seq<Entry>, owners: Owners<Field>) {
    |owners| == |es| && forall i :: 0 <= i < |es| ==> OwnedAt(suits, es, owners, i)
  }

  function Whole(e: Entry): string { e.value }

  // What the two kinds of name lines give, and the other fields.
  datatype Names = Names(organisation: Option<string>, network: Option<string>)

  ghost predicate NamesFrom(n: Names, es: seq<Entry>, owners: Owners<Field>) {
    ScalarFrom(n.organisation, es, owners, Organisation) && ScalarFrom(n.network, es, owners, NetworkName)
  }

  ghost predicate OthersFrom(r: Record, es: seq<Entry>, owners: Owners<Field>) {
    && ScalarFrom(r.updatedDate, es, owners, UpdatedDate) && ScalarFrom(r.creationDate, es, owners, CreationDate)
    && ScalarFrom(r.techEmail, es, owners, TechEmail) && ScalarFrom(r.adminEmail, es, owners, AdminEmail)
    && ScalarFrom(r.registrantEmail, es, owners, RegistrantEmail) && ListFrom(r.status, es, owners, Status, Whole)
  }

  // The organisation wins over the network name; there are no other fields.
  ghost predicate FromLines(r: Record, n: Names, es: seq<Entry>, owners: Owners<Field>) {
    && NamesFrom(n, es, owners) && OthersFrom(r, es, owners)
    && r.registrar == (if n.organisation.Some? then n.organisation else n.network)
    && r.expirationDate.None? && r.nameServers == [] && r.registrantName.None?
  }

  ghost predicate Open(r: Record, n: Names, f: Field, e: Entry) {
    match f
    case Organisation => n.organisation.None?
    case NetworkName => n.organisation.None? && n.network.None?
    case UpdatedDate => r.updatedDate.None?
    case CreationDate => r.creationDate.None?
    case TechEmail => r.techEmail.None?
    case AdminEmail => r.adminEmail.None?
    case RegistrantEmail => r.registrantEmail.None?
    case Status => e.value !in r.status
  }

  ghost predicate Wants(suits: (Field, Entry) -> bool, r: Record, n: Names, f: Field, e: Entry) {
    suits(f, e) && Open(r, n, f, e)
  }

  ghost function Owner(suits: (Field, Entry) -> bool, r: Record, n: Names, e: Entry): Option<Field> {
    if Wants(suits, r, n, Organisation, e) then Some(Organisation)
    else if Wants(suits, r, n, NetworkName, e) then Some(NetworkName)
    else if Wants(suits, r, n, UpdatedDate, e) then Some(UpdatedDate)
    else if Wants(suits, r, n, CreationDate, e) then Some(CreationDate)
    else if Wants(suits, r, n, TechEmail, e) then Some(TechEmail)
    else if Wants(suits, r, n, AdminEmail, e) then Some(AdminEmail)
    else if Wants(suits, r, n, RegistrantEmail, e) then Some(RegistrantEmail)
    else if Wants(suits, r, n, Status, e) then Some(Status)
    else None
  }

  ghost function Named(n: Names, o: Option<Field>, e: Entry): Names {
    if o == Some(Organisation) then n.(organisation := Some(e.value))
    else if o == Some(NetworkName) then n.(network := Some(e.value))
    else n
  }

  ghost predicate Agree(arms: IpArms, suits: (Field, Entry) -> bool, e: Entry) {
    && arms.org(e) == suits(Organisation, e) && arms.netname(e) == suits(NetworkName, e)
    && arms.updated(e) == suits(UpdatedDate, e) && arms.created(e) == suits(CreationDate, e)
    && arms.tech(e) == suits(TechEmail, e) && arms.abuse(e) == suits(AdminEmail, e)
    && arms.email(e) == suits(RegistrantEmail, e) && arms.status(e) == suits(Status, e)
  }

  lemma IpArmsAgree(e: Entry)
    ensures Agree(IP_ARMS, Suits, e)
  {
    AbuseAlternatives(e.key);
    EmailAlternatives(e.key);
  }

  lemma EmailAlternatives(key: string)
    ensures Contains(key, "orgemail") ==> Contains(key, "email")
  {
    if Contains(key, "orgemail") {
      assert "orgemail"[3..8] == "email";
      ContainsLonger(key, "email", "orgemail", 3);
    }
  }

  lemma AbuseAlternatives(key: string)
    ensures Contains(key, "orgabuseemail") || Contains(key, "abuse-c") ==> Contains(key, "abuse")
  {
    if Contains(key, "orgabuseemail") {
      assert "orgabuseemail"[3..8] == "abuse";
      ContainsLonger(key, "abuse", "orgabuseemail", 3);
    }
    if Contains(key, "abuse-c") { ContainsLonger(key, "abuse", "abuse-c", 0); }
  }

  // The flag of the loop says that the registrar is a network name.
  ghost predicate Flagged(s: IpState, n: Names) {
    && s.record.registrar == (if n.organisation.Some? then n.organisation else n.network)
    && s.orgFromNetname == (n.organisation.None? && n.network.Some?)
  }

  ghost predicate Gained(r: Record, next: Record, o: Option<Field>, e: Entry) {
    && Gains(r.updatedDate, next.updatedDate, UpdatedDate, o, e) && Gains(r.creationDate, next.creationDate, CreationDate, o, e)
    && Gains(r.techEmail, next.techEmail, TechEmail, o, e) && Gains(r.adminEmail, next.adminEmail, AdminEmail, o, e)
    && Gains(r.registrantEmail, next.registrantEmail, RegistrantEmail, o, e)
    && next.status == (if o == Some(Status) then r.status + [e.value] else r.status) && (o == Some(Status) ==> e.value !in r.status)
    && next.expirationDate == r.expirationDate && next.nameServers == r.nameServers && next.registrantName == r.registrantName
  }

  lemma IpStepIsOwner(arms: IpArms, suits: (Field, Entry) -> bool, s: IpState, n: Names, e: Entry)
    requires Agree(arms, suits, e) && Flagged(s, n)
    ensures var o, t := Owner(suits, s.record, n, e), IpStep(arms, s, e);
            && Gained(s.record, t.record, o, e) && Flagged(t, Named(n, o, e))
            && Gains(n.organisation, Named(n, o, e).organisation, Organisation, o, e)
            && Gains(n.network, Named(n, o, e).network, NetworkName, o, e)
  {
  }

  lemma OwnerIsFirst(suits: (Field, Entry) -> bool, r: Record, n: Names, e: Entry)
    ensures match Owner(suits, r, n, e)
            case None => forall g: Field :: !Wants(suits, r, n, g, e)
            case Some(f) => Wants(suits, r, n, f, e) && forall g: Field :: Rank(g) < Rank(f) ==> !Wants(suits, r, n, g, e)
  {
  }

  lemma FreeIsOpen(r: Record, n: Names, es: seq<Entry>, owners: Owners<Field>, e: Entry, longer: Owners<Field>, f: Field)
    requires |owners| == |es| && FromLines(r, n, es, owners) && owners <= longer
    ensures Free(es + [e], longer, |es|, f) <==> Open(r, n, f, e)
  {
    forall j, g: Field | 0 <= j < |es| ensures longer[j] == owners[j] && (owners[j] == Some(g) ==> Source(es, owners, g, j)) {
    }
    if f == Status {
      assert e.value in r.status <==> exists i :: Source(es, owners, Status, i) && Whole(es[i]) == e.value;
    }
  }

  lemma LinesStep(r: Record, n: Names, next: Record, m: Names, es: seq<Entry>, owners: Owners<Field>, e: Entry, o: Option<Field>)
    requires |owners| == |es| && FromLines(r, n, es, owners) && Gained(r, next, o, e)
    requires Gains(n.organisation, m.organisation, Organisation, o, e) && Gains(n.network, m.network, NetworkName, o, e)
    requires next.registrar == (if m.organisation.Some? then m.organisation else m.network)
    ensures FromLines(next, m, es + [e], owners + [o])
  {
    ScalarStep(n.organisation, m.organisation, es, owners, Organisation, e, o);
    ScalarStep(n.network, m.network, es, owners, NetworkName, e, o);
    ScalarStep(r.updatedDate, next.updatedDate, es, owners, UpdatedDate, e, o);
    ScalarStep(r.creationDate, next.creationDate, es, owners, CreationDate, e, o);
    ScalarStep(r.techEmail, next.techEmail, es, owners, TechEmail, e, o);
    ScalarStep(r.adminEmail, next.adminEmail, es, owners, AdminEmail, e, o);
    ScalarStep(r.registrantEmail, next.registrantEmail, es, owners, RegistrantEmail, e, o);
    ListStep(r.status, next.status, es, owners, Status, Whole, e, o);
  }

  // Later lines do not change who owns a line.
  lemma TakesStays(suits: (Field, Entry) -> bool, es: seq<Entry>, owners: Owners<Field>, fs: seq<Entry>, os: Owners<Field>, i: nat, f: Field)
    requires es <= fs && owners <= os && i < |es| && i < |owners|
    ensures Takes(suits, fs, os, i, f) <==> Takes(suits, es, owners, i, f)
  {
    assert forall j :: 0 <= j <= i ==> fs[j] == es[j] && os[j] == owners[j];
  }

  lemma OwnedStays(suits: (Field, Entry) -> bool, es: seq<Entry>, owners: Owners<Field>, fs: seq<Entry>, os: Owners<Field>, i: nat)
    requires es <= fs && owners <= os && i < |es| && i < |owners| && OwnedAt(suits, es, owners, i)
    ensures OwnedAt(suits, fs, os, i)
  {
    forall f: Field ensures Takes(suits, fs, os, i, f) <==> Takes(suits, es, owners, i, f) {
      TakesStays(suits, es, owners, fs, os, i, f);
    }
  }

  lemma LastIsOwned(suits: (Field, Entry) -> bool, r: Record, n: Names, es: seq<Entry>, owners: Owners<Field>, e: Entry)
    requires |owners| == |es| && FromLines(r, n, es, owners)
    ensures OwnedAt(suits, es + [e], owners + [Owner(suits, r, n, e)], |es|)
  {
    var longer := owners + [Owner(suits, r, n, e)];
    forall f: Field ensures Takes(suits, es + [e], longer, |es|, f) <==> Wants(suits, r, n, f, e) {
      FreeIsOpen(r, n, es, owners, e, longer, f);
    }
    OwnerIsFirst(suits, r, n, e);
  }

  lemma OwnedSnoc(suits: (Field, Entry) -> bool, es: seq<Entry>, owners: Owners<Field>, fs: seq<Entry>, os: Owners<Field>)
    requires Owned(suits, es, owners) && es <= fs && owners <= os && |fs| == |os| == |es| + 1 && OwnedAt(suits, fs, os, |es|)
    ensures Owned(suits, fs, os)
  {
    forall i | 0 <= i < |es| ensures OwnedAt(suits, fs, os, i) {
      OwnedStays(suits, es, owners, fs, os, i);
    }
  }

  ghost predicate Explained(suits: (Field, Entry) -> bool, s: IpState, es: seq<Entry>, owners: Owners<Field>, n: Names) {
    Owned(suits, es, owners) && FromLines(s.record, n, es, owners) && Flagged(s, n)
  }

  lemma StepIsExplained(arms: IpArms, suits: (Field, Entry) -> bool, s: IpState, es: seq<Entry>, owners: Owners<Field>, n: Names, e: Entry)
    requires Explained(suits, s, es, owners, n) && Agree(arms, suits, e)
    ensures var o := Owner(suits, s.record, n, e);
            Explained(suits, IpStep(arms, s, e), es + [e], owners + [o], Named(n, o, e))
  {
    var o := Owner(suits, s.record, n, e);
    IpStepIsOwner(arms, suits, s, n, e);
    LinesStep(s.record, n, IpStep(arms, s, e).record, Named(n, o, e), es, owners, e, o);
    LastIsOwned(suits, s.record, n, es, owners, e);
    OwnedSnoc(suits, es, owners, es + [e], owners + [o]);
  }

  lemma {:induction false} IpScanFromLines(arms: IpArms, suits: (Field, Entry) -> bool, es: seq<Entry>)
    returns (owners: Owners<Field>, n: Names)
    requires forall e :: Agree(arms, suits, e)
    ensures Explained(suits, IpScan(arms, es), es, owners, n)
  {
    owners, n := [], Names(None, None);
    if es != [] {
      var init, e := es[..|es| - 1], es[|es| - 1];
      var before, names := IpScanFromLines(arms, suits, init);
      var o := Owner(suits, IpScan(arms, init).record, names, e);
      owners, n := before + [o], Named(names, o, e);
      StepIsExplained(arms, suits, IpScan(arms, init), init, before, names, e);
      assert es == init + [e];
    }
  }

  // Every surviving line belongs to at most one field, the first in order that suits it and is
  // free; all fields hold exactly what their lines say, and the ages come from the dates.
  lemma IpFieldsComeFromLines(dates: Dates, data: string) returns (owners: Owners<Field>, n: Names)
    ensures var es, r := EntriesOf(Lines(data), IP_COMMENTS), ParseIp(dates, data);
            && Owned(Suits, es, owners) && FromLines(r, n, es, owners)
            && r.createdAgo == (if r.creationDate.None? then None else dates.since(r.creationDate.value))
            && r.updatedAgo == (if r.updatedDate.None? then None else dates.since(r.updatedDate.value))
            && r.expiresIn == None
  {
    forall e ensures Agree(IP_ARMS, Suits, e) {
      IpArmsAgree(e);
    }
    owners, n := IpScanFromLines(IP_ARMS, Suits, EntriesOf(Lines(data), IP_COMMENTS));
  }
}
