// The parsed record of src/lib.rs: its value, the in-place merge and the age fields.
module Records {
  import opened Wrappers

  datatype LookupStatus = Found | NotFound | RateLimited

  // The value of a ParsedWhoisData: thirteen fields.
  datatype Record = Record(
    registrar: Option<string>,
    creationDate: Option<string>,
    expirationDate: Option<string>,
    updatedDate: Option<string>,
    nameServers: seq<string>,
    status: seq<string>,
    registrantName: Option<string>,
    registrantEmail: Option<string>,
    adminEmail: Option<string>,
    techEmail: Option<string>,
    createdAgo: Option<int>,
    updatedAgo: Option<int>,
    expiresIn: Option<int>)

  const EMPTY := Record(None, None, None, None, [], [], None, None, None, None, None, None, None)

  // Date parsing against one fixed present, as days since and days until a date string.
  datatype Dates = Dates(since: string -> Option<int>, until: string -> Option<int>)

  function AndThen(d: Option<string>, f: string -> Option<int>): Option<int> {
    if d.Some? then f(d.value) else None
  }

  function WithAges(dates: Dates, r: Record): Record {
    r.(createdAgo := AndThen(r.creationDate, dates.since),
       updatedAgo := AndThen(r.updatedDate, dates.since),
       expiresIn := AndThen(r.expirationDate, dates.until))
  }

  function Or<T>(own: Option<T>, fallback: Option<T>): Option<T> {
    if own.None? then fallback else own
  }

  function OrList(own: seq<string>, fallback: seq<string>): seq<string> {
    if own == [] then fallback else own
  }

  // Value of a record after filling its gaps from another one.
  function Filled(own: Record, fallback: Record): Record {
    Record(
      Or(own.registrar, fallback.registrar), Or(own.creationDate, fallback.creationDate),
      Or(own.expirationDate, fallback.expirationDate), Or(own.updatedDate, fallback.updatedDate),
      OrList(own.nameServers, fallback.nameServers), OrList(own.status, fallback.status),
      Or(own.registrantName, fallback.registrantName), Or(own.registrantEmail, fallback.registrantEmail),
      Or(own.adminEmail, fallback.adminEmail), Or(own.techEmail, fallback.techEmail),
      Or(own.createdAgo, fallback.createdAgo), Or(own.updatedAgo, fallback.updatedAgo),
      Or(own.expiresIn, fallback.expiresIn))
  }

  // Every field present in a is present in b.
  ghost predicate Covers(b: Record, a: Record) {
    && (a.registrar.Some? ==> b.registrar.Some?)
    && (a.creationDate.Some? ==> b.creationDate.Some?)
    && (a.expirationDate.Some? ==> b.expirationDate.Some?)
    && (a.updatedDate.Some? ==> b.updatedDate.Some?)
    && (a.nameServers != [] ==> b.nameServers != [])
    && (a.status != [] ==> b.status != [])
    && (a.registrantName.Some? ==> b.registrantName.Some?)
    && (a.registrantEmail.Some? ==> b.registrantEmail.Some?)
    && (a.adminEmail.Some? ==> b.adminEmail.Some?)
    && (a.techEmail.Some? ==> b.techEmail.Some?)
    && (a.createdAgo.Some? ==> b.createdAgo.Some?)
    && (a.updatedAgo.Some? ==> b.updatedAgo.Some?)
    && (a.expiresIn.Some? ==> b.expiresIn.Some?)
  }

  // Every field of b is a's own where a has one.
  ghost predicate Keeps(b: Record, a: Record) {
    && (a.registrar.Some? ==> b.registrar == a.registrar)
    && (a.creationDate.Some? ==> b.creationDate == a.creationDate)
    && (a.expirationDate.Some? ==> b.expirationDate == a.expirationDate)
    && (a.updatedDate.Some? ==> b.updatedDate == a.updatedDate)
    && (a.nameServers != [] ==> b.nameServers == a.nameServers)
    && (a.status != [] ==> b.status == a.status)
    && (a.registrantName.Some? ==> b.registrantName == a.registrantName)
    && (a.registrantEmail.Some? ==> b.registrantEmail == a.registrantEmail)
    && (a.adminEmail.Some? ==> b.adminEmail == a.adminEmail)
    && (a.techEmail.Some? ==> b.techEmail == a.techEmail)
    && (a.createdAgo.Some? ==> b.createdAgo == a.createdAgo)
    && (a.updatedAgo.Some? ==> b.updatedAgo == a.updatedAgo)
    && (a.expiresIn.Some? ==> b.expiresIn == a.expiresIn)
  }

  lemma FilledKeepsOwn(a: Record, b: Record)
    ensures Keeps(Filled(a, b), a)
  {
  }

  lemma FilledCoversFallback(a: Record, b: Record)
    ensures Covers(Filled(a, b), b)
  {
  }

  // A field's own value where there is one, the other's where there is none.
  ghost predicate Backed<T>(field: Option<T>, own: Option<T>, gap: Option<T>) {
    (own.Some? ==> field == own) && (own.None? ==> field == gap)
  }

  ghost predicate BackedList(field: seq<string>, own: seq<string>, gap: seq<string>) {
    (own != [] ==> field == own) && (own == [] ==> field == gap)
  }

  // Field by field, the record is the first one's, and the second one's where that has nothing.
  ghost predicate BackedBy(r: Record, own: Record, gap: Record) {
    && Backed(r.registrar, own.registrar, gap.registrar) && Backed(r.creationDate, own.creationDate, gap.creationDate)
    && Backed(r.expirationDate, own.expirationDate, gap.expirationDate) && Backed(r.updatedDate, own.updatedDate, gap.updatedDate)
    && BackedList(r.nameServers, own.nameServers, gap.nameServers) && BackedList(r.status, own.status, gap.status)
    && Backed(r.registrantName, own.registrantName, gap.registrantName)
    && Backed(r.registrantEmail, own.registrantEmail, gap.registrantEmail)
    && Backed(r.adminEmail, own.adminEmail, gap.adminEmail) && Backed(r.techEmail, own.techEmail, gap.techEmail)
    && Backed(r.createdAgo, own.createdAgo, gap.createdAgo) && Backed(r.updatedAgo, own.updatedAgo, gap.updatedAgo)
    && Backed(r.expiresIn, own.expiresIn, gap.expiresIn)
  }

  lemma FilledIsBacked(a: Record, b: Record)
    ensures BackedBy(Filled(a, b), a, b)
  {
  }

  lemma FilledAssociative(a: Record, b: Record, c: Record)
    ensures Filled(Filled(a, b), c) == Filled(a, Filled(b, c))
  {
  }

  // Registrar, creation date or name servers: what counts as a substantive record.
  predicate HasRecordData(r: Record) {
    r.registrar.Some? || r.creationDate.Some? || r.nameServers != []
  }

  // The record while it is being filled in place; its fields are kept as one value.
  class ParsedWhoisData {
    var fields: Record

    constructor (fields: Record)
      ensures this.fields == fields
    {
      this.fields := fields;
    }

    method FillMissingFrom(fallback: Record)
      modifies this
      ensures fields == Filled(old(fields), fallback)
    {
      fields := fields.(
        registrar := Or(fields.registrar, fallback.registrar),
        creationDate := Or(fields.creationDate, fallback.creationDate),
        expirationDate := Or(fields.expirationDate, fallback.expirationDate),
        updatedDate := Or(fields.updatedDate, fallback.updatedDate),
        registrantName := Or(fields.registrantName, fallback.registrantName),
        registrantEmail := Or(fields.registrantEmail, fallback.registrantEmail),
        adminEmail := Or(fields.adminEmail, fallback.adminEmail),
        techEmail := Or(fields.techEmail, fallback.techEmail),
        createdAgo := Or(fields.createdAgo, fallback.createdAgo),
        updatedAgo := Or(fields.updatedAgo, fallback.updatedAgo),
        expiresIn := Or(fields.expiresIn, fallback.expiresIn));
      if fields.nameServers == [] {
        fields := fields.(nameServers := fallback.nameServers);
      }
      if fields.status == [] {
        fields := fields.(status := fallback.status);
      }
    }

    method CalculateAgeFields(dates: Dates)
      modifies this
      ensures fields == WithAges(dates, old(fields))
    {
      fields := fields.(createdAgo := AndThen(fields.creationDate, dates.since));
      fields := fields.(updatedAgo := AndThen(fields.updatedDate, dates.since));
      fields := fields.(expiresIn := AndThen(fields.expirationDate, dates.until));
    }
  }
}
