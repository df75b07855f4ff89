// Lines that belong to the fields of a record, for any kind of fields.
module LineOwners {
  import opened Wrappers
  import opened Entries

  // The field each line belongs to, if any.
  type Owners<F> = seq<Option<F>>

  ghost predicate Source<F>(es: seq<Entry>, owners: Owners<F>, f: F, i: int) {
    0 <= i < |es| && i < |owners| && owners[i] == Some(f)
  }

  // The field holds the value of a line it owns, and is empty only if it owns none.
  ghost predicate ScalarFrom<F>(field: Option<string>, es: seq<Entry>, owners: Owners<F>, f: F) {
    && (field.None? ==> forall i :: !Source(es, owners, f, i))
    && (field.Some? ==> exists i :: Source(es, owners, f, i) && es[i].value == field.value)
  }

  // The list holds exactly the images of the lines it owns.
  ghost predicate ListFrom<F>(field: seq<string>, es: seq<Entry>, owners: Owners<F>, f: F, image: Entry -> string) {
    forall v :: v in field <==> exists i :: Source(es, owners, f, i) && image(es[i]) == v
  }

  // What a further line adds to a scalar: its value, if the field owns it; then it was empty.
  ghost predicate Gains<F>(field: Option<string>, next: Option<string>, f: F, o: Option<F>, e: Entry) {
    next == (if o == Some(f) then Some(e.value) else field) && (o == Some(f) ==> field.None?)
  }

  lemma SourceStays<F>(es: seq<Entry>, owners: Owners<F>, f: F, e: Entry, o: Option<F>, i: int)
    requires |owners| == |es|
    ensures i < |es| ==> (Source(es + [e], owners + [o], f, i) <==> Source(es, owners, f, i))
    ensures Source(es + [e], owners + [o], f, |es|) <==> o == Some(f)
  {
  }

  lemma ScalarStep<F>(field: Option<string>, next: Option<string>, es: seq<Entry>, owners: Owners<F>, f: F, e: Entry, o: Option<F>)
    requires |owners| == |es| && ScalarFrom(field, es, owners, f) && Gains(field, next, f, o, e)
    ensures ScalarFrom(next, es + [e], owners + [o], f)
  {
    var fs, os := es + [e], owners + [o];
    forall i ensures i < |es| ==> (Source(fs, os, f, i) <==> Source(es, owners, f, i)) {
      SourceStays(es, owners, f, e, o, i);
    }
    SourceStays(es, owners, f, e, o, |es|);
    if o == Some(f) {
      assert Source(fs, os, f, |es|) && fs[|es|].value == e.value;
    } else if field.Some? {
      var i :| Source(es, owners, f, i) && es[i].value == field.value;
      assert Source(fs, os, f, i) && fs[i].value == field.value;
    }
  }

  lemma ListStep<F>(field: seq<string>, next: seq<string>, es: seq<Entry>, owners: Owners<F>, f: F, image: Entry -> string,
                    e: Entry, o: Option<F>)
    requires |owners| == |es| && ListFrom(field, es, owners, f, image)
    requires next == if o == Some(f) && image(e) !in field then field + [image(e)] else field
    ensures ListFrom(next, es + [e], owners + [o], f, image)
  {
    var fs, os := es + [e], owners + [o];
    forall i ensures i < |es| ==> (Source(fs, os, f, i) <==> Source(es, owners, f, i)) {
      SourceStays(es, owners, f, e, o, i);
    }
    SourceStays(es, owners, f, e, o, |es|);
    assert o == Some(f) ==> Source(fs, os, f, |es|) && image(fs[|es|]) == image(e);
    forall v | v in field ensures exists i :: Source(fs, os, f, i) && image(fs[i]) == v {
      var i :| Source(es, owners, f, i) && image(es[i]) == v;
      assert Source(fs, os, f, i) && fs[i] == es[i];
    }
  }
}
