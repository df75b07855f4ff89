// Key/value lines and the one-arm passes over them that the parser laws are stated with.
module Entries {
  import opened Wrappers
  import opened Text

  // A line that survived the noise filter: lower-cased trimmed key, trimmed non-empty value.
  datatype Entry = Entry(key: string, value: string)

  // What a line contributes; None for comment, blank, colon-less and empty-value lines.
  function EntryOf(raw: string, comments: seq<string>): Option<Entry> {
    var line := Trim(raw);
    if line == "" || exists c | c in comments :: StartsWith(line, c) then None
    else
      match SplitOnce(line, ':')
      case None => None
      case Some((k, v)) => if Trim(v) == "" then None else Some(Entry(Lower(Trim(k)), Trim(v)))
  }

  function EntriesOf(lines: seq<string>, comments: seq<string>): seq<Entry> {
    if lines == [] then []
    else
      var last := EntryOf(lines[|lines| - 1], comments);
      EntriesOf(lines[..|lines| - 1], comments) + if last.Some? then [last.value] else []
  }

  lemma EntriesSnoc(lines: seq<string>, i: nat, comments: seq<string>)
    requires i < |lines|
    ensures var e, before := EntryOf(lines[i], comments), EntriesOf(lines[..i], comments);
            EntriesOf(lines[..i + 1], comments) == if e.Some? then before + [e.value] else before
  {
    assert lines[..i + 1][..i] == lines[..i];
  }

  lemma {:induction false} EntriesConcat(a: seq<string>, b: seq<string>, comments: seq<string>)
    ensures EntriesOf(a + b, comments) == EntriesOf(a, comments) + EntriesOf(b, comments)
    decreases |b|
  {
    if b == [] {
      assert a + b == a;
    } else {
      var init := b[..|b| - 1];
      assert (a + b)[..|a + b| - 1] == a + init;
      EntriesConcat(a, init, comments);
    }
  }

  // A key and a value without surrounding white space.
  ghost predicate Plain(key: string, value: string, line: string) {
    && key != "" && !IsSpace(key[0]) && !IsSpace(key[|key| - 1]) && Lower(key) == key && ':' !in key && '\n' !in key
    && value != "" && !IsSpace(value[0]) && !IsSpace(value[|value| - 1]) && '\n' !in value
    && line == key + ":" + value
  }

  lemma PlainShape(key: string, value: string, line: string)
    requires Plain(key, value, line)
    ensures |line| == |key| + 1 + |value| && line[|key|] == ':' && line[..|key|] == key && line[|key| + 1..] == value
    ensures line[0] == key[0] && line[|line| - 1] == value[|value| - 1]
    ensures forall j :: 0 <= j < |key| ==> line[j] != ':'
    ensures '\n' !in line
  {
    assert forall j :: 0 <= j < |key| ==> line[j] == key[j];
    assert forall j :: |key| < j < |line| ==> line[j] == value[j - |key| - 1];
  }

  lemma PlainEntry(key: string, value: string, line: string, comments: seq<string>)
    requires Plain(key, value, line) && forall c :: c in comments ==> c != "" && c[0] != key[0]
    ensures EntryOf(line, comments) == Some(Entry(key, value))
  {
    PlainShape(key, value, line);
    TrimKeepsExactly(line);
    TrimKeepsExactly(key);
    TrimKeepsExactly(value);
    FirstUnique(line, |key|, ':');
  }

  lemma OneLine(line: string, text: string)
    requires '\n' !in line && (line == "" || line[|line| - 1] != '\r') && text == line + "\n"
    ensures Lines(text) == [line]
  {
    FirstLine(text, |line|, line, "");
  }

  // A plain line, on its own, is one entry.
  lemma PlainLine(key: string, value: string, text: string, comments: seq<string>)
    requires text == key + ":" + value + "\n" && Plain(key, value, key + ":" + value)
    requires forall c :: c in comments ==> c != "" && c[0] != key[0]
    ensures EntriesOf(Lines(text), comments) == [Entry(key, value)]
  {
    var line := key + ":" + value;
    PlainShape(key, value, line);
    OneLine(line, text);
    PlainEntry(key, value, line, comments);
    SingleEntry(line, comments);
  }

  lemma SingleEntry(line: string, comments: seq<string>)
    ensures EntriesOf([line], comments) == if EntryOf(line, comments).Some? then [EntryOf(line, comments).value] else []
  {
    EntriesSnoc([line], 0, comments);
    assert [line][..1] == [line] && [line][..0] == [];
  }

  // The line, trimmed, is k, a colon and v; k holds no other colon.
  ghost predicate Reads(raw: string, key: string, value: string, k: string, v: string) {
    Trim(raw) == k + ":" + v && ':' !in k && Trim(v) != "" && key == Lower(Trim(k)) && value == Trim(v)
  }

  lemma SplitUnique(line: string, k: string, v: string)
    requires line == k + ":" + v && ':' !in k
    ensures IndexOf(line, ':') == |k| && line[..|k|] == k && line[|k| + 1..] == v
  {
    assert forall j :: 0 <= j < |k| ==> line[j] == k[j];
    FirstUnique(line, |k|, ':');
  }

  // What a line contributes, in terms of its text.
  lemma EntryExactly(raw: string, comments: seq<string>, e: Entry)
    ensures EntryOf(raw, comments) == Some(e) <==>
            (forall c :: c in comments ==> !StartsWith(Trim(raw), c)) && exists k, v :: Reads(raw, e.key, e.value, k, v)
  {
    var line := Trim(raw);
    IndexOfIsFirst(line, ':');
    var i := IndexOf(line, ':');
    if i < |line| {
      assert line == line[..i] + ":" + line[i + 1..];
      if EntryOf(raw, comments) == Some(e) {
        assert Reads(raw, e.key, e.value, line[..i], line[i + 1..]);
      }
    }
    forall k, v | Reads(raw, e.key, e.value, k, v) ensures k == line[..i] && v == line[i + 1..] {
      SplitUnique(line, k, v);
    }
  }

  // Which lines are noise, stated on the trimmed line.
  predicate Noise(raw: string, comments: seq<string>) {
    var line := Trim(raw);
    || line == ""
    || (exists c | c in comments :: StartsWith(line, c))
    || ':' !in line
    || (IndexOf(line, ':') < |line| && Trim(line[IndexOf(line, ':') + 1..]) == "")
  }

  lemma NoiseGivesNothing(raw: string, comments: seq<string>)
    ensures EntryOf(raw, comments).None? <==> Noise(raw, comments)
  {
    IndexOfIsFirst(Trim(raw), ':');
  }

  // Noise lines can be inserted or removed anywhere.
  lemma NoiseIsIrrelevant(a: seq<string>, raw: string, b: seq<string>, comments: seq<string>)
    requires Noise(raw, comments)
    ensures EntriesOf(a + [raw] + b, comments) == EntriesOf(a + b, comments)
  {
    NoiseGivesNothing(raw, comments);
    var longer := a + [raw];
    assert longer[..|longer| - 1] == a;
    assert EntriesOf(longer, comments) == EntriesOf(a, comments);
    EntriesConcat(longer, b, comments);
    EntriesConcat(a, b, comments);
  }

  // Value of the first entry an arm accepts.
  function First(es: seq<Entry>, arm: Entry -> bool): Option<string> {
    if es == [] then None
    else if arm(es[0]) then Some(es[0].value)
    else First(es[1..], arm)
  }

  function WithoutFirst(es: seq<Entry>, arm: Entry -> bool): seq<Entry> {
    if es == [] then []
    else if arm(es[0]) then es[1..]
    else [es[0]] + WithoutFirst(es[1..], arm)
  }

  function Without(es: seq<Entry>, arm: Entry -> bool): seq<Entry> {
    if es == [] then []
    else if arm(es[0]) then Without(es[1..], arm)
    else [es[0]] + Without(es[1..], arm)
  }

  // Distinct images of the accepted entries, in order of first occurrence.
  function Distinct(es: seq<Entry>, arm: Entry -> bool, f: Entry -> string): seq<string> {
    if es == [] then []
    else
      var e, before := es[|es| - 1], Distinct(es[..|es| - 1], arm, f);
      if arm(e) && f(e) !in before then before + [f(e)] else before
  }

  // The entries left when each distinct accepted value is consumed at its first occurrence.
  function WithoutDistinct(es: seq<Entry>, arm: Entry -> bool, f: Entry -> string): seq<Entry> {
    if es == [] then []
    else
      var e, init := es[|es| - 1], es[..|es| - 1];
      if arm(e) && f(e) !in Distinct(init, arm, f) then WithoutDistinct(init, arm, f)
      else WithoutDistinct(init, arm, f) + [e]
  }

  lemma {:induction false} FirstSnoc(es: seq<Entry>, e: Entry, arm: Entry -> bool)
    ensures First(es + [e], arm) == if First(es, arm).None? && arm(e) then Some(e.value) else First(es, arm)
    ensures WithoutFirst(es + [e], arm) ==
            if First(es, arm).None? && arm(e) then WithoutFirst(es, arm) else WithoutFirst(es, arm) + [e]
  {
    if es != [] {
      FirstSnoc(es[1..], e, arm);
      assert (es + [e])[1..] == es[1..] + [e];
    }
  }

  lemma {:induction false} WithoutSnoc(es: seq<Entry>, e: Entry, arm: Entry -> bool)
    ensures Without(es + [e], arm) == if arm(e) then Without(es, arm) else Without(es, arm) + [e]
  {
    if es != [] {
      WithoutSnoc(es[1..], e, arm);
      assert (es + [e])[1..] == es[1..] + [e];
    }
  }

  // First is positional: the value sits at an accepted index before which nothing is accepted.
  lemma {:induction false} FirstIndex(es: seq<Entry>, arm: Entry -> bool) returns (i: nat)
    ensures First(es, arm).None? ==> i == |es|
    ensures First(es, arm).Some? ==> i < |es| && arm(es[i]) && First(es, arm).value == es[i].value
    ensures forall j :: 0 <= j < i ==> !arm(es[j])
  {
    if es == [] || arm(es[0]) {
      i := 0;
    } else {
      var k := FirstIndex(es[1..], arm);
      i := k + 1;
      assert forall j :: 1 <= j < i ==> es[j] == es[1..][j - 1];
    }
  }

  ghost predicate NoDuplicates(s: seq<string>) {
    forall i, j :: 0 <= i < j < |s| ==> s[i] != s[j]
  }

  // Distinct holds exactly the accepted images, each once.
  lemma {:induction false} DistinctIsSet(es: seq<Entry>, arm: Entry -> bool, f: Entry -> string)
    ensures NoDuplicates(Distinct(es, arm, f))
    ensures forall v :: v in Distinct(es, arm, f) <==> exists e :: e in es && arm(e) && f(e) == v
  {
    if es != [] {
      var init, last := es[..|es| - 1], es[|es| - 1];
      assert es == init + [last];
      DistinctIsSet(init, arm, f);
    }
  }
}
