// The two probes of src/rdap.rs against label-wise longest match.
module BootstrapMatch {
  import opened Wrappers
  import opened Text
  import opened Bootstrap

  ghost predicate Listed(reg: Registry, key: string) {
    exists s :: s in reg && key in s.tlds
  }

  lemma {:induction false} ServedIsListed(reg: Registry, key: string)
    ensures ServerFor(reg, key).Some? ==> Listed(reg, key)
  {
    if reg != [] {
      assert reg[0] in reg && reg == [reg[0]] + reg[1..];
      ServedIsListed(reg[1..], key);
    }
  }

  // A key is answered by the first service that lists it, with that service's first server.
  lemma {:induction false} ServerForExactly(reg: Registry, key: string) returns (i: nat)
    ensures i <= |reg| && forall j :: 0 <= j < i ==> key !in reg[j].tlds
    ensures i < |reg| ==> key in reg[i].tlds
    ensures ServerFor(reg, key) == if i < |reg| && reg[i].servers != [] then Some(reg[i].servers[0]) else None
  {
    i := 0;
    if reg != [] && key !in reg[0].tlds {
      var k := ServerForExactly(reg[1..], key);
      i := k + 1;
      assert forall j :: 1 <= j < |reg| ==> reg[j] == reg[1..][j - 1];
    }
  }

  // Label-wise longest match (section 4 of RFC 9224): drop leading labels until one is listed.
  ghost function LongestKey(reg: Registry, tld: string): Option<string>
    decreases |tld|
  {
    if Listed(reg, tld) then Some(tld)
    else
      var i := IndexOf(tld, '.');
      if i < |tld| then LongestKey(reg, tld[i + 1..]) else None
  }

  // The server of the longest match, if its service has one.
  ghost function LongestServer(reg: Registry, tld: string): Option<string> {
    var key := LongestKey(reg, tld);
    if key.Some? then ServerFor(reg, key.value) else None
  }

  // A listed suffix strictly between the whole name and its last label.
  ghost predicate MiddleListed(reg: Registry, tld: string)
    decreases |tld|
  {
    var i := IndexOf(tld, '.');
    i < |tld| && var rest := tld[i + 1..]; '.' in rest && (Listed(reg, rest) || MiddleListed(reg, rest))
  }

  // The key whose server the two probes return, by the code's own test.
  ghost function MatchKey(reg: Registry, tld: string): Option<string> {
    if ServerFor(reg, tld).Some? then Some(tld)
    else if ServerFor(reg, LastLabel(tld)).Some? then Some(LastLabel(tld))
    else None
  }

  lemma {:induction false} LongestKeyShape(reg: Registry, tld: string)
    ensures MiddleListed(reg, tld) && !Listed(reg, tld) ==> LongestKey(reg, tld).Some? && '.' in LongestKey(reg, tld).value
    ensures !MiddleListed(reg, tld) && !Listed(reg, tld) ==>
              LongestKey(reg, tld) == if Listed(reg, LastLabel(tld)) then Some(LastLabel(tld)) else None
    ensures '.' !in LastLabel(tld)
    decreases |tld|
  {
    var i := IndexOf(tld, '.');
    IndexOfIsFirst(tld, '.');
    if i < |tld| {
      var rest := tld[i + 1..];
      IndexOfIsFirst(rest, '.');
      LongestKeyShape(reg, rest);
    }
  }

  // A listed name without a server is not given another by its last label; and if a suffix in
  // the middle is listed, its server is also the last label's.
  ghost predicate ProbesSuffice(reg: Registry, tld: string) {
    var last := LastLabel(tld);
    if Listed(reg, tld) then ServerFor(reg, tld).Some? || last == tld || ServerFor(reg, last).None?
    else MiddleListed(reg, tld) ==> ServerFor(reg, last) == LongestServer(reg, tld)
  }

  // The code answers as the longest match exactly then, for every registry.
  lemma ProbesFindLongestExactly(reg: Registry, tld: string)
    ensures Match(reg, tld) == LongestServer(reg, tld) <==> ProbesSuffice(reg, tld)
  {
    LongestKeyShape(reg, tld);
    ServedIsListed(reg, tld);
    ServedIsListed(reg, LastLabel(tld));
    LastLabelOfDotted(tld);
  }

  // Every probed key that is listed is also served: what an empty list of servers breaks.
  ghost predicate ProbesServed(reg: Registry, tld: string) {
    if Listed(reg, tld) then ServerFor(reg, tld).Some?
    else Listed(reg, LastLabel(tld)) ==> ServerFor(reg, LastLabel(tld)).Some?
  }

  // Whoever the server is, it is found at the longest listed key exactly when the probed keys
  // are served where they are listed, and no longer one lies strictly between them.
  lemma ProbesHitLongestKeyExactly(reg: Registry, tld: string)
    ensures MatchKey(reg, tld) == LongestKey(reg, tld) <==>
            ProbesServed(reg, tld) && (Listed(reg, tld) || !MiddleListed(reg, tld))
    ensures Match(reg, tld) == if MatchKey(reg, tld).Some? then ServerFor(reg, MatchKey(reg, tld).value) else None
  {
    LongestKeyShape(reg, tld);
    ServedIsListed(reg, tld);
    ServedIsListed(reg, LastLabel(tld));
  }

  lemma LastLabelOfDotted(tld: string)
    ensures '.' in tld ==> LastLabel(tld) != tld
  {
    LongestKeyShape([], tld);
  }

  lemma {:induction false} SingleLabelsHaveNoMiddle(reg: Registry, tld: string)
    requires forall s, k :: s in reg && k in s.tlds ==> '.' !in k
    ensures !MiddleListed(reg, tld)
    decreases |tld|
  {
    var i := IndexOf(tld, '.');
    if i < |tld| {
      SingleLabelsHaveNoMiddle(reg, tld[i + 1..]);
    }
  }

  // A registry of single labels in which no list of servers is empty: always the longest match.
  lemma MatchIsLongest(reg: Registry, tld: string)
    requires forall s :: s in reg ==> s.servers != []
    requires forall s, k :: s in reg && k in s.tlds ==> '.' !in k
    ensures Match(reg, tld) == LongestServer(reg, tld)
  {
    ServedWhereListed(reg, tld);
    ProbesFindLongestExactly(reg, tld);
    SingleLabelsHaveNoMiddle(reg, tld);
  }

  lemma {:induction false} ServedWhereListed(reg: Registry, key: string)
    requires forall s :: s in reg ==> s.servers != []
    ensures Listed(reg, key) ==> ServerFor(reg, key).Some?
  {
    if reg != [] {
      assert reg[0] in reg && reg == [reg[0]] + reg[1..];
      ServedWhereListed(reg[1..], key);
    }
  }

  // Both ways to miss it: a listed suffix in the middle is not probed, and a listed name
  // without servers falls back to its last label.
  lemma MiddleIsMissed()
    ensures var reg := [Service(["co.uk"], ["c"]), Service(["uk"], ["u"])];
            Match(reg, "a.co.uk") == Some("u") && LongestServer(reg, "a.co.uk") == Some("c")
  {
    LabelsOfExample();
    TwoServices("co.uk", ["c"], "uk", ["u"], "a.co.uk");
    TwoServices("co.uk", ["c"], "uk", ["u"], "co.uk");
    TwoServices("co.uk", ["c"], "uk", ["u"], "uk");
  }

  lemma EmptyListFallsBack()
    ensures var reg := [Service(["co.uk"], []), Service(["uk"], ["u"])];
            Match(reg, "co.uk") == Some("u") && LongestKey(reg, "co.uk") == Some("co.uk") && LongestServer(reg, "co.uk") == None
  {
    LabelsOfExample();
    TwoServices("co.uk", [], "uk", ["u"], "co.uk");
    TwoServices("co.uk", [], "uk", ["u"], "uk");
  }

  function First(servers: seq<string>): Option<string> {
    if servers == [] then None else Some(servers[0])
  }

  lemma TwoServices(x: string, xs: seq<string>, y: string, ys: seq<string>, key: string)
    ensures var reg := [Service([x], xs), Service([y], ys)];
            && (Listed(reg, key) <==> key == x || key == y)
            && ServerFor(reg, key) == if key == x then First(xs) else if key == y then First(ys) else None
  {
    var reg := [Service([x], xs), Service([y], ys)];
    assert reg[0] in reg && reg[1] in reg;
    assert reg[1..] == [reg[1]] && [reg[1]][1..] == [];
    assert ServerFor([reg[1]], key) == if key == y then First(ys) else None;
  }

  lemma LabelsOfExample()
    ensures LastLabel("a.co.uk") == "uk" && LastLabel("co.uk") == "uk"
    ensures IndexOf("a.co.uk", '.') == 1 && "a.co.uk"[2..] == "co.uk"
  {
    FirstUnique("a.co.uk", 1, '.');
    FirstUnique("co.uk", 2, '.');
    IndexOfIsFirst("uk", '.');
    assert "a.co.uk"[2..] == "co.uk" && "co.uk"[3..] == "uk";
  }
}
