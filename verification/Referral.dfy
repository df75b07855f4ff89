// src/whois.rs: reading server names out of WHOIS replies.
module Referral {
  import opened Wrappers
  import opened Text

  // A host that can be queried on port 43.
  predicate Clean(h: string) {
    h != "" && ':' !in h && '/' !in h && ' ' !in h
  }

  function Sanitize(value: string): Option<string> {
    if value == "" then None
    else
      var lower := Lower(value);
      if StartsWith(lower, "rwhois://") then None
      else
        var unschemed := if StartsWith(lower, "whois://") then value[8..] else value;
        var host := StripSuffix(StripSuffix(unschemed, "/"), ":43");
        if Clean(host) then Some(host) else None
  }

  // The spellings of a host: bare or with the whois scheme in any casing, optionally
  // followed by the standard port, optionally followed by a slash.
  predicate Spells(value: string, host: string) {
    || Suffixed(value, host)
    || (8 <= |value| && Lower(value[..8]) == "whois://" && Suffixed(value[8..], host))
  }

  predicate Suffixed(value: string, host: string) {
    value == host || value == host + ":43" || value == host + "/" || value == host + ":43/"
  }

  lemma StripAdded(t: string, suffix: string)
    ensures StripSuffix(t + suffix, suffix) == t
  {
  }

  lemma StripInverse(s: string, suffix: string)
    ensures StripSuffix(s, suffix) == s || s == StripSuffix(s, suffix) + suffix
  {
  }

  lemma StripLeavesTraces(s: string, suffix: string)
    requires suffix != "" && EndsWith(s, suffix)
    ensures s[|s| - 1] == suffix[|suffix| - 1] && suffix[0] in s
  {
    assert suffix[|suffix| - 1] == s[|s| - |suffix|..][|suffix| - 1];
    assert suffix[0] == s[|s| - |suffix|..][0] == s[|s| - |suffix|];
  }

  lemma StripAbsent(s: string, suffix: string)
    requires s != "" && suffix != "" && (s[|s| - 1] != suffix[|suffix| - 1] || suffix[0] !in s)
    ensures StripSuffix(s, suffix) == s
  {
    if EndsWith(s, suffix) {
      StripLeavesTraces(s, suffix);
    }
  }

  lemma StripsToHost(value: string, host: string)
    requires Clean(host)
    ensures StripSuffix(StripSuffix(value, "/"), ":43") == host <==> Suffixed(value, host)
  {
    var s := StripSuffix(value, "/");
    StripInverse(value, "/");
    StripInverse(s, ":43");
    assert host + ":43" + "/" == host + ":43/";
    StripAdded(host, "/");
    StripAdded(host, ":43");
    StripAdded(host + ":43", "/");
    StripAbsent(host, "/");
    StripAbsent(host, ":43");
    StripAbsent(host + ":43", "/");
  }

  // A clean host leaves no room for a scheme: its only possible ':' starts the port.
  lemma SpelledBareHasNoScheme(value: string, host: string)
    requires Clean(host) && Suffixed(value, host)
    ensures !StartsWith(Lower(value), "whois://") && !StartsWith(Lower(value), "rwhois://")
  {
    assert forall i :: 0 <= i < |host| ==> value[i] == host[i];
    SchemeShape(value);
    NoSchemeAt(value, 5);
    NoSchemeAt(value, 6);
  }

  lemma SchemeShape(value: string)
    ensures StartsWith(Lower(value), "whois://") ==> |value| > 6 && Lower(value)[5] == ':' && Lower(value)[6] == '/'
    ensures StartsWith(Lower(value), "rwhois://") ==> |value| > 7 && Lower(value)[6] == ':' && Lower(value)[7] == '/'
    ensures StartsWith(Lower(value), "whois://") ==> !StartsWith(Lower(value), "rwhois://")
  {
    var lower := Lower(value);
    if StartsWith(lower, "whois://") { assert lower[0] == 'w' && lower[5] == ':' && lower[6] == '/'; }
    if StartsWith(lower, "rwhois://") { assert lower[0] == 'r' && lower[6] == ':' && lower[7] == '/'; }
  }

  lemma NoSchemeAt(value: string, i: nat)
    requires i + 1 < |value| ==> value[i] == ':' ==> value[i + 1] == '4'
    ensures i + 1 < |value| ==> !(Lower(value)[i] == ':' && Lower(value)[i + 1] == '/')
  {
  }

  // Exactly the spellings of a clean host normalise to it, and to nothing else.
  lemma SanitizeExactly(value: string, host: string)
    ensures Sanitize(value) == Some(host) <==> Clean(host) && Spells(value, host)
  {
    var lower := Lower(value);
    if Clean(host) {
      StripsToHost(value, host);
      if Suffixed(value, host) {
        SpelledBareHasNoScheme(value, host);
      }
      if 8 <= |value| {
        StripsToHost(value[8..], host);
        assert lower[..8] == Lower(value[..8]);
      }
      assert StartsWith(lower, "whois://") <==> 8 <= |value| && Lower(value[..8]) == "whois://";
      SchemeShape(value);
    }
  }

  lemma SanitizeIdempotent(value: string)
    requires Sanitize(value).Some?
    ensures var host := Sanitize(value).value; host != "" && ':' !in host && '/' !in host && ' ' !in host
    ensures Sanitize(Sanitize(value).value) == Sanitize(value)
  {
    var host := Sanitize(value).value;
    SanitizeExactly(host, host);
  }

  predicate IsReferralKey(key: string) {
    (Contains(key, "whois") && Contains(key, "server")) || key == "refer" || key == "referralserver"
  }

  function ReferralInLine(raw: string): Option<string> {
    match SplitOnce(Trim(raw), ':')
    case None => None
    case Some((k, v)) => if IsReferralKey(Lower(Trim(k))) then Sanitize(Trim(v)) else None
  }

  function FirstReferral(lines: seq<string>): Option<string> {
    if lines == [] then None
    else
      var r := ReferralInLine(lines[0]);
      if r.Some? then r else FirstReferral(lines[1..])
  }

  // extract_whois_server: an unusable referral does not hide a later usable one.
  function ExtractWhoisServer(data: string): Option<string> {
    FirstReferral(Lines(data))
  }

  // The referral taken is the first usable one, and it is a clean host.
  lemma {:induction false} FirstReferralIsFirst(lines: seq<string>) returns (i: nat)
    ensures FirstReferral(lines).None? ==> forall l :: l in lines ==> ReferralInLine(l).None?
    ensures FirstReferral(lines).Some? ==>
            && i < |lines| && ReferralInLine(lines[i]) == FirstReferral(lines)
            && (forall j :: 0 <= j < i ==> ReferralInLine(lines[j]).None?)
            && Clean(FirstReferral(lines).value)
  {
    i := 0;
    if lines != [] && ReferralInLine(lines[0]).None? {
      assert lines == [lines[0]] + lines[1..];
      var k := FirstReferralIsFirst(lines[1..]);
      i := k + 1;
      assert forall j :: 1 <= j < |lines| ==> lines[j] == lines[1..][j - 1];
    }
  }

  // A referral line, in terms of its text: what stands before the first colon names it, what
  // stands after it spells the host.
  ghost predicate Refers(raw: string, host: string, k: string, v: string) {
    && Trim(raw) == k + ":" + v && ':' !in k && Sanitize(Trim(v)) == Some(host)
    && var key := Lower(Trim(k));
       (Contains(key, "whois") && Contains(key, "server")) || key == "refer" || key == "referralserver"
  }

  lemma ReferralInLineExactly(raw: string, host: string)
    ensures ReferralInLine(raw) == Some(host) <==> exists k, v :: Refers(raw, host, k, v)
  {
    var line := Trim(raw);
    IndexOfIsFirst(line, ':');
    var i := IndexOf(line, ':');
    if i < |line| {
      assert line == line[..i] + ":" + line[i + 1..];
      if ReferralInLine(raw) == Some(host) {
        assert Refers(raw, host, line[..i], line[i + 1..]);
      }
    }
    forall k, v | Refers(raw, host, k, v) ensures k == line[..i] && v == line[i + 1..] {
      FirstColon(line, k, v);
    }
  }

  lemma FirstColon(line: string, k: string, rest: string)
    requires line == k + ":" + rest && ':' !in k
    ensures IndexOf(line, ':') == |k| && line[..|k|] == k && line[|k| + 1..] == rest
  {
    assert forall j :: 0 <= j < |k| ==> line[j] == k[j];
    FirstUnique(line, |k|, ':');
  }

  // parse_root_server_response: the first direct line, else any referral line.
  function ParseRootResponse(response: string): Option<string> {
    var direct := FirstServerLine(Lines(response));
    if direct.Some? then direct else ExtractWhoisServer(response)
  }

  function FirstServerLine(lines: seq<string>): Option<string> {
    if lines == [] then None
    else
      var s := ServerInLine(Trim(lines[0]));
      if s.Some? then s else FirstServerLine(lines[1..])
  }

  function ServerInLine(line: string): Option<string> {
    var lower := Lower(line);
    if StartsWith(lower, "whois:") || StartsWith(lower, "refer:") || Contains(lower, "whois server:")
    then AfterColon(line) else None
  }

  // line.split(':').nth(1), trimmed, empty rejected
  function AfterColon(line: string): Option<string> {
    match SplitOnce(line, ':')
    case None => None
    case Some((_, rest)) =>
      var server := Trim(rest[..IndexOf(rest, ':')]);
      if server == "" then None else Some(server)
  }

  // The text between the first colon and the next, trimmed.
  ghost predicate Between(line: string, server: string, k: string, v: string, rest: string) {
    && line == k + ":" + (v + rest) && ':' !in k && ':' !in v && (rest == "" || rest[0] == ':')
    && server == Trim(v) != ""
  }

  lemma AfterColonOf(line: string, server: string, k: string, v: string, rest: string)
    requires Between(line, server, k, v, rest)
    ensures AfterColon(line) == Some(server)
  {
    FirstColon(line, k, v + rest);
    SecondColon(v + rest, v, rest);
  }

  // Up to the first colon, and from it.
  lemma Cut(s: string) returns (before: string, after: string)
    ensures s == before + after && ':' !in before && before == s[..IndexOf(s, ':')] && after == s[IndexOf(s, ':')..]
    ensures after == "" || after[0] == ':'
    ensures after != "" <==> IndexOf(s, ':') < |s|
  {
    IndexOfIsFirst(s, ':');
    before, after := s[..IndexOf(s, ':')], s[IndexOf(s, ':')..];
  }

  lemma BetweenExists(line: string) returns (k: string, v: string, rest: string)
    requires AfterColon(line).Some?
    ensures Between(line, AfterColon(line).value, k, v, rest)
  {
    var tail;
    k, tail := Cut(line);
    v, rest := Cut(tail[1..]);
    assert tail == ":" + tail[1..] && tail[1..] == line[IndexOf(line, ':') + 1..];
    assert line == k + ":" + (v + rest);
  }

  lemma AfterColonExactly(line: string, server: string)
    ensures AfterColon(line) == Some(server) <==> exists k, v, rest :: Between(line, server, k, v, rest)
  {
    if AfterColon(line) == Some(server) {
      var k, v, rest := BetweenExists(line);
    }
    forall k, v, rest | Between(line, server, k, v, rest) ensures AfterColon(line) == Some(server) {
      AfterColonOf(line, server, k, v, rest);
    }
  }

  // A direct line of the root's reply has one of three forms.
  lemma ServerInLineExactly(line: string, server: string)
    ensures ServerInLine(line) == Some(server) <==>
            && ("whois:" <= Lower(line) || "refer:" <= Lower(line) || Contains(Lower(line), "whois server:"))
            && exists k, v, rest :: Between(line, server, k, v, rest)
  {
    AfterColonExactly(line, server);
  }

  lemma SecondColon(tail: string, v: string, rest: string)
    requires tail == v + rest && ':' !in v && (rest == "" || rest[0] == ':')
    ensures IndexOf(tail, ':') == |v| && tail[..|v|] == v
  {
    assert forall j :: 0 <= j < |v| ==> tail[j] == v[j];
    if rest != "" {
      FirstUnique(tail, |v|, ':');
    } else {
      IndexOfIsFirst(tail, ':');
    }
  }

  // The first direct line decides; without one, the first usable referral.
  lemma {:induction false} FirstServerLineIsFirst(lines: seq<string>) returns (i: nat)
    ensures FirstServerLine(lines).None? ==> forall l :: l in lines ==> ServerInLine(Trim(l)).None?
    ensures FirstServerLine(lines).Some? ==>
            && i < |lines| && ServerInLine(Trim(lines[i])) == FirstServerLine(lines)
            && forall j :: 0 <= j < i ==> ServerInLine(Trim(lines[j])).None?
  {
    i := 0;
    if lines != [] && ServerInLine(Trim(lines[0])).None? {
      assert lines == [lines[0]] + lines[1..];
      var k := FirstServerLineIsFirst(lines[1..]);
      i := k + 1;
      assert forall j :: 1 <= j < |lines| ==> lines[j] == lines[1..][j - 1];
    }
  }

  lemma RootResponseIsFirst(response: string) returns (i: nat)
    ensures var lines, server := Lines(response), ParseRootResponse(response);
            || (&& i < |lines| && server.Some? && ServerInLine(Trim(lines[i])) == server
                && forall j :: 0 <= j < i ==> ServerInLine(Trim(lines[j])).None?)
            || ((forall l :: l in lines ==> ServerInLine(Trim(l)).None?) && server == ExtractWhoisServer(response))
  {
    i := FirstServerLineIsFirst(Lines(response));
  }

  function Patterns(tld: string): seq<string> {
    ["whois.nic." + tld] +
    if |tld| == 2 then ["whois." + tld, "whois.domain." + tld, "whois.registry." + tld, "whois.dns." + tld]
    else ["whois." + tld, "whois.registry." + tld]
  }
}
