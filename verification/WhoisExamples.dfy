// Replies that lead a domain lookup to a record whose status is NotFound.
module WhoisExamples {
  import opened Wrappers
  import opened Text
  import opened Records
  import opened Entries
  import opened Parser
  import opened Network
  import opened Referral
  import opened Walk
  import opened Whois

  const REGISTRY_REPLY := "registrar:R\nwhois server:h\n"
  const REGISTRAR_REPLY := "no match"

  // The registry answers with one text, every other server with another.
  function ThinWorld(registry: string, registrar: string): World {
    World((log: History, e: Event) => Success(if e.server == "r" then registry else registrar), (log, server) => true)
  }

  lemma Lacks(s: string, part: string, i: nat)
    requires i < |part| && part[i] !in s
    ensures !Contains(s, part)
  {
    if Contains(s, part) {
      ContainsChars(s, part);
    }
  }

  // What keeps a key out of the arms around the registrar's.
  predicate RegistrarLetters(key: string) {
    && 'x' !in key && 'c' !in key && 'u' !in key && 'm' !in key && 'l' !in key
    && 'w' !in key && 'b' !in key && 'o' !in key && 'd' !in key
  }

  lemma RegistrarKey(key: string)
    requires RegistrarLetters(key)
    ensures !Contains(key, "expir") && !Contains(key, "expires") && !Contains(key, "creation") && !Contains(key, "created")
    ensures !Contains(key, "updated") && !Contains(key, "modified") && !Contains(key, "last updated") && key != "registered"
    ensures !Contains(key, "whois") && !Contains(key, "url") && !Contains(key, "abuse") && !Contains(key, "registration")
  {
    Lacks(key, "expir", 1);
    Lacks(key, "expires", 1);
    Lacks(key, "creation", 0);
    Lacks(key, "created", 0);
    Lacks(key, "updated", 0);
    Lacks(key, "modified", 0);
    Lacks(key, "last updated", 0);
    Lacks(key, "whois", 0);
    Lacks(key, "url", 0);
    Lacks(key, "abuse", 1);
    Lacks(key, "registration", 10);
    assert |key| > 9 ==> key[9] in key;
  }

  lemma RegistrarEntry(e: Entry)
    requires RegistrarLetters(e.key) && Contains(e.key, "registrar")
    ensures Scan(DOMAIN_ARMS, [e]).registrar == Some(e.value)
  {
    RegistrarKey(e.key);
    assert [e][..0] == [];
  }

  lemma TwoLines(a: string, b: string, text: string)
    requires '\n' !in a && '\n' !in b && a != "" && b != "" && a[|a| - 1] != '\r' && b[|b| - 1] != '\r'
    requires text == (a + "\n") + (b + "\n")
    ensures Lines(text) == [a] + [b]
  {
    OneLine(a, a + "\n");
    OneLine(b, b + "\n");
    LinesConcat(a + "\n", b + "\n");
  }

  lemma FirstLineRecord(e: Entry, line: string, more: string)
    requires RegistrarLetters(e.key) && Contains(e.key, "registrar") && EntryOf(line, COMMENTS) == Some(e)
    ensures Scan(DOMAIN_ARMS, EntriesOf([line] + [more], COMMENTS)).registrar.Some?
  {
    SingleEntry(line, COMMENTS);
    EntriesConcat([line], [more], COMMENTS);
    RegistrarEntry(e);
    ScanExtends(DOMAIN_ARMS, [e], EntriesOf([more], COMMENTS));
  }

  lemma PlainReferral(key: string, value: string, line: string)
    requires Plain(key, value, line)
    ensures ReferralInLine(line) == if IsReferralKey(key) then Sanitize(value) else None
  {
    PlainShape(key, value, line);
    TrimKeepsExactly(line);
    TrimKeepsExactly(key);
    TrimKeepsExactly(value);
    FirstUnique(line, |key|, ':');
  }

  // The two lines of the registry's reply.
  ghost predicate ReplyLines(first: string, second: string, text: string) {
    first == "registrar:R" && second == "whois server:h" && text == (first + "\n") + (second + "\n")
  }

  lemma RegistrarLine(key: string, value: string, line: string)
    requires key == "registrar" && value == "R" && line == key + ":" + value
    ensures EntryOf(line, COMMENTS) == Some(Entry(key, value))
    ensures ReferralInLine(line) == if IsReferralKey(key) then Sanitize(value) else None
  {
    PlainEntry(key, value, line, COMMENTS);
    PlainReferral(key, value, line);
  }

  lemma RegistrarKeyFacts(key: string)
    requires key == "registrar"
    ensures RegistrarLetters(key) && Contains(key, "registrar") && !IsReferralKey(key)
  {
    RegistrarKey(key);
  }

  lemma FirstSays(line: string) returns (e: Entry)
    requires line == "registrar:R"
    ensures EntryOf(line, COMMENTS) == Some(e) && RegistrarLetters(e.key) && Contains(e.key, "registrar")
    ensures ReferralInLine(line) == None
  {
    e := Entry(line[..9], line[10..]);
    assert line == e.key + ":" + e.value;
    RegistrarLine(e.key, e.value, line);
    RegistrarKeyFacts(e.key);
  }

  lemma RegistryHasRecord(dates: Dates, first: string, second: string, text: string)
    requires ReplyLines(first, second, text)
    ensures HasRecordData(Parse(dates, text))
  {
    TwoLines(first, second, text);
    var e := FirstSays(first);
    FirstLineRecord(e, first, second);
  }

  lemma WhoisServerLine(key: string, value: string, line: string)
    requires key == "whois server" && value == "h" && line == key + ":" + value
    ensures ReferralInLine(line) == Some(value)
  {
    PlainReferral(key, value, line);
    WhoisServerKey(key);
    SanitizeExactly(value, value);
  }

  lemma SecondSays(line: string)
    requires line == "whois server:h"
    ensures ReferralInLine(line) == Some("h")
  {
    assert line == line[..12] + ":" + line[13..];
    WhoisServerLine(line[..12], line[13..], line);
  }

  lemma WhoisServerKey(key: string)
    requires key == "whois server"
    ensures IsReferralKey(key)
  {
    ContainsAt(key, 0, "whois");
    ContainsAt(key, 6, "server");
  }

  lemma SecondRefers(a: string, b: string)
    requires ReferralInLine(a) == None
    ensures FirstReferral([a] + [b]) == ReferralInLine(b)
  {
    var lines := [a] + [b];
    assert lines[0] == a && lines[1..] == [b] && [b][1..] == [];
    assert FirstReferral([]) == None;
    assert FirstReferral([b]) == ReferralInLine(b);
  }

  lemma RegistryRefers(first: string, second: string, text: string)
    requires ReplyLines(first, second, text)
    ensures ExtractWhoisServer(text) == Some("h")
  {
    TwoLines(first, second, text);
    var _ := FirstSays(first);
    SecondSays(second);
    SecondRefers(first, second);
  }

  // One line without a colon: no entries, no referral.
  lemma BareLine(line: string)
    requires line != "" && '\n' !in line && ':' !in line && !IsSpace(line[0]) && !IsSpace(line[|line| - 1])
    ensures Lines(line) == [line] && EntryOf(line, COMMENTS) == None && ReferralInLine(line) == None
  {
    IndexOfIsFirst(line, '\n');
    TrimKeepsExactly(line);
    NoiseGivesNothing(line, COMMENTS);
    IndexOfIsFirst(line, ':');
  }

  lemma BareText(line: string)
    requires Lines(line) == [line] && EntryOf(line, COMMENTS) == None && ReferralInLine(line) == None
    ensures Fields(line) == EMPTY && ExtractWhoisServer(line) == None
  {
    SingleEntry(line, COMMENTS);
    assert [line][1..] == [];
    assert FirstReferral([]) == None;
  }

  lemma NotThrottled(s: string)
    requires 'r' !in s && 'q' !in s && 'e' !in s && 'l' !in s && 'u' !in s && 'x' !in s && 'w' !in s && 'y' !in s
    ensures !ContainsAny(s, RATE_LIMIT_PATTERNS)
  {
    Lacks(s, "rate limit", 0);
    Lacks(s, "ratelimit", 0);
    Lacks(s, "quota exceeded", 0);
    Lacks(s, "exceeded your quota", 0);
    Lacks(s, "lookup quota", 0);
    Lacks(s, "number of allowed queries exceeded", 1);
    Lacks(s, "exceeded the maximum", 0);
    Lacks(s, "maximum number of queries", 2);
    Lacks(s, "whois limit exceeded", 0);
    Lacks(s, "too many requests", 7);
    Lacks(s, "excessive quer", 0);
    Lacks(s, "request limit reached", 0);
    Lacks(s, "access denied", 3);
    Lacks(s, "connection limit", 4);
  }

  lemma ReadsNotFound(dates: Dates, raw: string)
    requires Fields(raw) == EMPTY && Lower(raw) == raw && Contains(raw, "no match") && !ContainsAny(raw, RATE_LIMIT_PATTERNS)
    ensures Read(dates, raw).status == NotFound
  {
    assert "no match" in NOT_FOUND_PATTERNS;
  }

  lemma RegistrarFindsNothing(dates: Dates, line: string)
    requires line == REGISTRAR_REPLY
    ensures Read(dates, line).status == NotFound && ExtractWhoisServer(line) == None
  {
    NoMatchShape(line);
    BareLine(line);
    BareText(line);
    NotThrottled(line);
    ReadsNotFound(dates, line);
  }

  lemma NoMatchShape(line: string)
    requires line == REGISTRAR_REPLY
    ensures line != "" && '\n' !in line && ':' !in line && !IsSpace(line[0]) && !IsSpace(line[|line| - 1])
    ensures Lower(line) == line && Contains(line, "no match")
    ensures 'r' !in line && 'q' !in line && 'e' !in line && 'l' !in line && 'u' !in line && 'x' !in line && 'w' !in line && 'y' !in line
  {
  }

  // A registry with the record, whose one referral leads to a registrar without it.
  lemma ThinLookup(s: Setup, log: History, registry: string, registrar: string)
    requires s.world == ThinWorld(registry, registrar) && s.suffix("x.com") == Some("com") && s.maxReferrals > 0
    requires ExtractWhoisServer(registry) == Some("h") && ExtractWhoisServer(registrar) == None
    ensures Lookup(s, log, map["com" := "r"], "x.com").answer ==
            Success(Compose(Hop("r", registry), Read(s.dates, registry), Hop("h", registrar), Read(s.dates, registrar)))
  {
    var w, k := s.world, ReferralWalker(s.world, "x.com");
    var sent := log + [Query("r", "x.com")];
    assert Primary(w, log, map["com" := "r"], "com", "x.com") == Stage(Success(Hop("r", registry)), map["com" := "r"], sent);
    FollowUnfolds(k, sent, Hop("r", registry), {"r"}, s.maxReferrals);
    FollowUnfolds(k, k.Sent(sent, "h"), Hop("h", registrar), {"r"} + {"h"}, s.maxReferrals - 1);
  }

  lemma ThinCompose(registry: Hop, r: Reading, last: Hop, l: Reading)
    requires registry.server != last.server && HasRecordData(r.parsed) && l.status == NotFound
    ensures var res := Compose(registry, r, last, l); res.status == NotFound && HasRecordData(res.parsed)
  {
  }

  // The lookup succeeds with the registry's record, and calls the domain not found.
  lemma RecordNotFound(s: Setup, log: History, registry: string, registrar: string)
    requires registry == REGISTRY_REPLY && registrar == REGISTRAR_REPLY
    requires s.world == ThinWorld(registry, registrar) && s.suffix("x.com") == Some("com") && s.maxReferrals > 0
    ensures var run := Lookup(s, log, map["com" := "r"], "x.com");
            run.answer.Success? && run.answer.value.status == NotFound && HasRecordData(run.answer.value.parsed)
  {
    var first, second := registry[..11], registry[12..26];
    assert ReplyLines(first, second, registry);
    RegistryRefers(first, second, registry);
    RegistryHasRecord(s.dates, first, second, registry);
    RegistrarFindsNothing(s.dates, registrar);
    ThinLookup(s, log, registry, registrar);
    ThinCompose(Hop("r", registry), Read(s.dates, registry), Hop("h", registrar), Read(s.dates, registrar));
  }
}
