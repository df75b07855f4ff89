// src/lib.rs: query validation, and the cache keys of src/cache.rs built from it.
module Validation {
  import opened Wrappers
  import opened Text

  datatype QueryError = InvalidDomain | InvalidIpAddress

  // The address parser (canonical text of what it accepts) and the DNS name parser.
  datatype Parsers = Parsers(ip: string -> Option<string>, dnsName: string -> bool)

  datatype ValidQuery = Domain(key: string) | IpAddress(key: string)

  predicate IsDigit(c: char) { '0' <= c <= '9' }

  predicate IsHexDigit(c: char) { IsDigit(c) || 'a' <= c <= 'f' || 'A' <= c <= 'F' }

  predicate LooksLikeIpv4(s: string) {
    '.' in s && forall i :: 0 <= i < |s| ==> IsDigit(s[i]) || s[i] == '.'
  }

  predicate LooksLikeIpv6(s: string) {
    ':' in s && forall i :: 0 <= i < |s| ==> IsHexDigit(s[i]) || s[i] == ':' || s[i] == '.'
  }

  // Canonical address text: the alphabets only, and never a dot at the end.
  ghost predicate CanonicalIps(p: Parsers) {
    forall s :: p.ip(s).Some? ==>
      var t := p.ip(s).value;
      (LooksLikeIpv4(t) || LooksLikeIpv6(t)) && t[|t| - 1] != '.'
  }

  const URL_CHARS := ['/', ':', '?', '#', '@', ' ']

  // ValidatedDomain::new
  function ValidateDomain(p: Parsers, input: string): Result<string, QueryError> {
    var d := Lower(TrimEndMatches(Trim(input), '.'));
    if d == "" || '.' !in d || (exists c | c in URL_CHARS :: c in d) || !p.dnsName(d) then Failure(InvalidDomain)
    else Success(d)
  }

  // ValidatedQuery::new
  function Validate(p: Parsers, input: string): Result<ValidQuery, QueryError> {
    var trimmed := Trim(input);
    var ip := p.ip(Trim(trimmed));
    if ip.Some? then Success(IpAddress(ip.value))
    else if LooksLikeIpv4(trimmed) || LooksLikeIpv6(trimmed) then Failure(InvalidIpAddress)
    else
      match ValidateDomain(p, trimmed)
      case Success(d) => Success(Domain(d))
      case Failure(e) => Failure(e)
  }

  // CacheService::normalize_domain
  function NormalizeDomain(domain: string): string {
    StripSuffix(domain, ".")
  }

  lemma {:induction false} TrimDotsShape(s: string)
    ensures var t := TrimEndMatches(s, '.');
            && t <= s && (t != "" ==> t[|t| - 1] != '.')
            && forall i :: |t| <= i < |s| ==> s[i] == '.'
  {
    if s != "" && s[|s| - 1] == '.' { TrimDotsShape(s[..|s| - 1]); }
  }

  lemma LowerKeeps(s: string, i: nat)
    requires i < |s|
    ensures Lower(s)[i] == '.' <==> s[i] == '.'
    ensures IsDigit(Lower(s)[i]) <==> IsDigit(s[i])
    ensures IsSpace(Lower(s)[i]) <==> IsSpace(s[i])
  {
  }

  // What a validated domain looks like.
  lemma DomainShape(p: Parsers, input: string)
    requires ValidateDomain(p, input).Success?
    ensures var d := ValidateDomain(p, input).value;
            && d != "" && '.' in d && ':' !in d && d[|d| - 1] != '.' && !IsSpace(d[0])
            && Lower(d) == d && p.dnsName(d)
  {
    var t := Trim(input);
    var u := TrimEndMatches(t, '.');
    var d := Lower(u);
    TrimShape(input);
    TrimDotsShape(t);
    LowerKeeps(u, |u| - 1);
    LowerKeeps(u, 0);
    assert ':' in URL_CHARS;
    assert Lower(d) == d;
  }

  // Exactly when a text is a domain, and which one.
  lemma DomainExactly(p: Parsers, input: string)
    ensures var d := Lower(TrimEndMatches(Trim(input), '.'));
            if d != "" && '.' in d && p.dnsName(d) &&
               '/' !in d && ':' !in d && '?' !in d && '#' !in d && '@' !in d && ' ' !in d
            then ValidateDomain(p, input) == Success(d) else ValidateDomain(p, input) == Failure(InvalidDomain)
  {
  }

  // An address wins; digits and dots, or hexadecimal digits, colons and dots, are a bad address
  // rather than a domain.
  lemma QueryExactly(p: Parsers, input: string)
    ensures var t := Trim(input);
            var numeric := '.' in t && forall i :: 0 <= i < |t| ==> '0' <= t[i] <= '9' || t[i] == '.';
            var hexadecimal := ':' in t && forall i :: 0 <= i < |t| ==>
                                 '0' <= t[i] <= '9' || 'a' <= t[i] <= 'f' || 'A' <= t[i] <= 'F' || t[i] == ':' || t[i] == '.';
            if p.ip(t).Some? then Validate(p, input) == Success(IpAddress(p.ip(t).value))
            else if numeric || hexadecimal then Validate(p, input) == Failure(InvalidIpAddress)
            else match ValidateDomain(p, t)
                 case Success(d) => Validate(p, input) == Success(Domain(d))
                 case Failure(e) => Validate(p, input) == Failure(e)
  {
    TrimTwice(input);
  }

  // A numeric-looking domain can only come from numeric-looking text.
  lemma NumericDomainFromNumericText(p: Parsers, input: string)
    requires ValidateDomain(p, input).Success? && LooksLikeIpv4(ValidateDomain(p, input).value)
    ensures LooksLikeIpv4(Trim(input))
  {
    var t := Trim(input);
    var u, d := TrimEndMatches(t, '.'), ValidateDomain(p, input).value;
    TrimDotsShape(t);
    forall i | 0 <= i < |t| ensures IsDigit(t[i]) || t[i] == '.' {
      if i < |u| {
        LowerKeeps(u, i);
        assert d[i] == Lower(u)[i];
      }
    }
    var k :| 0 <= k < |d| && d[k] == '.';
    LowerKeeps(u, k);
    assert t[k] == '.';
  }

  // A validated domain never consists of digits and dots.
  lemma DomainIsNotNumeric(p: Parsers, input: string)
    requires Validate(p, input).Success? && Validate(p, input).value.Domain?
    ensures var d := Validate(p, input).value.key;
            !LooksLikeIpv4(d) && !LooksLikeIpv6(d)
  {
    DomainShape(p, Trim(input));
    TrimTwice(input);
    if LooksLikeIpv4(Validate(p, input).value.key) {
      NumericDomainFromNumericText(p, Trim(input));
    }
  }

  lemma TrimTwice(s: string)
    ensures Trim(Trim(s)) == Trim(s)
  {
    TrimShape(s);
    if Trim(s) != "" { TrimKeepsExactly(Trim(s)); }
  }

  // Domains and addresses never share a cache key, and normalisation leaves both alone.
  lemma KeysAreDisjoint(p: Parsers, a: string, b: string)
    requires CanonicalIps(p)
    requires Validate(p, a).Success? && Validate(p, b).Success?
    requires Validate(p, a).value.Domain? && Validate(p, b).value.IpAddress?
    ensures NormalizeDomain(Validate(p, a).value.key) != NormalizeDomain(Validate(p, b).value.key)
  {
    KeyIsNormal(p, a);
    KeyIsNormal(p, b);
    DomainIsNotNumeric(p, a);
  }

  lemma KeyIsNormal(p: Parsers, input: string)
    requires CanonicalIps(p) && Validate(p, input).Success?
    ensures NormalizeDomain(Validate(p, input).value.key) == Validate(p, input).value.key
  {
    if Validate(p, input).value.Domain? {
      DomainShape(p, Trim(input));
    }
  }

  // Validating a validated domain again returns it, except when it ends in white space that a
  // trailing dot protected from the first trim.
  lemma ValidationStableExactly(p: Parsers, input: string)
    requires ValidateDomain(p, input).Success?
    ensures var d := ValidateDomain(p, input).value;
            ValidateDomain(p, d) == Success(d) <==> !IsSpace(d[|d| - 1])
  {
    var d := ValidateDomain(p, input).value;
    DomainShape(p, input);
    TrimKeepsExactly(d);
    TrimDotsShape(Trim(d));
    if IsSpace(d[|d| - 1]) {
      TrimEndShape(d);
    }
  }

  // Such a domain comes out of a tab before a trailing dot, wherever the name parser lets the
  // tab pass.
  lemma TabSurvives(p: Parsers, input: string, domain: string)
    requires input == "a.b\t." && domain == "a.b\t" && p.dnsName(domain)
    ensures ValidateDomain(p, input) == Success(domain) && ValidateDomain(p, domain) != Success(domain)
  {
    TrimKeepsExactly(input);
    TrimDotsShape(input);
    assert input[..4] == domain && TrimEndMatches(domain, '.') == domain;
    assert Lower(domain) == domain && '.' in domain;
    assert forall c :: c in URL_CHARS ==> c !in domain;
    ValidationStableExactly(p, input);
  }
}
