/** internal/sources/destination_policy.go: an exact-origin allowlist for Prometheus egress. */
module DestinationPolicy {
  import opened Wrappers
  import opened Text

  /** What `url.Parse` leaves of a URL; Malformed when it fails or the raw text is empty or padded with space. */
  datatype Url =
    | Malformed
    | Url(scheme: string, host: string, opaquePart: string, hasUser: bool, rawQuery: string, fragment: string,
          hostname: string, port: string, path: string)

  /** Scheme, host and effective port (section 4 of RFC 6454). */
  datatype Origin = Origin(scheme: string, host: string, port: nat)

  /**
   * `net.ParseIP` followed by `String`: the canonical text of an address literal, None for anything else.
   * Library code, so every result below holds for any such function.
   */
  type IpLibrary = string -> Option<string>

  // ----- Numbers -----------------------------------------------------------------------

  /** `strconv.Atoi` on what `url.Parse` admits as a port, which is digits only. */
  function Atoi(s: string): Option<nat> {
    if AllDigits(s) then Some(Decimal(s)) else None
  }

  function Itoa(n: nat): (s: string)
    ensures AllDigits(s)
  {
    if n < 10 then [(n + '0' as nat) as char] else Itoa(n / 10) + [(n % 10 + '0' as nat) as char]
  }

  lemma {:induction false} ItoaReadsBack(n: nat)
    ensures Decimal(Itoa(n)) == n
  {
    if n < 10 {
      assert Itoa(n)[..0] == [];
    } else {
      ItoaReadsBack(n / 10);
      assert Itoa(n)[..|Itoa(n)| - 1] == Itoa(n / 10);
    }
  }

  // ----- Canonical hosts -----------------------------------------------------------------

  predicate DnsAlnum(c: char) {
    IsDigit(c) || 'a' <= c <= 'z'
  }

  /** `IsDNS1123Subdomain`: dot-separated labels of lower-case alphanumerics and inner dashes. */
  predicate DnsSubdomain(s: string) {
    && 0 < |s| <= 253
    && DnsAlnum(s[0]) && DnsAlnum(s[|s| - 1])
    && (forall i :: 0 <= i < |s| ==> DnsAlnum(s[i]) || s[i] == '-' || s[i] == '.')
    && (forall i :: 0 < i < |s| - 1 && s[i] == '.' ==> DnsAlnum(s[i - 1]) && DnsAlnum(s[i + 1]))
  }

  function TrimDot(s: string): string {
    if s != [] && s[|s| - 1] == '.' then s[..|s| - 1] else s
  }

  predicate NumericOnly(s: string) {
    forall i :: 0 <= i < |s| ==> IsDigit(s[i]) || s[i] == '.'
  }

  function CanonicalHostname(raw: string, ip: IpLibrary): Option<string> {
    var host := TrimDot(ToLower(raw));
    if host == "" || '%' in host then None
    else if ip(host).Some? then ip(host)
    else if NumericOnly(host) then None
    else if !DnsSubdomain(host) then None
    else Some(host)
  }

  // ----- Origins -------------------------------------------------------------------------

  /** The origin of a safe absolute HTTP(S) URL; None for everything the controller refuses to talk to. */
  function OriginOf(url: Url, ip: IpLibrary): (o: Option<Origin>)
    ensures o.Some? ==> url.Url?
  {
    if url.Malformed? then None
    else
      var scheme := ToLower(url.scheme);
      if (scheme != "http" && scheme != "https") || url.host == "" || url.opaquePart != "" then None
      else if url.hasUser || url.rawQuery != "" || url.fragment != "" then None
      else
        var host := CanonicalHostname(url.hostname, ip);
        if host.None? then None
        else if url.port == "" then Some(Origin(scheme, host.value, if scheme == "http" then 80 else 443))
        else
          var port := Atoi(url.port);
          if port.None? || port.value < 1 || port.value > 65535 then None
          else Some(Origin(scheme, host.value, port.value))
  }

  const NUL: char := '\0'

  /** The text an origin is stored under. */
  function Key(o: Origin): string {
    o.scheme + [NUL] + o.host + [NUL] + Itoa(o.port)
  }

  datatype Policy = Policy(allowAny: bool, allowed: set<string>)

  datatype Built = Accepted(policy: Policy) | Rejected

  predicate GoodRule(rule: Url, ip: IpLibrary) {
    OriginOf(rule, ip).Some? && (rule.path == "" || rule.path == "/")
  }

  /** The allowlist fills rule by rule; the first bad rule rejects the whole configuration. */
  method NewDestinationPolicy(rules: seq<Url>, allowAny: bool, ip: IpLibrary) returns (built: Built)
    ensures built == PolicyFor(rules, allowAny, ip)
  {
    hide OriginOf, Key;
    if allowAny && rules != [] {
      return Rejected;
    }
    var allowed: set<string> := {};
    for i := 0 to |rules|
      invariant forall j :: 0 <= j < i ==> GoodRule(rules[j], ip)
      invariant allowed == set j | 0 <= j < i && OriginOf(rules[j], ip).Some? :: Key(OriginOf(rules[j], ip).value)
    {
      var origin := OriginOf(rules[i], ip);
      if origin.None? {
        return Rejected;
      }
      if rules[i].path != "" && rules[i].path != "/" {
        return Rejected;
      }
      allowed := allowed + {Key(origin.value)};
    }
    built := Accepted(Policy(allowAny, allowed));
  }

  /** What the rules amount to, with no order in sight. */
  function PolicyFor(rules: seq<Url>, allowAny: bool, ip: IpLibrary): Built {
    if allowAny && rules != [] then Rejected
    else if exists j :: 0 <= j < |rules| && !GoodRule(rules[j], ip) then Rejected
    else
      Accepted(Policy(allowAny,
                      set j | 0 <= j < |rules| && OriginOf(rules[j], ip).Some? :: Key(OriginOf(rules[j], ip).value)))
  }

  /** Whether the controller may talk to `url`. */
  predicate Validate(policy: Policy, url: Url, ip: IpLibrary) {
    var origin := OriginOf(url, ip);
    origin.Some? && (policy.allowAny || Key(origin.value) in policy.allowed)
  }

  // ----- What the policy means -------------------------------------------------------------

  predicate Clean(o: Origin) {
    NUL !in o.scheme
  }

  lemma OriginsAreClean(url: Url, ip: IpLibrary)
    requires OriginOf(url, ip).Some?
    ensures Clean(OriginOf(url, ip).value)
  {
  }

  /** The stored text determines the origin, even if a host contained the separator. */
  lemma KeyIsInjective(o: Origin, p: Origin)
    requires Clean(o) && Clean(p)
    ensures Key(o) == Key(p) <==> o == p
  {
    if Key(o) == Key(p) {
      assert NUL !in Itoa(o.port) && NUL !in Itoa(p.port) by {
        assert !IsDigit(NUL);
      }
      LastMarkSplits(o.scheme + [NUL] + o.host, Itoa(o.port), p.scheme + [NUL] + p.host, Itoa(p.port), NUL);
      FirstMarkSplits(o.scheme, o.host, p.scheme, p.host, NUL);
      ItoaReadsBack(o.port);
      ItoaReadsBack(p.port);
    }
  }

  /** A URL passes a built policy exactly when it is safe and everything is allowed or some rule has its origin. */
  lemma ValidateIffSameOrigin(rules: seq<Url>, allowAny: bool, ip: IpLibrary, url: Url)
    requires PolicyFor(rules, allowAny, ip).Accepted?
    ensures Validate(PolicyFor(rules, allowAny, ip).policy, url, ip)
            <==> && OriginOf(url, ip).Some?
                 && (allowAny || exists j :: 0 <= j < |rules| && OriginOf(rules[j], ip) == OriginOf(url, ip))
  {
    if OriginOf(url, ip).Some? {
      OriginsAreClean(url, ip);
      forall j | 0 <= j < |rules| && OriginOf(rules[j], ip).Some?
        ensures Key(OriginOf(rules[j], ip).value) == Key(OriginOf(url, ip).value)
                <==> OriginOf(rules[j], ip) == OriginOf(url, ip)
      {
        OriginsAreClean(rules[j], ip);
        KeyIsInjective(OriginOf(rules[j], ip).value, OriginOf(url, ip).value);
      }
    }
  }

  lemma LowerIsFixed(s: string)
    ensures ToLower(ToLower(s)) == ToLower(s)
  {
  }

  lemma DefaultPorts()
    ensures Atoi("80") == Some(80) && Atoi("443") == Some(443)
  {
    assert "80"[..1] == "8" && "8"[..0] == "";
    assert "443"[..2] == "44" && "44"[..1] == "4" && "4"[..0] == "";
  }

  lemma DotIsTrimmed(host: string)
    requires host == "" || host[|host| - 1] != '.'
    ensures host != "" ==> TrimDot(ToLower(host + ".")) == TrimDot(ToLower(host))
  {
    if host != "" {
      var lower := ToLower(host);
      assert ToLower(host + ".") == lower + ".";
      assert lower[|lower| - 1] != '.';
    }
  }

  /** Letter case, one trailing dot on the host and a spelled-out default port make no difference to the origin. */
  lemma SpellingIsIgnored(url: Url, ip: IpLibrary)
    requires url.Url?
    ensures OriginOf(url.(scheme := ToLower(url.scheme), hostname := ToLower(url.hostname)), ip) == OriginOf(url, ip)
    ensures url.hostname != "" && url.hostname[|url.hostname| - 1] != '.'
            ==> OriginOf(url.(hostname := url.hostname + "."), ip) == OriginOf(url, ip)
    ensures url.port == ""
            ==> OriginOf(url.(port := if ToLower(url.scheme) == "http" then "80" else "443"), ip) == OriginOf(url, ip)
  {
    hide ToLower, Atoi, TrimDot;
    LowerIsFixed(url.scheme);
    LowerIsFixed(url.hostname);
    DefaultPorts();
    if url.hostname != "" && url.hostname[|url.hostname| - 1] != '.' {
      DotIsTrimmed(url.hostname);
    }
  }

  /** Order and repetition of the rules do not matter. */
  lemma RulesAreASet(rules: seq<Url>, others: seq<Url>, allowAny: bool, ip: IpLibrary)
    requires forall url :: url in rules <==> url in others
    ensures PolicyFor(rules, allowAny, ip) == PolicyFor(others, allowAny, ip)
  {
    RulesInclude(rules, others, allowAny, ip);
    RulesInclude(others, rules, allowAny, ip);
  }

  /** More rules are at least as strict to build and at least as permissive once built. */
  lemma RulesInclude(rules: seq<Url>, others: seq<Url>, allowAny: bool, ip: IpLibrary)
    requires forall url :: url in rules ==> url in others
    ensures PolicyFor(others, allowAny, ip).Accepted?
            ==> && PolicyFor(rules, allowAny, ip).Accepted?
                && PolicyFor(rules, allowAny, ip).policy.allowed <= PolicyFor(others, allowAny, ip).policy.allowed
  {
    if PolicyFor(others, allowAny, ip).Accepted? {
      if rules != [] {
        assert rules[0] in others;
      }
      forall j | 0 <= j < |rules|
        ensures exists k :: 0 <= k < |others| && others[k] == rules[j]
        ensures GoodRule(rules[j], ip)
      {
        assert rules[j] in rules;
        var k :| 0 <= k < |others| && others[k] == rules[j];
        assert GoodRule(others[k], ip);
      }
    }
  }

  /** What is assumed of address canonicalisation: its output is plain lower-case text that it maps to itself. */
  ghost predicate CanonicalAddresses(ip: IpLibrary) {
    forall h: string :: ip(h).Some? ==>
      var c := ip(h).value;
      && c != "" && ToLower(c) == c && TrimDot(c) == c && '%' !in c
      && ip(c) == Some(c)
  }

  lemma DnsNamesAreLower(s: string)
    requires DnsSubdomain(s)
    ensures ToLower(s) == s && TrimDot(s) == s
  {
    assert forall i :: 0 <= i < |s| ==> LowerChar(s[i]) == s[i];
  }

  /** Canonicalisation is idempotent. */
  lemma CanonicalIsFixed(raw: string, ip: IpLibrary)
    requires CanonicalAddresses(ip) && CanonicalHostname(raw, ip).Some?
    ensures CanonicalHostname(CanonicalHostname(raw, ip).value, ip) == CanonicalHostname(raw, ip)
  {
    var host := TrimDot(ToLower(raw));
    if ip(host).None? {
      DnsNamesAreLower(host);
    }
  }
}
