/** What an origin is, told without the code's own helpers: which URLs have one, and which policy a rule list makes. */
module Origins {
  import opened Wrappers
  import opened Text
  import opened DestinationPolicy

  // ----- Letter case ---------------------------------------------------------------------------

  /** `l` is the lower case of `c`; outside ASCII only U+212A and U+0130 have one inside it. */
  predicate LowersTo(c: char, l: char) {
    if 'A' <= c <= 'Z' then l as int == c as int + 32
    else if c == '\U{212A}' then l == 'k'
    else if c == '\U{0130}' then l == 'i'
    else l == c
  }

  predicate TextLowersTo(s: string, lower: string) {
    |s| == |lower| && forall i :: 0 <= i < |s| ==> LowersTo(s[i], lower[i])
  }

  lemma LowerIs(s: string, lower: string)
    ensures TextLowersTo(s, lower) <==> lower == ToLower(s)
  {
    assert 'a' as int == 'A' as int + 32;
  }

  // ----- Host names ------------------------------------------------------------------------------

  predicate LabelChar(c: char) {
    '0' <= c <= '9' || 'a' <= c <= 'z'
  }

  /** A label: letters, digits and inner dashes (section 2.1 of RFC 1123). */
  predicate IsLabel(s: string) {
    && s != "" && LabelChar(s[0]) && LabelChar(s[|s| - 1])
    && forall i :: 0 <= i < |s| ==> LabelChar(s[i]) || s[i] == '-'
  }

  function JoinDots(labels: seq<string>): string {
    if labels == [] then "" else if |labels| == 1 then labels[0] else labels[0] + ("." + JoinDots(labels[1..]))
  }

  ghost predicate AreLabels(labels: seq<string>) {
    labels != [] && forall i :: 0 <= i < |labels| ==> IsLabel(labels[i])
  }

  /** At most 253 characters of labels joined by dots. */
  ghost predicate IsDnsName(s: string) {
    |s| <= 253 && exists labels :: AreLabels(labels) && JoinDots(labels) == s
  }

  /** The character rules of a name, without its length. */
  predicate NameChars(s: string) {
    && s != "" && DnsAlnum(s[0]) && DnsAlnum(s[|s| - 1])
    && (forall i :: 0 <= i < |s| ==> DnsAlnum(s[i]) || s[i] == '-' || s[i] == '.')
    && (forall i :: 0 < i < |s| - 1 && s[i] == '.' ==> DnsAlnum(s[i - 1]) && DnsAlnum(s[i + 1]))
  }

  lemma LabelIsName(s: string)
    ensures IsLabel(s) <==> NameChars(s) && '.' !in s
  {
  }

  lemma DotBetween(a: string, b: string)
    ensures var s := a + ("." + b);
            && s[|a|] == '.' && s[..|a|] == a && s[|a| + 1..] == b && |s| == |a| + 1 + |b|
            && (forall i :: 0 <= i < |a| ==> s[i] == a[i]) && (forall i :: 0 <= i < |b| ==> s[|a| + 1 + i] == b[i])
  {
  }

  /** A label, a dot and a name make a name. */
  lemma NameGrows(a: string, b: string)
    requires IsLabel(a) && NameChars(b)
    ensures NameChars(a + ("." + b))
  {
    var s := a + ("." + b);
    DotBetween(a, b);
    forall i | 0 <= i < |s|
      ensures DnsAlnum(s[i]) || s[i] == '-' || s[i] == '.'
    {
      if i > |a| { assert s[i] == b[i - |a| - 1]; }
    }
    forall i | 0 < i < |s| - 1 && s[i] == '.'
      ensures DnsAlnum(s[i - 1]) && DnsAlnum(s[i + 1])
    {
      if i == |a| {
        assert s[i + 1] == b[0] && s[i - 1] == a[|a| - 1];
      } else if i > |a| {
        DotInside(b, i - |a| - 1);
        assert s[i - 1] == b[i - |a| - 2] && s[i + 1] == b[i - |a|];
      }
    }
  }

  lemma DotInside(b: string, i: int)
    requires NameChars(b) && 0 <= i < |b| - 1 && b[i] == '.'
    ensures 0 < i && DnsAlnum(b[i - 1]) && DnsAlnum(b[i + 1])
  {
  }

  /** A name without its first label is a name. */
  lemma NameShrinks(a: string, b: string)
    requires IsLabel(a) && NameChars(a + ("." + b))
    ensures NameChars(b)
  {
    var s := a + ("." + b);
    DotBetween(a, b);
    assert DnsAlnum(s[|s| - 1]) && |s| > |a| + 1;
    assert DnsAlnum(s[|a| + 1]) && s[|a| + 1] == b[0];
    assert b[|b| - 1] == s[|s| - 1];
  }

  lemma {:induction false} LabelsMakeNames(labels: seq<string>)
    requires AreLabels(labels)
    ensures NameChars(JoinDots(labels))
    decreases |labels|
  {
    hide IsLabel, NameChars;
    LabelIsName(labels[0]);
    if |labels| > 1 {
      LabelsMakeNames(labels[1..]);
      NameGrows(labels[0], JoinDots(labels[1..]));
    }
  }

  /** The text up to the first dot. */
  function FirstDot(s: string): (n: nat)
    ensures n <= |s| && '.' !in s[..n] && (n < |s| ==> s[n] == '.')
  {
    if s == "" || s[0] == '.' then 0
    else
      assert s[1..][..FirstDot(s[1..])] == s[1..1 + FirstDot(s[1..])];
      1 + FirstDot(s[1..])
  }

  lemma NameStartsWithLabel(s: string, n: nat)
    requires NameChars(s) && n < |s| && s[n] == '.' && '.' !in s[..n]
    ensures IsLabel(s[..n]) && s == s[..n] + ("." + s[n + 1..])
  {
    assert 0 < n < |s| - 1;
    assert DnsAlnum(s[n - 1]);
  }

  lemma {:induction false} NamesAreLabels(s: string) returns (labels: seq<string>)
    requires NameChars(s)
    ensures AreLabels(labels) && JoinDots(labels) == s
    decreases |s|
  {
    hide IsLabel, NameChars;
    var n := FirstDot(s);
    if n == |s| {
      assert s[..n] == s;
      LabelIsName(s);
      labels := [s];
    } else {
      NameStartsWithLabel(s, n);
      NameShrinks(s[..n], s[n + 1..]);
      var more := NamesAreLabels(s[n + 1..]);
      labels := [s[..n]] + more;
      assert labels[1..] == more;
    }
  }

  /** The character-wise check accepts exactly the names made of labels. */
  lemma DnsGrammar(s: string)
    ensures DnsSubdomain(s) <==> IsDnsName(s)
  {
    assert DnsSubdomain(s) <==> |s| <= 253 && NameChars(s);
    hide NameChars, DnsSubdomain, JoinDots;
    if NameChars(s) {
      var labels := NamesAreLabels(s);
    }
    if IsDnsName(s) {
      var labels :| AreLabels(labels) && JoinDots(labels) == s;
      LabelsMakeNames(labels);
    }
  }

  // ----- Origins -----------------------------------------------------------------------------------

  /** `bare` is `host` without the dot at its end, if it has one. */
  predicate Undotted(host: string, bare: string) {
    host == bare + "." || (host == bare && (bare == "" || bare[|bare| - 1] != '.'))
  }

  /** What a host name stands for: an address in its canonical text, or a DNS name that could be no address. */
  ghost predicate StandsFor(bare: string, host: string, ip: IpLibrary) {
    && bare != "" && '%' !in bare
    && if ip(bare).Some? then ip(bare) == Some(host)
       else && host == bare && IsDnsName(bare)
            && exists i :: 0 <= i < |bare| && bare[i] != '.' && !('0' <= bare[i] <= '9')
  }

  /** The port a URL names, or the default of its scheme. */
  predicate NamesPort(url: Url, scheme: string, port: nat)
    requires url.Url?
  {
    if url.port == "" then (scheme == "http" && port == 80) || (scheme == "https" && port == 443)
    else AllDigits(url.port) && Decimal(url.port) == port && 1 <= port <= 65535
  }

  /** A URL with nothing but a scheme, a host, perhaps a port, and a path. */
  predicate Plain(url: Url) {
    url.Url? && url.host != "" && url.opaquePart == "" && !url.hasUser && url.rawQuery == "" && url.fragment == ""
  }

  ghost predicate HostStandsFor(raw: string, host: string, ip: IpLibrary) {
    exists lower, bare :: TextLowersTo(raw, lower) && Undotted(lower, bare) && StandsFor(bare, host, ip)
  }

  lemma TrimmedIsUndotted(host: string)
    ensures Undotted(host, TrimDot(host))
  {
    if host != "" && host[|host| - 1] == '.' { assert host == host[..|host| - 1] + "."; }
  }

  lemma NumericIs(s: string)
    ensures NumericOnly(s) <==> !exists i :: 0 <= i < |s| && s[i] != '.' && !('0' <= s[i] <= '9')
  {
  }

  /** What a trimmed lower-case host stands for. */
  lemma StandsForIff(bare: string, host: string, ip: IpLibrary)
    ensures StandsFor(bare, host, ip)
            <==> (if bare == "" || '%' in bare then None
                  else if ip(bare).Some? then ip(bare)
                  else if NumericOnly(bare) || !DnsSubdomain(bare) then None
                  else Some(bare)) == Some(host)
  {
    hide IsDnsName, DnsSubdomain, NumericOnly;
    DnsGrammar(bare);
    NumericIs(bare);
  }

  lemma HostMeaning(raw: string, ip: IpLibrary, host: string)
    ensures CanonicalHostname(raw, ip) == Some(host) <==> HostStandsFor(raw, host, ip)
  {
    hide StandsFor, DnsSubdomain, NumericOnly, ToLower, TextLowersTo, TrimDot, Undotted;
    var lower := ToLower(raw);
    var bare := TrimDot(lower);
    LowerIs(raw, lower);
    TrimmedIsUndotted(lower);
    StandsForIff(bare, host, ip);
    assert CanonicalHostname(raw, ip) == Some(host) <==> StandsFor(bare, host, ip);
    hide CanonicalHostname;
    if HostStandsFor(raw, host, ip) {
      var l, b :| TextLowersTo(raw, l) && Undotted(l, b) && StandsFor(b, host, ip);
      LowerIs(raw, l);
      UndottedOnce(l, b);
    }
  }

  lemma UndottedOnce(host: string, bare: string)
    requires Undotted(host, bare)
    ensures bare == TrimDot(host)
  {
  }

  /** A URL has an origin when it is a plain HTTP or HTTPS one with a usable host and port, and then this one. */
  ghost predicate HasOrigin(url: Url, ip: IpLibrary, o: Origin) {
    && Plain(url) && (o.scheme == "http" || o.scheme == "https")
    && TextLowersTo(url.scheme, o.scheme) && HostStandsFor(url.hostname, o.host, ip) && NamesPort(url, o.scheme, o.port)
  }

  lemma OriginMeaning(url: Url, ip: IpLibrary, o: Origin)
    ensures OriginOf(url, ip) == Some(o) <==> HasOrigin(url, ip, o)
  {
    hide CanonicalHostname, HostStandsFor, ToLower, TextLowersTo, Decimal, AllDigits;
    if url.Url? {
      LowerIs(url.scheme, o.scheme);
      HostMeaning(url.hostname, ip, o.host);
    }
  }

  // ----- Policies ------------------------------------------------------------------------------------

  /** A rule names an origin and no more. */
  ghost predicate NamesOrigin(rule: Url, ip: IpLibrary) {
    rule.Url? && (rule.path == "" || rule.path == "/") && exists o :: HasOrigin(rule, ip, o)
  }

  /** The URL has an origin, and everything is allowed or some rule has the same one. */
  ghost predicate InPolicy(rules: seq<Url>, allowAny: bool, ip: IpLibrary, url: Url) {
    exists o :: HasOrigin(url, ip, o)
                && (allowAny || exists j :: 0 <= j < |rules| && HasOrigin(rules[j], ip, o))
  }

  /** A configuration is accepted exactly when it does not mix rules with allow-any and every rule names an origin. */
  lemma PolicyIsBuiltIff(rules: seq<Url>, allowAny: bool, ip: IpLibrary)
    ensures PolicyFor(rules, allowAny, ip).Accepted?
            <==> !(allowAny && rules != []) && forall j :: 0 <= j < |rules| ==> NamesOrigin(rules[j], ip)
  {
    hide OriginOf, HasOrigin, Key;
    forall j | 0 <= j < |rules|
      ensures GoodRule(rules[j], ip) <==> NamesOrigin(rules[j], ip)
    {
      OriginExists(rules[j], ip);
    }
    hide GoodRule, NamesOrigin;
  }

  lemma OriginExists(url: Url, ip: IpLibrary)
    ensures OriginOf(url, ip).Some? <==> exists o :: HasOrigin(url, ip, o)
  {
    hide HasOrigin;
    if OriginOf(url, ip).Some? {
      OriginMeaning(url, ip, OriginOf(url, ip).value);
    }
    forall o | HasOrigin(url, ip, o)
      ensures OriginOf(url, ip).Some?
    {
      OriginMeaning(url, ip, o);
    }
  }

  /** An accepted policy lets a URL pass exactly when it is in the policy. */
  lemma ValidateIffInPolicy(rules: seq<Url>, allowAny: bool, ip: IpLibrary, url: Url)
    requires PolicyFor(rules, allowAny, ip).Accepted?
    ensures Validate(PolicyFor(rules, allowAny, ip).policy, url, ip) <==> InPolicy(rules, allowAny, ip, url)
  {
    hide HasOrigin, OriginOf, Validate, PolicyFor;
    ValidateIffSameOrigin(rules, allowAny, ip, url);
    OriginExists(url, ip);
    forall o
      ensures OriginOf(url, ip) == Some(o) <==> HasOrigin(url, ip, o)
    {
      OriginMeaning(url, ip, o);
    }
    forall j, o | 0 <= j < |rules|
      ensures OriginOf(rules[j], ip) == Some(o) <==> HasOrigin(rules[j], ip, o)
    {
      OriginMeaning(rules[j], ip, o);
    }
  }
}
