/** Hostnames for LoadBalancers: the validator against the grammar it stands for, and the
    generated names against the validator. */
module Hostname {
  import opened Text
  import opened LoadBalancerMapping

  /** strings.Split on a dot. */
  function Split(s: string): (r: seq<string>)
    ensures |r| >= 1
  {
    if s == "" then [""]
    else
      var rest := Split(s[1..]);
      if s[0] == '.' then [""] + rest else [[s[0]] + rest[0]] + rest[1..]
  }

  function Join(labels: seq<string>): string
    requires labels != []
  {
    if |labels| == 1 then labels[0] else labels[0] + "." + Join(labels[1..])
  }

  predicate IsAlnum(c: char) {
    'a' <= c <= 'z' || '0' <= c <= '9'
  }

  /** The regular expression: an alphanumeric, optionally followed by up to 61 alphanumerics
      or hyphens and a closing alphanumeric. */
  predicate MatchesLabel(l: string) {
    || (|l| == 1 && IsAlnum(l[0]))
    || (2 <= |l| <= 63 && IsAlnum(l[0]) && IsAlnum(l[|l| - 1])
        && forall i :: 1 <= i < |l| - 1 ==> IsAlnum(l[i]) || l[i] == '-')
  }

  predicate HasDoubleDot(s: string) {
    exists i :: 0 <= i < |s| - 1 && s[i] == '.' && s[i + 1] == '.'
  }

  /** isValidHostname. */
  predicate IsValidHostname(h: string) {
    && h != "" && |h| <= 253
    && !HasDoubleDot(h) && h[0] != '.' && h[|h| - 1] != '.'
    && |Split(h)| >= 2
    && forall i :: 0 <= i < |Split(h)|
        ==> Split(h)[i] != "" && |Split(h)[i]| <= 63 && MatchesLabel(ToLower(Split(h)[i]))
  }

  // ----- the grammar -----

  predicate IsLetterOrDigit(c: char) {
    'a' <= c <= 'z' || 'A' <= c <= 'Z' || '0' <= c <= '9'
  }

  /** A host name label of section 2.1 of RFC 1123: letters, digits and inner hyphens, at
      most 63 of them as in section 2.3.4 of RFC 1035. */
  predicate IsLabel(l: string) {
    1 <= |l| <= 63 && IsLetterOrDigit(l[0]) && IsLetterOrDigit(l[|l| - 1])
    && forall i :: 0 <= i < |l| ==> IsLetterOrDigit(l[i]) || l[i] == '-'
  }

  predicate AllLabels(labels: seq<string>) {
    forall i :: 0 <= i < |labels| ==> IsLabel(labels[i])
  }

  /** At least two labels joined by dots, 253 characters in all. */
  ghost predicate WellFormed(h: string) {
    |h| <= 253 && exists labels :: |labels| >= 2 && AllLabels(labels) && Join(labels) == h
  }

  lemma LabelMatches(l: string)
    ensures l != "" && |l| <= 63 && MatchesLabel(ToLower(l)) <==> IsLabel(l)
  {
    var m := ToLower(l);
    assert forall i :: 0 <= i < |l| ==> (IsAlnum(m[i]) <==> IsLetterOrDigit(l[i])) && (m[i] == '-' <==> l[i] == '-');
  }

  lemma {:induction false} JoinSplit(s: string)
    ensures Join(Split(s)) == s
  {
    if s != "" {
      JoinSplit(s[1..]);
      var rest := Split(s[1..]);
      assert s == [s[0]] + s[1..];
      if s[0] == '.' {
        JoinEmpty(rest);
      } else {
        JoinLonger(s[0], rest);
      }
    }
  }

  lemma JoinEmpty(rest: seq<string>)
    requires rest != []
    ensures Join([""] + rest) == "." + Join(rest)
  {
    hide Split;
    assert ([""] + rest)[1..] == rest;
  }

  lemma JoinLonger(c: char, rest: seq<string>)
    requires rest != []
    ensures Join([[c] + rest[0]] + rest[1..]) == [c] + Join(rest)
  {
    hide Split;
    var r := [[c] + rest[0]] + rest[1..];
    if |rest| > 1 {
      assert r[1..] == rest[1..];
      assert [c] + rest[0] + "." + Join(rest[1..]) == [c] + (rest[0] + "." + Join(rest[1..]));
    }
  }

  /** Splitting takes the first label off a dotted name. */
  lemma {:induction false} SplitLabel(l: string, s: string)
    requires '.' !in l
    ensures Split(l + "." + s) == [l] + Split(s) && Split(l) == [l]
  {
    if l == "" {
      assert l + "." + s == "." + s && ("." + s)[1..] == s;
    } else {
      SplitLabel(l[1..], s);
      assert (l + "." + s)[1..] == l[1..] + "." + s;
      assert l == [l[0]] + l[1..];
    }
  }

  lemma {:induction false} SplitJoin(labels: seq<string>)
    requires labels != [] && AllLabels(labels)
    ensures Split(Join(labels)) == labels
  {
    assert IsLabel(labels[0]) && '.' !in labels[0];
    if |labels| == 1 {
      SplitLabel(labels[0], "");
    } else {
      assert forall i :: 0 <= i < |labels[1..]| ==> labels[1..][i] == labels[i + 1];
      SplitJoin(labels[1..]);
      SplitLabel(labels[0], Join(labels[1..]));
      assert labels == [labels[0]] + labels[1..];
    }
  }

  /** A dot at either end or a double dot shows up as an empty label. */
  lemma {:induction false} BadDotsSplit(s: string)
    requires s != "" && (HasDoubleDot(s) || s[0] == '.' || s[|s| - 1] == '.')
    ensures "" in Split(s)
  {
    var t := s[1..];
    if s[0] == '.' {
      assert Split(s)[0] == "";
    } else {
      assert t != "" && (HasDoubleDot(t) || t[|t| - 1] == '.') by {
        if HasDoubleDot(s) {
          var i :| 0 <= i < |s| - 1 && s[i] == '.' && s[i + 1] == '.';
          assert t[i - 1] == '.' && t[i] == '.';
        }
      }
      BadDotsSplit(t);
      if t[0] == '.' {
        InnerEmptyLabel(t);
      }
      EmptyLabelKept(s);
    }
  }

  /** Past a leading dot, further bad dots give an empty label behind the first. */
  lemma InnerEmptyLabel(t: string)
    requires t != "" && t[0] == '.' && (HasDoubleDot(t) || t[|t| - 1] == '.')
    ensures "" in Split(t)[1..]
  {
    var u := t[1..];
    assert Split(t)[1..] == Split(u);
    if u != "" {
      if HasDoubleDot(t) {
        var i :| 0 <= i < |t| - 1 && t[i] == '.' && t[i + 1] == '.';
        if i > 0 {
          assert u[i - 1] == '.' && u[i] == '.';
        }
      }
      BadDotsSplit(u);
    }
  }

  lemma EmptyLabelKept(s: string)
    requires s != "" && s[0] != '.' && s[1..] != "" && "" in Split(s[1..])
    requires s[1..][0] == '.' ==> "" in Split(s[1..])[1..]
    ensures "" in Split(s)
  {
    var rest := Split(s[1..]);
    assert Split(s)[1..] == rest[1..];
    if s[1..][0] != '.' {
      assert rest[0] != "";
      assert rest == [rest[0]] + rest[1..];
    }
    assert "" in rest[1..];
  }

  /** The validator accepts exactly the well-formed names. */
  lemma ValidIffWellFormed(h: string)
    ensures IsValidHostname(h) <==> WellFormed(h)
  {
    var labels := Split(h);
    forall i | 0 <= i < |labels|
      ensures labels[i] != "" && |labels[i]| <= 63 && MatchesLabel(ToLower(labels[i])) <==> IsLabel(labels[i]) {
      LabelMatches(labels[i]);
    }
    hide MatchesLabel, IsLabel, ToLower, Split;
    if IsValidHostname(h) {
      JoinSplit(h);
      assert AllLabels(labels);
    }
    if WellFormed(h) {
      var parts :| |parts| >= 2 && AllLabels(parts) && Join(parts) == h;
      SplitJoin(parts);
      NoEmptyLabel(parts);
      if h == "" {
        SplitEmpty();
      } else if HasDoubleDot(h) || h[0] == '.' || h[|h| - 1] == '.' {
        BadDotsSplit(h);
      }
    }
  }

  lemma SplitEmpty()
    ensures Split("") == [""]
  {
  }

  lemma NoEmptyLabel(labels: seq<string>)
    requires AllLabels(labels)
    ensures "" !in labels
  {
  }

  // ----- generation -----

  function TrimPrefix(s: string, prefix: string): string {
    if prefix <= s then s[|prefix|..] else s
  }

  /** What is left of a wildcard domain. */
  function StripWildcard(domain: string): string {
    TrimPrefix(TrimPrefix(TrimPrefix(domain, "*."), "**."), "*")
  }

  function HexDigit(d: int): char
    requires 0 <= d < 16
  {
    if d < 10 then '0' + d as char else 'a' + (d - 10) as char
  }

  /** hex.EncodeToString of the first n bytes. */
  function Hex(bytes: seq<int>, n: nat): (r: string)
    requires n <= |bytes| && forall i :: 0 <= i < |bytes| ==> 0 <= bytes[i] < 256
    ensures |r| == 2 * n && forall i :: 0 <= i < |r| ==> IsAlnum(r[i])
  {
    if n == 0 then ""
    else Hex(bytes, n - 1) + [HexDigit(bytes[n - 1] / 16), HexDigit(bytes[n - 1] % 16)]
  }

  /** The tenant's wildcard domain when set, else the configured one; "" for none. */
  function BaseDomain(tenant: Option<string>, config: string): string {
    if tenant.Some? && tenant.value != "" then tenant.value else config
  }

  function Fallback(now: nat, base: string): string {
    "lb-" + Decimal(now) + "." + base
  }

  predicate EightBytes(bytes: seq<int>) {
    |bytes| == 8 && forall i :: 0 <= i < |bytes| ==> 0 <= bytes[i] < 256
  }

  /** GenerateHostname; `random` is None when the random source fails, `now` the clock. */
  function GenerateHostname(tenant: Option<string>, config: string, random: Option<seq<int>>, now: nat): string
    requires random.Some? ==> EightBytes(random.value)
  {
    var domain := BaseDomain(tenant, config);
    if domain == "" then ""
    else if random.None? then Fallback(now, domain)
    else
      var base := StripWildcard(domain);
      if !IsValidHostname(base) then ""
      else
        var hostname := ToLower(Hex(random.value, 8)) + "." + base;
        if !IsValidHostname(hostname) then Fallback(now, base) else hostname
  }

  /** One more label keeps a name well formed exactly as long as it fits. */
  lemma PrefixLabel(l: string, base: string)
    requires IsLabel(l) && IsValidHostname(base)
    ensures IsValidHostname(l + "." + base) <==> |l| + 1 + |base| <= 253
  {
    ValidIffWellFormed(base);
    ValidIffWellFormed(l + "." + base);
    hide IsLabel, IsValidHostname;
    var labels :| |labels| >= 2 && AllLabels(labels) && Join(labels) == base;
    var longer := [l] + labels;
    assert AllLabels(longer);
    assert longer[1..] == labels && Join(longer) == l + "." + base;
  }

  lemma ValidLabels(h: string)
    requires IsValidHostname(h)
    ensures AllLabels(Split(h))
  {
    forall i | 0 <= i < |Split(h)| ensures IsLabel(Split(h)[i]) {
      LabelMatches(Split(h)[i]);
    }
  }

  lemma HexLabel(bytes: seq<int>)
    requires EightBytes(bytes)
    ensures ToLower(Hex(bytes, 8)) == Hex(bytes, 8) && IsLabel(Hex(bytes, 8)) && |Hex(bytes, 8)| == 16
  {
    var h := Hex(bytes, 8);
    forall i | 0 <= i < |h| ensures LowerChar(h[i]) == h[i] && IsLetterOrDigit(h[i]) {
      assert IsAlnum(h[i]);
    }
  }

  /** Two hexadecimal digits a byte, the high one first. */
  lemma {:induction false} HexDigits(bytes: seq<int>, n: nat, i: nat)
    requires i < n <= |bytes| && forall i :: 0 <= i < |bytes| ==> 0 <= bytes[i] < 256
    ensures Hex(bytes, n)[2 * i] == "0123456789abcdef"[bytes[i] / 16]
            && Hex(bytes, n)[2 * i + 1] == "0123456789abcdef"[bytes[i] % 16]
    decreases n
  {
    if i < n - 1 {
      HexDigits(bytes, n - 1, i);
    }
  }

  lemma StrippedWildcard(base: string)
    requires IsValidHostname(base)
    ensures StripWildcard("*." + base) == base
  {
    ValidLabels(base);
    var rest := Split(base[1..]);
    assert Split(base) == [[base[0]] + rest[0]] + rest[1..];
    assert IsLabel(Split(base)[0]) && Split(base)[0][0] == base[0];
    assert ("*." + base)[2..] == base;
  }

  lemma NamedBelow(tenant: Option<string>, config: string, base: string, random: seq<int>, now: nat)
    requires EightBytes(random) && IsValidHostname(base) && BaseDomain(tenant, config) == "*." + base
    ensures GenerateHostname(tenant, config, Some(random), now)
            == (if |base| <= 236 then Hex(random, 8) else "lb-" + Decimal(now)) + "." + base
  {
    StrippedWildcard(base);
    HexLabel(random);
    PrefixLabel(Hex(random, 8), base);
    hide IsValidHostname, StripWildcard, IsLabel, Hex, ToLower, Decimal, BaseDomain;
  }

  /** A wildcard domain gives the random label, or if that does not fit the time stamp, in front
      of what follows the wildcard. The tenant's domain comes before the configured one, and
      without either there is no name. */
  lemma WildcardDomain(base: string, config: string, random: seq<int>, now: nat)
    requires EightBytes(random) && IsValidHostname(base)
    ensures var name := (if |base| <= 236 then Hex(random, 8) else "lb-" + Decimal(now)) + "." + base;
            && GenerateHostname(Some("*." + base), config, Some(random), now) == name
            && GenerateHostname(None, "*." + base, Some(random), now) == name
            && GenerateHostname(Some(""), "*." + base, Some(random), now) == name
            && GenerateHostname(None, "", Some(random), now) == "" == GenerateHostname(Some(""), "", Some(random), now)
  {
    var d := "*." + base;
    NamedBelow(Some(d), config, base, random, now);
    NamedBelow(None, d, base, random, now);
    NamedBelow(Some(""), d, base, random, now);
    hide IsValidHostname, StripWildcard, Hex, ToLower, Decimal;
  }

  lemma FallbackLabel(now: nat)
    ensures '.' !in "lb-" + Decimal(now)
    ensures IsLabel("lb-" + Decimal(now)) <==> |Decimal(now)| <= 60
  {
    var d := Digits(now);
    var l := "lb-" + d;
    assert forall i :: 3 <= i < |l| ==> l[i] == d[i - 3];
    assert IsDigit(d[|d| - 1]);
    forall i | 0 <= i < |l| ensures IsLetterOrDigit(l[i]) || l[i] == '-' {
      if i >= 3 {
        assert IsDigit(d[i - 3]);
      }
    }
  }

  /** With a wildcard domain configured and a working random source, the result is empty
      exactly when the stripped domain is invalid. */
  lemma GeneratedEmptyIff(tenant: Option<string>, config: string, random: seq<int>, now: nat)
    requires EightBytes(random) && BaseDomain(tenant, config) != ""
    ensures GenerateHostname(tenant, config, Some(random), now) == ""
            <==> !IsValidHostname(StripWildcard(BaseDomain(tenant, config)))
  {
    hide IsValidHostname, StripWildcard;
  }

  /** And for a valid stripped domain the generated name is valid exactly when it, or the
      time-stamped fallback, fits into 253 characters; up to 236 characters it is the
      random label in front of the domain. */
  lemma GeneratedValidIff(tenant: Option<string>, config: string, random: seq<int>, now: nat)
    requires EightBytes(random) && BaseDomain(tenant, config) != ""
    requires IsValidHostname(StripWildcard(BaseDomain(tenant, config)))
    ensures var base, r := StripWildcard(BaseDomain(tenant, config)),
            GenerateHostname(tenant, config, Some(random), now);
            && (IsValidHostname(r)
                <==> |base| <= 236 || (|Decimal(now)| <= 60 && 3 + |Decimal(now)| + 1 + |base| <= 253))
            && (|base| <= 236 ==> r == Hex(random, 8) + "." + base)
  {
    var base := StripWildcard(BaseDomain(tenant, config));
    HexLabel(random);
    FallbackLabel(now);
    PrefixLabel(Hex(random, 8), base);
    PrefixAnything("lb-" + Decimal(now), base);
    ValidLabels(base);
    hide IsValidHostname, StripWildcard, IsLabel, Hex, ToLower, Decimal;
    assert Fallback(now, base) == "lb-" + Decimal(now) + "." + base;
  }

  lemma JoinPrefixed(l: string, labels: seq<string>)
    requires labels != []
    ensures Join([l] + labels) == l + "." + Join(labels)
  {
    assert ([l] + labels)[1..] == labels;
  }

  /** Something without a dot in front of anything is valid exactly when all of it consists of
      labels and fits. */
  lemma PrefixAnything(l: string, d: string)
    requires '.' !in l
    ensures IsValidHostname(l + "." + d) <==> IsLabel(l) && AllLabels(Split(d)) && |l| + 1 + |d| <= 253
  {
    hide IsLabel, IsValidHostname, Split, Join;
    var h, longer := l + "." + d, [l] + Split(d);
    SplitLabel(l, d);
    ValidIffWellFormed(h);
    JoinSplit(d);
    JoinPrefixed(l, Split(d));
    if WellFormed(h) {
      var parts :| |parts| >= 2 && AllLabels(parts) && Join(parts) == h;
      SplitJoin(parts);
      assert IsLabel(longer[0]);
      assert forall i :: 0 <= i < |Split(d)| ==> longer[i + 1] == Split(d)[i];
    }
    if IsLabel(l) && AllLabels(Split(d)) {
      assert AllLabels(longer);
    }
  }

  /** When the random source fails, the configured domain is used as it stands: the result is
      valid exactly when all its labels are and the time-stamped label fits in front. */
  lemma RandomFailureIff(tenant: Option<string>, config: string, now: nat)
    requires BaseDomain(tenant, config) != ""
    ensures var d := BaseDomain(tenant, config);
            IsValidHostname(GenerateHostname(tenant, config, None, now))
            <==> AllLabels(Split(d)) && |Decimal(now)| <= 60 && 3 + |Decimal(now)| + 1 + |d| <= 253
    ensures GenerateHostname(tenant, config, None, now) == "lb-" + Decimal(now) + "." + BaseDomain(tenant, config)
  {
    var d := BaseDomain(tenant, config);
    FallbackLabel(now);
    PrefixAnything("lb-" + Decimal(now), d);
    hide IsValidHostname, Split, IsLabel, Decimal;
    assert Fallback(now, d) == "lb-" + Decimal(now) + "." + d;
  }

  /** So a wildcard domain, whose first label is not one, yields a name that is never valid. */
  lemma RandomFailureInvalid(tenant: Option<string>, config: string, now: nat)
    requires "*." <= BaseDomain(tenant, config)
    ensures !IsValidHostname(GenerateHostname(tenant, config, None, now))
  {
    var d := BaseDomain(tenant, config);
    RandomFailureIff(tenant, config, now);
    assert d == "*" + "." + d[2..];
    SplitLabel("*", d[2..]);
    assert Split(d)[0] == "*" && !IsLabel("*");
  }
}
