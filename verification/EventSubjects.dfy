/** The broker's dot-delimited subjects: how events and analytics records are named, what
    can be read back from a name, and which filters see it. */
module EventSubjects {
  import opened Common
  import opened Text

  const EVENTS := "events"
  const ANALYTICS := "analytics"
  const NO_TENANT := "_none"

  // ---- The events grammar ----

  /** The one abbreviation there is. */
  function Abbreviated(domain: string): string {
    if domain == "message" then "msg" else domain
  }

  /** `events.{domain}.{action}.{env}`; `None` where the original throws. */
  function SubjectFor(kind: string, environment: string): Option<string> {
    if kind == "" || environment == "" then None else
    var parts := Split(kind, '.');
    Some(Join([EVENTS, Abbreviated(parts[0])] + parts[1..] + [environment], '.'))
  }

  /** What a consumer can read back: everything between the prefix and the last token is the
      type, its domain spelled out again. */
  function ReadBack(subject: string): (string, string) {
    var tokens := Split(subject, '.');
    var n := |tokens|;
    if n < 3 then ("", "") else
    (Join([if tokens[1] == "msg" then "message" else tokens[1]] + tokens[2..n - 1], '.'), tokens[n - 1])
  }

  lemma TokensAreClean(kind: string, environment: string)
    requires Without(environment, '.')
    ensures forall p :: p in [EVENTS, Abbreviated(Split(kind, '.')[0])] + Split(kind, '.')[1..] + [environment] ==>
            Without(p, '.')
  {
    var parts := Split(kind, '.');
    assert parts[0] in parts;
    forall p | p in [EVENTS, Abbreviated(parts[0])] + parts[1..] + [environment] ensures Without(p, '.') {
      assert p == EVENTS || p == Abbreviated(parts[0]) || p in parts[1..] || p == environment;
    }
  }

  lemma SubjectTokens(kind: string, environment: string)
    requires kind != "" && environment != "" && Without(environment, '.')
    ensures Split(SubjectFor(kind, environment).value, '.')
            == [EVENTS, Abbreviated(Split(kind, '.')[0])] + Split(kind, '.')[1..] + [environment]
  {
    TokensAreClean(kind, environment);
    SplitJoined([EVENTS, Abbreviated(Split(kind, '.')[0])] + Split(kind, '.')[1..] + [environment], '.');
  }

  lemma ReadBackOfTokens(kind: string, environment: string)
    requires kind != "" && environment != "" && Without(environment, '.')
    ensures var parts, d := Split(kind, '.'), Abbreviated(Split(kind, '.')[0]);
            ReadBack(SubjectFor(kind, environment).value)
                == (Join([if d == "msg" then "message" else d] + parts[1..], '.'), environment)
  {
    SubjectTokens(kind, environment);
    var parts := Split(kind, '.');
    var tokens := [EVENTS, Abbreviated(parts[0])] + parts[1..] + [environment];
    assert tokens[2..|tokens| - 1] == parts[1..];
  }

  /** A type and an environment name a subject unless one is empty, and come back from it exactly
      when the environment has no dot and the type's domain is not itself `msg`. */
  lemma {:induction false} EventSubjectReadsBack(kind: string, environment: string)
    ensures SubjectFor(kind, environment).None? <==> kind == "" || environment == ""
    ensures kind != "" && environment != "" ==>
              (ReadBack(SubjectFor(kind, environment).value) == (kind, environment) <==>
                  Without(environment, '.') && Split(kind, '.')[0] != "msg")
  {
    if kind == "" || environment == "" {
      return;
    }
    var parts := Split(kind, '.');
    assert [parts[0]] + parts[1..] == parts;
    if Without(environment, '.') {
      ReadBackOfTokens(kind, environment);
      if parts[0] == "msg" {
        JoinFirst("message", "msg", parts[1..]);
      }
    } else {
      var tokens := Split(SubjectFor(kind, environment).value, '.');
      assert tokens[|tokens| - 1] in tokens;
      assert |tokens| >= 3 ==> ReadBack(SubjectFor(kind, environment).value).1 == tokens[|tokens| - 1];
    }
  }

  /** A different first token makes a different text of different length. */
  lemma JoinFirst(a: string, b: string, rest: seq<string>)
    ensures |Join([a] + rest, '.')| - |a| == |Join([b] + rest, '.')| - |b|
  {
    assert ([a] + rest)[1..] == rest && ([b] + rest)[1..] == rest;
  }

  /** The tokens after the domain, of a type that goes on with `rest`. */
  function After(rest: string): seq<string> {
    if rest == "" then [] else Split(rest[1..], '.')
  }

  lemma DomainOf(domain: string, rest: string)
    requires Without(domain, '.') && (rest == "" || rest[0] == '.')
    ensures Split(domain + rest, '.') == [domain] + After(rest)
  {
    if rest == "" {
      assert domain + rest == domain;
      SplitToken(domain, '.');
    } else {
      assert domain + rest == domain + ['.'] + rest[1..];
      SplitHead(domain, '.', rest[1..]);
    }
  }

  lemma SubjectOfDomain(domain: string, rest: string, environment: string)
    requires domain != "" && Without(domain, '.') && (rest == "" || rest[0] == '.') && environment != ""
    ensures SubjectFor(domain + rest, environment)
            == Some(Join([EVENTS, Abbreviated(domain)] + After(rest) + [environment], '.'))
  {
    DomainOf(domain, rest);
    assert ([domain] + After(rest))[1..] == After(rest);
  }

  /** And the domain `msg` really collides: it names the subject of `message`. */
  lemma MsgCollides(rest: string, environment: string)
    requires environment != "" && (rest == "" || rest[0] == '.')
    ensures SubjectFor("msg" + rest, environment) == SubjectFor("message" + rest, environment)
  {
    SubjectOfDomain("msg", rest, environment);
    SubjectOfDomain("message", rest, environment);
  }

  // ---- The analytics grammar ----

  predicate IsHex(c: char) {
    '0' <= c <= '9' || 'a' <= c <= 'f' || 'A' <= c <= 'F'
  }

  predicate IsUuid(s: string) {
    |s| == 36 && forall i :: 0 <= i < 36 ==>
        if i == 8 || i == 13 || i == 18 || i == 23 then s[i] == '-' else IsHex(s[i])
  }

  /** `analytics.{domain}.{action}.{env}`; `None` where the original throws. */
  function AnalyticsSubjectFor(domain: string, action: string, environment: string): Option<string> {
    if domain == "" || action == "" || !IsUuid(environment) then None
    else Some(Join([ANALYTICS, domain, action, environment], '.'))
  }

  function ApiRequestSubjectWithoutTenant(): string {
    Join([ANALYTICS, "api", "request", NO_TENANT], '.')
  }

  /** Five groups of hexadecimal digits. */
  predicate Groups(groups: seq<string>) {
    && |groups| == 5
    && |groups[0]| == 8 && |groups[1]| == |groups[2]| == |groups[3]| == 4 && |groups[4]| == 12
    && forall g :: g in groups ==> AllHex(g)
  }

  predicate AllHex(s: string) {
    forall c :: c in s ==> c in "0123456789abcdefABCDEF"
  }

  lemma HexIsADigit(c: char)
    ensures IsHex(c) <==> c in "0123456789abcdefABCDEF"
  {
  }

  lemma JoinFive(a: string, b: string, c: string, d: string, e: string)
    ensures Join([a, b, c, d, e], '-') == a + ['-'] + (b + ['-'] + (c + ['-'] + (d + ['-'] + e)))
  {
    assert [a, b, c, d, e][1..] == [b, c, d, e] && [b, c, d, e][1..] == [c, d, e] && [c, d, e][1..] == [d, e]
        && [d, e][1..] == [e];
    assert Join([d, e], '-') == d + ['-'] + e;
    assert Join([c, d, e], '-') == c + ['-'] + Join([d, e], '-');
    assert Join([b, c, d, e], '-') == b + ['-'] + Join([c, d, e], '-');
  }

  lemma UuidSplits(s: string)
    requires IsUuid(s)
    ensures Split(s, '-') == [s[..8], s[9..13], s[14..18], s[19..23], s[24..]]
  {
    var groups := [s[..8], s[9..13], s[14..18], s[19..23], s[24..]];
    JoinFive(groups[0], groups[1], groups[2], groups[3], groups[4]);
    assert s == Join(groups, '-');
    SplitJoined(groups, '-');
  }

  /** A uuid is five groups of hexadecimal digits, 8, 4, 4, 4 and 12 long, with dashes between. */
  lemma UuidIsFiveGroups(s: string)
    ensures IsUuid(s) <==> Groups(Split(s, '-'))
  {
    forall c: char ensures IsHex(c) <==> c in "0123456789abcdefABCDEF" {
      HexIsADigit(c);
    }
    if IsUuid(s) {
      UuidSplits(s);
    }
    var g := Split(s, '-');
    if Groups(g) {
      assert g == [g[0], g[1], g[2], g[3], g[4]];
      assert forall i :: 0 <= i < 5 ==> g[i] in g && AllHex(g[i]);
      JoinFive(g[0], g[1], g[2], g[3], g[4]);
      GroupsAreUuid(g[0], g[1], g[2], g[3], g[4]);
    }
  }

  lemma GroupsAreUuid(a: string, b: string, c: string, d: string, e: string)
    requires |a| == 8 && |b| == |c| == |d| == 4 && |e| == 12
    requires AllHex(a) && AllHex(b) && AllHex(c) && AllHex(d) && AllHex(e)
    ensures IsUuid(a + ['-'] + (b + ['-'] + (c + ['-'] + (d + ['-'] + e))))
  {
    var s := a + ['-'] + (b + ['-'] + (c + ['-'] + (d + ['-'] + e)));
    forall i | 0 <= i < 36 && i != 8 && i != 13 && i != 18 && i != 23 ensures IsHex(s[i]) {
      assert s[i] in a || s[i] in b || s[i] in c || s[i] in d || s[i] in e;
      HexIsADigit(s[i]);
    }
  }

  /** An analytics subject is named exactly for a domain, an action and a uuid. */
  lemma NamedIffUuid(domain: string, action: string, environment: string)
    ensures AnalyticsSubjectFor(domain, action, environment).Some? <==>
            domain != "" && action != "" && Groups(Split(environment, '-'))
  {
    UuidIsFiveGroups(environment);
  }

  /** A filter as the broker reads it: `*` stands for one token, a last `>` for the rest. */
  predicate Matches(filter: seq<string>, tokens: seq<string>) {
    if filter == [] then tokens == []
    else if filter == [">"] then tokens != []
    else tokens != [] && (filter[0] == "*" || filter[0] == tokens[0]) && Matches(filter[1..], tokens[1..])
  }

  predicate Sees(filter: seq<string>, subject: string) {
    Matches(filter, Split(subject, '.'))
  }

  /** One tenant's records, of any action. */
  function TenantFilter(environment: string): seq<string> {
    [ANALYTICS, "*", "*", environment]
  }

  lemma UuidIsAToken(s: string)
    requires IsUuid(s)
    ensures Without(s, '.') && s != NO_TENANT && s != "*" && s != ">"
  {
    forall i | 0 <= i < |s| ensures s[i] != '.' {
      assert IsHex(s[i]) || s[i] == '-';
    }
  }

  lemma {:induction false} JoinConcat(p: seq<string>, q: seq<string>, c: char)
    requires p != [] && q != []
    ensures Join(p + q, c) == Join(p, c) + [c] + Join(q, c)
  {
    if |p| == 1 {
      assert (p + q)[1..] == q;
    } else {
      JoinConcat(p[1..], q, c);
      assert (p + q)[1..] == p[1..] + q;
    }
  }

  lemma SplitConcat(a: string, b: string, c: char)
    ensures Split(a + [c] + b, c) == Split(a, c) + Split(b, c)
  {
    JoinConcat(Split(a, c), Split(b, c), c);
    SplitJoined(Split(a, c) + Split(b, c), c);
  }

  lemma AnalyticsTokens(domain: string, action: string, last: string)
    requires Without(last, '.')
    ensures Split(Join([ANALYTICS, domain, action, last], '.'), '.')
            == [ANALYTICS] + (Split(domain, '.') + (Split(action, '.') + [last]))
  {
    var dot := ['.'];
    assert Join([action, last], '.') == action + dot + last by { assert [action, last][1..] == [last]; }
    assert Join([domain, action, last], '.')
        == domain + dot + (action + dot + last) by { assert [domain, action, last][1..] == [action, last]; }
    assert Join([ANALYTICS, domain, action, last], '.') == ANALYTICS + dot + (domain + dot + (action + dot + last)) by {
      assert [ANALYTICS, domain, action, last][1..] == [domain, action, last];
    }
    SplitToken(last, '.');
    SplitConcat(action, last, '.');
    SplitConcat(domain, action + dot + last, '.');
    SplitHead(ANALYTICS, '.', domain + dot + (action + dot + last));
  }

  lemma OneTokenIsDotFree(s: string)
    ensures |Split(s, '.')| == 1 <==> Without(s, '.')
    ensures |Split(s, '.')| == 1 ==> Split(s, '.') == [s]
  {
    var parts := Split(s, '.');
    if |parts| == 1 {
      assert parts[0] in parts && Join(parts, '.') == parts[0];
    }
    if Without(s, '.') {
      SplitToken(s, '.');
    }
  }

  /** An analytics subject has four tokens exactly when domain and action have no dot. */
  lemma FourTokens(domain: string, action: string, environment: string)
    requires AnalyticsSubjectFor(domain, action, environment).Some?
    ensures |Split(AnalyticsSubjectFor(domain, action, environment).value, '.')| == 4 <==>
            Without(domain, '.') && Without(action, '.')
    ensures Without(domain, '.') && Without(action, '.') ==>
              Split(AnalyticsSubjectFor(domain, action, environment).value, '.')
                  == [ANALYTICS, domain, action, environment]
  {
    UuidIsAToken(environment);
    AnalyticsTokens(domain, action, environment);
    OneTokenIsDotFree(domain);
    OneTokenIsDotFree(action);
  }

  lemma MatchesFour(tokens: seq<string>, environment: string)
    requires environment != "*" && environment != ">"
    ensures Matches(TenantFilter(environment), tokens) <==>
            |tokens| == 4 && tokens[0] == ANALYTICS && tokens[3] == environment
  {
    var f := TenantFilter(environment);
    assert f[1..] == ["*", "*", environment] && ["*", "*", environment][1..] == ["*", environment]
        && ["*", environment][1..] == [environment];
    assert [environment][1..] == [];
    if tokens != [] {
      MatchesThree(tokens[1..], environment);
    }
  }

  lemma MatchesThree(tokens: seq<string>, environment: string)
    requires environment != "*" && environment != ">"
    ensures Matches(["*", "*", environment], tokens) <==> |tokens| == 3 && tokens[2] == environment
  {
    assert ["*", "*", environment][1..] == ["*", environment] && ["*", environment][1..] == [environment]
        && [environment][1..] == [];
    if |tokens| >= 2 {
      var rest := tokens[1..][1..];
      assert Matches(["*", "*", environment], tokens) == Matches(["*", environment], tokens[1..])
          == Matches([environment], rest);
      if rest != [] {
        assert Matches([environment], rest) == (rest[0] == environment && Matches([], rest[1..]));
      }
    }
  }

  /** A tenant's filter sees a record exactly when the record is that tenant's, and its
      domain and action have no dot. */
  lemma TenantSeesItsOwn(domain: string, action: string, environment: string, tenant: string)
    requires AnalyticsSubjectFor(domain, action, environment).Some? && IsUuid(tenant)
    ensures Sees(TenantFilter(tenant), AnalyticsSubjectFor(domain, action, environment).value) <==>
            tenant == environment && Without(domain, '.') && Without(action, '.')
  {
    FourTokens(domain, action, environment);
    UuidIsAToken(tenant);
    MatchesFour(Split(AnalyticsSubjectFor(domain, action, environment).value, '.'), tenant);
  }

  lemma SeesOnlyItsOwn(domain: string, action: string, last: string, tenant: string)
    requires IsUuid(tenant) && Without(last, '.')
    ensures Sees(TenantFilter(tenant), Join([ANALYTICS, domain, action, last], '.')) ==> last == tenant
  {
    UuidIsAToken(tenant);
    AnalyticsTokens(domain, action, last);
    MatchesFour(Split(Join([ANALYTICS, domain, action, last], '.'), '.'), tenant);
  }

  /** No tenant's filter sees the record of a request that belongs to nobody. */
  lemma NobodySeesNoTenant(tenant: string)
    requires IsUuid(tenant)
    ensures !Sees(TenantFilter(tenant), ApiRequestSubjectWithoutTenant())
    ensures Split(ApiRequestSubjectWithoutTenant(), '.') == ["analytics", "api", "request", "_none"]
  {
    UuidIsAToken(tenant);
    SeesOnlyItsOwn("api", "request", NO_TENANT, tenant);
    SplitJoined([ANALYTICS, "api", "request", NO_TENANT], '.');
  }

  /** The two streams never share a subject: the events wildcard sees every event and no
      analytics record, the analytics wildcard the reverse. */
  lemma StreamsAreApart(kind: string, environment: string, domain: string, action: string, tenant: string)
    requires kind != "" && environment != "" && Without(environment, '.')
    requires AnalyticsSubjectFor(domain, action, tenant).Some?
    ensures Sees(["events", ">"], SubjectFor(kind, environment).value)
            && !Sees(["analytics", ">"], SubjectFor(kind, environment).value)
    ensures Sees(["analytics", ">"], AnalyticsSubjectFor(domain, action, tenant).value)
            && !Sees(["events", ">"], AnalyticsSubjectFor(domain, action, tenant).value)
  {
    SubjectTokens(kind, environment);
    UuidIsAToken(tenant);
    AnalyticsTokens(domain, action, tenant);
    assert [EVENTS, ">"][1..] == [">"] && [ANALYTICS, ">"][1..] == [">"];
  }
}
