/**
 * `SSLAnalysisAgent`: looks up the certificate a host presents on port 443
 * and scores three things about it: whether its issuer is one of the free
 * or automated authorities common on phishing sites, how recently it was
 * issued, and how short its validity period is. Any failure to obtain or
 * read the certificate yields no record at all.
 */
module SslAgent {
  import opened Text
  import opened Urls
  import opened Scoring
  import opened Records

  const Name := "SSL/TLS Certificate Analyzer"

  const SuspiciousIssuers: seq<string> := ["Let's Encrypt", "ZeroSSL", "Cloudflare Inc", "Google Trust Services LLC"]

  const SecondsPerDay := 86400

  const Warning := "\U{26a0}\U{fe0f} "
  const Check := "\U{2705} "
  const Alarm := "\U{1f6a8} "
  const Info := "\U{2139}\U{fe0f} "

  /**
   * One entry of a relative distinguished name: a tuple or list of fields
   * (normally an attribute name and its value), or anything else.
   */
  datatype AttrItem = Fields(fields: seq<string>) | Scalar(text: string)

  /**
   * What `getpeercert()` returns: nothing (None or an empty dictionary), or
   * a dictionary whose issuer is a sequence of RDNs (empty when the key is
   * missing) and whose validity dates may be missing.
   */
  datatype Cert =
    | NoCert
    | Cert(issuer: seq<seq<AttrItem>>, notBefore: Option<string>, notAfter: Option<string>)

  /** The TLS handshake with a host, which may time out or fail. */
  type Handshake = string -> Outcome<Cert>

  /** `datetime.strptime(s, '%b %d %H:%M:%S %Y %Z')`, in whole seconds since the epoch. */
  type TimeParser = string -> Outcome<int>

  /** The item is a tuple or list with at least two fields, the test of `agents/ssl_agent.py:50`. */
  predicate IsPair(a: AttrItem) {
    a.Fields? && |a.fields| >= 2
  }

  predicate PairWithKey(a: AttrItem, key: string) {
    IsPair(a) && a.fields[0] == key
  }

  /** The items of the RDNs, one RDN after the other. */
  function Flatten(rdns: seq<seq<AttrItem>>): seq<AttrItem> {
    if rdns == [] then [] else Flatten(rdns[..|rdns| - 1]) + rdns[|rdns| - 1]
  }

  /** The dictionary built by storing each pair's value under its key, item by item. */
  function MapOf(items: seq<AttrItem>): map<string, string> {
    if items == [] then map[]
    else
      var d := MapOf(items[..|items| - 1]);
      var a := items[|items| - 1];
      if IsPair(a) then d[a.fields[0] := a.fields[1]] else d
  }

  function IssuerMap(rdns: seq<seq<AttrItem>>): map<string, string> {
    MapOf(Flatten(rdns))
  }

  /** `issuer_dict.get(key, '')`. */
  function Get(d: map<string, string>, key: string): string {
    if key in d then d[key] else ""
  }

  /** `f"{org_name} ({common_name})" if org_name else str(common_name)`. */
  function IssuerString(d: map<string, string>): (r: string)
    ensures Get(d, "organizationName") == "" ==> r == Get(d, "commonName")
    ensures Get(d, "organizationName") != "" ==> Get(d, "organizationName") <= r && r[|r| - 1] == ')'
  {
    var cn := Get(d, "commonName");
    var org := Get(d, "organizationName");
    if org != "" then org + " (" + cn + ")" else cn
  }

  /** `any(susp in issuer_str for susp in suspicious_issuers)`. */
  predicate IsSuspicious(issuer: string) {
    exists k | 0 <= k < |SuspiciousIssuers| :: Contains(issuer, SuspiciousIssuers[k])
  }

  /** `timedelta.days`: whole days, rounded down. */
  function Days(seconds: int): (d: int)
    ensures d * SecondsPerDay <= seconds < (d + 1) * SecondsPerDay
  {
    seconds / SecondsPerDay
  }

  function IssuerFinding(issuer: string, suspicious: bool, lang: string): string {
    if suspicious then
      if lang == "PT" then Warning + "Emissor gratuito/comum (" + issuer + ")"
      else Warning + "Free/common issuer (" + issuer + ")"
    else
      if lang == "PT" then Check + "Emissor confiável: " + issuer
      else Check + "Trusted issuer: " + issuer
  }

  function NewFinding(age: int, lang: string): string {
    if lang == "PT" then Alarm + "Certificado emitido há apenas " + IntToString(age) + " dias"
    else Alarm + "Certificate issued only " + IntToString(age) + " days ago"
  }

  function RecentFinding(age: int, lang: string): string {
    if lang == "PT" then Warning + "Certificado recente (" + IntToString(age) + " dias)"
    else Warning + "Recent certificate (" + IntToString(age) + " days)"
  }

  function ShortFinding(duration: int, lang: string): string {
    if lang == "PT" then Info + "Certificado de curta duração (" + IntToString(duration) + " dias)"
    else Info + "Short-term certificate (" + IntToString(duration) + " days)"
  }

  /** What the rules look at: the issuer string, the certificate's age and its validity period, in days. */
  datatype Features = Features(issuer: string, age: int, duration: int)

  /**
   * The detector's rules in order. The issuer rule always reports (a warning
   * or a reassurance) and adds 0.3 only for a suspicious issuer; the two age
   * rules are the branches of one `if`/`elif`.
   */
  function RulesOver(f: Features, lang: string): seq<Rule> {
    var suspicious := IsSuspicious(f.issuer);
    [ Rule(true, if suspicious then 0.3 else 0.0, IssuerFinding(f.issuer, suspicious, lang)),
      Rule(f.age < 7, 0.5, NewFinding(f.age, lang)),
      Rule(7 <= f.age < 30, 0.2, RecentFinding(f.age, lang)),
      Rule(f.duration <= 90, 0.1, ShortFinding(f.duration, lang)) ]
  }

  function Verdict(score: real, lang: string): string {
    if score > 0.6 then "Phishing"
    else if score > 0.3 then (if lang == "PT" then "Suspeito" else "Suspect")
    else if lang == "PT" then "Legítima" else "Legit"
  }

  function Question(lang: string): string {
    if lang == "PT" then "Como posso saber se um certificado SSL é realmente confiável?"
    else "How can I tell if an SSL certificate is truly trustworthy?"
  }

  function NoCertRecord(lang: string): AgentResult {
    Record(Name, 0.8, "Phishing",
      [if lang == "PT" then "Certificado SSL não encontrado ou inválido" else "SSL certificate not found or invalid"])
  }

  function Scored(f: Features, lang: string): AgentResult {
    var score := Clamp(Gained(RulesOver(f, lang)));
    AgentResult(Some(Name), Some(score), Verdict(score, lang), Some(Notes(RulesOver(f, lang))), None, Some(Question(lang)))
  }

  /** The features of a certificate whose dates were read, at time `now`. */
  function FeaturesOf(issuer: seq<seq<AttrItem>>, notBefore: int, notAfter: int, now: int): Features {
    Features(IssuerString(IssuerMap(issuer)), Days(now - notBefore), Days(notAfter - notBefore))
  }

  /** Reading a date field: a missing key or a string `strptime` rejects raises. */
  function ReadDate(field: Option<string>, parseTime: TimeParser): (r: Option<int>)
    ensures r.Some? <==> field.Some? && parseTime(field.value).Returned?
    ensures r.Some? ==> parseTime(field.value) == Returned(r.value)
  {
    match field
    case None => None
    case Some(s) =>
      match parseTime(s)
      case Raised(_) => None
      case Returned(t) => Some(t)
  }

  /**
   * What `analyze(url, lang)` returns at time `now`: None for a URL without
   * a host name and for any exception, the fixed record for a missing
   * certificate, and otherwise the scored one.
   */
  function Expected(url: string, lang: string, handshake: Handshake, parseTime: TimeParser, now: int): Option<AgentResult> {
    if url == "" || Hostname(url) == "" then None
    else
      match handshake(Hostname(url))
      case Raised(_) => None
      case Returned(cert) =>
        if cert.NoCert? then Some(NoCertRecord(lang))
        else
          var notBefore := ReadDate(cert.notBefore, parseTime);
          var notAfter := ReadDate(cert.notAfter, parseTime);
          if notBefore.None? || notAfter.None? then None
          else Some(Scored(FeaturesOf(cert.issuer, notBefore.value, notAfter.value, now), lang))
  }

  /** The nested loop of `agents/ssl_agent.py:48-51`: every pair, in order, stored under its key. */
  method BuildIssuerMap(rdns: seq<seq<AttrItem>>) returns (d: map<string, string>)
    ensures d == IssuerMap(rdns)
  {
    d := map[];
    for i := 0 to |rdns|
      invariant d == MapOf(Flatten(rdns[..i]))
    {
      var rdn := rdns[i];
      ghost var seen := Flatten(rdns[..i]);
      assert seen + rdn[..0] == seen;
      for j := 0 to |rdn|
        invariant d == MapOf(seen + rdn[..j])
      {
        var attr := rdn[j];
        StoreStep(seen, rdn, j);
        if attr.Fields? && |attr.fields| >= 2 {
          d := d[attr.fields[0] := attr.fields[1]];
        }
      }
      FlattenStep(rdns, i);
    }
    assert rdns[..|rdns|] == rdns;
  }

  /** One more item: its pair, if it is one, stored over the dictionary so far. */
  lemma StoreStep(seen: seq<AttrItem>, rdn: seq<AttrItem>, j: nat)
    requires j < |rdn|
    ensures MapOf(seen + rdn[..j + 1]) ==
      if IsPair(rdn[j]) then MapOf(seen + rdn[..j])[rdn[j].fields[0] := rdn[j].fields[1]]
      else MapOf(seen + rdn[..j])
  {
    assert seen + rdn[..j + 1] == (seen + rdn[..j]) + [rdn[j]];
  }

  /** One more RDN: its items follow the items before it. */
  lemma FlattenStep(rdns: seq<seq<AttrItem>>, i: nat)
    requires i < |rdns|
    ensures Flatten(rdns[..i + 1]) == Flatten(rdns[..i]) + rdns[i][..|rdns[i]|]
  {
    assert rdns[..i + 1][..i] == rdns[..i];
    assert rdns[i][..|rdns[i]|] == rdns[i];
  }

  /** `agents/ssl_agent.py:58-87`: the issuer, age and duration rules, each adding its amount and its finding. */
  method ApplyRules(f: Features, lang: string) returns (score: real, findings: seq<string>)
    ensures score == Gained(RulesOver(f, lang)) && findings == Notes(RulesOver(f, lang))
  {
    ghost var rules := RulesOver(f, lang);
    assert rules[1] == Rule(f.age < 7, 0.5, NewFinding(f.age, lang));
    assert rules[2] == Rule(7 <= f.age < 30, 0.2, RecentFinding(f.age, lang));
    score, findings := 0.0, [];
    var isSuspicious := exists k | 0 <= k < |SuspiciousIssuers| :: Contains(f.issuer, SuspiciousIssuers[k]);
    if isSuspicious {
      score := score + 0.3;
      findings := findings + [IssuerFinding(f.issuer, true, lang)];
    } else {
      findings := findings + [IssuerFinding(f.issuer, false, lang)];
    }
    Step(rules, 0);
    assert score == GainedFirst(rules, 1) && findings == NotesFirst(rules, 1);

    if f.age < 7 {
      score := score + 0.5;
      findings := findings + [NewFinding(f.age, lang)];
    } else if f.age < 30 {
      score := score + 0.2;
      findings := findings + [RecentFinding(f.age, lang)];
    }
    Step(rules, 1);
    Step(rules, 2);
    assert score == GainedFirst(rules, 3) && findings == NotesFirst(rules, 3);

    if f.duration <= 90 {
      score := score + 0.1;
      findings := findings + [ShortFinding(f.duration, lang)];
    }
    Step(rules, 3);
  }

  /** `SSLAnalysisAgent.analyze(url, lang)`, with the handshake, the date parser and the clock as inputs. */
  method Analyze(url: string, lang: string, handshake: Handshake, parseTime: TimeParser, now: int)
    returns (r: Option<AgentResult>)
    ensures r == Expected(url, lang, handshake, parseTime, now)
  {
    if url == "" {
      return None;
    }
    var hostname := Hostname(url);
    if hostname == "" {
      return None;
    }
    var fetched := handshake(hostname);
    if fetched.Raised? {
      return None;
    }
    var cert := fetched.value;
    if cert.NoCert? {
      return Some(NoCertRecord(lang));
    }
    var issuerDict := BuildIssuerMap(cert.issuer);
    var issuer := IssuerString(issuerDict);
    var notBefore := ReadDate(cert.notBefore, parseTime);
    var notAfter := ReadDate(cert.notAfter, parseTime);
    if notBefore.None? || notAfter.None? {
      return None;
    }
    var features := Features(issuer, Days(now - notBefore.value), Days(notAfter.value - notBefore.value));
    var score, findings := ApplyRules(features, lang);
    var finalScore := Clamp(score);
    r := Some(AgentResult(Some(Name), Some(finalScore), Verdict(finalScore, lang), Some(findings), None, Some(Question(lang))));
  }

  /** A pair stored after every other pair with the same key gives that key its value. */
  lemma {:induction false} LaterPairWins(items: seq<AttrItem>, key: string, i: nat)
    requires i < |items| && PairWithKey(items[i], key)
    requires forall j :: i < j < |items| ==> !PairWithKey(items[j], key)
    ensures key in MapOf(items) && MapOf(items)[key] == items[i].fields[1]
  {
    if i < |items| - 1 {
      var prefix := items[..|items| - 1];
      assert forall j :: i < j < |prefix| ==> prefix[j] == items[j];
      LaterPairWins(prefix, key, i);
    }
  }

  /** A key no pair carries is absent from the dictionary. */
  lemma {:induction false} KeyAbsent(items: seq<AttrItem>, key: string)
    requires forall j :: 0 <= j < |items| ==> !PairWithKey(items[j], key)
    ensures key !in MapOf(items)
  {
    if items != [] {
      var prefix := items[..|items| - 1];
      assert forall j :: 0 <= j < |prefix| ==> prefix[j] == items[j];
      KeyAbsent(prefix, key);
    }
  }

  /** The dictionary holds no key that some pair does not carry. */
  lemma {:induction false} KeysFromPairs(items: seq<AttrItem>, key: string)
    requires key in MapOf(items)
    ensures exists j :: 0 <= j < |items| && PairWithKey(items[j], key) && items[j].fields[1] == MapOf(items)[key]
  {
    var prefix := items[..|items| - 1];
    var a := items[|items| - 1];
    if PairWithKey(a, key) {
      assert PairWithKey(items[|items| - 1], key);
    } else {
      assert MapOf(items)[key] == MapOf(prefix)[key];
      KeysFromPairs(prefix, key);
      var j :| 0 <= j < |prefix| && PairWithKey(prefix[j], key) && prefix[j].fields[1] == MapOf(prefix)[key];
      assert items[j] == prefix[j];
    }
  }

  /** Every rule adds a non-negative amount. */
  lemma RulesNonNegative(f: Features, lang: string)
    ensures NonNegative(RulesOver(f, lang))
  {
  }

  /**
   * The score is the sum of the issuer, age and duration contributions; the
   * two age rules never both fire, so the sum is at most 0.9 and the clamp
   * never bites.
   */
  lemma ScoreParts(f: Features, lang: string)
    ensures Gained(RulesOver(f, lang)) ==
      (if IsSuspicious(f.issuer) then 0.3 else 0.0)
      + (if f.age < 7 then 0.5 else if f.age < 30 then 0.2 else 0.0)
      + (if f.duration <= 90 then 0.1 else 0.0)
    ensures 0.0 <= Gained(RulesOver(f, lang)) <= 0.9
    ensures Clamp(Gained(RulesOver(f, lang))) == Gained(RulesOver(f, lang))
  {
    var rules := RulesOver(f, lang);
    Step(rules, 0);
    Step(rules, 1);
    Step(rules, 2);
    Step(rules, 3);
  }

  /**
   * A scored certificate's report starts with exactly one issuer finding (a
   * warning exactly when the issuer is suspicious), and has one finding for
   * each other rule that fires.
   */
  lemma IssuerFindingFirst(f: Features, lang: string)
    ensures var notes := Notes(RulesOver(f, lang));
      && notes != [] && notes[0] == IssuerFinding(f.issuer, IsSuspicious(f.issuer), lang)
      && 1 <= |notes| <= 3
  {
    var rules := RulesOver(f, lang);
    NotesGrow(rules, 1, 4);
    assert NotesFirst(rules, 1) == [rules[0].finding];
    NotesCount(rules, 4);
    assert FiredFirst(rules, 1) == 1;
    assert FiredFirst(rules, 3) <= 2;
  }

  /**
   * Nothing comes back for a URL without a host name, when the handshake
   * fails, or when a certificate's date is missing or rejected by the parser.
   */
  lemma NoRecord(url: string, lang: string, handshake: Handshake, parseTime: TimeParser, now: int)
    ensures url == "" || Hostname(url) == "" ==> Expected(url, lang, handshake, parseTime, now).None?
    ensures url != "" && Hostname(url) != "" && handshake(Hostname(url)).Raised? ==>
      Expected(url, lang, handshake, parseTime, now).None?
    ensures (url != "" && Hostname(url) != "" && handshake(Hostname(url)).Returned?
             && handshake(Hostname(url)).value.Cert?
             && (ReadDate(handshake(Hostname(url)).value.notBefore, parseTime).None?
                 || ReadDate(handshake(Hostname(url)).value.notAfter, parseTime).None?)) ==>
      Expected(url, lang, handshake, parseTime, now).None?
  {
  }

  /** A host that presents no certificate gets 0.8 and "Phishing", with one finding. */
  lemma MissingCertificate(url: string, lang: string, handshake: Handshake, parseTime: TimeParser, now: int)
    requires url != "" && Hostname(url) != "" && handshake(Hostname(url)) == Returned(NoCert)
    ensures var r := Expected(url, lang, handshake, parseTime, now);
      r.Some? && r.value.score == Some(0.8) && r.value.result == "Phishing"
      && r.value.findings.Some? && |r.value.findings.value| == 1
  {
  }

  /**
   * A scored certificate: score in [0, 1], "Phishing" above 0.6, the middle
   * verdict above 0.3, and the question in the report's language.
   */
  lemma ScoredCertificate(f: Features, lang: string)
    ensures var r := Scored(f, lang);
      && 0.0 <= r.score.value <= 0.9
      && (r.result == "Phishing" <==> r.score.value > 0.6)
      && (r.result in {"Suspeito", "Suspect"} <==> 0.3 < r.score.value <= 0.6)
      && (r.result in {"Legítima", "Legit"} <==> r.score.value <= 0.3)
  {
    ScoreParts(f, lang);
    VerdictThresholds(Gained(RulesOver(f, lang)), lang);
  }

  /** The verdict's thresholds, and its words in each language. */
  lemma VerdictThresholds(score: real, lang: string)
    ensures Verdict(score, lang) == "Phishing" <==> score > 0.6
    ensures Verdict(score, lang) in {"Suspeito", "Suspect"} <==> 0.3 < score <= 0.6
    ensures Verdict(score, lang) in {"Legítima", "Legit"} <==> score <= 0.3
    ensures lang == "PT" ==> Verdict(score, lang) in {"Phishing", "Suspeito", "Legítima"}
    ensures lang != "PT" ==> Verdict(score, lang) in {"Phishing", "Suspect", "Legit"}
  {
  }

  /** A certificate less than a week old from a suspicious issuer is phishing on its own. */
  lemma NewFromFreeIssuer(f: Features, lang: string)
    requires IsSuspicious(f.issuer) && f.age < 7
    ensures Scored(f, lang).score.value >= 0.8 && Scored(f, lang).result == "Phishing"
  {
    ScoreParts(f, lang);
  }

  /**
   * With exact arithmetic, a recent, short-term certificate from a trusted
   * issuer scores exactly 0.3, which is not above the middle threshold.
   */
  lemma RecentShortTrusted(f: Features)
    requires !IsSuspicious(f.issuer) && 7 <= f.age < 30 && f.duration <= 90
    ensures Scored(f, "PT").score == Some(0.3) && Scored(f, "PT").result == "Legítima"
  {
    ScoreParts(f, "PT");
  }

  /** An issuer whose organisation is Let's Encrypt is suspicious. */
  lemma LetsEncryptIsSuspicious(d: map<string, string>)
    requires Get(d, "organizationName") == "Let's Encrypt"
    ensures IsSuspicious(IssuerString(d))
  {
    assert MatchesAt(IssuerString(d), SuspiciousIssuers[0], 0);
  }
}
