/**
 * `URLLexicalAgent`: scores a URL by six lexical rules (an IP address as
 * host, length, subdomain count, '@', hyphens, suspicious keywords), sums
 * what the fired rules add, clamps the sum to [0, 1] and calls the URL
 * phishing above 0.5.
 */
module UrlAgent {
  import opened Text
  import opened Urls
  import opened Scoring
  import opened Records

  const Name := "URL Lexical Analyzer"

  const SuspiciousKeywords: seq<string> :=
    ["login", "verify", "update", "secure", "account", "bank", "pay", "paypal", "signin"]

  const IpFinding := "Uso de endereço IP em vez de domínio"
  const LengthFinding := "URL excessivamente longa"
  const AtFinding := "Uso de símbolo '@' (frequentemente usado para mascarar URLs)"
  const HyphenFinding := "Muitos hífens no domínio"

  function SubdomainFinding(dots: nat): string {
    "Número elevado de subdomínios (" + NatToString(dots) + ")"
  }

  function KeywordFinding(found: seq<string>): string {
    "Palavras-chave suspeitas encontradas: " + Join(", ", found)
  }

  /** The suspicious keywords that occur in the lower-cased URL, in list order. */
  function Keywords(url: string): seq<string> {
    Occurring(SuspiciousKeywords, ToLower(url))
  }

  /** What the rules look at: the host, the URL's length, and the keywords found. */
  datatype Features = Features(ipHost: bool, length: nat, dots: nat, hasAt: bool, hyphens: nat, found: seq<string>)

  function FeaturesOf(url: string): Features {
    var host := Netloc(url);
    Features(IsDottedQuad(host), |url|, CountChar(host, '.'), '@' in url, CountChar(host, '-'), Keywords(url))
  }

  /** The detector's rules over those features, in the order it applies them. */
  function RulesOver(f: Features): seq<Rule> {
    [ Rule(f.ipHost, 0.8, IpFinding),
      Rule(f.length > 75, 0.3, LengthFinding),
      Rule(f.dots > 3, 0.4, SubdomainFinding(f.dots)),
      Rule(f.hasAt, 0.7, AtFinding),
      Rule(f.hyphens > 2, 0.2, HyphenFinding),
      Rule(f.found != [], 0.2 * |f.found| as real, KeywordFinding(f.found)) ]
  }

  function Rules(url: string): seq<Rule> {
    RulesOver(FeaturesOf(url))
  }

  function Verdict(score: real): string {
    if score > 0.5 then "Phishing" else "Legítima"
  }

  /** The record `analyze(url)` returns: the empty-URL record, or the scored one. */
  function Expected(url: string): AgentResult {
    if url == "" then
      AgentResult(None, Some(0.0), "Neutral", Some(["URL não fornecida"]), None, None)
    else
      var score := Clamp(Gained(Rules(url)));
      Record(Name, score, Verdict(score), Notes(Rules(url)))
  }

  /**
   * The scoring half of `URLLexicalAgent.analyze`: each rule, in turn, adds
   * its amount to the score and its finding to the report when it fires.
   */
  method ApplyRules(f: Features) returns (score: real, findings: seq<string>)
    ensures score == Gained(RulesOver(f)) && findings == Notes(RulesOver(f))
  {
    ghost var rules := RulesOver(f);
    score := 0.0;
    findings := [];

    if f.ipHost {
      score := score + 0.8;
      findings := findings + [IpFinding];
    }
    assert score == GainedFirst(rules, 1) && findings == NotesFirst(rules, 1);

    if f.length > 75 {
      score := score + 0.3;
      findings := findings + [LengthFinding];
    }
    assert score == GainedFirst(rules, 2) && findings == NotesFirst(rules, 2);

    if f.dots > 3 {
      score := score + 0.4;
      findings := findings + [SubdomainFinding(f.dots)];
    }
    assert score == GainedFirst(rules, 3) && findings == NotesFirst(rules, 3);

    if f.hasAt {
      score := score + 0.7;
      findings := findings + [AtFinding];
    }
    assert score == GainedFirst(rules, 4) && findings == NotesFirst(rules, 4);

    if f.hyphens > 2 {
      score := score + 0.2;
      findings := findings + [HyphenFinding];
    }
    assert score == GainedFirst(rules, 5) && findings == NotesFirst(rules, 5);

    if f.found != [] {
      score := score + 0.2 * |f.found| as real;
      findings := findings + [KeywordFinding(f.found)];
    }
  }

  /**
   * `URLLexicalAgent.analyze`: an empty URL is reported as neutral; any other
   * URL is split, its features read off, the rules applied, the sum clamped
   * and the verdict taken at 0.5.
   */
  method Analyze(url: string) returns (r: AgentResult)
    ensures r == Expected(url)
  {
    if url == "" {
      return AgentResult(None, Some(0.0), "Neutral", Some(["URL não fornecida"]), None, None);
    }
    var netloc := Netloc(url);
    var dotCount := CountChar(netloc, '.');
    var hyphens := CountChar(netloc, '-');
    var found := Occurring(SuspiciousKeywords, ToLower(url));
    var features := Features(IsDottedQuad(netloc), |url|, dotCount, '@' in url, hyphens, found);
    assert features == FeaturesOf(url);
    var score, findings := ApplyRules(features);
    var finalScore := Clamp(score);
    var result := if finalScore > 0.5 then "Phishing" else "Legítima";
    r := Record(Name, finalScore, result, findings);
  }

  /** Every rule adds a non-negative amount. */
  lemma RulesNonNegative(f: Features)
    ensures NonNegative(RulesOver(f))
  {
  }

  /**
   * A scored URL gets a score in [0, 1], one finding per fired rule, and the
   * verdict "Phishing" exactly when the score exceeds 0.5 ("Legítima"
   * otherwise: this detector never says "Suspeito").
   */
  lemma ScoredUrl(url: string)
    requires url != ""
    ensures Expected(url).score.Some?
    ensures 0.0 <= Expected(url).score.value <= 1.0
    ensures Expected(url).result == "Phishing" <==> Expected(url).score.value > 0.5
    ensures Expected(url).result != "Phishing" ==> Expected(url).result == "Legítima"
    ensures Expected(url).agent == Some(Name)
    ensures |Expected(url).findings.value| == FiredCount(Rules(url))
    ensures Expected(url).findings.value == [] <==> forall k :: 0 <= k < 6 ==> !Rules(url)[k].fires
  {
    var rules := Rules(url);
    NotesCount(rules, 6);
    NotesAreFiredFindings(rules, 6);
    if forall k :: 0 <= k < 6 ==> !rules[k].fires {
      NothingFires(rules, 6);
    } else {
      var k :| 0 <= k < 6 && rules[k].fires;
      assert rules[k].finding in Notes(rules);
    }
  }

  /** The score before clamping is the sum over the fired rules; clamping keeps it in [0, 1]. */
  lemma UnclampedScore(url: string)
    requires url != ""
    ensures Gained(Rules(url)) >= 0.0
    ensures Gained(Rules(url)) <= 1.0 ==> Expected(url).score == Some(Gained(Rules(url)))
    ensures Gained(Rules(url)) > 1.0 ==> Expected(url).score == Some(1.0)
  {
    RulesNonNegative(FeaturesOf(url));
    GainedBounds(Rules(url), 6);
  }

  /** The IP rule comes first and adds 0.8 by itself. */
  lemma IpRuleFirst(f: Features)
    requires f.ipHost
    ensures Gained(RulesOver(f)) >= 0.8
    ensures Notes(RulesOver(f)) != [] && Notes(RulesOver(f))[0] == IpFinding
  {
    var rules := RulesOver(f);
    RulesNonNegative(f);
    FiredRuleCounts(rules, 0);
    NotesGrow(rules, 1, 6);
    assert NotesFirst(rules, 1) == [IpFinding];
  }

  /** A host that is a dotted-quad IP address alone makes the URL phishing, reported first. */
  lemma IpHostIsPhishing(url: string)
    requires url != "" && IsDottedQuad(Netloc(url))
    ensures Expected(url).score.Some? && Expected(url).score.value >= 0.8
    ensures Expected(url).result == "Phishing"
    ensures Expected(url).findings.Some? && Expected(url).findings.value != []
    ensures Expected(url).findings.value[0] == IpFinding
  {
    IpRuleFirst(FeaturesOf(url));
  }

  /** Keywords overlap: a URL mentioning "paypal" also mentions "pay", and both count. */
  lemma OverlappingKeywords(url: string)
    requires url != "" && Contains(ToLower(url), "paypal")
    ensures "pay" in Keywords(url) && "paypal" in Keywords(url)
    ensures |Keywords(url)| >= 2
  {
    assert MatchesAt("paypal", "pay", 0);
    ContainsTransitive(ToLower(url), "paypal", "pay");
    var found := Keywords(url);
    var i :| 0 <= i < |found| && found[i] == "pay";
    var j :| 0 <= j < |found| && found[j] == "paypal";
    assert i != j;
  }

  /** An IP host together with any keyword already reaches the clamp. */
  lemma IpAndKeyword(f: Features)
    requires f.ipHost && f.found != []
    ensures Gained(RulesOver(f)) >= 1.0
  {
    RulesNonNegative(f);
    TwoFired(RulesOver(f), 0, 5);
  }

  /** A URL whose host is an IP address and which mentions any keyword scores the maximum. */
  lemma IpWithKeywordIsCertain(url: string)
    requires url != "" && IsDottedQuad(Netloc(url)) && Keywords(url) != []
    ensures Expected(url).score == Some(1.0)
    ensures Expected(url).result == "Phishing"
  {
    IpAndKeyword(FeaturesOf(url));
  }

  /** A part of the URL that lowers to a suspicious keyword makes that keyword found, wherever it sits. */
  lemma {:induction false} KeywordAnywhere(before: string, part: string, after: string, w: string)
    requires w in SuspiciousKeywords && ToLower(part) == w
    ensures w in Keywords(before + part + after)
  {
    LowerConcat(before + part, after);
    LowerConcat(before, part);
    var lower := ToLower(before + part + after);
    var i := |ToLower(before)|;
    assert lower == ToLower(before) + w + ToLower(after);
    assert lower[i..i + |w|] == w;
    assert MatchesAt(lower, w, i);
  }

  lemma LoginAt(url: string)
    requires url == "http://192.168.1.1/login?verify=1"
    ensures "login" in Keywords(url)
  {
    LoginParts(url);
    assert ToLower("login") == "login";
    KeywordAnywhere("http://192.168.1.1/", "login", "?verify=1", "login");
  }

  lemma LoginParts(url: string)
    requires url == "http://192.168.1.1/login?verify=1"
    ensures url == "http://192.168.1.1/" + "login" + "?verify=1"
    ensures url == "http://" + "192.168.1.1" + "/login?verify=1"
  {
  }

  /** The KELVIN SIGN lowers to 'k', so "ban" followed by it names "bank", wherever it sits. */
  lemma KelvinSignKeyword(before: string, after: string)
    ensures "bank" in Keywords(before + "ban\U{212a}" + after)
  {
    assert ToLower("ban\U{212a}") == "bank";
    KeywordAnywhere(before, "ban\U{212a}", after, "bank");
  }

  /** An address URL asking to log in: the IP and keyword rules together reach 1.0. */
  lemma IpLoginExample()
    ensures Expected("http://192.168.1.1/login?verify=1").score == Some(1.0)
    ensures Expected("http://192.168.1.1/login?verify=1").result == "Phishing"
  {
    var url := "http://192.168.1.1/login?verify=1";
    IpLoginFeatures(url);
    IpWithKeywordIsCertain(url);
  }

  /** The example's host is a dotted quad and its path names "login". */
  lemma IpLoginFeatures(url: string)
    requires url == "http://192.168.1.1/login?verify=1"
    ensures url != "" && IsDottedQuad(Netloc(url)) && Keywords(url) != []
  {
    LoginParts(url);
    HttpNetlocBeforePath("192.168.1.1", "/login?verify=1");
    DottedQuadExamples();
    LoginAt(url);
  }

  /** No keyword is listed twice. */
  lemma SuspiciousKeywordsDistinct()
    ensures Distinct(SuspiciousKeywords)
  {
  }

  /**
   * Each listed keyword that occurs in the lowered URL adds 0.2 exactly once:
   * the list has no repeats, so the keyword rule's amount is 0.2 times the
   * number of distinct keywords found.
   */
  lemma KeywordRuleAmount(url: string)
    ensures Rules(url)[5].amount == 0.2 * |set w | w in SuspiciousKeywords && Contains(ToLower(url), w)| as real
  {
    SuspiciousKeywordsDistinct();
    OccurringCount(SuspiciousKeywords, ToLower(url));
  }
}
