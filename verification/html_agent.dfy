/**
 * `HTMLStructuralAgent`: scores a page by its structure — a password field
 * served without HTTPS, forms that post to another host, many hidden
 * elements, and a page made mostly of outbound links. The page is fetched
 * when only its URL is known; fetching and HTML parsing are inputs.
 */
module HtmlAgent {
  import opened Text
  import opened Urls
  import opened Scoring
  import opened Records

  const Name := "HTML Structural Analyzer"
  const NoHtmlFinding := "HTML não disponível para análise"
  const PasswordFinding := "Campo de senha encontrado em conexão não segura (HTTP)"
  const HiddenFinding := "Muitos elementos ocultos detectados (possível tentativa de ofuscação)"
  const LinksFinding := "Alta proporção de links externos"

  function FormFinding(domain: string): string {
    "Formulário enviando dados para domínio externo: " + domain
  }

  function ErrorFinding(message: string): string {
    "Erro ao processar HTML: " + message
  }

  /** Python's `s.replace(c, '')` for one character. */
  function RemoveChar(s: string, c: char): (r: string)
    ensures |r| <= |s|
    ensures c !in r
    ensures forall x :: x in r ==> x in s
    ensures c !in s ==> r == s
  {
    if s == [] then []
    else
      (if s[0] == c then [] else [s[0]]) + RemoveChar(s[1..], c)
  }

  /**
   * Removal works piece by piece, so the characters that stay keep their
   * order: removing from `a + b` is removing from `a`, then from `b`.
   */
  lemma {:induction false} RemoveCharConcat(a: string, b: string, c: char)
    ensures RemoveChar(a + b, c) == RemoveChar(a, c) + RemoveChar(b, c)
  {
    if a == [] {
      assert a + b == b;
    } else {
      assert (a + b)[1..] == a[1..] + b;
      RemoveCharConcat(a[1..], b, c);
    }
  }

  /** Removal drops every `c` and keeps every other character as often as it occurs. */
  lemma {:induction false} RemoveCharCounts(s: string, c: char)
    ensures multiset(RemoveChar(s, c)) == multiset(s)[c := 0]
  {
    if s != [] {
      assert s == [s[0]] + s[1..];
      RemoveCharCounts(s[1..], c);
    }
  }

  /** The style filter of `agents/html_agent.py:55`: with spaces removed, it hides the element. */
  predicate IsHidden(style: string) {
    var compact := RemoveChar(style, ' ');
    Contains(compact, "display:none") || Contains(compact, "visibility:hidden")
  }

  /** How many styles hide their element. */
  function HiddenCount(styles: seq<string>): (n: nat)
    ensures n <= |styles|
  {
    if styles == [] then 0
    else (if IsHidden(styles[0]) then 1 else 0) + HiddenCount(styles[1..])
  }

  /** How many links point outwards (`href.startswith('http')`). */
  function ExternalCount(hrefs: seq<string>): (n: nat)
    ensures n <= |hrefs|
  {
    if hrefs == [] then 0
    else (if StartsWith(hrefs[0], "http") then 1 else 0) + ExternalCount(hrefs[1..])
  }

  /** Counting hidden styles over two lists adds their counts. */
  lemma {:induction false} HiddenCountConcat(a: seq<string>, b: seq<string>)
    ensures HiddenCount(a + b) == HiddenCount(a) + HiddenCount(b)
  {
    if a != [] {
      assert (a + b)[1..] == a[1..] + b;
      HiddenCountConcat(a[1..], b);
    } else {
      assert a + b == b;
    }
  }

  /** No style counts exactly when none hides its element. */
  lemma {:induction false} NoHiddenCount(styles: seq<string>)
    ensures HiddenCount(styles) == 0 <==> forall k :: 0 <= k < |styles| ==> !IsHidden(styles[k])
  {
    if styles != [] {
      NoHiddenCount(styles[1..]);
      assert forall k :: 1 <= k < |styles| ==> styles[k] == styles[1..][k - 1];
    }
  }

  /** Counting outbound links over two lists adds their counts. */
  lemma {:induction false} ExternalCountConcat(a: seq<string>, b: seq<string>)
    ensures ExternalCount(a + b) == ExternalCount(a) + ExternalCount(b)
  {
    if a != [] {
      assert (a + b)[1..] == a[1..] + b;
      ExternalCountConcat(a[1..], b);
    } else {
      assert a + b == b;
    }
  }

  /** Every link counts exactly when every one starts with "http". */
  lemma {:induction false} AllExternalCount(hrefs: seq<string>)
    ensures ExternalCount(hrefs) == |hrefs| <==> forall k :: 0 <= k < |hrefs| ==> StartsWith(hrefs[k], "http")
  {
    if hrefs != [] {
      AllExternalCount(hrefs[1..]);
      assert forall k :: 1 <= k < |hrefs| ==> hrefs[k] == hrefs[1..][k - 1];
    }
  }

  /** The link rule: at least one link, and more than 80% of them outbound. */
  predicate MostlyExternal(hrefs: seq<string>) {
    |hrefs| > 0 && ExternalCount(hrefs) as real / |hrefs| as real > 0.8
  }

  /** The password rule: a URL is known, it does not start with "https", and the page asks for a password. */
  predicate PasswordOverHttp(page: Page, url: string) {
    url != "" && !StartsWith(url, "https") && page.passwordInput
  }

  /**
   * One form's rule: its lower-cased action starts with "http", a URL is
   * known, and the action's host differs from the URL's host (which is not
   * lower-cased).
   */
  function FormRule(action: string, url: string): Rule {
    Rule(PostsTo(action, url), 0.5, FormFinding(ActionDomain(action)))
  }

  /** `urlparse(action.lower()).netloc`. */
  function ActionDomain(action: string): string {
    Netloc(ToLower(action))
  }

  /** The form test: the lower-cased action starts with "http", a URL is known, and the hosts differ. */
  predicate PostsTo(action: string, url: string) {
    StartsWith(ToLower(action), "http") && url != "" && ActionDomain(action) != Netloc(url)
  }

  /** The rule for each form, in document order. */
  function FormRules(forms: seq<string>, url: string): (rs: seq<Rule>)
    ensures |rs| == |forms|
  {
    if forms == [] then [] else [FormRule(forms[0], url)] + FormRules(forms[1..], url)
  }

  /** Form `k`'s rule is the form rule of its action. */
  lemma {:induction false} FormRuleAt(forms: seq<string>, url: string, k: nat)
    requires k < |forms|
    ensures FormRules(forms, url)[k] == FormRule(forms[k], url)
  {
    if k > 0 {
      FormRuleAt(forms[1..], url, k - 1);
    }
  }

  function PasswordRule(page: Page, url: string): Rule {
    Rule(PasswordOverHttp(page, url), 0.8, PasswordFinding)
  }

  function HiddenRule(styles: seq<string>): Rule {
    Rule(HiddenCount(styles) > 5, 0.2, HiddenFinding)
  }

  function LinkRule(hrefs: seq<string>): Rule {
    Rule(MostlyExternal(hrefs), 0.3, LinksFinding)
  }

  /**
   * The detector's rules on a parsed page, in the order it applies them:
   * the password rule, one rule per form, the hidden-element rule and the
   * link rule.
   */
  function Rules(page: Page, url: string): (rs: seq<Rule>)
    ensures |rs| == |page.formActions| + 3
  {
    [PasswordRule(page, url)] + FormRules(page.formActions, url)
      + [HiddenRule(page.styles)] + [LinkRule(page.hrefs)]
  }

  /** Where each rule sits: the password rule first, form `k` at `k + 1`, then the hidden-element and link rules. */
  lemma RuleOrder(page: Page, url: string, k: nat)
    requires k < |page.formActions|
    ensures Rules(page, url)[0] == PasswordRule(page, url)
    ensures Rules(page, url)[k + 1] == FormRule(page.formActions[k], url)
    ensures Rules(page, url)[|page.formActions| + 1] == HiddenRule(page.styles)
    ensures Rules(page, url)[|page.formActions| + 2] == LinkRule(page.hrefs)
  {
    var forms := FormRules(page.formActions, url);
    assert Rules(page, url) == [PasswordRule(page, url)] + forms + [HiddenRule(page.styles)] + [LinkRule(page.hrefs)];
    FormRuleAt(page.formActions, url, k);
  }

  /** The part of `RuleOrder` that needs no form index: the fixed rules' positions, for every page. */
  lemma FixedRules(page: Page, url: string)
    ensures Rules(page, url)[0] == PasswordRule(page, url)
    ensures Rules(page, url)[|page.formActions| + 1] == HiddenRule(page.styles)
    ensures Rules(page, url)[|page.formActions| + 2] == LinkRule(page.hrefs)
  {
  }

  function Verdict(score: real): string {
    if score > 0.4 then "Phishing" else "Legítima"
  }

  /** The record for a page that parsed. */
  function Scored(page: Page, url: string): AgentResult {
    var score := Clamp(Gained(Rules(page, url)));
    Record(Name, score, Verdict(score), Notes(Rules(page, url)))
  }

  /** The HTML the detector works on: the given HTML, or the page fetched when only the URL is known. */
  function Content(html: string, url: string, fetch: Fetcher): string {
    if html == "" && url != "" then fetch(url) else html
  }

  /** What `analyze(html_content, url)` returns. */
  function Expected(html: string, url: string, fetch: Fetcher, parse: Parser): AgentResult {
    var content := Content(html, url, fetch);
    if content == "" then
      Record(Name, 0.0, "Neutral", [NoHtmlFinding])
    else
      match parse(content)
      case Raised(message) => Record(Name, 0.0, "Error", [ErrorFinding(message)])
      case Returned(page) => Scored(page, url)
  }

  /**
   * The test applied to one form inside the loop of `agents/html_agent.py:44-52`: lower-case
   * the action, and when it starts with "http" and a URL is known, compare
   * the two hosts.
   */
  method PostsElsewhere(action: string, url: string) returns (posts: bool, actionDomain: string)
    ensures posts == PostsTo(action, url) && actionDomain == ActionDomain(action)
  {
    var lowered := ToLower(action);
    actionDomain := Netloc(lowered);
    posts := false;
    if StartsWith(lowered, "http") && url != "" {
      var currentDomain := Netloc(url);
      posts := actionDomain != currentDomain;
    }
  }

  /**
   * The loop of `agents/html_agent.py:44-52`: each form that posts elsewhere adds 0.5 to the
   * running score and its finding to the running report, in document order.
   */
  method ScoreForms(forms: seq<string>, url: string, score0: real, findings0: seq<string>)
    returns (score: real, findings: seq<string>)
    ensures score == score0 + Gained(FormRules(forms, url))
    ensures findings == findings0 + Notes(FormRules(forms, url))
  {
    ghost var rules := FormRules(forms, url);
    score := score0;
    findings := findings0;
    var i := 0;
    while i < |forms|
      invariant 0 <= i <= |forms|
      invariant score == score0 + GainedFirst(rules, i)
      invariant findings == findings0 + NotesFirst(rules, i)
    {
      var posts, actionDomain := PostsElsewhere(forms[i], url);
      FormRuleAt(forms, url, i);
      Step(rules, i);
      AppendAssoc(findings0, NotesFirst(rules, i), [FormFinding(actionDomain)]);
      if posts {
        score := score + 0.5;
        findings := findings + [FormFinding(actionDomain)];
      }
      i := i + 1;
    }
  }

  /** Check 1 (`agents/html_agent.py:37-40`): a password field on a page whose URL does not start with "https". */
  method CheckPassword(page: Page, url: string) returns (score: real, findings: seq<string>)
    ensures score == Gained([PasswordRule(page, url)])
    ensures findings == Notes([PasswordRule(page, url)])
  {
    score, findings := 0.0, [];
    if url != "" && !StartsWith(url, "https") {
      if page.passwordInput {
        score := score + 0.8;
        findings := findings + [PasswordFinding];
      }
    }
    Step([PasswordRule(page, url)], 0);
  }

  /** Check 3 (`agents/html_agent.py:55-58`): more than five elements hidden by their style. */
  method CheckHidden(styles: seq<string>, score0: real, findings0: seq<string>)
    returns (score: real, findings: seq<string>)
    ensures score == score0 + Gained([HiddenRule(styles)])
    ensures findings == findings0 + Notes([HiddenRule(styles)])
  {
    score, findings := score0, findings0;
    if HiddenCount(styles) > 5 {
      score := score + 0.2;
      findings := findings + [HiddenFinding];
    }
    Step([HiddenRule(styles)], 0);
  }

  /** Check 4 (`agents/html_agent.py:61-66`): some links, and more than 80% of them outbound. */
  method CheckLinks(links: seq<string>, score0: real, findings0: seq<string>)
    returns (score: real, findings: seq<string>)
    ensures score == score0 + Gained([LinkRule(links)])
    ensures findings == findings0 + Notes([LinkRule(links)])
  {
    score, findings := score0, findings0;
    if |links| > 0 {
      var external := ExternalCount(links);
      if external as real / |links| as real > 0.8 {
        score := score + 0.3;
        findings := findings + [LinksFinding];
      }
    }
    Step([LinkRule(links)], 0);
  }

  /**
   * The scoring part of `HTMLStructuralAgent.analyze` on a parsed page: the
   * four checks in turn, each adding to the running score and findings.
   */
  method ScorePage(page: Page, url: string) returns (score: real, findings: seq<string>)
    ensures score == Gained(Rules(page, url)) && findings == Notes(Rules(page, url))
  {
    score, findings := CheckPassword(page, url);
    score, findings := ScoreForms(page.formActions, url, score, findings);
    score, findings := CheckHidden(page.styles, score, findings);
    score, findings := CheckLinks(page.hrefs, score, findings);

    ghost var head := [PasswordRule(page, url)];
    ghost var forms := FormRules(page.formActions, url);
    Split(head, forms);
    Split(head + forms, [HiddenRule(page.styles)]);
    Split(head + forms + [HiddenRule(page.styles)], [LinkRule(page.hrefs)]);
  }

  /** `HTMLStructuralAgent.analyze`: fetch when needed, give up without HTML, parse, score. */
  method Analyze(html: string, url: string, fetch: Fetcher, parse: Parser) returns (r: AgentResult)
    ensures r == Expected(html, url, fetch, parse)
  {
    var content := html;
    if content == "" && url != "" {
      content := fetch(url);
    }
    if content == "" {
      return Record(Name, 0.0, "Neutral", [NoHtmlFinding]);
    }
    var parsed := parse(content);
    if parsed.Raised? {
      return Record(Name, 0.0, "Error", [ErrorFinding(parsed.message)]);
    }
    var score, findings := ScorePage(parsed.value, url);
    var finalScore := Clamp(score);
    var result := if finalScore > 0.4 then "Phishing" else "Legítima";
    r := Record(Name, finalScore, result, findings);
  }

  /** Every rule adds a non-negative amount. */
  lemma RulesNonNegative(page: Page, url: string)
    ensures NonNegative(Rules(page, url))
  {
    var rules := Rules(page, url);
    FixedRules(page, url);
    forall k | 1 <= k <= |page.formActions| ensures rules[k].amount == 0.5 {
      RuleOrder(page, url, k - 1);
    }
  }

  /** No HTML, given or fetched, gives the neutral record. */
  lemma NoContent(html: string, url: string, fetch: Fetcher, parse: Parser)
    requires Content(html, url, fetch) == ""
    ensures Expected(html, url, fetch, parse) == Record(Name, 0.0, "Neutral", [NoHtmlFinding])
  {
  }

  /** The page is fetched only when no HTML is given and a URL is. */
  lemma FetchOnlyWithoutHtml(html: string, url: string, fetch: Fetcher, other: Fetcher, parse: Parser)
    requires html != "" || url == ""
    ensures Expected(html, url, fetch, parse) == Expected(html, url, other, parse)
  {
  }

  /** A parse failure gives score 0 and "Error". */
  lemma ParseFailure(html: string, url: string, fetch: Fetcher, parse: Parser)
    requires Content(html, url, fetch) != "" && parse(Content(html, url, fetch)).Raised?
    ensures Expected(html, url, fetch, parse).score == Some(0.0)
    ensures Expected(html, url, fetch, parse).result == "Error"
  {
  }

  /**
   * A parsed page gets a score in [0, 1], "Phishing" exactly above 0.4 and
   * "Legítima" otherwise, and one finding per fired rule.
   */
  lemma ScoredPage(page: Page, url: string)
    ensures 0.0 <= Scored(page, url).score.value <= 1.0
    ensures Scored(page, url).result == "Phishing" <==> Scored(page, url).score.value > 0.4
    ensures Scored(page, url).result != "Phishing" ==> Scored(page, url).result == "Legítima"
    ensures |Scored(page, url).findings.value| == FiredCount(Rules(page, url))
  {
    NotesCount(Rules(page, url), |Rules(page, url)|);
  }

  /** A password field on a page not served over "https" is enough for "Phishing". */
  lemma PasswordOverHttpIsPhishing(page: Page, url: string)
    requires PasswordOverHttp(page, url)
    ensures Scored(page, url).score.value >= 0.8
    ensures Scored(page, url).result == "Phishing"
  {
    FixedRules(page, url);
    RulesNonNegative(page, url);
    FiredRuleCounts(Rules(page, url), 0);
  }

  /** One form posting to another host is enough for "Phishing". */
  lemma ExternalFormIsPhishing(page: Page, url: string, k: nat)
    requires k < |page.formActions| && FormRule(page.formActions[k], url).fires
    ensures Scored(page, url).score.value >= 0.5
    ensures Scored(page, url).result == "Phishing"
    ensures FormFinding(Netloc(ToLower(page.formActions[k]))) in Scored(page, url).findings.value
  {
    var rules := Rules(page, url);
    RuleOrder(page, url, k);
    RulesNonNegative(page, url);
    FiredRuleCounts(rules, 1 + k);
    NotesAreFiredFindings(rules, |rules|);
  }

  /**
   * The URL's host is compared without lower-casing it: when it has a
   * capital letter, every form whose action starts with "http" counts as
   * posting elsewhere, even one naming the same host.
   */
  lemma UpperCaseHostMakesFormsExternal(action: string, url: string)
    requires url != "" && !IsLower(Netloc(url))
    requires StartsWith(ToLower(action), "http")
    ensures FormRule(action, url).fires
  {
    LowerIsLower(action);
    NetlocOfLowerIsLower(ToLower(action));
  }

  /** The two ratios the link rule meets at its extremes. */
  lemma Ratio(part: real, whole: real)
    requires whole > 0.0
    ensures part == whole ==> part / whole == 1.0
    ensures part == 0.0 ==> part / whole == 0.0
  {
  }

  /** Links only count when there are some: no links, no link rule and no division. */
  lemma LinkRatio(hrefs: seq<string>)
    ensures hrefs == [] ==> !MostlyExternal(hrefs)
    ensures hrefs != [] && ExternalCount(hrefs) == |hrefs| ==> MostlyExternal(hrefs)
    ensures ExternalCount(hrefs) == 0 ==> !MostlyExternal(hrefs)
  {
    if hrefs != [] {
      Ratio(ExternalCount(hrefs) as real, |hrefs| as real);
    }
  }

  /** Hidden elements only count beyond five. */
  lemma FewHiddenElements(page: Page, url: string)
    requires |page.styles| <= 5
    ensures !Rules(page, url)[|page.formActions| + 1].fires
  {
    FixedRules(page, url);
  }

  /**
   * A page whose only feature is one form posting to `http://<host>`,
   * analysed for `http://<other>` with another host, scores exactly 0.5, is
   * "Phishing", and names the form's host.
   */
  lemma ExternalFormScenario(host: string, other: string)
    requires IsLower(host) && host != other
    requires forall k :: 0 <= k < |host| ==> !IsAuthorityDelimiter(host[k])
    requires forall k :: 0 <= k < |other| ==> !IsAuthorityDelimiter(other[k])
    ensures Scored(Page(false, ["http://" + host], [], []), "http://" + other)
      == Record(Name, 0.5, "Phishing", [FormFinding(host)])
  {
    var action := "http://" + host;
    var url := "http://" + other;
    var page := Page(false, [action], [], []);
    assert ToLower(action) == action by {
      forall k | 0 <= k < |action| ensures ToLower(action)[k] == action[k] {
        if k >= 7 {
          assert action[k] == host[k - 7];
        }
      }
    }
    assert StartsWith(action, "http");
    HttpNetloc(host);
    HttpNetloc(other);
    var rules := Rules(page, url);
    RuleOrder(page, url, 0);
    assert rules[0] == Rule(false, 0.8, PasswordFinding);
    assert rules[1] == Rule(true, 0.5, FormFinding(host));
    assert rules[2] == Rule(false, 0.2, HiddenFinding);
    assert rules[3] == Rule(false, 0.3, LinksFinding);
    assert GainedFirst(rules, 0) == 0.0 && NotesFirst(rules, 0) == [];
    assert GainedFirst(rules, 1) == 0.0 && NotesFirst(rules, 1) == [];
    assert GainedFirst(rules, 2) == 0.5 && NotesFirst(rules, 2) == [FormFinding(host)];
    assert GainedFirst(rules, 3) == 0.5 && NotesFirst(rules, 3) == [FormFinding(host)];
    assert GainedFirst(rules, 4) == 0.5 && NotesFirst(rules, 4) == [FormFinding(host)];
  }
}
