/**
 * `UnifiedTextHTMLAgent`: sends a text, a URL and an HTML snippet to the
 * language model in one call, and when the model gives no answer falls back
 * to four heuristics (phishing keywords, links in the text, a form, a
 * password field), capped at 1.0 and read against two thresholds.
 */
module UnifiedAgent {
  import opened Text
  import opened Scoring
  import opened Records

  /** The detector reports under the text detector's name, so that it takes that detector's weight. */
  const Name := "NLP Text Analyzer"

  const PhishingKeywords: seq<string> := [
    "urgente", "imediatamente", "expirar", "expira", "bloqueado", "suspensa",
    "suspensão", "bloqueio", "encerrar", "cancelamento", "prazo",
    "clique aqui", "acesse agora", "confirme", "verifique", "atualize",
    "sua conta", "account suspended", "unusual activity",
    "parabéns", "ganhou", "prêmio", "resgate",
    "senha", "password", "cpf", "cartão", "dados bancários"]

  /** How many leading characters of the HTML the model is shown. */
  const SnippetLimit := 1500

  const NoHtml := "Não disponível"
  const NoUrl := "Não fornecida"
  const InsufficientFinding := "Dados insuficientes para análise"
  const FallbackFinding := "Análise heurística (fallback)"
  const LinkFinding := "Contém links no texto"
  const FormFinding := "Formulário detectado no HTML"
  const PasswordFinding := "Campo de senha detectado"
  const QuestionPt := "Como posso saber se um link é realmente perigoso?"
  const QuestionEn := "How can I tell if a link is truly dangerous?"

  /** `matched[:3]`: the keywords the finding lists. */
  function FirstThree(matched: seq<string>): (r: seq<string>)
    ensures r <= matched
    ensures |r| == if |matched| < 3 then |matched| else 3
  {
    if |matched| <= 3 then matched else matched[..3]
  }

  function KeywordFinding(matched: seq<string>): string {
    "Palavras suspeitas: " + Join(", ", FirstThree(matched))
  }

  /** `min(len(matched) * 0.1, 0.5)`: a tenth per keyword, at most a half. */
  function KeywordAmount(count: nat): (a: real)
    ensures 0.0 <= a <= 0.5 && a <= 0.1 * count as real
    ensures a == 0.1 * count as real || a == 0.5
  {
    if 0.1 * count as real < 0.5 then 0.1 * count as real else 0.5
  }

  /** `text or url or ""`, the empty string standing for None. */
  function AnalysisText(text: string, url: string): (r: string)
    ensures text != "" ==> r == text
    ensures text == "" ==> r == url
  {
    if text != "" then text else url
  }

  /** `(html_content or "Não disponível")[:1500]`. */
  function Snippet(content: string): (r: string)
    ensures |r| <= SnippetLimit
    ensures content != "" ==> r <= content
    ensures content != "" && |content| <= SnippetLimit ==> r == content
    ensures content == "" ==> r == NoHtml
  {
    var source := if content != "" then content else NoHtml;
    if |source| <= SnippetLimit then source else source[..SnippetLimit]
  }

  /** The HTML examined: the one given, or the URL's body fetched when none was given. */
  function Content(html: string, url: string, fetch: Fetcher): string {
    if html == "" && url != "" then fetch(url) else html
  }

  /** The one model call: the unified prompt with text, URL, HTML snippet and language. */
  function UnifiedCall(analysisText: string, url: string, content: string, lang: string, modelPref: Option<string>): (c: LlmCall)
    ensures c.promptFile == "prompt_unified.txt" && c.image == [] && c.modelPref == modelPref
    ensures |c.vars| == 4 && c.vars[0] == ("text", analysisText) && c.vars[3] == ("lang", lang)
    ensures c.vars[1] == ("url", if url != "" then url else NoUrl)
    ensures c.vars[2] == ("html", Snippet(content))
  {
    LlmCall("prompt_unified.txt",
      [("text", analysisText), ("url", if url != "" then url else NoUrl), ("html", Snippet(content)), ("lang", lang)],
      [], modelPref)
  }

  /** `re.search(r'https?://[^\s]+', s)` matching at position `i`. */
  predicate LinkAt(s: string, i: nat) {
    || (MatchesAt(s, "http://", i) && i + 7 < |s| && !IsSpace(s[i + 7]))
    || (MatchesAt(s, "https://", i) && i + 8 < |s| && !IsSpace(s[i + 8]))
  }

  predicate HasLink(s: string) {
    exists i | 0 <= i < |s| :: LinkAt(s, i)
  }

  /** What the fallback heuristics look at. */
  datatype Signals = Signals(matched: seq<string>, link: bool, form: bool, password: bool)

  /** The signals of a text and, when HTML was examined, of its parsed page. */
  function SignalsOf(analysisText: string, page: Option<Page>): Signals {
    Signals(Occurring(PhishingKeywords, ToLower(analysisText)), HasLink(analysisText),
            page.Some? && page.value.formActions != [], page.Some? && page.value.passwordInput)
  }

  /** The four heuristics, in the order the fallback applies them. */
  function RulesOver(s: Signals): seq<Rule> {
    [ Rule(s.matched != [], KeywordAmount(|s.matched|), KeywordFinding(s.matched)),
      Rule(s.link, 0.2, LinkFinding),
      Rule(s.form, 0.2, FormFinding),
      Rule(s.password, 0.15, PasswordFinding) ]
  }

  /** `min(score, 1.0)`. */
  function Cap(x: real): (r: real)
    ensures r <= 1.0 && r <= x
    ensures r == x || r == 1.0
  {
    if x > 1.0 then 1.0 else x
  }

  function Verdict(score: real): string {
    if score >= 0.5 then "Phishing" else if score >= 0.25 then "Suspeito" else "Legítima"
  }

  function Question(lang: string): string {
    if lang == "PT" then QuestionPt else QuestionEn
  }

  /** The record the heuristic fallback returns. */
  function Fallback(s: Signals, lang: string): AgentResult {
    var score := Cap(Gained(RulesOver(s)));
    AgentResult(Some(Name), Some(score), Verdict(score), Some([FallbackFinding] + Notes(RulesOver(s))),
                None, Some(Question(lang)))
  }

  /** The guard of `agents/unified_agent.py:49`: too little text and no HTML. */
  predicate Insufficient(analysisText: string, content: string) {
    |Strip(analysisText)| < 5 && content == ""
  }

  /**
   * What `analyze(text, html_content, url, model_pref, lang)` returns, or the
   * exception it lets escape: the HTML parser is called outside any `try`.
   */
  function Expected(text: string, html: string, url: string, modelPref: Option<string>, lang: string,
                    fetch: Fetcher, parse: Parser, llm: Oracle): Outcome<AgentResult>
  {
    var content := Content(html, url, fetch);
    var analysisText := AnalysisText(text, url);
    if Insufficient(analysisText, content) then
      Returned(Record(Name, 0.0, "Neutral", [InsufficientFinding]))
    else
      Consulted(analysisText, url, content, lang, modelPref, parse, llm)
  }

  /** Past the guard: the model's answer, or the fallback when there is none. */
  function Consulted(analysisText: string, url: string, content: string, lang: string, modelPref: Option<string>,
                     parse: Parser, llm: Oracle): Outcome<AgentResult>
  {
    match llm(UnifiedCall(analysisText, url, content, lang, modelPref))
    case Some(res) => Returned(Tagged(res, Name))
    case None => Heuristic(analysisText, content, lang, parse)
  }

  /** The fallback: the text's signals and, when there is HTML, its parsed page's; the parser may raise. */
  function Heuristic(analysisText: string, content: string, lang: string, parse: Parser): Outcome<AgentResult> {
    if content == "" then Returned(Fallback(SignalsOf(analysisText, None), lang))
    else
      match parse(content)
      case Raised(message) => Raised(message)
      case Returned(page) => Returned(Fallback(SignalsOf(analysisText, Some(page)), lang))
  }

  /**
   * The heuristic part of `agents/unified_agent.py:72-94`: starting from the fallback finding,
   * each heuristic that fires adds its amount to the score and its finding
   * to the report.
   */
  method ApplyRules(s: Signals) returns (score: real, findings: seq<string>)
    ensures score == Gained(RulesOver(s))
    ensures findings == [FallbackFinding] + Notes(RulesOver(s))
  {
    ghost var rules := RulesOver(s);
    score := 0.0;
    findings := [FallbackFinding];

    if s.matched != [] {
      score := score + KeywordAmount(|s.matched|);
      findings := findings + [KeywordFinding(s.matched)];
    }
    Step(rules, 0);
    assert score == GainedFirst(rules, 1) && findings == [FallbackFinding] + NotesFirst(rules, 1);

    AppendAssoc([FallbackFinding], NotesFirst(rules, 1), [LinkFinding]);
    if s.link {
      score := score + 0.2;
      findings := findings + [LinkFinding];
    }
    Step(rules, 1);

    AppendAssoc([FallbackFinding], NotesFirst(rules, 2), [FormFinding]);
    if s.form {
      score := score + 0.2;
      findings := findings + [FormFinding];
    }
    Step(rules, 2);

    AppendAssoc([FallbackFinding], NotesFirst(rules, 3), [PasswordFinding]);
    if s.password {
      score := score + 0.15;
      findings := findings + [PasswordFinding];
    }
    Step(rules, 3);
  }

  /** `agents/unified_agent.py:72-104`: read the signals off the text and the page, score them, cap the score and take the verdict. */
  method ScoreHeuristics(analysisText: string, content: string, lang: string, parse: Parser)
    returns (r: Outcome<AgentResult>)
    ensures r == Heuristic(analysisText, content, lang, parse)
  {
    var matched := Occurring(PhishingKeywords, ToLower(analysisText));
    var link := HasLink(analysisText);
    var form, password := false, false;
    if content != "" {
      var parsed := parse(content);
      if parsed.Raised? {
        return Raised(parsed.message);
      }
      form := parsed.value.formActions != [];
      password := parsed.value.passwordInput;
    }
    var score, findings := ApplyRules(Signals(matched, link, form, password));
    score := if score > 1.0 then 1.0 else score;
    var result := if score >= 0.5 then "Phishing" else if score >= 0.25 then "Suspeito" else "Legítima";
    var question := if lang == "PT" then QuestionPt else QuestionEn;
    r := Returned(AgentResult(Some(Name), Some(score), result, Some(findings), None, Some(question)));
  }

  /**
   * `UnifiedTextHTMLAgent.analyze`: fetch the HTML when only a URL is given,
   * stop early when there is nothing to analyse, pass the model's answer on,
   * and otherwise score the heuristics.
   */
  method Analyze(text: string, html: string, url: string, modelPref: Option<string>, lang: string,
                 fetch: Fetcher, parse: Parser, llm: Oracle) returns (r: Outcome<AgentResult>)
    ensures r == Expected(text, html, url, modelPref, lang, fetch, parse, llm)
  {
    var content := html;
    if content == "" && url != "" {
      content := fetch(url);
    }
    assert content == Content(html, url, fetch);
    var analysisText := if text != "" then text else url;
    var snippet := Snippet(content);
    if |Strip(analysisText)| < 5 && content == "" {
      return Returned(Record(Name, 0.0, "Neutral", [InsufficientFinding]));
    }
    r := Consult(analysisText, url, content, snippet, lang, modelPref, parse, llm);
  }

  /** `agents/unified_agent.py:58-94`: ask the model; without an answer, score the heuristics. */
  method Consult(analysisText: string, url: string, content: string, snippet: string, lang: string,
                 modelPref: Option<string>, parse: Parser, llm: Oracle) returns (r: Outcome<AgentResult>)
    requires snippet == Snippet(content)
    ensures r == Consulted(analysisText, url, content, lang, modelPref, parse, llm)
  {
    var analysisUrl := if url != "" then url else NoUrl;
    var answer := llm(LlmCall("prompt_unified.txt",
      [("text", analysisText), ("url", analysisUrl), ("html", snippet), ("lang", lang)], [], modelPref));
    if answer.Some? {
      return Returned(Tagged(answer.value, Name));
    }
    r := ScoreHeuristics(analysisText, content, lang, parse);
  }

  /** Every heuristic adds a non-negative amount. */
  lemma RulesNonNegative(s: Signals)
    ensures NonNegative(RulesOver(s))
  {
  }

  /**
   * The insufficient-data record comes back exactly when the guard holds;
   * then neither the model nor the parser is consulted.
   */
  lemma InsufficientData(text: string, html: string, url: string, modelPref: Option<string>, lang: string,
                         fetch: Fetcher, parse: Parser, llm: Oracle, otherParse: Parser, otherLlm: Oracle)
    ensures Expected(text, html, url, modelPref, lang, fetch, parse, llm)
      == Returned(Record(Name, 0.0, "Neutral", [InsufficientFinding]))
      <==> Insufficient(AnalysisText(text, url), Content(html, url, fetch))
    ensures Insufficient(AnalysisText(text, url), Content(html, url, fetch)) ==>
      Expected(text, html, url, modelPref, lang, fetch, parse, llm)
      == Expected(text, html, url, modelPref, lang, fetch, otherParse, otherLlm)
  {
  }

  /** A model answer is passed on whole with only the agent name added. */
  lemma LlmPassThrough(text: string, html: string, url: string, modelPref: Option<string>, lang: string,
                       fetch: Fetcher, parse: Parser, llm: Oracle)
    requires !Insufficient(AnalysisText(text, url), Content(html, url, fetch))
    requires llm(UnifiedCall(AnalysisText(text, url), url, Content(html, url, fetch), lang, modelPref)).Some?
    ensures var res := llm(UnifiedCall(AnalysisText(text, url), url, Content(html, url, fetch), lang, modelPref)).value;
      var r := Expected(text, html, url, modelPref, lang, fetch, parse, llm);
      && r.Returned? && r.value.agent == Some(Name)
      && r.value.score == Some(res.score) && r.value.result == res.result && r.value.summary == Some(res.summary)
  {
  }

  /**
   * The fallback record: its findings begin with the fallback finding and
   * then name each fired heuristic once; its score is the capped sum, in
   * [0, 1]; its verdict follows the two thresholds; its question follows
   * the language.
   */
  lemma FallbackRecord(s: Signals, lang: string)
    ensures var r := Fallback(s, lang);
      && r.agent == Some(Name) && r.findings.Some? && r.score.Some?
      && r.findings.value[0] == FallbackFinding
      && |r.findings.value| == 1 + FiredCount(RulesOver(s))
      && 0.0 <= r.score.value <= 1.0
      && (Gained(RulesOver(s)) <= 1.0 ==> r.score.value == Gained(RulesOver(s)))
      && (r.result == "Phishing" <==> r.score.value >= 0.5)
      && (r.result == "Suspeito" <==> 0.25 <= r.score.value < 0.5)
      && (r.result == "Legítima" <==> r.score.value < 0.25)
      && (r.suggestedQuestion == Some(QuestionPt) <==> lang == "PT")
      && (lang != "PT" ==> r.suggestedQuestion == Some(QuestionEn))
  {
    RulesNonNegative(s);
    GainedBounds(RulesOver(s), 4);
    NotesCount(RulesOver(s), 4);
  }

  /** When the model gives no answer, the fallback scores the text and the page, or the parser's exception escapes. */
  lemma NoAnswer(text: string, html: string, url: string, modelPref: Option<string>, lang: string,
                 fetch: Fetcher, parse: Parser, llm: Oracle)
    requires !Insufficient(AnalysisText(text, url), Content(html, url, fetch))
    requires llm(UnifiedCall(AnalysisText(text, url), url, Content(html, url, fetch), lang, modelPref)).None?
    ensures var content := Content(html, url, fetch);
      var r := Expected(text, html, url, modelPref, lang, fetch, parse, llm);
      && (content == "" ==> r == Returned(Fallback(SignalsOf(AnalysisText(text, url), None), lang)))
      && (content != "" && parse(content).Raised? ==> r == Raised(parse(content).message))
      && (content != "" && parse(content).Returned? ==>
            r == Returned(Fallback(SignalsOf(AnalysisText(text, url), Some(parse(content).value)), lang)))
  {
  }

  /** Without HTML the form and password heuristics cannot fire, so the score stays at or below 0.7. */
  lemma TextOnly(analysisText: string)
    ensures var s := SignalsOf(analysisText, None);
      !s.form && !s.password && Gained(RulesOver(s)) <= 0.7
  {
    var rules := RulesOver(SignalsOf(analysisText, None));
    Step(rules, 0);
    Step(rules, 1);
    Step(rules, 2);
    Step(rules, 3);
  }

  /**
   * Keywords alone: the score is a tenth per keyword up to a half, so five
   * keywords make a phishing verdict and three or four a suspicious one.
   */
  lemma KeywordsAlone(s: Signals)
    requires !s.link && !s.form && !s.password
    ensures Gained(RulesOver(s)) == KeywordAmount(|s.matched|)
    ensures Fallback(s, "PT").result == "Phishing" <==> |s.matched| >= 5
    ensures Fallback(s, "PT").result == "Suspeito" <==> 3 <= |s.matched| < 5
  {
    var rules := RulesOver(s);
    Step(rules, 0);
    Step(rules, 1);
    Step(rules, 2);
    Step(rules, 3);
  }

  /** Every heuristic firing with five keywords adds 1.05, which the cap brings down to 1.0. */
  lemma EverythingFires(s: Signals)
    requires |s.matched| >= 5 && s.link && s.form && s.password
    ensures Gained(RulesOver(s)) == 1.05
    ensures Fallback(s, "EN").score == Some(1.0)
  {
    var rules := RulesOver(s);
    Step(rules, 0);
    Step(rules, 1);
    Step(rules, 2);
    Step(rules, 3);
  }

  /** A plain or secure URL followed by a non-blank character counts as a link. */
  lemma LinkExamples(host: string)
    requires host != [] && !IsSpace(host[0])
    ensures HasLink("http://" + host) && HasLink("see https://" + host)
  {
    var plain := "http://" + host;
    assert plain[..7] == "http://";
    assert LinkAt(plain, 0);
    var secure := "see https://" + host;
    assert secure[4..12] == "https://";
    assert LinkAt(secure, 4);
  }

  lemma PhishingKeywordsDistinctFrom0()
    ensures forall i, j :: 0 <= i < 4 && i < j < |PhishingKeywords| ==> PhishingKeywords[i] != PhishingKeywords[j]
  {
  }

  lemma PhishingKeywordsDistinctFrom4()
    ensures forall i, j :: 4 <= i < 9 && i < j < |PhishingKeywords| ==> PhishingKeywords[i] != PhishingKeywords[j]
  {
  }

  lemma PhishingKeywordsDistinctFrom9()
    ensures forall i, j :: 9 <= i < 16 && i < j < |PhishingKeywords| ==> PhishingKeywords[i] != PhishingKeywords[j]
  {
  }

  lemma PhishingKeywordsDistinctFrom16()
    ensures forall i, j :: 16 <= i < 27 && i < j < |PhishingKeywords| ==> PhishingKeywords[i] != PhishingKeywords[j]
  {
  }

  /** No keyword is listed twice (checked a few rows of the list at a time). */
  lemma PhishingKeywordsDistinct()
    ensures Distinct(PhishingKeywords)
  {
    PhishingKeywordsDistinctFrom0(); PhishingKeywordsDistinctFrom4(); PhishingKeywordsDistinctFrom9(); PhishingKeywordsDistinctFrom16();
  }

  /**
   * The fallback counts each listed keyword at most once: the list has no
   * repeats, so the number matched is the number of distinct keywords found
   * in the lowered text, whatever the page.
   */
  lemma KeywordsCountedOnce(analysisText: string, page: Option<Page>)
    ensures |SignalsOf(analysisText, page).matched| == |set w | w in PhishingKeywords && Contains(ToLower(analysisText), w)|
  {
    PhishingKeywordsDistinct();
    OccurringCount(PhishingKeywords, ToLower(analysisText));
  }
}
