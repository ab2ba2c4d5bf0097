/**
 * `PhishingOrchestrator`: runs the detectors that the given inputs call
 * for, one after another, and consolidates their records into one verdict
 * by a weighted mean of their scores; it also answers chat questions
 * through the language model, with a fixed reply when there is no answer.
 */
module Orchestrator {
  import opened Records
  import UrlAgent
  import TextAgent
  import HtmlAgent
  import VisionAgent

  const UnknownAgent := "Unknown Agent"
  const DefaultWeight := 0.25

  /** Each detector's weight in the consolidated score. */
  const Weights: map<string, real> := map[
    "URL Lexical Analyzer" := 0.25,
    "NLP Text Analyzer" := 0.35,
    "HTML Structural Analyzer" := 0.25,
    "Vision Analysis Agent" := 0.15]

  const NoData := "Nenhum dado fornecido."
  const PhishingSummary := "Alta probabilidade de fraude detectada por múltiplos agentes."
  const SuspiciousSummary := "Padrões anômalos detectados. Recomenda-se cautela extrema."
  const LegitSummary := "A análise não encontrou evidências significativas de phishing."
  const Overloaded := "Opa, minha inteligência (Gemini) está um pouco sobrecarregada agora. Por favor, aguarde uns 30 segundos e tente me perguntar novamente!"

  /** `res.get("agent", "Unknown Agent")`. */
  function AgentName(r: AgentResult): string {
    r.agent.GetOr(UnknownAgent)
  }

  /** `weights.get(agent_name, 0.25)`: every weight is positive. */
  function Weight(r: AgentResult): (w: real)
    ensures 0.15 <= w <= 0.35
  {
    var name := AgentName(r);
    if name in Weights then Weights[name] else DefaultWeight
  }

  /** `res.get("score", 0)`. */
  function ScoreOf(r: AgentResult): real {
    r.score.GetOr(0.0)
  }

  /** A record's contribution to the weighted sum. */
  function Weighted(r: AgentResult): real {
    ScoreOf(r) * Weight(r)
  }

  /** The sum of `f` over the records, in order. */
  function Sum(rs: seq<AgentResult>, f: AgentResult -> real): real {
    if rs == [] then 0.0 else Sum(rs[..|rs| - 1], f) + f(rs[|rs| - 1])
  }

  /** The consolidated verdict: result, score and summary. */
  datatype Verdict = Verdict(result: string, score: real, summary: string)

  /** The three bands of the consolidated score, each with its summary. */
  function Graded(score: real): Verdict {
    if score > 0.6 then Verdict("Phishing", score, PhishingSummary)
    else if score > 0.4 then Verdict("Suspeito", score, SuspiciousSummary)
    else Verdict("Legítima", score, LegitSummary)
  }

  /** What `_consolidate(results)` returns. */
  function Consolidated(results: seq<AgentResult>): Verdict {
    if results == [] then Verdict("Desconhecido", 0.0, NoData)
    else
      var totalScore := Sum(results, Weighted);
      var totalWeight := Sum(results, Weight);
      Graded(if totalWeight > 0.0 then totalScore / totalWeight else 0.0)
  }

  /** The loop of `agents/orchestrator.py:72-78` and the verdict of `agents/orchestrator.py:83-94`. */
  method Consolidate(results: seq<AgentResult>) returns (v: Verdict)
    ensures v == Consolidated(results)
  {
    if results == [] {
      return Verdict("Desconhecido", 0.0, NoData);
    }
    var totalScore := 0.0;
    var totalWeight := 0.0;
    for i := 0 to |results|
      invariant totalScore == Sum(results[..i], Weighted)
      invariant totalWeight == Sum(results[..i], Weight)
    {
      var res := results[i];
      var agentName := res.agent.GetOr(UnknownAgent);
      var weight := if agentName in Weights then Weights[agentName] else DefaultWeight;
      var score := res.score.GetOr(0.0);
      assert results[..i + 1][..i] == results[..i];
      totalScore := totalScore + score * weight;
      totalWeight := totalWeight + weight;
    }
    assert results[..|results|] == results;
    var finalScore := if totalWeight > 0.0 then totalScore / totalWeight else 0.0;
    if finalScore > 0.6 {
      v := Verdict("Phishing", finalScore, PhishingSummary);
    } else if finalScore > 0.4 {
      v := Verdict("Suspeito", finalScore, SuspiciousSummary);
    } else {
      v := Verdict("Legítima", finalScore, LegitSummary);
    }
  }

  /** The four inputs of an analysis; "" and [] stand for a missing one. */
  datatype Inputs = Inputs(url: string, text: string, html: string, image: seq<bv8>)

  /** What the detectors consult: the text classifier, the fetcher, the HTML parser and the language model. */
  datatype Environment = Environment(
    pipe: Option<TextAgent.Pipe>,
    modelName: string,
    fetch: Fetcher,
    parse: Parser,
    llm: Oracle)

  /** What `analyze_full` returns. */
  datatype Report = Report(verdict: string, riskScore: real, agentDetails: seq<AgentResult>, summary: string)

  /** The text the text detector is given: the text, or the URL when there is no text. */
  function TextInput(inp: Inputs): string {
    if inp.text != "" then inp.text else inp.url
  }

  /**
   * The records collected from the four detectors' records: the URL
   * detector's when there is a URL, the text detector's when there is text
   * or a URL, the HTML detector's when there is HTML or a URL (to fetch it
   * from), the vision detector's when there is an image, in that order.
   */
  function Collected(inp: Inputs, url: AgentResult, text: AgentResult, html: AgentResult, vision: AgentResult): seq<AgentResult> {
    Only(inp.url != "", url)
      + Only(inp.text != "" || inp.url != "", text)
      + Only(inp.html != "" || inp.url != "", html)
      + Only(inp.image != [], vision)
  }

  /** The record, when its detector runs. */
  function Only(runs: bool, r: AgentResult): seq<AgentResult> {
    if runs then [r] else []
  }

  /** The records `analyze_full` collects. */
  function Dispatched(inp: Inputs, env: Environment): seq<AgentResult> {
    Collected(inp,
      UrlAgent.Expected(inp.url),
      TextAgent.Analyze(TextInput(inp), env.pipe, env.modelName),
      HtmlAgent.Expected(inp.html, inp.url, env.fetch, env.parse),
      VisionAgent.Analyze(inp.image, env.llm))
  }

  /**
   * `analyze_full(url, text, html, image_data)`: append each called-for
   * detector's record in turn, then consolidate.
   */
  method AnalyzeFull(inp: Inputs, env: Environment) returns (report: Report)
    ensures report.agentDetails == Dispatched(inp, env)
    ensures var v := Consolidated(Dispatched(inp, env));
      report.verdict == v.result && report.riskScore == v.score && report.summary == v.summary
  {
    var results := RunDetectors(inp, env);
    var v := Consolidate(results);
    report := Report(v.result, v.score, results, v.summary);
  }

  /** `agents/orchestrator.py:24-42`: each called-for detector's record appended in turn. */
  method RunDetectors(inp: Inputs, env: Environment) returns (results: seq<AgentResult>)
    ensures results == Dispatched(inp, env)
  {
    results := [];
    results := AddUrlRecord(results, inp);
    NothingBefore(Only(inp.url != "", UrlAgent.Expected(inp.url)));
    results := AddTextRecord(results, inp, env);
    results := AddHtmlRecord(results, inp, env);
    results := AddVisionRecord(results, inp, env);
  }

  /** `agents/orchestrator.py:27-28`: the URL detector runs when there is a URL. */
  method AddUrlRecord(before: seq<AgentResult>, inp: Inputs) returns (results: seq<AgentResult>)
    ensures results == before + Only(inp.url != "", UrlAgent.Expected(inp.url))
  {
    results := before;
    if inp.url != "" {
      var r := UrlAgent.Analyze(inp.url);
      results := results + [r];
    } else {
      NothingAppended(before);
    }
  }

  /** `agents/orchestrator.py:31-34`: the text detector reads the text, or the URL when there is no text. */
  method AddTextRecord(before: seq<AgentResult>, inp: Inputs, env: Environment) returns (results: seq<AgentResult>)
    ensures results == before + Only(inp.text != "" || inp.url != "", TextAgent.Analyze(TextInput(inp), env.pipe, env.modelName))
  {
    results := before;
    if inp.text != "" {
      results := results + [TextAgent.Analyze(inp.text, env.pipe, env.modelName)];
    } else if inp.url != "" && inp.text == "" {
      results := results + [TextAgent.Analyze(inp.url, env.pipe, env.modelName)];
    } else {
      NothingAppended(before);
    }
  }

  /** `agents/orchestrator.py:37-38`: the HTML detector runs when there is HTML, or a URL to fetch it from. */
  method AddHtmlRecord(before: seq<AgentResult>, inp: Inputs, env: Environment) returns (results: seq<AgentResult>)
    ensures results == before + Only(inp.html != "" || inp.url != "", HtmlAgent.Expected(inp.html, inp.url, env.fetch, env.parse))
  {
    results := before;
    if inp.html != "" || inp.url != "" {
      var r := HtmlAgent.Analyze(inp.html, inp.url, env.fetch, env.parse);
      results := results + [r];
    } else {
      NothingAppended(before);
    }
  }

  /** `agents/orchestrator.py:41-42`: the vision detector runs when there is an image. */
  method AddVisionRecord(before: seq<AgentResult>, inp: Inputs, env: Environment) returns (results: seq<AgentResult>)
    ensures results == before + Only(inp.image != [], VisionAgent.Analyze(inp.image, env.llm))
  {
    results := before;
    if inp.image != [] {
      results := results + [VisionAgent.Analyze(inp.image, env.llm)];
    } else {
      NothingAppended(before);
    }
  }

  /** An empty list extended by a part is that part. */
  lemma NothingBefore(results: seq<AgentResult>)
    ensures [] + results == results
  {
  }

  /** A detector that does not run adds nothing. */
  lemma NothingAppended(results: seq<AgentResult>)
    ensures results + [] == results
  {
  }

  /** The reply `chat_explanation` gives for the client's answer, as a dictionary. */
  function Reply(response: Option<map<string, Value>>): Value {
    if response.Some? && "answer" in response.value then response.value["answer"] else Str(Overloaded)
  }

  /** The chat call: the chat prompt with the question and the analysis rendered as JSON. */
  function ChatCall(userQuery: string, contextJson: string): LlmCall {
    LlmCall("prompt_chat.txt", [("user_query", userQuery), ("context", contextJson)], [], None)
  }

  /** `chat_explanation(user_query, analysis_context)`, with the context already rendered as JSON. */
  function ChatExplanation(userQuery: string, contextJson: string, llm: Oracle): Value {
    var answer := llm(ChatCall(userQuery, contextJson));
    Reply(if answer.Some? then Some(AsDict(answer.value)) else None)
  }

  /** Scoring a concatenation is scoring its parts. */
  lemma {:induction false} SumConcat(a: seq<AgentResult>, b: seq<AgentResult>, f: AgentResult -> real)
    ensures Sum(a + b, f) == Sum(a, f) + Sum(b, f)
    decreases |b|
  {
    if b == [] {
      assert a + b == a;
    } else {
      assert (a + b)[..|a + b| - 1] == a + b[..|b| - 1];
      SumConcat(a, b[..|b| - 1], f);
    }
  }

  /** Taking one record out of the list takes its term out of the sum. */
  lemma SumRemove(s: seq<AgentResult>, j: nat, f: AgentResult -> real)
    requires j < |s|
    ensures Sum(s, f) == Sum(s[..j] + s[j + 1..], f) + f(s[j])
  {
    var front, back := s[..j], s[j + 1..];
    calc {
      Sum(s, f);
      { assert s[j..] == [s[j]] + back;
        assert s == front + s[j..]; }
      Sum(front + ([s[j]] + back), f);
      { SumAround(front, s[j], back, f); }
      Sum(front + back, f) + f(s[j]);
    }
  }

  /** A record between two parts adds its term to theirs. */
  lemma SumAround(front: seq<AgentResult>, r: AgentResult, back: seq<AgentResult>, f: AgentResult -> real)
    ensures Sum(front + ([r] + back), f) == Sum(front + back, f) + f(r)
  {
    SumConcat(front, [r] + back, f);
    SumConcat([r], back, f);
    SumSingle(r, f);
    SumConcat(front, back, f);
  }

  /** A single record scores its own term. */
  lemma SumSingle(r: AgentResult, f: AgentResult -> real)
    ensures Sum([r], f) == f(r)
  {
    assert [r][..0] == [];
  }

  /** Taking one record out of the list takes one occurrence out of its multiset. */
  lemma MultisetRemove(s: seq<AgentResult>, j: nat)
    requires j < |s|
    ensures multiset(s[..j] + s[j + 1..]) == multiset(s) - multiset{s[j]}
  {
    assert s == s[..j] + [s[j]] + s[j + 1..];
  }

  /** A sum over the records does not depend on their order. */
  lemma {:induction false} SumPermutation(a: seq<AgentResult>, b: seq<AgentResult>, f: AgentResult -> real)
    requires multiset(a) == multiset(b)
    ensures Sum(a, f) == Sum(b, f)
    decreases |a|
  {
    if a == [] {
      assert |b| == |multiset(b)| == 0;
    } else {
      var x := a[|a| - 1];
      var rest := a[..|a| - 1];
      assert a == rest + [x];
      assert x in multiset(b);
      var j :| 0 <= j < |b| && b[j] == x;
      MultisetRemove(b, j);
      assert multiset(rest) == multiset(a) - multiset{x};
      SumPermutation(rest, b[..j] + b[j + 1..], f);
      SumRemove(b, j, f);
    }
  }

  /** The consolidated verdict does not depend on the order of the records. */
  lemma PermutationInvariant(a: seq<AgentResult>, b: seq<AgentResult>)
    requires multiset(a) == multiset(b)
    ensures Consolidated(a) == Consolidated(b)
  {
    assert |a| == |multiset(a)| == |multiset(b)| == |b|;
    SumPermutation(a, b, Weighted);
    SumPermutation(a, b, Weight);
  }

  /** A score in [0, 1] contributes between nothing and its whole weight. */
  lemma TermBounds(r: AgentResult)
    requires 0.0 <= ScoreOf(r) <= 1.0
    ensures 0.0 <= Weighted(r) <= Weight(r)
  {
    var s, w := ScoreOf(r), Weight(r);
    assert s * w <= 1.0 * w;
  }

  /**
   * With every score in [0, 1], the weighted sum lies between nothing and
   * the total weight, which grows by at least 0.15 per record.
   */
  lemma {:induction false} SumBounds(rs: seq<AgentResult>)
    requires forall k :: 0 <= k < |rs| ==> 0.0 <= ScoreOf(rs[k]) <= 1.0
    ensures 0.0 <= Sum(rs, Weighted) <= Sum(rs, Weight)
    ensures Sum(rs, Weight) >= 0.15 * |rs| as real
  {
    if rs != [] {
      var rest := rs[..|rs| - 1];
      assert forall k :: 0 <= k < |rest| ==> rest[k] == rs[k];
      SumBounds(rest);
      TermBounds(rs[|rs| - 1]);
    }
  }

  /** A part of a positive whole, divided by it, lies in [0, 1]. */
  lemma RatioBounds(part: real, whole: real)
    requires 0.0 <= part <= whole && whole > 0.0
    ensures 0.0 <= part / whole <= 1.0
  {
    assert part / whole * whole == part;
  }

  /** When every detector's score lies in [0, 1], so does the consolidated score. */
  lemma ScoreInRange(results: seq<AgentResult>)
    requires forall k :: 0 <= k < |results| ==> 0.0 <= ScoreOf(results[k]) <= 1.0
    ensures 0.0 <= Consolidated(results).score <= 1.0
  {
    if results != [] {
      SumBounds(results);
      RatioBounds(Sum(results, Weighted), Sum(results, Weight));
    }
  }

  /**
   * The consolidated score is the weighted mean; the verdict is "Phishing"
   * above 0.6, "Suspeito" above 0.4 and "Legítima" otherwise, each with its
   * summary; no records give "Desconhecido".
   */
  lemma VerdictBands(results: seq<AgentResult>)
    ensures results == [] ==> Consolidated(results) == Verdict("Desconhecido", 0.0, NoData)
    ensures results != [] ==>
      Sum(results, Weight) > 0.0 && Consolidated(results).score == Sum(results, Weighted) / Sum(results, Weight)
    ensures var v := Consolidated(results);
      results != [] ==>
        && (v.result == "Phishing" <==> v.score > 0.6)
        && (v.result == "Suspeito" <==> 0.4 < v.score <= 0.6)
        && (v.result == "Legítima" <==> v.score <= 0.4)
        && (v.result == "Phishing" ==> v.summary == PhishingSummary)
        && (v.result == "Suspeito" ==> v.summary == SuspiciousSummary)
        && (v.result == "Legítima" ==> v.summary == LegitSummary)
  {
    if results != [] {
      WeightPositive(results);
    }
  }

  /** A non-empty list of records has a positive total weight. */
  lemma {:induction false} WeightPositive(rs: seq<AgentResult>)
    requires rs != []
    ensures Sum(rs, Weight) >= 0.15
  {
    if |rs| > 1 {
      WeightPositive(rs[..|rs| - 1]);
    }
  }

  /** One record alone: the consolidated score is its own score. */
  lemma SingleRecord(r: AgentResult)
    ensures Consolidated([r]).score == ScoreOf(r)
  {
    assert [r][..0] == [];
    var w := Weight(r);
    assert Sum([r], Weight) == w;
    assert Sum([r], Weighted) == ScoreOf(r) * w;
    assert ScoreOf(r) * w / w == ScoreOf(r);
  }

  /** A record without an agent name, such as the URL detector's record for an empty URL, weighs 0.25. */
  lemma NamelessWeight()
    ensures Weight(UrlAgent.Expected("")) == 0.25
    ensures Weight(AgentResult(None, Some(1.0), "Phishing", None, None, None)) == 0.25
  {
  }

  /** The detectors' own names get their table weights, and any other name the default. */
  lemma DetectorWeights(r: AgentResult)
    ensures r.agent == Some(UrlAgent.Name) ==> Weight(r) == 0.25
    ensures r.agent == Some(TextAgent.Name) ==> Weight(r) == 0.35
    ensures r.agent == Some(HtmlAgent.Name) ==> Weight(r) == 0.25
    ensures r.agent == Some(VisionAgent.Name) ==> Weight(r) == 0.15
    ensures AgentName(r) !in Weights ==> Weight(r) == DefaultWeight
  {
  }

  /**
   * Which detectors run: the URL detector exactly when there is a URL, the
   * text detector when there is text or a URL, the HTML detector when there
   * is HTML or a URL, the vision detector exactly when there is an image;
   * their records come in that order.
   */
  lemma DispatchRule(inp: Inputs, url: AgentResult, text: AgentResult, html: AgentResult, vision: AgentResult)
    ensures var rs := Collected(inp, url, text, html, vision);
      && |rs| == (if inp.url != "" then 1 else 0) + (if inp.text != "" || inp.url != "" then 1 else 0)
                 + (if inp.html != "" || inp.url != "" then 1 else 0) + (if inp.image != [] then 1 else 0)
      && (rs == [] <==> inp.url == "" && inp.text == "" && inp.html == "" && inp.image == [])
      && (inp.url != "" ==> rs[..3] == [url, text, html])
      && (inp.url == "" && inp.text != "" ==> rs[0] == text)
      && (inp.image != [] ==> rs[|rs| - 1] == vision)
      && (url in rs ==> inp.url != "" || url in [text, html, vision])
      && (vision in rs ==> inp.image != [] || vision in [url, text, html])
  {
  }

  /** With nothing to analyse, the report is "Desconhecido" with no details. */
  lemma NoInputs(env: Environment)
    ensures Dispatched(Inputs("", "", "", []), env) == []
    ensures Consolidated(Dispatched(Inputs("", "", "", []), env)).result == "Desconhecido"
  {
  }

  /**
   * The client only ever answers with a result, a score and a summary, so
   * the chat always gives the fixed reply.
   */
  lemma ChatAlwaysFallsBack(userQuery: string, contextJson: string, llm: Oracle)
    ensures ChatExplanation(userQuery, contextJson, llm) == Str(Overloaded)
  {
  }

  /** Only a dictionary with an "answer" key gets anything but the fixed reply. */
  lemma ReplyNeedsAnswer(response: Option<map<string, Value>>)
    ensures Reply(response) != Str(Overloaded) ==> response.Some? && "answer" in response.value
    ensures response.Some? && "answer" in response.value ==> Reply(response) == response.value["answer"]
  {
  }
}
