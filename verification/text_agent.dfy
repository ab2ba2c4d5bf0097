/**
 * `NLPTextAgent`: hands the first 512 characters of a text to a text
 * classifier and turns the predicted label and its confidence into a
 * phishing score. The classifier itself is an input: it may be missing (the
 * model failed to load) and each call may raise.
 */
module TextAgent {
  import opened Text
  import opened Records

  const Name := "NLP Text Analyzer"
  const DefaultModel := "ealvaradob/bert-finetuned-phishing"

  /** How many leading characters the classifier is shown. */
  const Window := 512

  /** The classifier's first prediction: a label and the confidence in it. */
  datatype Prediction = Prediction(predicted: string, confidence: real)

  /** `pipe(text)[0]`: a prediction, or the exception the pipeline raised. */
  type Pipe = string -> Outcome<Prediction>

  /** Python's `text[:512]`. */
  function Truncated(text: string): (r: string)
    ensures |r| <= Window
    ensures r <= text
    ensures |text| <= Window ==> r == text
  {
    if |text| <= Window then text else text[..Window]
  }

  /** Rounds to the nearest integer, an exact tie to the even one (as Python's float formatting does). */
  function RoundHalfEven(x: real): (n: int)
    ensures x - 0.5 <= n as real <= x + 0.5
    ensures n as real - x == 0.5 || x - n as real == 0.5 ==> n % 2 == 0
  {
    var f := x.Floor;
    var d := x - f as real;
    if d < 0.5 then f
    else if d > 0.5 then f + 1
    else if f % 2 == 0 then f else f + 1
  }

  /** Two decimal digits, with a leading zero. */
  function TwoDigits(n: nat): (r: string)
    requires n < 100
    ensures |r| == 2
  {
    [DigitChar(n / 10), DigitChar(n % 10)]
  }

  /** The two digits read back as the number. */
  lemma TwoDigitsValue(n: nat)
    requires n < 100
    ensures DigitsValue(TwoDigits(n)) == n
  {
    var r := TwoDigits(n);
    DigitCharValue(n / 10);
    DigitCharValue(n % 10);
    assert r[..1] == [DigitChar(n / 10)] && r[..1][..0] == [];
    assert DigitsValue(r[..1]) == n / 10;
  }

  /** `f"{x:.2%}"`: the value times 100 with two decimals and a percent sign. */
  function Percent(x: real): (r: string)
    ensures |r| >= 5 && r[|r| - 1] == '%' && r[|r| - 4] == '.'
  {
    var hundredths := RoundHalfEven(x * 10000.0);
    var magnitude: nat := if hundredths < 0 then -hundredths else hundredths;
    (if hundredths < 0 then "-" else "")
      + NatToString(magnitude / 100) + "." + TwoDigits(magnitude % 100) + "%"
  }

  /** The label test of `agents/text_agent.py:41`: the lower-cased label mentions "phishing" or "1". */
  predicate IsPhishingLabel(predicted: string) {
    Contains(ToLower(predicted), "phishing") || Contains(ToLower(predicted), "1")
  }

  /** `NLPTextAgent.analyze(text)` with the loaded pipeline (None when loading failed). */
  function Analyze(text: string, pipe: Option<Pipe>, modelName: string): (r: AgentResult)
    ensures r.agent == Some(Name) && r.score.Some? && r.findings.Some? && |r.findings.value| == 1
    ensures r.summary.None? && r.suggestedQuestion.None?
    ensures r.result in {"Neutral", "Error", "Phishing", "Legítima"}
  {
    if |Strip(text)| < 10 then
      Record(Name, 0.0, "Neutral", ["Texto insuficiente para análise NLP"])
    else
      Classified(Truncated(text), pipe, modelName)
  }

  /** `agents/text_agent.py:29-55` once the text has passed the length guard: classify its window, or report the error. */
  function Classified(window: string, pipe: Option<Pipe>, modelName: string): (r: AgentResult)
    ensures r.agent == Some(Name) && r.score.Some? && r.findings.Some? && |r.findings.value| == 1
    ensures r.summary.None? && r.suggestedQuestion.None?
    ensures r.result in {"Error", "Phishing", "Legítima"}
  {
    if pipe.None? then
      Record(Name, 0.0, "Error", ["Modelo NLP não disponível"])
    else
      match pipe.value(window)
      case Raised(message) =>
        Record(Name, 0.0, "Error", ["Erro interno: " + message])
      case Returned(prediction) =>
        var phishing := IsPhishingLabel(prediction.predicted);
        var confidence := prediction.confidence;
        Record(Name, if phishing then confidence else 1.0 - confidence,
               if phishing then "Phishing" else "Legítima",
               ["Confiança do modelo (" + modelName + "): " + Percent(confidence)])
  }

  /** A text with fewer than ten non-blank characters is neutral, whatever the classifier. */
  lemma ShortTextIsNeutral(text: string, pipe: Option<Pipe>, modelName: string)
    requires |Strip(text)| < 10
    ensures Analyze(text, pipe, modelName).score == Some(0.0)
    ensures Analyze(text, pipe, modelName).result == "Neutral"
    ensures Analyze(text, pipe, modelName) == Analyze(text, None, modelName)
  {
  }

  /** A result of "Neutral" means the text was too short; "Error" means no pipeline or a raised exception. */
  lemma NeutralOrErrorCauses(text: string, pipe: Option<Pipe>, modelName: string)
    ensures Analyze(text, pipe, modelName).result == "Neutral" <==> |Strip(text)| < 10
    ensures Analyze(text, pipe, modelName).result == "Error" <==>
      |Strip(text)| >= 10 && (pipe.None? || pipe.value(Truncated(text)).Raised?)
    ensures Analyze(text, pipe, modelName).result in {"Neutral", "Error"} ==>
      Analyze(text, pipe, modelName).score == Some(0.0)
  {
  }

  /**
   * Once the classifier answers, the verdict is "Phishing" exactly when the
   * label test passes, and the score is the confidence in phishing: the
   * confidence itself, or its complement.
   */
  lemma ClassifiedText(text: string, pipe: Pipe, modelName: string)
    requires |Strip(text)| >= 10 && pipe(Truncated(text)).Returned?
    ensures var p := pipe(Truncated(text)).value;
      var r := Analyze(text, Some(pipe), modelName);
      && (r.result == "Phishing" <==> IsPhishingLabel(p.predicted))
      && (r.result != "Phishing" ==> r.result == "Legítima")
      && (IsPhishingLabel(p.predicted) ==> r.score == Some(p.confidence))
      && (!IsPhishingLabel(p.predicted) ==> r.score == Some(1.0 - p.confidence))
  {
    var p := pipe(Truncated(text)).value;
    var r := Analyze(text, Some(pipe), modelName);
    assert r == Classified(Truncated(text), Some(pipe), modelName);
    if IsPhishingLabel(p.predicted) {
      assert r.result == "Phishing" && r.score == Some(p.confidence);
    } else {
      assert r.result == "Legítima" && r.score == Some(1.0 - p.confidence);
    }
  }

  /** A confidence in [0, 1] gives a score in [0, 1], whichever way the label goes. */
  lemma ScoreInRange(text: string, pipe: Option<Pipe>, modelName: string)
    requires pipe.Some? && pipe.value(Truncated(text)).Returned? ==>
      0.0 <= pipe.value(Truncated(text)).value.confidence <= 1.0
    ensures 0.0 <= Analyze(text, pipe, modelName).score.value <= 1.0
  {
  }

  /** Only the first 512 characters are classified: texts that agree on them and pass the guard get the same record. */
  lemma OnlyWindowMatters(a: string, b: string, pipe: Option<Pipe>, modelName: string)
    requires Truncated(a) == Truncated(b)
    requires |Strip(a)| >= 10 && |Strip(b)| >= 10
    ensures Analyze(a, pipe, modelName) == Analyze(b, pipe, modelName)
  {
  }

  /** The case of the label does not matter, and the labels the known models emit are read as intended. */
  lemma LabelExamples()
    ensures IsPhishingLabel("LABEL_1") && !IsPhishingLabel("LABEL_0")
    ensures IsPhishingLabel("Phishing") && !IsPhishingLabel("benign")
  {
    assert ToLower("LABEL_1") == "label_1";
    assert MatchesAt(ToLower("LABEL_1"), "1", 6);
    assert ToLower("Phishing") == "phishing";
    assert MatchesAt(ToLower("Phishing"), "phishing", 0);
    assert ToLower("LABEL_0") == "label_0";
    ContainsChar("label_0", '1');
    assert ToLower("benign") == "benign";
    ContainsChar("benign", '1');
  }

  /** Percentages: 0.9 reads "90.00%", and the fourth decimal of the confidence rounds the second of the percentage. */
  lemma PercentExamples()
    ensures Percent(0.9) == "90.00%"
    ensures Percent(0.123456) == "12.35%"
  {
    assert RoundHalfEven(9000.0) == 9000;
    assert NatToString(90) == "90";
    assert RoundHalfEven(1234.56) == 1235;
    assert NatToString(12) == "12";
  }
}
