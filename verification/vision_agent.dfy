/**
 * `VisionAgent`: asks the language model about a screenshot, passes its
 * answer on under the detector's own name, and falls back to a fixed mild
 * verdict when the model gives no answer.
 */
module VisionAgent {
  import opened Records

  const Name := "Vision Analysis Agent"
  const NoImageFinding := "Nenhuma imagem fornecida."
  const FallbackFinding := "Análise visual indisponível (usando modo básico)."

  /** The one model call the detector makes: the vision prompt, no variables, the image. */
  function VisionCall(image: seq<bv8>): (c: LlmCall)
    ensures c.promptFile == "prompt_vision.txt" && c.vars == [] && c.image == image && c.modelPref.None?
  {
    LlmCall("prompt_vision.txt", [], image, None)
  }

  /** `VisionAgent.analyze(image_data)`; an absent image is the empty byte string. */
  function Analyze(image: seq<bv8>, llm: Oracle): (r: AgentResult)
    ensures r.agent == Some(Name) && r.score.Some?
  {
    if image == [] then
      Record(Name, 0.0, "Neutral", [NoImageFinding])
    else
      match llm(VisionCall(image))
      case Some(res) => Tagged(res, Name)
      case None => Record(Name, 0.1, "Legítima", [FallbackFinding])
  }

  /** Without an image the answer is fixed and the model is never consulted. */
  lemma NoImage(llm: Oracle, other: Oracle)
    ensures Analyze([], llm) == Record(Name, 0.0, "Neutral", [NoImageFinding])
    ensures Analyze([], llm) == Analyze([], other)
  {
  }

  /**
   * With an image, the model's answer is passed on whole with only the agent
   * name added; without an answer, the fixed fallback is returned.
   */
  lemma WithImage(image: seq<bv8>, llm: Oracle)
    requires image != []
    ensures llm(VisionCall(image)).Some? ==>
      var res := llm(VisionCall(image)).value;
      var r := Analyze(image, llm);
      r.score == Some(res.score) && r.result == res.result && r.summary == Some(res.summary)
    ensures llm(VisionCall(image)).None? ==>
      Analyze(image, llm) == Record(Name, 0.1, "Legítima", [FallbackFinding])
  {
  }

  /** The answer depends on the model only through the one call it makes. */
  lemma OnlyTheVisionCall(image: seq<bv8>, llm: Oracle, other: Oracle)
    requires llm(VisionCall(image)) == other(VisionCall(image))
    ensures Analyze(image, llm) == Analyze(image, other)
  {
  }

  /** When the model keeps its scores in [0, 1], so does the detector. */
  lemma ScoreInRange(image: seq<bv8>, llm: Oracle)
    requires ScoresInRange(llm)
    ensures 0.0 <= Analyze(image, llm).score.value <= 1.0
  {
  }
}
