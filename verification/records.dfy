/**
 * The values that pass between the detectors, the LLM client and the
 * orchestrator, and the outside world each of them consults.
 */
module Records {

  datatype Option<+T> = None | Some(value: T) {
    /** Python's `d.get(key, default)` on a key that may be missing. */
    function GetOr(default: T): T {
      match this
      case Some(v) => v
      case None => default
    }
  }

  /** A call that either returns a value or raises an exception with a message. */
  datatype Outcome<+T> = Returned(value: T) | Raised(message: string)

  /**
   * The dictionary a detector returns. Keys that some producer leaves out
   * are `Option`s: the lexical detector's empty-URL record has no "agent",
   * an LLM answer has no "findings" but a "summary", and only some
   * detectors suggest a follow-up question.
   */
  datatype AgentResult = AgentResult(
    agent: Option<string>,
    score: Option<real>,
    result: string,
    findings: Option<seq<string>>,
    summary: Option<string>,
    suggestedQuestion: Option<string>)

  /** The record a detector builds itself: agent, score, result and findings. */
  function Record(agent: string, score: real, result: string, findings: seq<string>): (r: AgentResult)
    ensures r.agent == Some(agent) && r.score == Some(score) && r.result == result
    ensures r.findings == Some(findings) && r.summary.None? && r.suggestedQuestion.None?
  {
    AgentResult(Some(agent), Some(score), result, Some(findings), None, None)
  }

  /** The structured answer of the language model: `AnalysisResult` in the client. */
  datatype LlmResult = LlmResult(result: string, score: real, summary: string)

  /**
   * `llm_result["agent"] = name; return llm_result`: a detector passes the
   * model's answer on with only its own name added.
   */
  function Tagged(res: LlmResult, agent: string): (r: AgentResult)
    ensures r.agent == Some(agent) && r.score == Some(res.score) && r.result == res.result
    ensures r.summary == Some(res.summary) && r.findings.None? && r.suggestedQuestion.None?
  {
    AgentResult(Some(agent), Some(res.score), res.result, None, Some(res.summary), None)
  }

  /** The arguments of one `llm_client.analyze(...)` call. */
  datatype LlmCall = LlmCall(
    promptFile: string,
    vars: seq<(string, string)>,
    image: seq<bv8>,
    modelPref: Option<string>)

  /** What `llm_client.analyze` answers to each call: a result, or None on failure. */
  type Oracle = LlmCall -> Option<LlmResult>

  /** Every answer the client can give keeps the schema's score range [0, 1]. */
  ghost predicate ScoresInRange(llm: Oracle) {
    forall call :: llm(call).Some? ==> 0.0 <= llm(call).value.score <= 1.0
  }

  /**
   * What BeautifulSoup finds in a page: whether there is a password input,
   * the `action` of every form ("" when absent), the `style` attribute of
   * every element that has one, and the `href` of every link that has one.
   */
  datatype Page = Page(
    passwordInput: bool,
    formActions: seq<string>,
    styles: seq<string>,
    hrefs: seq<string>)

  /** Parsing a page, which may raise. */
  type Parser = string -> Outcome<Page>

  /** Fetching a URL's body: "" stands for a failed request (the source's None). */
  type Fetcher = string -> string

  /** A JSON-like value in the dictionaries the source passes around. */
  datatype Value = Str(s: string) | Num(x: real)

  /** `response.model_dump()`: the client's answer as a dictionary. */
  function AsDict(res: LlmResult): (d: map<string, Value>)
    ensures d.Keys == {"result", "score", "summary"}
  {
    map["result" := Str(res.result), "score" := Num(res.score), "summary" := Str(res.summary)]
  }
}
