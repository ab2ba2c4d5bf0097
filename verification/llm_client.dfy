/**
 * `LLMClient`: the one object through which the detectors reach a language
 * model. It renders a prompt template from the prompts directory, picks the
 * backend and model for the call, keeps one model handle per backend key and
 * one prompt per file name, and turns any failure into no answer. The model
 * itself and the prompt files are inputs.
 */
module LlmClient {
  import opened Text
  import opened Records

  const DefaultOllamaModel := "qwen2.5:0.5b"
  const OpenAiModel := "gpt-4o"
  const VisionModel := "llava"
  const OpenAiKey := "openai"
  const SystemPromptFile := "system_prompt.txt"

  /** The chat model a handle stands for, with the settings it was created with. */
  datatype Handle =
    | OpenAi(model: string, temperature: real, maxTokens: nat)
    | Ollama(model: string, temperature: real, numCtx: nat, numPredict: nat, keepAlive: string)

  /** What is sent to the model: the system prompt, the rendered prompt and an image ([] for none). */
  datatype Request = Request(system: string, human: string, image: seq<bv8>)

  /**
   * Invoking a handle's structured-output chain: the fields the model
   * produced, or the exception the call raised.
   */
  type Invoker = (Handle, Request) -> Outcome<LlmResult>

  /** `is_openai`: OpenAI when asked for by name, or by the global setting when nothing was asked for. */
  predicate IsOpenAi(modelPref: Option<string>, useOpenAi: bool) {
    modelPref == Some(OpenAiKey) || (modelPref.None? && useOpenAi)
  }

  /** `model_name`: GPT-4o for OpenAI; otherwise the default model, or the vision model when there is an image. */
  function ModelName(isOpenAi: bool, defaultModel: string, image: seq<bv8>): string {
    if isOpenAi then OpenAiModel else if image == [] then defaultModel else VisionModel
  }

  /** `model_key`: the key the handle is cached under. */
  function ModelKey(isOpenAi: bool, modelName: string): string {
    if isOpenAi then OpenAiKey else modelName
  }

  /** `num_ctx`: a larger context for the vision models. */
  function NumCtx(modelName: string): nat {
    if Contains(modelName, "llava") then 2048 else 1024
  }

  /** The handle `_get_llm` creates for a key it has not seen. */
  function NewHandle(isOpenAi: bool, modelName: string): (h: Handle)
    ensures isOpenAi <==> h.OpenAi?
    ensures h.temperature == 0.0
    ensures isOpenAi ==> h.model == OpenAiModel
    ensures !isOpenAi ==> h.model == modelName
  {
    if isOpenAi then OpenAi(OpenAiModel, 0.0, 300)
    else Ollama(modelName, 0.0, NumCtx(modelName), 200, "1h")
  }

  /** Reading a prompt file: its content, or "" when there is no such file. */
  function ReadFile(files: map<string, string>, filename: string): string {
    if filename in files then files[filename] else ""
  }

  /** `f"{{{{{key}}}}}"`: the placeholder `{{key}}`. */
  function Placeholder(key: string): (p: string)
    ensures |p| == |key| + 4 && p != []
  {
    "{{" + key + "}}"
  }

  /** The template after replacing, in order, each key's placeholder by its value. */
  function Rendered(template: string, vars: seq<(string, string)>): string {
    if vars == [] then template
    else
      var (key, value) := vars[|vars| - 1];
      ReplaceAll(Rendered(template, vars[..|vars| - 1]), Placeholder(key), value)
  }

  /**
   * The structured-output schema: an answer whose score lies outside
   * [0, 1] fails validation, and any exception becomes no answer.
   */
  function Validated(o: Outcome<LlmResult>): (r: Option<LlmResult>)
    ensures r.Some? ==> o == Returned(r.value) && 0.0 <= r.value.score <= 1.0
    ensures o.Returned? && 0.0 <= o.value.score <= 1.0 ==> r == Some(o.value)
  {
    match o
    case Raised(_) => None
    case Returned(res) => if 0.0 <= res.score <= 1.0 then Some(res) else None
  }

  /** The substitution loop of `agents/llm_client.py:88-89`. */
  method RenderPrompt(template: string, vars: seq<(string, string)>) returns (prompt: string)
    ensures prompt == Rendered(template, vars)
  {
    prompt := template;
    for i := 0 to |vars|
      invariant prompt == Rendered(template, vars[..i])
    {
      var (key, value) := vars[i];
      assert vars[..i + 1][..i] == vars[..i];
      prompt := ReplaceAll(prompt, "{{" + key + "}}", value);
    }
    assert vars[..|vars|] == vars;
  }

  class Client {
    const defaultModel: string
    /** The `USE_OPENAI` setting read from the environment. */
    const useOpenAi: bool
    /** The prompts directory: file name to content. */
    const files: map<string, string>
    var promptCache: map<string, string>
    var models: map<string, Handle>
    var systemPrompt: string

    /**
     * Every cached prompt is its file's content, and every cached handle is
     * the one created for its key.
     */
    predicate Valid()
      reads this
    {
      && (forall f :: f in promptCache ==> f in files && promptCache[f] == files[f])
      && (forall k :: k in models ==> models[k] == NewHandle(false, k) || (k == OpenAiKey && models[k] == NewHandle(true, k)))
    }

    /** `LLMClient(ollama_model)`: empty caches, then the system prompt loaded through the prompt cache. */
    constructor (ollamaModel: string, useOpenAi: bool, files: map<string, string>)
      ensures Valid()
      ensures this.defaultModel == ollamaModel && this.useOpenAi == useOpenAi && this.files == files
      ensures models == map[]
      ensures systemPrompt == ReadFile(files, SystemPromptFile)
      ensures promptCache == if SystemPromptFile in files then map[SystemPromptFile := files[SystemPromptFile]] else map[]
    {
      this.defaultModel := ollamaModel;
      this.useOpenAi := useOpenAi;
      this.files := files;
      promptCache := map[];
      models := map[];
      systemPrompt := "";
      new;
      systemPrompt := LoadPrompt(SystemPromptFile);
    }

    /**
     * `_load_prompt(filename)`: a cached prompt is returned as cached; a file
     * read is cached; a missing file gives "" and is not cached.
     */
    method LoadPrompt(filename: string) returns (content: string)
      requires Valid()
      modifies this
      ensures Valid()
      ensures content == ReadFile(files, filename)
      ensures filename in old(promptCache) ==> content == old(promptCache)[filename] && promptCache == old(promptCache)
      ensures filename !in old(promptCache) && filename in files ==>
        promptCache == old(promptCache)[filename := files[filename]]
      ensures filename !in files ==> promptCache == old(promptCache)
      ensures models == old(models) && systemPrompt == old(systemPrompt)
    {
      if filename in promptCache {
        return promptCache[filename];
      }
      if filename in files {
        content := files[filename];
        promptCache := promptCache[filename := content];
      } else {
        content := "";
      }
    }

    /**
     * `_get_llm(model_name, model_pref)`: the handle cached under the call's
     * key, created and cached only when the key is absent.
     */
    method GetLlm(modelName: string, modelPref: Option<string>) returns (h: Handle)
      requires Valid()
      modifies this
      ensures Valid()
      ensures var isOpenAi := IsOpenAi(modelPref, useOpenAi);
        var key := ModelKey(isOpenAi, modelName);
        && key in models && h == models[key]
        && (key in old(models) ==> models == old(models))
        && (key !in old(models) ==> models == old(models)[key := NewHandle(isOpenAi, modelName)])
      ensures promptCache == old(promptCache) && systemPrompt == old(systemPrompt)
    {
      var isOpenAi := modelPref == Some(OpenAiKey) || (modelPref.None? && useOpenAi);
      var key := if isOpenAi then OpenAiKey else modelName;
      if key !in models {
        var llm := if isOpenAi then OpenAi(OpenAiModel, 0.0, 300)
                   else Ollama(modelName, 0.0, if Contains(modelName, "llava") then 2048 else 1024, 200, "1h");
        models := models[key := llm];
      }
      h := models[key];
    }

    /**
     * `analyze(prompt_filename, template_vars, image_data, model_pref)`:
     * render the prompt, fetch or create the handle, send the system prompt
     * and the rendered prompt (with the image, if any), and answer with the
     * validated result or with nothing.
     */
    method Analyze(call: LlmCall, invoke: Invoker) returns (r: Option<LlmResult>)
      requires Valid()
      modifies this
      ensures Valid()
      ensures var isOpenAi := IsOpenAi(call.modelPref, useOpenAi);
        var key := ModelKey(isOpenAi, ModelName(isOpenAi, defaultModel, call.image));
        && key in models
        && (key in old(models) ==> models == old(models))
        && (key !in old(models) ==>
              models == old(models)[key := NewHandle(isOpenAi, ModelName(isOpenAi, defaultModel, call.image))])
        && r == Validated(invoke(models[key],
                 Request(systemPrompt, Rendered(ReadFile(files, call.promptFile), call.vars), call.image)))
      ensures call.promptFile in files ==> promptCache == old(promptCache)[call.promptFile := files[call.promptFile]]
      ensures call.promptFile !in files ==> promptCache == old(promptCache)
      ensures systemPrompt == old(systemPrompt)
    {
      var isOpenAi := call.modelPref == Some(OpenAiKey) || (call.modelPref.None? && useOpenAi);
      var modelName := if isOpenAi then OpenAiModel else if call.image == [] then defaultModel else VisionModel;
      var template := LoadPrompt(call.promptFile);
      var prompt := RenderPrompt(template, call.vars);
      var llm := GetLlm(modelName, call.modelPref);
      var response := invoke(llm, Request(systemPrompt, prompt, call.image));
      if response.Raised? {
        return None;
      }
      if !(0.0 <= response.value.score <= 1.0) {
        return None;
      }
      r := Some(response.value);
    }
  }

  /** Replacing a whole text by another gives that other text. */
  lemma ReplaceWhole(pat: string, value: string)
    requires pat != []
    ensures ReplaceAll(pat, pat, value) == value
  {
    assert pat[|pat|..] == [];
  }

  /**
   * A template with none of the keys' placeholders renders to itself: no
   * replacement happens, so no value can bring a placeholder in.
   */
  lemma {:induction false} NoPlaceholders(template: string, vars: seq<(string, string)>)
    requires forall i :: 0 <= i < |vars| ==> !Contains(template, Placeholder(vars[i].0))
    ensures Rendered(template, vars) == template
  {
    if vars != [] {
      var prefix := vars[..|vars| - 1];
      assert forall i :: 0 <= i < |prefix| ==> prefix[i] == vars[i];
      NoPlaceholders(template, prefix);
      ReplaceAbsent(template, Placeholder(vars[|vars| - 1].0), vars[|vars| - 1].1);
    }
  }

  /** A key whose placeholder is absent from the text rendered so far changes nothing. */
  lemma AbsentKey(template: string, vars: seq<(string, string)>, key: string, value: string)
    requires !Contains(Rendered(template, vars), Placeholder(key))
    ensures Rendered(template, vars + [(key, value)]) == Rendered(template, vars)
  {
    assert (vars + [(key, value)])[..|vars|] == vars;
    ReplaceAbsent(Rendered(template, vars), Placeholder(key), value);
  }

  /**
   * Keys are applied in order to the text already substituted: a value that
   * holds a later key's placeholder has that placeholder replaced too.
   */
  lemma LaterKeysSeeEarlierValues(a: string, b: string, value: string)
    ensures Rendered(Placeholder(a), [(a, Placeholder(b)), (b, value)]) == value
  {
    var vars := [(a, Placeholder(b)), (b, value)];
    assert vars[..1] == [(a, Placeholder(b))];
    assert vars[..1][..0] == [];
    ReplaceWhole(Placeholder(a), Placeholder(b));
    assert Rendered(Placeholder(a), vars[..1]) == Placeholder(b);
    ReplaceWhole(Placeholder(b), value);
    assert Rendered(Placeholder(a), vars) == ReplaceAll(Rendered(Placeholder(a), vars[..1]), Placeholder(b), value);
  }

  /**
   * Backend and model: OpenAI's GPT-4o exactly when OpenAI is chosen;
   * otherwise the default model, or the vision model, which gets the larger
   * context, when there is an image.
   */
  lemma ModelChoice(modelPref: Option<string>, useOpenAi: bool, defaultModel: string, image: seq<bv8>)
    ensures var isOpenAi := IsOpenAi(modelPref, useOpenAi);
      var h := NewHandle(isOpenAi, ModelName(isOpenAi, defaultModel, image));
      && (isOpenAi <==> modelPref == Some("openai") || (modelPref.None? && useOpenAi))
      && (isOpenAi ==> h == OpenAi("gpt-4o", 0.0, 300) && ModelKey(isOpenAi, ModelName(isOpenAi, defaultModel, image)) == "openai")
      && (!isOpenAi && image == [] ==> h.model == defaultModel)
      && (!isOpenAi && image != [] ==> h.model == "llava" && h.numCtx == 2048)
  {
    assert MatchesAt("llava", "llava", 0);
  }

  /** The context size is 2048 exactly for model names mentioning "llava". */
  lemma ContextSize(modelName: string)
    ensures NewHandle(false, modelName).numCtx == 2048 <==> Contains(modelName, "llava")
    ensures NewHandle(false, modelName).numCtx == 1024 <==> !Contains(modelName, "llava")
  {
  }

  /** Every answer the client gives keeps the schema's score range. */
  lemma AnswersInRange(o: Outcome<LlmResult>)
    ensures Validated(o).Some? ==> 0.0 <= Validated(o).value.score <= 1.0
    ensures Validated(o).Some? ==> AsDict(Validated(o).value).Keys == {"result", "score", "summary"}
  {
  }
}
