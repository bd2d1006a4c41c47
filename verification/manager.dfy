/**
 * `LLMManager`: the static role table and the dispatch that turns an interface name and a
 * model id into a chat-model adapter, paired with a fresh output parser.
 */
module Manager {
  import opened Wrappers

  /** The output-parser classes a role can be configured with. */
  datatype OutputParser = ChatOutputParser | DeepseekOutputParser

  /**
   * The chat-model adapters, kept opaque: which adapter class was built and the arguments
   * it was built with. The HuggingFace adapter wraps an endpoint for `repoId` and `task`.
   */
  datatype ChatModel =
    | ChatHuggingFace(repoId: string, task: string)
    | ChatOllama(model: string)
    | ChatGroq(modelName: string)

  /** One entry of `default_settings`. */
  datatype Setting = Setting(interface: string, llm: string, parser: OutputParser)

  /** What the manager raises. */
  datatype ManagerError =
    | NoSuchKey                // load_default: role not configured
    | NoSuchInterface          // load_llm: interface not one of the three
    | KeyError(key: string)    // load_parser_from_settings: role not configured

  const HuggingFace := "huggingface"
  const Ollama := "ollama"
  const Groq := "groq"

  /** `Constants.llm_models`: model name -> interface -> provider-specific model id. */
  const LlmModels: map<string, map<string, string>> := map[
    "deepseek-r1:1.5b" := map[
      HuggingFace := "deepseek-ai/DeepSeek-R1-Distill-Qwen-1.5B",
      Ollama := "deepseek-r1:1.5b"],
    "deepseek-r1:32b" := map[Groq := "deepseek-r1-distill-qwen-32b"],
    "mistral-7b" := map[HuggingFace := "mistralai/Mistral-7B-Instruct-v0.2"],
    "llama:70b" := map[Groq := "llama3-70b-8192"],
    "phi" := map[HuggingFace := "microsoft/phi-2", Ollama := "phi"],
    "falcon3:3b" := map[HuggingFace := "tiiuae/Falcon3-3B-Base", Ollama := "falcon3:3b"],
    "smollm" := map[HuggingFace := "HuggingFaceTB/SmolLM-1.7B", Ollama := "smollm"],
    "gemma:2b" := map[Ollama := "gemma:2b"],
    "stablelm-zephyr" := map[Ollama := "stablelm-zephyr"]
  ]

  /** `Constants.default_settings`: role -> interface, model id and parser class. */
  const DefaultSettings: map<string, Setting> := map[
    "virtual_assistant" := Setting(Groq, LlmModels["llama:70b"][Groq], ChatOutputParser),
    "enquiry_chatbot" := Setting(Ollama, LlmModels["deepseek-r1:1.5b"][Ollama], DeepseekOutputParser)
  ]

  /** `LLMManager.load_llm`: build the adapter for `interface`, or raise. */
  function LoadLlm(modelId: string, interface: string): (r: Result<ChatModel, ManagerError>)
    ensures r.Ok? <==> KnownInterface(interface)
    ensures r.Ok? ==> InterfaceOf(r.value) == interface && ModelIdOf(r.value) == modelId
  {
    if interface == HuggingFace then Ok(ChatHuggingFace(modelId, "text-generation"))
    else if interface == Ollama then Ok(ChatOllama(modelId))
    else if interface == Groq then Ok(ChatGroq(modelId))
    else Err(NoSuchInterface)
  }

  /** `LLMManager.load_parser_from_settings`: a new instance of the role's parser class. */
  function LoadParserFromSettings(key: string): (r: Result<OutputParser, ManagerError>)
    ensures r.Ok? <==> key in DefaultSettings
    ensures r.Ok? ==> r.value == DefaultSettings[key].parser
    ensures r.Err? ==> r.error == KeyError(key)
  {
    if key in DefaultSettings then Ok(DefaultSettings[key].parser) else Err(KeyError(key))
  }

  /** `LLMManager.load_default`: the role's adapter and parser. */
  function LoadDefault(key: string): (r: Result<(ChatModel, OutputParser), ManagerError>)
    ensures key !in DefaultSettings ==> r == Err(NoSuchKey)
    ensures r.Ok? ==> (key in DefaultSettings &&
                       InterfaceOf(r.value.0) == DefaultSettings[key].interface &&
                       ModelIdOf(r.value.0) == DefaultSettings[key].llm &&
                       r.value.1 == DefaultSettings[key].parser)
  {
    if key !in DefaultSettings then Err(NoSuchKey)
    else
      var setting := DefaultSettings[key];
      match LoadLlm(setting.llm, setting.interface)
      case Err(e) => Err(e)
      case Ok(llm) =>
        match LoadParserFromSettings(key)
        case Err(e) => Err(e)
        case Ok(parser) => Ok((llm, parser))
  }

  // ---------------------------------------------------------------------------
  // Reference view of an adapter, independent of the dispatch

  /** The interface an adapter talks to. */
  function InterfaceOf(m: ChatModel): string {
    match m
    case ChatHuggingFace(_, _) => HuggingFace
    case ChatOllama(_) => Ollama
    case ChatGroq(_) => Groq
  }

  /** The model id an adapter was built for. */
  function ModelIdOf(m: ChatModel): string {
    match m
    case ChatHuggingFace(id, _) => id
    case ChatOllama(id) => id
    case ChatGroq(id) => id
  }

  /** The three interface names `load_llm` accepts. */
  predicate KnownInterface(interface: string) {
    interface == HuggingFace || interface == Ollama || interface == Groq
  }

  /** A table entry whose model id is one that `llm_models` lists under the entry's own interface. */
  predicate ListedModel(setting: Setting) {
    exists name :: name in LlmModels && setting.interface in LlmModels[name] &&
      LlmModels[name][setting.interface] == setting.llm
  }

  // ---------------------------------------------------------------------------
  // Properties

  /** `load_llm` builds exactly one adapter, of the interface's own kind, carrying the id unchanged. */
  lemma LoadLlmDispatch(modelId: string, interface: string)
    ensures LoadLlm(modelId, interface).Ok? <==> KnownInterface(interface)
    ensures !KnownInterface(interface) ==> LoadLlm(modelId, interface) == Err(NoSuchInterface)
    ensures LoadLlm(modelId, interface).Ok? ==>
      InterfaceOf(LoadLlm(modelId, interface).value) == interface &&
      ModelIdOf(LoadLlm(modelId, interface).value) == modelId
    ensures interface == HuggingFace ==>
      LoadLlm(modelId, interface).value.task == "text-generation"
  {
  }

  /** Every configured role uses a known interface and a model id listed under that interface. */
  lemma SettingsWellFormed()
    ensures forall key :: key in DefaultSettings ==>
      KnownInterface(DefaultSettings[key].interface) && ListedModel(DefaultSettings[key])
  {
    assert ListedModel(DefaultSettings["virtual_assistant"]) by {
      assert "llama:70b" in LlmModels;
    }
    assert ListedModel(DefaultSettings["enquiry_chatbot"]) by {
      assert "deepseek-r1:1.5b" in LlmModels;
    }
  }

  /**
   * `load_default` succeeds exactly for configured roles, and then returns the adapter that
   * `load_llm` builds from the role's entry together with the role's parser.
   */
  lemma LoadDefaultSpec(key: string)
    ensures LoadDefault(key).Ok? <==> key in DefaultSettings
    ensures key !in DefaultSettings ==> LoadDefault(key) == Err(NoSuchKey)
    ensures key in DefaultSettings ==>
      var s := DefaultSettings[key];
      LoadDefault(key) == Ok((LoadLlm(s.llm, s.interface).value, s.parser)) &&
      InterfaceOf(LoadDefault(key).value.0) == s.interface &&
      ModelIdOf(LoadDefault(key).value.0) == s.llm
  {
    SettingsWellFormed();
    if key in DefaultSettings {
      LoadLlmDispatch(DefaultSettings[key].llm, DefaultSettings[key].interface);
    }
  }

  /** `load_parser_from_settings` returns the configured parser, and raises for an unknown role. */
  lemma LoadParserSpec(key: string)
    ensures key in DefaultSettings ==> LoadParserFromSettings(key) == Ok(DefaultSettings[key].parser)
    ensures key !in DefaultSettings ==> LoadParserFromSettings(key) == Err(KeyError(key))
  {
  }

  /** The virtual assistant runs Llama 3 70B on Groq with the chat parser. */
  lemma VirtualAssistantRole()
    ensures LoadDefault("virtual_assistant") == Ok((ChatGroq("llama3-70b-8192"), ChatOutputParser))
  {
  }

  /** The enquiry chatbot runs DeepSeek-R1 1.5B on Ollama with the think-block parser. */
  lemma EnquiryChatbotRole()
    ensures LoadDefault("enquiry_chatbot") == Ok((ChatOllama("deepseek-r1:1.5b"), DeepseekOutputParser))
  {
  }
}
