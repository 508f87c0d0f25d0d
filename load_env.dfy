/** casalioy/load_env.py: the settings read from the environment when the
    module is imported, the choice of the embedding model, and the prompt
    templates handed to the library's chains. The environment (after the
    `.env` file was loaded into it) is a map from names to values. */
module LoadEnv {
  import opened Wrappers
  import opened Text
  import opened Prompts

  type Env = map<string, string>

  // ----- one setting at a time -----

  /** `int(os.environ.get(key))`: a missing name gives `int(None)`, which
      raises `TypeError`; a value that is not an integer raises `ValueError`. */
  function RequiredInt(env: Env, key: string): (r: Result<int>)
    ensures r.Failure? <==> key !in env || ParseInt(env[key]).None?
    ensures r.Failure? ==> r.error == (if key in env then "ValueError" else "TypeError")
  {
    if key !in env then Failure("TypeError")
    else
      match ParseInt(env[key])
      case None => Failure("ValueError")
      case Some(n) => Success(n)
  }

  /** A count written in decimal is read back as that count. */
  lemma RequiredIntOfNat(env: Env, key: string, n: nat)
    requires key in env && env[key] == NatToString(n)
    ensures RequiredInt(env, key) == Success(n)
  {
    ParseIntOfNat(n);
  }

  /** `int(os.environ.get("N_GPU_LAYERS", 0))`: a missing name gives `int(0)`. */
  function OptionalInt(env: Env, key: string, default: int): (r: Result<int>)
    ensures key !in env ==> r == Success(default)
    ensures key in env ==> r == RequiredInt(env, key)
  {
    if key !in env then Success(default) else RequiredInt(env, key)
  }

  /** `os.environ.get("USE_MLOCK").lower() == "true"`: calling `lower` on the
      missing value raises `AttributeError`. */
  function UseMlock(env: Env): (r: Result<bool>)
    ensures r.Failure? <==> "USE_MLOCK" !in env
    ensures r.Failure? ==> r.error == "AttributeError"
  {
    if "USE_MLOCK" !in env then Failure("AttributeError") else Success(ToLower(env["USE_MLOCK"]) == "true")
  }

  /** The flag ignores the case of its value: `True` and `TRUE` enable it as
      `true` does, and any other word (`yes`, `1`) leaves it off. */
  lemma UseMlockIgnoresCase(env: Env, v: string, w: string)
    requires ToLower(v) == ToLower(w)
    ensures UseMlock(env["USE_MLOCK" := v]) == UseMlock(env["USE_MLOCK" := w])
    ensures UseMlock(env["USE_MLOCK" := "True"]) == Success(true)
    ensures UseMlock(env["USE_MLOCK" := "yes"]) == Success(false)
  {
    assert ToLower("True") == "true" by {
      assert ToLower("True")[0] == LowerChar('T');
    }
    assert ToLower("yes")[0] == 'y';
  }

  /** `MODEL_STOP`: unset or empty gives no stop words; otherwise the value
      split at every comma, empty pieces kept. */
  function Stop(env: Env): (r: seq<string>)
    ensures "MODEL_STOP" !in env || env["MODEL_STOP"] == [] ==> r == []
    ensures forall k :: 0 <= k < |r| ==> ',' !in r[k]
  {
    var v := if "MODEL_STOP" in env then env["MODEL_STOP"] else "";
    if v == [] then [] else Split(v, ',')
  }

  /** A set value is exactly its stop words joined by commas. */
  lemma StopJoin(env: Env)
    requires "MODEL_STOP" in env && env["MODEL_STOP"] != []
    ensures Join(",", Stop(env)) == env["MODEL_STOP"]
  {
    JoinSplit(env["MODEL_STOP"], ',');
  }

  /** Writing stop words joined by commas reads them back, as long as no word
      holds a comma and the list is not a single empty word. */
  lemma StopOfJoin(env: Env, words: seq<string>)
    requires words != [] && words != [""]
    requires forall k :: 0 <= k < |words| ==> ',' !in words[k]
    ensures Stop(env["MODEL_STOP" := Join(",", words)]) == words
  {
    if |words| > 1 {
      assert |Join(",", words)| > 0;
    }
    SplitJoin(words, ',');
  }

  /** `CHAIN_TYPE`, `refine` when unset. */
  function ChainType(env: Env): (r: string)
    ensures "CHAIN_TYPE" in env ==> r == env["CHAIN_TYPE"]
    ensures "CHAIN_TYPE" !in env ==> r == "refine"
  {
    if "CHAIN_TYPE" in env then env["CHAIN_TYPE"] else "refine"
  }

  /** The names read without conversion; a missing one is `None`. */
  function Get(env: Env, key: string): Option<string> {
    if key in env then Some(env[key]) else None
  }

  // ----- the module's settings -----

  /** The module-level settings. `modelTemp` is the raw `MODEL_TEMP` text. */
  datatype Settings = Settings(
    textEmbeddingsModel: Option<string>, textEmbeddingsModelType: Option<string>,
    modelNCtx: int, useMlock: bool,
    persistDirectory: Option<string>, documentsDirectory: Option<string>,
    chunkSize: int, chunkOverlap: int,
    modelType: Option<string>, modelPath: Option<string>, modelTemp: string,
    stop: seq<string>, chainType: string, nGpuLayers: int)

  /** The conversions in the order the module runs them. */
  function Conversions(env: Env): seq<Result<int>> {
    [ RequiredInt(env, "MODEL_N_CTX"),
      if "USE_MLOCK" in env then Success(0) else Failure("AttributeError"),
      RequiredInt(env, "INGEST_CHUNK_SIZE"),
      RequiredInt(env, "INGEST_CHUNK_OVERLAP"),
      OptionalInt(env, "N_GPU_LAYERS", 0) ]
  }

  /** The error of the first conversion that raises: it stops the import. */
  function FirstError(cs: seq<Result<int>>): (e: Option<string>)
    ensures e.None? <==> forall k :: 0 <= k < |cs| ==> cs[k].Success?
  {
    if cs == [] then None
    else if cs[0].Failure? then Some(cs[0].error)
    else FirstError(cs[1..])
  }

  /** The error reported is the first one, in the order the module runs. */
  lemma {:induction false} FirstErrorIsFirst(cs: seq<Result<int>>)
    requires FirstError(cs).Some?
    ensures exists k ::
      (0 <= k < |cs| && cs[k] == Failure(FirstError(cs).value) && (forall j :: 0 <= j < k ==> cs[j].Success?))
  {
    if cs[0].Success? {
      FirstErrorIsFirst(cs[1..]);
      var k :| 0 <= k < |cs[1..]| && cs[1..][k] == Failure(FirstError(cs[1..]).value)
        && (forall j :: 0 <= j < k ==> cs[1..][j].Success?);
      assert cs[k + 1] == cs[1..][k];
      assert forall j :: 0 < j < k + 1 ==> cs[j] == cs[1..][j - 1];
    }
  }

  /** The settings once every conversion has succeeded. */
  function SettingsOf(env: Env, nCtx: int, chunkSize: int, chunkOverlap: int, nGpuLayers: int): Settings
    requires "USE_MLOCK" in env
  {
    Settings(Get(env, "TEXT_EMBEDDINGS_MODEL"), Get(env, "TEXT_EMBEDDINGS_MODEL_TYPE"),
             nCtx, ToLower(env["USE_MLOCK"]) == "true",
             Get(env, "PERSIST_DIRECTORY"), Get(env, "DOCUMENTS_DIRECTORY"),
             chunkSize, chunkOverlap,
             Get(env, "MODEL_TYPE"), Get(env, "MODEL_PATH"),
             if "MODEL_TEMP" in env then env["MODEL_TEMP"] else "0.8",
             Stop(env), ChainType(env), nGpuLayers)
  }

  /** Importing the module: every setting, or the error of the first
      conversion that raises. */
  function Load(env: Env): (r: Result<Settings>)
    ensures r.Failure? <==> FirstError(Conversions(env)).Some?
    ensures r.Failure? ==> FirstError(Conversions(env)) == Some(r.error)
  {
    var c := Conversions(env);
    match FirstError(c)
    case Some(e) => Failure(e)
    case None =>
      assert c[0].Success? && c[1].Success? && c[2].Success? && c[3].Success? && c[4].Success?;
      Success(SettingsOf(env, c[0].value, c[2].value, c[3].value, c[4].value))
  }

  /** Five conversions all succeed exactly when each does. */
  lemma NoErrorInFive(a: Result<int>, b: Result<int>, c: Result<int>, d: Result<int>, e: Result<int>)
    ensures FirstError([a, b, c, d, e]).None? <==> a.Success? && b.Success? && c.Success? && d.Success? && e.Success?
  {
    var cs := [a, b, c, d, e];
    assert cs[0] == a && cs[1] == b && cs[2] == c && cs[3] == d && cs[4] == e;
  }

  /** The module loads exactly when the three required integers are present
      and numeric, `USE_MLOCK` is set, and `N_GPU_LAYERS` is unset or numeric. */
  lemma LoadSucceeds(env: Env)
    ensures Load(env).Success? <==>
      (&& RequiredInt(env, "MODEL_N_CTX").Success? && "USE_MLOCK" in env
       && RequiredInt(env, "INGEST_CHUNK_SIZE").Success? && RequiredInt(env, "INGEST_CHUNK_OVERLAP").Success?
       && OptionalInt(env, "N_GPU_LAYERS", 0).Success?)
  {
    NoErrorInFive(RequiredInt(env, "MODEL_N_CTX"),
                  if "USE_MLOCK" in env then Success(0) else Failure("AttributeError"),
                  RequiredInt(env, "INGEST_CHUNK_SIZE"),
                  RequiredInt(env, "INGEST_CHUNK_OVERLAP"),
                  OptionalInt(env, "N_GPU_LAYERS", 0));
  }

  /** When the module loads, each setting is its variable converted as above,
      with the defaults for the names left unset. */
  lemma LoadFields(env: Env)
    requires Load(env).Success?
    ensures var s := Load(env).value;
      && RequiredInt(env, "MODEL_N_CTX") == Success(s.modelNCtx)
      && UseMlock(env) == Success(s.useMlock)
      && RequiredInt(env, "INGEST_CHUNK_SIZE") == Success(s.chunkSize)
      && RequiredInt(env, "INGEST_CHUNK_OVERLAP") == Success(s.chunkOverlap)
      && OptionalInt(env, "N_GPU_LAYERS", 0) == Success(s.nGpuLayers)
      && s.stop == Stop(env) && s.chainType == ChainType(env)
  {
    var c := Conversions(env);
    assert c[0].Success? && c[1].Success? && c[2].Success? && c[3].Success? && c[4].Success?;
  }

  // ----- the embedding model -----

  /** The embedding model `get_embedding_model` builds. */
  datatype Embedding =
    | HuggingFace(modelName: Option<string>)
    | LlamaCppEmbedding(modelPath: Option<string>, nCtx: int)

  /** `get_embedding_model`: `HF` and `LlamaCpp` select their model on
      `TEXT_EMBEDDINGS_MODEL`; anything else, unset included, raises. */
  function GetEmbeddingModel(s: Settings): (r: Result<Embedding>)
    ensures r.Success? <==> s.textEmbeddingsModelType == Some("HF") || s.textEmbeddingsModelType == Some("LlamaCpp")
    ensures r.Failure? ==> r.error == "ValueError"
    ensures r.Success? ==> (r.value.HuggingFace? <==> s.textEmbeddingsModelType == Some("HF"))
    ensures r.Success? && r.value.HuggingFace? ==> r.value.modelName == s.textEmbeddingsModel
    ensures r.Success? && r.value.LlamaCppEmbedding? ==> r.value.modelPath == s.textEmbeddingsModel && r.value.nCtx == s.modelNCtx
  {
    match s.textEmbeddingsModelType
    case Some("HF") => Success(HuggingFace(s.textEmbeddingsModel))
    case Some("LlamaCpp") => Success(LlamaCppEmbedding(s.textEmbeddingsModel, s.modelNCtx))
    case _ => Failure("ValueError")
  }

  // ----- the prompt templates for the library's chains -----

  const StuffQuestionPrompt := PromptTemplate(
    [ Lit("HUMAN: Answer the question using ONLY the given context. If you are unsure of the answer, respond with \"Unknown[STOP]\". Conclude your response with \"[STOP]\" to indicate the completion of the answer.\n\nContext: "),
      Var("context"),
      Lit("\n\nQuestion: "),
      Var("question"),
      Lit("\n\nASSISTANT:") ],
    ["context", "question"])

  const RefineQuestionPrompt := PromptTemplate(
    [ Lit("HUMAN: Answer the question using ONLY the given context.\nIndicate the end of your answer with \"[STOP]\" and refrain from adding any additional information beyond that which is provided in the context.\n\nQuestion: "),
      Var("question"),
      Lit("\n\nContext: "),
      Var("context_str"),
      Lit("\n\nASSISTANT:") ],
    ["context_str", "question"])

  const RefineRefinePrompt := PromptTemplate(
    [ Lit("HUMAN: Refine the original answer to the question using the new context.\nUse ONLY the information from the context and your previous answer.\nIf the context is not helpful, use the original answer.\nIndicate the end of your answer with \"[STOP]\" and avoid adding any extraneous information.\n\nOriginal question: "),
      Var("question"),
      Lit("\n\nExisting answer: "),
      Var("existing_answer"),
      Lit("\n\nNew context: "),
      Var("context_str"),
      Lit("\n\nASSISTANT:") ],
    ["context_str", "existing_answer", "question"])

  /** `get_prompt_template_kwargs`: the templates for `stuff` and `refine`,
      nothing for any other chain. */
  function GetPromptTemplateKwargs(chainType: string): (r: map<string, PromptTemplate>)
    ensures chainType == "stuff" ==> r.Keys == {"prompt"}
    ensures chainType == "refine" ==> r.Keys == {"question_prompt", "refine_prompt"}
    ensures chainType != "stuff" && chainType != "refine" ==> r == map[]
  {
    if chainType == "stuff" then map["prompt" := StuffQuestionPrompt]
    else if chainType == "refine" then map["question_prompt" := RefineQuestionPrompt, "refine_prompt" := RefineRefinePrompt]
    else map[]
  }

  /** Every template handed out declares exactly the placeholders it has:
      `context` and `question` for `stuff`, `context_str` and `question` for
      the first refine step, and `existing_answer` as well for the later ones. */
  lemma PromptTemplatesDeclared(chainType: string)
    ensures forall key :: key in GetPromptTemplateKwargs(chainType) ==> Declared(GetPromptTemplateKwargs(chainType)[key])
    ensures chainType == "stuff" ==> Vars(GetPromptTemplateKwargs(chainType)["prompt"].template) == {"context", "question"}
    ensures chainType == "refine" ==>
      (Vars(GetPromptTemplateKwargs(chainType)["question_prompt"].template) == {"context_str", "question"}
       && Vars(GetPromptTemplateKwargs(chainType)["refine_prompt"].template) == {"context_str", "existing_answer", "question"})
  {
    StuffQuestionVars();
    RefineQuestionVars();
    RefineRefineVars();
  }

  lemma StuffQuestionVars()
    ensures Vars(StuffQuestionPrompt.template) == {"context", "question"} && Declared(StuffQuestionPrompt)
  {
    var t := StuffQuestionPrompt.template;
    assert t[1].name == "context" && t[3].name == "question";
  }

  lemma RefineQuestionVars()
    ensures Vars(RefineQuestionPrompt.template) == {"context_str", "question"} && Declared(RefineQuestionPrompt)
  {
    var t := RefineQuestionPrompt.template;
    assert t[1].name == "question" && t[3].name == "context_str";
  }

  lemma RefineRefineVars()
    ensures Vars(RefineRefinePrompt.template) == {"context_str", "existing_answer", "question"} && Declared(RefineRefinePrompt)
  {
    var t := RefineRefinePrompt.template;
    assert t[1].name == "question" && t[3].name == "existing_answer" && t[5].name == "context_str";
  }
}
