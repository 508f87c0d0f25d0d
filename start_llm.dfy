/** casalioy/startLLM.py: the question-answering system. Its constructor picks
    the language model by `MODEL_TYPE` and the chain by `CHAIN_TYPE`,
    `prompt_once` asks the chain and lists the sources it reports, and `main`
    reads queries until `exit`. */
module StartLlm {
  import opened Wrappers
  import opened Text
  import opened Collaborators
  import CustomChains
  import Utils
  import Prompts

  // ----- model and chain selection -----

  datatype ModelKind = LlamaCppModel | GPT4AllModel

  /** The `MODEL_TYPE` value that selects each model. */
  function ModelName(kind: ModelKind): string {
    match kind
    case LlamaCppModel => "LlamaCpp"
    case GPT4AllModel => "GPT4All"
  }

  /** The `match model_type` of `QASystem.__init__`: exactly the two names are
      accepted, each selecting the model it names; anything else raises. */
  function SelectModel(modelType: string): (r: Result<ModelKind>)
    ensures r.Success? <==> modelType == "LlamaCpp" || modelType == "GPT4All"
    ensures r.Success? ==> ModelName(r.value) == modelType
    ensures r.Failure? ==> r.error == "ValueError"
  {
    if modelType == "LlamaCpp" then Success(LlamaCppModel)
    else if modelType == "GPT4All" then Success(GPT4AllModel)
    else Failure("ValueError")
  }

  /** The settings `QASystem` receives for the model. */
  datatype ModelSettings = ModelSettings(modelPath: string, nCtx: int, stop: seq<string>, useMlock: bool,
                                         nGpuLayers: int, maxTokens: int)

  /** The keyword arguments each model class is built with. */
  datatype LlmConfig =
    | LlamaCppConfig(modelPath: string, nCtx: int, stop: seq<string>, nThreads: nat, nBatch: nat,
                     useMlock: bool, nGpuLayers: int, maxTokens: int)
    | GPT4AllConfig(modelPath: string, nCtx: int, backend: string)

  function LlmConfigFor(kind: ModelKind, s: ModelSettings): (c: LlmConfig)
    ensures c.modelPath == s.modelPath && c.nCtx == s.nCtx
    ensures c.LlamaCppConfig? <==> kind == LlamaCppModel
  {
    match kind
    case LlamaCppModel => LlamaCppConfig(s.modelPath, s.nCtx, s.stop, 6, 1000, s.useMlock, s.nGpuLayers, s.maxTokens)
    case GPT4AllModel => GPT4AllConfig(s.modelPath, s.nCtx, "gptj")
  }

  datatype ChainKind = BetterStuff | BetterRefine | LibraryChain(chainType: string)

  /** The `CHAIN_TYPE` value that selects each chain. */
  function ChainName(kind: ChainKind): string {
    match kind
    case BetterStuff => "betterstuff"
    case BetterRefine => "betterrefine"
    case LibraryChain(t) => t
  }

  /** `betterstuff` and `betterrefine` select the chains of
      casalioy/CustomChains.py; any other value goes to the library's chain
      under its own name. */
  function SelectChain(chainType: string): (k: ChainKind)
    ensures ChainName(k) == chainType
    ensures k.LibraryChain? <==> chainType != "betterstuff" && chainType != "betterrefine"
  {
    if chainType == "betterstuff" then BetterStuff
    else if chainType == "betterrefine" then BetterRefine
    else LibraryChain(chainType)
  }

  /** The chain object `self.qa` holds. The library's `RetrievalQA` is foreign:
      it is the answer it gives to a query. */
  datatype Chain =
    | Stuff(stuff: CustomChains.StuffQA)
    | Refine(refine: CustomChains.RefineQA)
    | Library(chainType: string, ask: string -> CustomChains.Answer)

  function KindOf(c: Chain): ChainKind {
    match c
    case Stuff(_) => BetterStuff
    case Refine(_) => BetterRefine
    case Library(t, _) => LibraryChain(t)
  }

  // ----- the sources string -----

  /** Every source document names its `source`; otherwise the lookup raises. */
  predicate AllSourced(docs: seq<Document>) {
    forall k :: 0 <= k < |docs| ==> "source" in docs[k].metadata
  }

  /** The entry of every document, from its source and its text. */
  function SourceEntries(docs: seq<Document>, entry: (string, string) -> string): (r: seq<string>)
    requires AllSourced(docs)
    ensures |r| == |docs|
    ensures forall k :: 0 <= k < |docs| ==> r[k] == entry(docs[k].metadata["source"], docs[k].pageContent)
  {
    seq(|docs|, k requires 0 <= k < |docs| => entry(docs[k].metadata["source"], docs[k].pageContent))
  }

  /** The sources string of both scripts: one entry per document joined by
      blank lines, or `KeyError` for a document without a source. */
  function SourcesStr(docs: seq<Document>, entry: (string, string) -> string): (r: Result<string>)
    ensures r.Failure? <==> exists k :: 0 <= k < |docs| && "source" !in docs[k].metadata
    ensures r.Failure? ==> r.error == "KeyError"
    ensures docs == [] ==> r == Success("")
  {
    if AllSourced(docs) then Success(Join("\n\n", SourceEntries(docs, entry))) else Failure("KeyError")
  }

  /** One more source document adds a blank line and its entry at the end:
      the entries appear once each, in the order of the documents. */
  lemma SourcesStrAppend(docs: seq<Document>, d: Document, entry: (string, string) -> string)
    requires docs != [] && AllSourced(docs) && "source" in d.metadata
    ensures SourcesStr(docs + [d], entry).Success? && SourcesStr(docs, entry).Success?
    ensures SourcesStr(docs + [d], entry).value ==
      SourcesStr(docs, entry).value + "\n\n" + entry(d.metadata["source"], d.pageContent)
  {
    assert AllSourced(docs + [d]) by {
      forall k | 0 <= k < |docs| + 1 ensures "source" in (docs + [d])[k].metadata {
        if k < |docs| {
          assert (docs + [d])[k] == docs[k];
        }
      }
    }
    assert SourceEntries(docs + [d], entry) == SourceEntries(docs, entry) + [entry(d.metadata["source"], d.pageContent)];
    JoinAppend("\n\n", SourceEntries(docs, entry), entry(d.metadata["source"], d.pageContent));
  }

  /** A single source document is its entry alone. */
  lemma SourcesStrSingle(d: Document, entry: (string, string) -> string)
    requires "source" in d.metadata
    ensures SourcesStr([d], entry) == Success(entry(d.metadata["source"], d.pageContent))
  {
    assert SourceEntries([d], entry) == [entry(d.metadata["source"], d.pageContent)];
  }

  /** `prompt_once`'s entry: the escaped source and the escaped text. */
  function HtmlEntry(escape: string -> string, source: string, content: string): string {
    ">> <source>" + escape(source) + "</source>:\n" + escape(content)
  }

  /** The markup `prompt_once` puts before the query, the answer and the sources. */
  const QuestionMarkup := "\n\n> <question><b>Question</b>: "
  const AnswerMarkup := "</question>\n> <answer><b>Answer</b>: "
  const SourcesMarkup := "</answer>\n> <b>Sources</b>:\n"

  /** The three values placed after the three pieces of markup. */
  function Filled(m1: string, m2: string, m3: string, query: string, answer: string, sources: string): string {
    m1 + query + m2 + answer + m3 + sources
  }

  /** The text `prompt_once` hands to `print_HTML`: an f-string that puts the
      query, the answer and the sources string into the markup. */
  function Shown(query: string, answer: string, sources: string): string {
    Filled(QuestionMarkup, AnswerMarkup, SourcesMarkup, query, answer, sources)
  }

  /** The keyword arguments `prompt_once` passes to `print_HTML` with it. */
  function ShownArgs(query: string, answer: string, sources: string): map<string, string> {
    map["query" := query, "answer" := answer, "sources_str" := sources]
  }

  /** What `prompt_once` returns for a chain answer, as written: the sources
      string is built, then the interpolated text is escaped and formatted by
      `print_HTML`, so a brace in the query, the answer or the sources raises
      there; otherwise the answer unchanged and the sources string. */
  function Report(query: string, ans: CustomChains.Answer, escape: string -> string): (r: Result<(string, string)>)
    ensures !AllSourced(ans.sourceDocuments) ==> r == Failure("KeyError")
    ensures r.Success? ==> AllSourced(ans.sourceDocuments) && r.value.0 == ans.result
    ensures r.Success? ==> SourcesStr(ans.sourceDocuments, (source, content) => HtmlEntry(escape, source, content)) == Success(r.value.1)
  {
    var sources := SourcesStr(ans.sourceDocuments, (source, content) => HtmlEntry(escape, source, content));
    if sources.Failure? then Failure(sources.error)
    else
      var shown := Utils.EscapeOne(Shown(query, ans.result, sources.value));
      var printed := Utils.Format(shown, ShownArgs(query, ans.result, sources.value));
      if printed.Failure? then Failure(printed.error) else Success((ans.result, sources.value))
  }

  lemma QuestionMarkupBraceFree() ensures Utils.BraceFree(QuestionMarkup) { assert QuestionMarkup == "\n\n> <question><b>Question</b>: "; }
  lemma AnswerMarkupBraceFree() ensures Utils.BraceFree(AnswerMarkup) { assert AnswerMarkup == "</question>\n> <answer><b>Answer</b>: "; }
  lemma SourcesMarkupBraceFree() ensures Utils.BraceFree(SourcesMarkup) { assert SourcesMarkup == "</answer>\n> <b>Sources</b>:\n"; }

  /** Around a brace-free query, answer and sources the text holds no brace. */
  lemma ShownBraceFree(query: string, answer: string, sources: string)
    requires Utils.BraceFree(query) && Utils.BraceFree(answer) && Utils.BraceFree(sources)
    ensures Utils.BraceFree(Shown(query, answer, sources))
  {
    QuestionMarkupBraceFree();
    AnswerMarkupBraceFree();
    SourcesMarkupBraceFree();
  }

  /** Without a brace in the query, the answer or the sources, a sourced
      answer is reported. */
  lemma ReportWithoutBraces(query: string, ans: CustomChains.Answer, escape: string -> string)
    requires AllSourced(ans.sourceDocuments)
    requires var sources := SourcesStr(ans.sourceDocuments, (source, content) => HtmlEntry(escape, source, content));
      Utils.BraceFree(query) && Utils.BraceFree(ans.result) && sources.Success? && Utils.BraceFree(sources.value)
    ensures Report(query, ans, escape).Success?
  {
    var sources := SourcesStr(ans.sourceDocuments, (source, content) => HtmlEntry(escape, source, content)).value;
    var text := Shown(query, ans.result, sources);
    ShownBraceFree(query, ans.result, sources);
    Utils.EscapeOneBraceFree(text);
    Utils.FormatBraceFree(Utils.EscapeOne(text), ShownArgs(query, ans.result, sources));
  }

  /** Escaped and formatted, brace-free text followed by a field naming no
      argument raises `KeyError`, whatever comes after it. */
  lemma EscapedUnknownField(head: string, name: string, tail: string, kwargs: map<string, string>)
    requires Utils.BraceFree(head) && name != [] && Utils.BraceFree(name) && !AllDigits(name)
    requires Utils.FormFeed !in name && Utils.Backspace !in name && name !in kwargs
    ensures Utils.Format(Utils.EscapeOne(head + ("{" + name + "}" + tail)), kwargs) == Failure("KeyError")
  {
    var field := "{" + name + "}";
    Utils.EscapeOneAppend(head, field + tail);
    Utils.EscapeOneAppend(field, tail);
    Utils.EscapeOneKeepsClean(field);
    Utils.EscapeOneBraceFree(head);
    Utils.FormatBraceFreePrefix(Utils.EscapeOne(head), field + Utils.EscapeOne(tail), kwargs);
    Utils.FormatField(name, Utils.EscapeOne(tail), kwargs);
  }

  /** A query holding a field that names none of the three arguments makes
      `print_HTML` raise `KeyError`, whatever the chain answered. */
  lemma ReportUnknownField(pre: string, name: string, post: string, ans: CustomChains.Answer, escape: string -> string)
    requires AllSourced(ans.sourceDocuments)
    requires Utils.BraceFree(pre) && name != [] && Utils.BraceFree(name) && !AllDigits(name)
    requires Utils.FormFeed !in name && Utils.Backspace !in name
    requires name != "query" && name != "answer" && name != "sources_str"
    ensures Report(pre + "{" + name + "}" + post, ans, escape) == Failure("KeyError")
  {
    var sources := SourcesStr(ans.sourceDocuments, (source, content) => HtmlEntry(escape, source, content)).value;
    var query := pre + "{" + name + "}" + post;
    var head := QuestionMarkup + pre;
    var tail := post + AnswerMarkup + ans.result + SourcesMarkup + sources;
    assert Shown(query, ans.result, sources) == head + ("{" + name + "}" + tail);
    QuestionMarkupBraceFree();
    EscapedUnknownField(head, name, tail, ShownArgs(query, ans.result, sources));
  }

  /** `what is {x}?` is such a query. */
  lemma ReportBraceQuery(ans: CustomChains.Answer, escape: string -> string)
    requires AllSourced(ans.sourceDocuments)
    ensures Report("what is {x}?", ans, escape) == Failure("KeyError")
  {
    assert !AllDigits("x") by { assert "x"[0] == 'x'; }
    ReportUnknownField("what is ", "x", "?", ans, escape);
    assert "what is " + "{" + "x" + "}" + "?" == "what is {x}?";
  }

  /** The three pieces of markup with a placeholder after each. */
  function Template(m1: string, m2: string, m3: string): string {
    m1 + "{query}" + m2 + "{answer}" + m3 + "{sources_str}"
  }

  /** The template `prompt_once` evidently means to hand over: its markup with
      placeholders for the three arguments it passes. */
  const ShownTemplate := Template(QuestionMarkup, AnswerMarkup, SourcesMarkup)

  /** The last piece of markup and its placeholder show the sources. */
  lemma FillSources(m3: string, query: string, answer: string, sources: string)
    requires Utils.BraceFree(m3)
    ensures Utils.Format(m3 + "{sources_str}", ShownArgs(query, answer, sources)) == Success(m3 + sources)
  {
    var args := ShownArgs(query, answer, sources);
    assert !AllDigits("sources_str") by { assert "sources_str"[0] == 's'; }
    assert m3 + "{sources_str}" == m3 + ("{" + "sources_str" + "}" + []);
    Utils.FormatMarkupField(m3, "sources_str", [], args);
    assert Utils.Format([], args) == Success([]);
    assert m3 + sources + [] == m3 + sources;
  }

  /** The second piece of markup, the answer and what follows them. */
  lemma FillAnswer(m2: string, m3: string, query: string, answer: string, sources: string)
    requires Utils.BraceFree(m2) && Utils.BraceFree(m3)
    ensures Utils.Format(m2 + "{answer}" + (m3 + "{sources_str}"), ShownArgs(query, answer, sources))
         == Success(m2 + answer + (m3 + sources))
  {
    var args := ShownArgs(query, answer, sources);
    assert !AllDigits("answer") by { assert "answer"[0] == 'a'; }
    FillSources(m3, query, answer, sources);
    assert m2 + "{answer}" + (m3 + "{sources_str}") == m2 + ("{" + "answer" + "}" + (m3 + "{sources_str}"));
    Utils.FormatMarkupField(m2, "answer", m3 + "{sources_str}", args);
  }

  /** Whatever brace-free markup surrounds the placeholders, formatting the
      template places the three values verbatim. */
  lemma FillTemplate(m1: string, m2: string, m3: string, query: string, answer: string, sources: string)
    requires Utils.BraceFree(m1) && Utils.BraceFree(m2) && Utils.BraceFree(m3)
    ensures Utils.Format(Template(m1, m2, m3), ShownArgs(query, answer, sources))
         == Success(Filled(m1, m2, m3, query, answer, sources))
  {
    var args := ShownArgs(query, answer, sources);
    var rest := m2 + "{answer}" + (m3 + "{sources_str}");
    assert !AllDigits("query") by { assert "query"[0] == 'q'; }
    assert Template(m1, m2, m3) == m1 + ("{" + "query" + "}" + rest);
    FillAnswer(m2, m3, query, answer, sources);
    Utils.FormatMarkupField(m1, "query", rest, args);
    assert m1 + query + (m2 + answer + (m3 + sources)) == Filled(m1, m2, m3, query, answer, sources);
  }

  /** Formatting the template shows exactly the text the f-string builds,
      whatever the query, the answer and the sources hold. */
  lemma TemplateShowsVerbatim(query: string, answer: string, sources: string)
    ensures Utils.Format(ShownTemplate, ShownArgs(query, answer, sources)) == Success(Shown(query, answer, sources))
  {
    QuestionMarkupBraceFree();
    AnswerMarkupBraceFree();
    SourcesMarkupBraceFree();
    FillTemplate(QuestionMarkup, AnswerMarkup, SourcesMarkup, query, answer, sources);
  }

  /** What `prompt_once` evidently means to do: hand `print_HTML` the template
      and the three arguments, so the report fails only for a document
      without a source, and the printed text shows the query, the answer and
      the sources verbatim. */
  function ReportIntended(query: string, ans: CustomChains.Answer, escape: string -> string): (r: Result<(string, string)>)
    ensures r.Success? <==> AllSourced(ans.sourceDocuments)
    ensures r.Success? ==> r.value.0 == ans.result
    ensures r.Success? ==> SourcesStr(ans.sourceDocuments, (source, content) => HtmlEntry(escape, source, content)) == Success(r.value.1)
    ensures r.Success? ==> Utils.Format(ShownTemplate, ShownArgs(query, ans.result, r.value.1)) == Success(Shown(query, ans.result, r.value.1))
  {
    var sources := SourcesStr(ans.sourceDocuments, (source, content) => HtmlEntry(escape, source, content));
    if sources.Failure? then Failure(sources.error)
    else
      TemplateShowsVerbatim(query, ans.result, sources.value);
      Success((ans.result, sources.value))
  }

  // ----- the system -----

  /** The chain was built on the given model and retriever. */
  predicate BuiltOn(qa: Chain, llm: LanguageModel, retriever: Retriever) {
    && (qa.Stuff? ==> qa.stuff.llm == llm && qa.stuff.retriever == retriever
                       && CustomChains.StuffFormattable(qa.stuff.prompt))
    && (qa.Refine? ==> qa.refine.llm == llm && qa.refine.retriever == retriever && qa.refine.Valid())
  }

  /** `BetterRefine(llm=..., vectorstore=...)` with the default prompt. */
  method NewRefine(llm: LanguageModel, retriever: Retriever, nForward: int, nRetrieve: int)
    returns (r: CustomChains.RefineQA)
    modifies retriever
    ensures r.llm == llm && r.retriever == retriever && r.Valid()
    ensures retriever.searchKwargs == CustomChains.WithRetrievalCounts(old(retriever.searchKwargs), nForward, nRetrieve)
  {
    r := new CustomChains.RefineQA(llm, retriever, None, nForward, nRetrieve);
  }

  /** The `match chain_type` of `QASystem.__init__`: the chain `CHAIN_TYPE`
      names, built with its default prompt on the model and the retriever. */
  method NewChain(llm: LanguageModel, retriever: Retriever, chainType: string,
                  library: string -> CustomChains.Answer, nForward: int, nRetrieve: int)
    returns (qa: Chain)
    modifies retriever
    ensures BuiltOn(qa, llm, retriever) && KindOf(qa) == SelectChain(chainType)
    ensures qa.Library? ==> qa.ask == library
    ensures qa.Stuff? ==> qa.stuff.prompt == CustomChains.StuffPrompt
    ensures qa.Library? ==> retriever.searchKwargs == old(retriever.searchKwargs)
    ensures !qa.Library? ==>
      retriever.searchKwargs == CustomChains.WithRetrievalCounts(old(retriever.searchKwargs), nForward, nRetrieve)
  {
    match SelectChain(chainType) {
      case BetterStuff =>
        CustomChains.StuffPromptFormattable();
        var s := new CustomChains.StuffQA(llm, retriever, None, nForward, nRetrieve);
        qa := Stuff(s);
      case BetterRefine =>
        var r := NewRefine(llm, retriever, nForward, nRetrieve);
        qa := Refine(r);
      case LibraryChain(t) =>
        qa := Library(t, library);
    }
  }

  /** The stuff chain's answer over the retrieved documents: the model's
      answer to the prompt filled with the documents that fit the context
      window, which are the sources. */
  function StuffAnswer(llm: LanguageModel, prompt: Prompts.PromptTemplate, query: string, nCtx: int,
                       docs: seq<Document>): CustomChains.Answer
    requires CustomChains.StuffFormattable(prompt)
  {
    var kept := CustomChains.StuffKept(llm.numTokens, prompt, query, nCtx - llm.maxTokens, docs);
    CustomChains.Answer(llm.generate(CustomChains.StuffText(prompt, query, kept)), kept)
  }

  /** The refine chain's answer over the retrieved documents: the last answer
      of the run, or "None" when nothing was retrieved, with every document
      as a source. */
  function RefineAnswer(rq: CustomChains.RefineQA, query: string, docs: seq<Document>): CustomChains.Answer
    requires rq.Valid()
  {
    var run := CustomChains.RefineRun(rq.llm.generate, rq.seedPrompt, rq.refinePrompt, query, docs);
    CustomChains.Answer(if docs == [] then "None" else run[|run| - 1].answer, docs)
  }

  /** The prompts the refine chain sends for the retrieved documents: one per
      document, in order. */
  function RefinePrompts(rq: CustomChains.RefineQA, query: string, docs: seq<Document>): (ps: seq<string>)
    requires rq.Valid()
    ensures |ps| == |docs|
  {
    CustomChains.PromptsOf(CustomChains.RefineRun(rq.llm.generate, rq.seedPrompt, rq.refinePrompt, query, docs))
  }

  /** `self.qa(query)` on the stuff chain: one generation, over the documents
      that fit the context window. */
  method AskStuff(s: CustomChains.StuffQA, query: string, nCtx: int) returns (answer: CustomChains.Answer)
    requires CustomChains.StuffFormattable(s.prompt)
    modifies s.llm
    ensures answer == StuffAnswer(s.llm, s.prompt, query, nCtx, s.retriever.FetchDocuments(query))
    ensures answer.sourceDocuments ==
      CustomChains.StuffKept(s.llm.numTokens, s.prompt, query, nCtx - s.llm.maxTokens, s.retriever.FetchDocuments(query))
    ensures s.llm.prompts == old(s.llm.prompts) + [CustomChains.StuffText(s.prompt, query, answer.sourceDocuments)]
  {
    var a := s.Call(query, nCtx);
    answer := if a.Success? then a.value else CustomChains.Answer("", []);
  }

  /** `self.qa(query)` on the refine chain: one generation per retrieved
      document, every one of them a source. */
  method AskRefine(rq: CustomChains.RefineQA, query: string) returns (answer: CustomChains.Answer)
    requires rq.Valid()
    modifies rq.llm
    ensures answer == RefineAnswer(rq, query, rq.retriever.FetchDocuments(query))
    ensures answer.sourceDocuments == rq.retriever.FetchDocuments(query)
    ensures rq.llm.prompts == old(rq.llm.prompts) + RefinePrompts(rq, query, rq.retriever.FetchDocuments(query))
    ensures |rq.llm.prompts| == |old(rq.llm.prompts)| + |rq.retriever.FetchDocuments(query)|
  {
    answer := rq.Call(query);
  }

  /** `casalioy.startLLM.QASystem`. */
  class QASystem {
    const llm: LanguageModel
    const config: LlmConfig
    const retriever: Retriever
    const qa: Chain
    const nCtx: int
    const escape: string -> string

    predicate Valid()
    {
      BuiltOn(qa, llm, retriever)
    }

    /** `QASystem.__init__` once the model type has been accepted: build the
        chain `CHAIN_TYPE` names on the model and the store's retriever, then
        set the retriever's document counts. */
    constructor (kind: ModelKind, settings: ModelSettings, llm: LanguageModel, retriever: Retriever, chainType: string,
                 library: string -> CustomChains.Answer, nForward: int, nRetrieve: int, escape: string -> string)
      modifies retriever
      ensures Valid()
      ensures this.llm == llm && this.retriever == retriever && this.nCtx == settings.nCtx && this.escape == escape
      ensures config == LlmConfigFor(kind, settings)
      ensures KindOf(qa) == SelectChain(chainType)
      ensures qa.Library? ==> qa.ask == library
      ensures qa.Stuff? ==> qa.stuff.prompt == CustomChains.StuffPrompt
      ensures retriever.searchKwargs == CustomChains.WithRetrievalCounts(old(retriever.searchKwargs), nForward, nRetrieve)
    {
      this.llm := llm;
      this.retriever := retriever;
      this.nCtx := settings.nCtx;
      this.escape := escape;
      config := LlmConfigFor(kind, settings);
      var chain := NewChain(llm, retriever, chainType, library, nForward, nRetrieve);
      qa := chain;
      new;
      CustomChains.WithRetrievalCountsIdempotent(old(retriever.searchKwargs), nForward, nRetrieve);
      retriever.searchKwargs := CustomChains.WithRetrievalCounts(retriever.searchKwargs, nForward, nRetrieve);
    }

    /** What the chain answers to a query: the library's own answer, the
        refine chain's last answer with every retrieved document, and the
        stuff chain's one answer with the documents that fit the context
        window. */
    predicate Answered(query: string, answer: CustomChains.Answer)
      reads retriever
    {
      && (qa.Library? ==> answer == qa.ask(query))
      && (qa.Refine? ==>
            && qa.refine.Valid()
            && answer == RefineAnswer(qa.refine, query, retriever.FetchDocuments(query)))
      && (qa.Stuff? ==>
            && CustomChains.StuffFormattable(qa.stuff.prompt)
            && answer == StuffAnswer(llm, qa.stuff.prompt, query, nCtx, retriever.FetchDocuments(query)))
    }

    /** The model's prompt log after asking `query`: one prompt per retrieved
        document for the refine chain, and the one stuffed prompt for the
        stuff chain. The library chain's calls happen inside the library and
        are not stated. */
    predicate Prompted(query: string, before: seq<string>, after: seq<string>)
      reads retriever
    {
      && (qa.Refine? ==>
            && qa.refine.Valid()
            && after == before + RefinePrompts(qa.refine, query, retriever.FetchDocuments(query)))
      && (qa.Stuff? ==>
            && CustomChains.StuffFormattable(qa.stuff.prompt)
            && after == before + [CustomChains.StuffText(qa.stuff.prompt, query,
                 StuffAnswer(llm, qa.stuff.prompt, query, nCtx, retriever.FetchDocuments(query)).sourceDocuments)])
    }

    /** `prompt_once`: ask the chain once and report its answer with the
        sources string. `answer` is the chain's own result. */
    method PromptOnce(query: string) returns (answer: CustomChains.Answer, r: Result<(string, string)>)
      requires Valid()
      modifies llm
      ensures r == ReportIntended(query, answer, escape) && Answered(query, answer)
      ensures Prompted(query, old(llm.prompts), llm.prompts)
      ensures qa.Refine? ==> |llm.prompts| == |old(llm.prompts)| + |retriever.FetchDocuments(query)|
      ensures qa.Stuff? ==> |llm.prompts| == |old(llm.prompts)| + 1
    {
      match qa {
        case Stuff(s) =>
          answer := AskStuff(s, query, nCtx);
        case Refine(rq) =>
          answer := AskRefine(rq, query);
        case Library(_, ask) =>
          answer := ask(query);
      }
      r := ReportIntended(query, answer, escape);
    }
  }

  /** `main`'s model check: an unknown model type raises before any system
      exists; otherwise the system is built. */
  method NewQASystem(modelType: string, settings: ModelSettings, llm: LanguageModel, retriever: Retriever, chainType: string,
                     library: string -> CustomChains.Answer, nForward: int, nRetrieve: int, escape: string -> string)
    returns (r: Result<QASystem>)
    modifies retriever
    ensures r.Failure? <==> SelectModel(modelType).Failure?
    ensures r.Failure? ==> r.error == "ValueError" && retriever.searchKwargs == old(retriever.searchKwargs)
    ensures r.Success? ==>
      (&& r.value.Valid() && r.value.llm == llm && r.value.retriever == retriever
       && r.value.config == LlmConfigFor(SelectModel(modelType).value, settings)
       && KindOf(r.value.qa) == SelectChain(chainType)
       && retriever.searchKwargs == CustomChains.WithRetrievalCounts(old(retriever.searchKwargs), nForward, nRetrieve))
  {
    var kind := SelectModel(modelType);
    if kind.Failure? {
      return Failure(kind.error);
    }
    var system := new QASystem(kind.value, settings, llm, retriever, chainType, library, nForward, nRetrieve, escape);
    r := Success(system);
  }

  // ----- the query loop -----

  datatype Command = Exit | Skip | Ask(query: string)

  /** `main`'s reading of one input line: strip it, then `exit` ends, an empty
      query is skipped and anything else is asked. */
  function Classify(line: string): (c: Command)
    ensures c.Ask? ==> c.query == Strip(line) && c.query != [] && c.query != "exit"
    ensures c == Exit <==> Strip(line) == "exit"
    ensures c == Skip <==> Strip(line) == []
  {
    var query := Strip(line);
    if query == "exit" then Exit else if query == [] then Skip else Ask(query)
  }

  /** Whitespace around a line never changes what is done with it: `  exit `
      ends the loop as `exit` does. */
  lemma ClassifyIgnoresPadding(pre: string, line: string, post: string)
    requires AllSpace(pre) && AllSpace(post)
    ensures Classify(pre + line + post) == Classify(line)
  {
    StripPadding(pre, line, post);
  }

  /** What `main` does with each input line. */
  function Commands(lines: seq<string>): (cs: seq<Command>)
    ensures |cs| == |lines| && forall k :: 0 <= k < |lines| ==> cs[k] == Classify(lines[k])
  {
    seq(|lines|, k requires 0 <= k < |lines| => Classify(lines[k]))
  }

  /** The queries asked for a sequence of commands: every `Ask` before the
      first `Exit`. */
  function AskedOf(cs: seq<Command>): seq<string> {
    if cs == [] then []
    else
      match cs[0]
      case Exit => []
      case Skip => AskedOf(cs[1..])
      case Ask(q) => [q] + AskedOf(cs[1..])
  }

  /** The queries `main` asks for a sequence of input lines: every non-empty
      stripped line before the first `exit`. */
  function Queries(lines: seq<string>): seq<string> {
    AskedOf(Commands(lines))
  }

  /** A query `main` may hand to the chain. */
  predicate Askable(q: string) {
    q != [] && q != "exit"
  }

  lemma {:induction false} AskedOfAskable(cs: seq<Command>)
    requires forall k :: 0 <= k < |cs| && cs[k].Ask? ==> Askable(cs[k].query)
    ensures forall q :: q in AskedOf(cs) ==> Askable(q)
  {
    if cs != [] {
      assert forall k :: 0 <= k < |cs[1..]| ==> cs[1..][k] == cs[k + 1];
      AskedOfAskable(cs[1..]);
    }
  }

  /** No asked query is empty or `exit`. */
  lemma QueriesNeverEmptyOrExit(lines: seq<string>)
    ensures forall q :: q in Queries(lines) ==> q != [] && q != "exit"
  {
    var cs := Commands(lines);
    forall k | 0 <= k < |cs| && cs[k].Ask? ensures Askable(cs[k].query) {
      assert cs[k] == Classify(lines[k]);
    }
    AskedOfAskable(cs);
  }

  lemma {:induction false} AskedOfStopsAtExit(cs: seq<Command>, i: nat)
    requires i < |cs| && cs[i].Exit?
    ensures AskedOf(cs) == AskedOf(cs[..i])
  {
    if i > 0 {
      AskedOfStopsAtExit(cs[1..], i - 1);
      assert cs[1..][..i - 1] == cs[..i][1..];
      assert cs[..i][0] == cs[0];
    } else {
      assert cs[..0] == [];
    }
  }

  /** Lines after the first `exit` are never read. */
  lemma QueriesStopAtExit(lines: seq<string>, i: nat)
    requires i < |lines| && Classify(lines[i]).Exit?
    ensures Queries(lines) == Queries(lines[..i])
  {
    var cs := Commands(lines);
    assert cs[i] == Classify(lines[i]);
    AskedOfStopsAtExit(cs, i);
    assert Commands(lines[..i]) == cs[..i];
  }

  /** One step of `AskedOf` from command `i`. */
  lemma AskedOfFrom(cs: seq<Command>, i: nat)
    requires i < |cs|
    ensures && (cs[i].Exit? ==> AskedOf(cs[i..]) == [])
            && (cs[i].Skip? ==> AskedOf(cs[i..]) == AskedOf(cs[i + 1..]))
            && (cs[i].Ask? ==> AskedOf(cs[i..]) == [cs[i].query] + AskedOf(cs[i + 1..]))
  {
    assert cs[i..][1..] == cs[i + 1..];
    assert cs[i..][0] == cs[i];
  }

  predicate IsPrefix(a: seq<string>, b: seq<string>) {
    |a| <= |b| && a == b[..|a|]
  }

  /** Asking `q` moves it from the queries still to come to those asked. */
  lemma AskOne(asked: seq<string>, q: string, rest: seq<string>, all: seq<string>)
    requires asked + ([q] + rest) == all
    ensures (asked + [q]) + rest == all && IsPrefix(asked + [q], all)
  {
    assert (asked + [q]) + rest == asked + ([q] + rest);
  }

  /** `main`: read lines until `exit` (or until the input ends), skipping empty
      ones and asking the system once for every other; a failed report ends
      the loop with its error. */
  method Repl(system: QASystem, lines: seq<string>) returns (asked: seq<string>, r: Outcome)
    requires system.Valid()
    modifies system.llm
    ensures r.Pass? ==> asked == Queries(lines)
    ensures r.Fail? ==> asked != [] && IsPrefix(asked, Queries(lines))
  {
    asked := [];
    ghost var cs := Commands(lines);
    var i := 0;
    while i < |lines|
      invariant 0 <= i <= |lines|
      invariant asked + AskedOf(cs[i..]) == AskedOf(cs)
    {
      AskedOfFrom(cs, i);
      var command := Classify(lines[i]);
      assert cs[i] == command;
      if command.Exit? {
        break;
      }
      if command.Skip? {
        i := i + 1;
        continue;
      }
      var answer, shown := system.PromptOnce(command.query);
      AskOne(asked, command.query, AskedOf(cs[i + 1..]), AskedOf(cs));
      asked := asked + [command.query];
      if shown.Failure? {
        return asked, Fail(shown.error);
      }
      i := i + 1;
    }
    r := Pass;
  }
}
