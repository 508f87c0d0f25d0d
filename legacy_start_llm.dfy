/** The first question-answering script, startLLM.py at the top of the
    repository: the same model dispatch without GPU layers or a token limit,
    always the library's chain, and sources printed without markup. */
module LegacyStartLlm {
  import opened Wrappers
  import opened Text
  import opened Collaborators
  import CustomChains
  import StartLlm
  import LoadEnv

  /** The keyword arguments each model class is built with. */
  datatype LegacyLlmConfig =
    | LlamaCppConfig(modelPath: string, nCtx: int, stop: seq<string>, nThreads: nat, nBatch: nat, useMlock: bool)
    | GPT4AllConfig(modelPath: string, nCtx: int, backend: string)

  /** The `match model_type` of `initialize_qa_system`. */
  function ConfigFor(modelType: string, modelPath: string, nCtx: int, stop: seq<string>, useMlock: bool): (r: Result<LegacyLlmConfig>)
    ensures r.Success? <==> modelType == "LlamaCpp" || modelType == "GPT4All"
    ensures r.Failure? ==> r.error == "ValueError"
    ensures r.Success? ==> r.value.modelPath == modelPath && r.value.nCtx == nCtx
    ensures r.Success? ==> (r.value.LlamaCppConfig? <==> modelType == "LlamaCpp")
  {
    match StartLlm.SelectModel(modelType)
    case Failure(e) => Failure(e)
    case Success(kind) =>
      match kind
      case LlamaCppModel => Success(LlamaCppConfig(modelPath, nCtx, stop, 6, 1000, useMlock))
      case GPT4AllModel => Success(GPT4AllConfig(modelPath, nCtx, "gptj"))
  }

  /** casalioy/startLLM.py builds each model with the same arguments as this
      script, adding only the GPU layers and the token limit to `LlamaCpp`. */
  lemma ConfigAgreesWithQASystem(kind: StartLlm.ModelKind, s: StartLlm.ModelSettings)
    ensures var legacy := ConfigFor(StartLlm.ModelName(kind), s.modelPath, s.nCtx, s.stop, s.useMlock);
      var current := StartLlm.LlmConfigFor(kind, s);
      && legacy.Success?
      && (legacy.value.LlamaCppConfig? <==> current.LlamaCppConfig?)
      && (current.LlamaCppConfig? ==>
            legacy.value == LlamaCppConfig(current.modelPath, current.nCtx, current.stop, current.nThreads,
                                           current.nBatch, current.useMlock))
      && (current.GPT4AllConfig? ==> legacy.value == GPT4AllConfig(current.modelPath, current.nCtx, current.backend))
  {
    match kind
    case LlamaCppModel =>
      assert StartLlm.ModelName(kind) == "LlamaCpp";
    case GPT4AllModel =>
      assert StartLlm.ModelName(kind) == "GPT4All";
  }

  /** `initialize_qa_system`: the model settings and the library chain, whose
      answers to queries are foreign and given as `ask`. */
  datatype QaSystem = QaSystem(config: LegacyLlmConfig, chainType: string, ask: string -> CustomChains.Answer)

  /** `initialize_qa_system`: the embedding model is fetched first, so its
      error is raised before the model type is looked at; then the model
      settings and the library chain. `embedding` is what
      `get_embedding_model()` gives. */
  function InitializeQaSystem(embedding: Result<LoadEnv.Embedding>, modelType: string, modelPath: string, nCtx: int,
                              stop: seq<string>, useMlock: bool, chainType: string,
                              ask: string -> CustomChains.Answer): (r: Result<QaSystem>)
    ensures embedding.Failure? ==> r == Failure(embedding.error)
    ensures r.Failure? <==> embedding.Failure? || ConfigFor(modelType, modelPath, nCtx, stop, useMlock).Failure?
    ensures r.Success? ==>
      (r.value.config == ConfigFor(modelType, modelPath, nCtx, stop, useMlock).value
       && r.value.chainType == chainType && r.value.ask == ask)
  {
    if embedding.Failure? then Failure(embedding.error)
    else
      var config := ConfigFor(modelType, modelPath, nCtx, stop, useMlock);
      if config.Failure? then Failure(config.error) else Success(QaSystem(config.value, chainType, ask))
  }

  /** This script's entry: the source and the text, unescaped. */
  function PlainEntry(source: string, content: string): string {
    "> " + source + ":\n" + content
  }

  /** The sources string of this script. */
  function PlainSources(docs: seq<Document>): Result<string> {
    StartLlm.SourcesStr(docs, PlainEntry)
  }

  /** A single source is printed as `> <source>:` above its text; each further
      one follows a blank line. */
  lemma PlainSourcesShape(docs: seq<Document>, d: Document)
    requires StartLlm.AllSourced(docs) && "source" in d.metadata
    ensures PlainSources([d]) == Success("> " + d.metadata["source"] + ":\n" + d.pageContent)
    ensures docs != [] ==>
      (PlainSources(docs + [d]).Success? && PlainSources(docs).Success?
       && PlainSources(docs + [d]).value == PlainSources(docs).value + "\n\n" + PlainEntry(d.metadata["source"], d.pageContent))
  {
    StartLlm.SourcesStrSingle(d, PlainEntry);
    if docs != [] {
      StartLlm.SourcesStrAppend(docs, d, PlainEntry);
    }
  }

  /** Every query in `qs` was answered with sources that all name their `source`. */
  predicate Sourced(ask: string -> CustomChains.Answer, qs: seq<string>) {
    forall k :: 0 <= k < |qs| ==> StartLlm.AllSourced(ask(qs[k]).sourceDocuments)
  }

  lemma SourcedAppend(ask: string -> CustomChains.Answer, qs: seq<string>, q: string)
    requires Sourced(ask, qs) && StartLlm.AllSourced(ask(q).sourceDocuments)
    ensures Sourced(ask, qs + [q]) && (qs + [q])[..|qs|] == qs
  {
    assert forall k :: 0 <= k < |qs| ==> (qs + [q])[k] == qs[k];
  }

  /** `main`: read lines until `exit` (or until the input ends), skip empty
      ones and ask the chain for every other, printing its answer and
      sources; a source document without a `source` ends the loop with the
      `KeyError`. `asked` is every query handed to the chain, in order. */
  method Repl(system: QaSystem, lines: seq<string>) returns (asked: seq<string>, r: Outcome)
    ensures r.Pass? ==> asked == StartLlm.Queries(lines)
    ensures r.Fail? ==>
      (asked != [] && StartLlm.IsPrefix(asked, StartLlm.Queries(lines)) && r.error == "KeyError"
       && !StartLlm.AllSourced(system.ask(asked[|asked| - 1]).sourceDocuments))
    ensures r.Pass? ==> Sourced(system.ask, asked)
    ensures r.Fail? ==> Sourced(system.ask, asked[..|asked| - 1])
  {
    asked := [];
    ghost var cs := StartLlm.Commands(lines);
    var i := 0;
    while i < |lines|
      invariant 0 <= i <= |lines|
      invariant asked + StartLlm.AskedOf(cs[i..]) == StartLlm.AskedOf(cs)
      invariant Sourced(system.ask, asked)
    {
      StartLlm.AskedOfFrom(cs, i);
      var command := StartLlm.Classify(lines[i]);
      assert cs[i] == command;
      if command.Exit? {
        break;
      }
      if command.Skip? {
        i := i + 1;
        continue;
      }
      var res := system.ask(command.query);
      var sources := PlainSources(res.sourceDocuments);
      StartLlm.AskOne(asked, command.query, StartLlm.AskedOf(cs[i + 1..]), StartLlm.AskedOf(cs));
      if sources.Failure? {
        assert (asked + [command.query])[..|asked|] == asked;
        return asked + [command.query], Fail(sources.error);
      }
      SourcedAppend(system.ask, asked, command.query);
      asked := asked + [command.query];
      i := i + 1;
    }
    r := Pass;
  }
}
