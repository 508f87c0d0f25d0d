/** The revised "stuff" chain of casalioy/better_chain.py: its context block
    opens with a "Context" header, it leaves room for two answers' worth of
    tokens instead of one, and it returns only the generated text. */
module BetterChain {
  import opened Wrappers
  import opened Text
  import opened Prompts
  import opened Collaborators
  import opened Packing
  import CustomChains

  /** The header every context block starts with. */
  const ContextHeader := "Context\n------\n"

  /** `StuffQA.default_prompt` of this chain. */
  const BetterStuffPrompt := PromptTemplate(
    [ Lit("HUMAN: Answer the question using ONLY the given extracts from (possibly unrelated) documents.\nIf you are unsure of the answer, respond with \"Unknown[STOP]\".\nConclude your response with \"[STOP]\" to indicate the completion of the answer.\nEach time you take information from an extract, cite it as EXACTLY \"[E1]\" for extract 1, \"[E2]\" for extract 2 etc.\nExample: \"This is part of the answer[E1], this is another part of the answer[E2]\"\n\nQuestion: "),
      Var("question"),
      Lit("\n\n"),
      Var("context"),
      Lit("\n\nASSISTANT: ") ],
    ["context", "question"])

  lemma BetterStuffPromptFormattable()
    ensures CustomChains.StuffFormattable(BetterStuffPrompt) && Declared(BetterStuffPrompt)
  {
    var t := BetterStuffPrompt.template;
    assert t[1].Var? && t[1].name == "question" && t[3].Var? && t[3].name == "context";
  }

  /** The context block: the header, then the numbered extracts, stripped. */
  function HeadedContext(docs: seq<Document>): string {
    Strip(ContextHeader + CustomChains.ExtractsText(docs))
  }

  /** `StuffQA.context_prompt_str`: the header, one extract appended per
      document with `+=`, and a final strip. */
  method ContextPromptStr(documents: seq<Document>) returns (r: string)
    ensures r == HeadedContext(documents)
  {
    var prompt := ContextHeader;
    var i := 0;
    while i < |documents|
      invariant 0 <= i <= |documents|
      invariant prompt == ContextHeader + CustomChains.ExtractsText(documents[..i])
    {
      assert documents[..i + 1][..i] == documents[..i];
      prompt := prompt + CustomChains.Extract(i + 1, documents[i]);
      i := i + 1;
    }
    assert documents[..i] == documents;
    r := Strip(prompt);
  }

  /** With no documents the block is the bare header, its last newline stripped. */
  lemma HeadedContextEmpty()
    ensures HeadedContext([]) == "Context\n------"
  {
    var h := ContextHeader;
    assert h + CustomChains.ExtractsText([]) == h;
    StripKeepsNonSpaceStart(h);
    assert h[..|h| - 1] == "Context\n------";
    assert RStrip(h) == RStrip(h[..|h| - 1]) == h[..|h| - 1];
  }

  /** With documents, the block is the header followed by exactly the context
      the original `StuffQA` builds from the same documents. */
  lemma HeadedContextExtends(docs: seq<Document>)
    requires docs != []
    ensures HeadedContext(docs) == ContextHeader + CustomChains.ContextPromptStr(docs)
  {
    CustomChains.ContextPromptStrShape(docs);
    StripAfterWord(ContextHeader, CustomChains.ExtractsText(docs));
  }

  /** The prompt for a question and a list of documents. */
  function BetterText(p: PromptTemplate, question: string, docs: seq<Document>): string
    requires CustomChains.StuffFormattable(p)
  {
    Render(p.template, CustomChains.StuffEnv(question, HeadedContext(docs)))
  }

  /** The loop's test under this chain's budget. */
  function BetterFits(numTokens: string -> nat, p: PromptTemplate, question: string, budget: int): seq<Document> -> bool
    requires CustomChains.StuffFormattable(p)
  {
    docs => numTokens(BetterText(p, question, docs)) <= budget
  }

  /** The budget keeps room for twice the completion length. */
  function BetterBudget(modelNCtx: int, maxTokens: int): int {
    modelNCtx - maxTokens * 2
  }

  /** When a document was kept, the final prompt was measured and fits. */
  lemma BetterKeptWithinBudget(numTokens: string -> nat, p: PromptTemplate, question: string, budget: int, all: seq<Document>)
    requires CustomChains.StuffFormattable(p)
    ensures var kept := Packed(all, BetterFits(numTokens, p, question, budget));
      kept != [] ==> numTokens(BetterText(p, question, kept)) <= budget
  {
    var fits := BetterFits(numTokens, p, question, budget);
    PackedPrefixesFit(all, fits);
    var kept := Packed(all, fits);
    if kept != [] {
      assert fits(all[..|kept|]);
    }
  }

  /** The first document left out was the one whose addition overflowed. */
  lemma BetterDroppedOverflows(numTokens: string -> nat, p: PromptTemplate, question: string, budget: int, all: seq<Document>)
    requires CustomChains.StuffFormattable(p)
    ensures var kept := Packed(all, BetterFits(numTokens, p, question, budget));
      |kept| < |all| ==> numTokens(BetterText(p, question, kept + [all[|kept|]])) > budget
  {
    var fits := BetterFits(numTokens, p, question, budget);
    var kept := Packed(all, fits);
    if |kept| < |all| {
      PackedStopsAtFirstOverflow(all, fits);
      assert all[..|kept| + 1] == kept + [all[|kept|]];
    }
  }

  /** `casalioy.better_chain.StuffQA`. */
  class StuffQA {
    const llm: LanguageModel
    const retriever: Retriever
    const prompt: PromptTemplate

    /** `StuffQA.__init__`: keep the collaborators, fall back to the default
        prompt, and set the retriever's document counts. */
    constructor (llm: LanguageModel, retriever: Retriever, prompt: Option<PromptTemplate>, nForward: int, nRetrieve: int)
      modifies retriever
      ensures this.llm == llm && this.retriever == retriever
      ensures this.prompt == if prompt.Some? then prompt.value else BetterStuffPrompt
      ensures retriever.searchKwargs == CustomChains.WithRetrievalCounts(old(retriever.searchKwargs), nForward, nRetrieve)
    {
      this.llm := llm;
      this.retriever := retriever;
      this.prompt := if prompt.Some? then prompt.value else BetterStuffPrompt;
      new;
      retriever.searchKwargs := CustomChains.WithRetrievalCounts(retriever.searchKwargs, nForward, nRetrieve);
    }

    /** `StuffQA.__call__`: packs the retrieved documents under
        `model_n_ctx - 2 * max_tokens`, makes exactly one `predict` call and
        returns its text alone. A prompt whose placeholders are not exactly
        `question` and `context` raises before any generation. */
    method Call(inputStr: string, modelNCtx: int) returns (r: Result<string>)
      modifies llm
      ensures r.Failure? <==> !CustomChains.StuffFormattable(prompt)
      ensures r.Failure? ==> llm.prompts == old(llm.prompts)
      ensures r.Success? ==>
        var kept := Packed(old(retriever.FetchDocuments(inputStr)), BetterFits(llm.numTokens, prompt, inputStr, BetterBudget(modelNCtx, llm.maxTokens)));
        && r.value == llm.generate(BetterText(prompt, inputStr, kept))
        && llm.prompts == old(llm.prompts) + [BetterText(prompt, inputStr, kept)]
    {
      if !CustomChains.StuffFormattable(prompt) {
        return Failure("KeyError");
      }
      var allDocuments := retriever.FetchDocuments(inputStr);
      var documents := PackPrefix(allDocuments, BetterFits(llm.numTokens, prompt, inputStr, BetterBudget(modelNCtx, llm.maxTokens)));
      var contextStr := ContextPromptStr(documents);
      var formattedPrompt := Render(prompt.template, CustomChains.StuffEnv(inputStr, contextStr));
      var result := llm.Predict(formattedPrompt);
      r := Success(result);
    }
  }
}
