/** The custom question-answering chains of casalioy/CustomChains.py: the
    retriever set-up every chain does on construction, the numbered-extract
    context block, `StuffQA` (pack as many retrieved documents as the context
    window allows, then generate once) and `RefineQA` (one generation per
    document, each refining the previous answer). */
module CustomChains {
  import opened Wrappers
  import opened Text
  import opened Prompts
  import opened Collaborators
  import opened Packing

  /** What a chain call returns: `{"result": ..., "source_documents": ...}`. */
  datatype Answer = Answer(result: string, sourceDocuments: seq<Document>)

  /** `{**search_kwargs, "k": n_forward_documents, "fetch_k": n_retrieve_documents}`. */
  function WithRetrievalCounts(kwargs: map<string, SearchValue>, nForward: int, nRetrieve: int): (r: map<string, SearchValue>)
    ensures r.Keys == kwargs.Keys + {"k", "fetch_k"}
    ensures r["k"] == Count(nForward) && r["fetch_k"] == Count(nRetrieve)
    ensures forall key :: key in kwargs && key != "k" && key != "fetch_k" ==> r[key] == kwargs[key]
  {
    kwargs["k" := Count(nForward)]["fetch_k" := Count(nRetrieve)]
  }

  /** Overriding the counts a second time with the same values changes nothing. */
  lemma WithRetrievalCountsIdempotent(kwargs: map<string, SearchValue>, nForward: int, nRetrieve: int)
    ensures WithRetrievalCounts(WithRetrievalCounts(kwargs, nForward, nRetrieve), nForward, nRetrieve)
         == WithRetrievalCounts(kwargs, nForward, nRetrieve)
  {
  }

  // ----- the context block -----

  /** `f"Extract {n}: {document.page_content}\n\n"`. */
  function Extract(n: nat, d: Document): string {
    "Extract " + NatToString(n) + ": " + d.pageContent + "\n\n"
  }

  /** The extracts of `docs` numbered from 1, concatenated in order. */
  function ExtractsText(docs: seq<Document>): string {
    if docs == [] then "" else ExtractsText(docs[..|docs| - 1]) + Extract(|docs|, docs[|docs| - 1])
  }

  /** `StuffQA.context_prompt_str`: the extracts, whitespace-stripped. */
  function ContextPromptStr(docs: seq<Document>): string {
    Strip(ExtractsText(docs))
  }

  /** The extracts of a prefix of the documents are a prefix of the extracts of
      all of them, and the extract of document `j` (numbered `j + 1`) follows
      those of the documents before it. */
  lemma {:induction false} ExtractsTextInOrder(docs: seq<Document>, j: nat)
    requires j < |docs|
    ensures StartsWith(ExtractsText(docs), ExtractsText(docs[..j]) + Extract(j + 1, docs[j]))
    decreases |docs|
  {
    var n := |docs|;
    assert docs[..j + 1][..j] == docs[..j];
    if j + 1 < n {
      assert docs[..n - 1][..j] == docs[..j] && docs[..n - 1][j] == docs[j];
      ExtractsTextInOrder(docs[..n - 1], j);
    } else {
      assert docs[..n - 1] == docs[..j];
    }
  }

  lemma NatToStringOne()
    ensures NatToString(1) == "1"
  {
    assert DigitChar(1) == '1';
  }

  /** A non-empty extract list starts with the first document's extract, numbered 1. */
  lemma ExtractsTextStart(docs: seq<Document>)
    requires docs != []
    ensures StartsWith(ExtractsText(docs), "Extract 1: " + docs[0].pageContent + "\n\n")
  {
    ExtractsTextInOrder(docs, 0);
    assert docs[..0] == [];
    NatToStringOne();
    assert Extract(1, docs[0]) == "Extract 1: " + docs[0].pageContent + "\n\n";
  }

  /** No extracts give the empty context; otherwise stripping only removes
      trailing whitespace, since the text starts with "Extract 1:". */
  lemma ContextPromptStrShape(docs: seq<Document>)
    ensures docs == [] ==> ContextPromptStr(docs) == ""
    ensures docs != [] ==> ContextPromptStr(docs) == RStrip(ExtractsText(docs))
    ensures docs != [] ==> StartsWith(ContextPromptStr(docs), "Extract 1")
    ensures docs != [] ==> |ExtractsText(docs)| > 0 && !IsSpace(ExtractsText(docs)[0])
  {
    if docs != [] {
      var t, e := ExtractsText(docs), "Extract 1: " + docs[0].pageContent + "\n\n";
      ExtractsTextStart(docs);
      assert t[..|e|] == e;
      assert t[0] == e[0] && t[9] == e[9];
      StripAfterWord(t[..9], t[9..]);
      assert t == t[..9] + t[9..];
      assert t[..9] == e[..9] == "Extract 1";
    }
  }

  // ----- StuffQA -----

  /** `StuffQA.default_prompt`. */
  const StuffPrompt := PromptTemplate(
    [ Lit("HUMAN:\nAnswer the question using ONLY the given extracts from (possibly unrelated and irrelevant) documents, not your own knowledge.\nIf you are unsure of the answer or if it isn't provided in the extracts, answer \"Unknown[STOP]\".\nConclude your answer with \"[STOP]\" when you're finished.\n\nQuestion: "),
      Var("question"),
      Lit("\n\n--------------\nHere are the extracts:\n"),
      Var("context"),
      Lit("\n\n--------------\nRemark: do not repeat the question !\n\nASSISTANT:\n") ],
    ["context", "question"])

  /** LangChain's formatter fills a template only when the supplied names are
      exactly its placeholders; the stuff prompt is given `question` and `context`. */
  predicate StuffFormattable(p: PromptTemplate) {
    Vars(p.template) == {"question", "context"}
  }

  lemma StuffPromptFormattable()
    ensures StuffFormattable(StuffPrompt) && Declared(StuffPrompt)
  {
    var t := StuffPrompt.template;
    assert t[1].Var? && t[1].name == "question" && t[3].Var? && t[3].name == "context";
  }

  function StuffEnv(question: string, context: string): map<string, string> {
    map["question" := question, "context" := context]
  }

  /** The rendered prompt for a question and a list of documents. */
  function StuffText(p: PromptTemplate, question: string, docs: seq<Document>): string
    requires StuffFormattable(p)
  {
    Render(p.template, StuffEnv(question, ContextPromptStr(docs)))
  }

  /** The loop's test: the rendered prompt's token count is within the budget. */
  predicate WithinBudget(numTokens: string -> nat, p: PromptTemplate, question: string, budget: int, docs: seq<Document>)
    requires StuffFormattable(p)
  {
    numTokens(StuffText(p, question, docs)) <= budget
  }

  function StuffFits(numTokens: string -> nat, p: PromptTemplate, question: string, budget: int): seq<Document> -> bool
    requires StuffFormattable(p)
  {
    docs => WithinBudget(numTokens, p, question, budget, docs)
  }

  /** When at least one document is kept, the final prompt is the last one the
      loop measured and it is within the budget. */
  lemma StuffKeptWithinBudget(numTokens: string -> nat, p: PromptTemplate, question: string, budget: int, all: seq<Document>)
    requires StuffFormattable(p)
    ensures var kept := Packed(all, StuffFits(numTokens, p, question, budget));
      kept != [] ==> numTokens(StuffText(p, question, kept)) <= budget
  {
    var fits := StuffFits(numTokens, p, question, budget);
    PackedPrefixesFit(all, fits);
    var kept := Packed(all, fits);
    if kept != [] {
      assert fits(all[..|kept|]);
    }
  }

  /** The document right after the kept ones was the first to overflow the
      budget: with it the measured prompt is too long. */
  lemma StuffDroppedOverflows(numTokens: string -> nat, p: PromptTemplate, question: string, budget: int, all: seq<Document>)
    requires StuffFormattable(p)
    ensures var kept := Packed(all, StuffFits(numTokens, p, question, budget));
      |kept| < |all| ==> numTokens(StuffText(p, question, kept + [all[|kept|]])) > budget
  {
    PackedStopsAtFirstOverflow(all, StuffFits(numTokens, p, question, budget));
  }

  /** The documents the stuff loop keeps. */
  function StuffKept(numTokens: string -> nat, p: PromptTemplate, question: string, budget: int, all: seq<Document>): seq<Document>
    requires StuffFormattable(p)
  {
    Packed(all, StuffFits(numTokens, p, question, budget))
  }

  /** `casalioy.CustomChains.StuffQA`. */
  class StuffQA {
    const llm: LanguageModel
    const retriever: Retriever
    const prompt: PromptTemplate

    /** `BaseQA.__init__`: keep the collaborators, fall back to the default
        prompt, and set the retriever's document counts. */
    constructor (llm: LanguageModel, retriever: Retriever, prompt: Option<PromptTemplate>, nForward: int, nRetrieve: int)
      modifies retriever
      ensures this.llm == llm && this.retriever == retriever
      ensures this.prompt == if prompt.Some? then prompt.value else StuffPrompt
      ensures retriever.searchKwargs == WithRetrievalCounts(old(retriever.searchKwargs), nForward, nRetrieve)
    {
      this.llm := llm;
      this.retriever := retriever;
      this.prompt := if prompt.Some? then prompt.value else StuffPrompt;
      new;
      retriever.searchKwargs := WithRetrievalCounts(retriever.searchKwargs, nForward, nRetrieve);
    }

    /** `StuffQA.__call__`: packs the retrieved documents under
        `model_n_ctx - max_tokens` and makes exactly one `predict` call, whose
        answer is returned with the kept documents as sources. A prompt whose
        placeholders are not exactly `question` and `context` raises before
        any generation. */
    method Call(inputStr: string, modelNCtx: int) returns (r: Result<Answer>)
      modifies llm
      ensures r.Failure? <==> !StuffFormattable(prompt)
      ensures r.Failure? ==> llm.prompts == old(llm.prompts)
      ensures r.Success? ==>
        var kept := StuffKept(llm.numTokens, prompt, inputStr, modelNCtx - llm.maxTokens, old(retriever.FetchDocuments(inputStr)));
        && r.value.sourceDocuments == kept
        && r.value.result == llm.generate(StuffText(prompt, inputStr, kept))
        && llm.prompts == old(llm.prompts) + [StuffText(prompt, inputStr, kept)]
    {
      if !StuffFormattable(prompt) {
        return Failure("KeyError");
      }
      var allDocuments := retriever.FetchDocuments(inputStr);
      var documents := PackPrefix(allDocuments, StuffFits(llm.numTokens, prompt, inputStr, modelNCtx - llm.maxTokens));
      var contextStr := ContextPromptStr(documents);
      var formattedPrompt := Render(prompt.template, StuffEnv(inputStr, contextStr));
      var result := llm.Predict(formattedPrompt);
      r := Success(Answer(result, documents));
    }
  }

  // ----- RefineQA -----

  /** A template for the first refine step: its placeholders are exactly the
      names the loop supplies, `question` and `context`. */
  predicate SeedFormattable(p: PromptTemplate) {
    Vars(p.template) == {"question", "context"}
  }

  /** A template for the later steps, which also supply `previous_answer`. */
  predicate RefineFormattable(p: PromptTemplate) {
    Vars(p.template) == {"question", "context", "previous_answer"}
  }

  /** `RefineQA.default_prompt`, used for the first document. */
  const RefineSeedPrompt := PromptTemplate(
    [ Lit("HUMAN:\nAnswer the question using ONLY the given extracts from a (possibly irrelevant) document, not your own knowledge.\nIf you are unsure of the answer or if it isn't provided in the extract, answer \"Unknown[STOP]\".\nConclude your answer with \"[STOP]\" when you're finished.\nAvoid adding any extraneous information.\n\nQuestion:\n-----------------\n"),
      Var("question"),
      Lit("\n\nExtract:\n-----------------\n"),
      Var("context"),
      Lit("\n\nASSISTANT:\n") ],
    ["context", "question"])

  /** `RefineQA.refine_prompt`, used for every later document. */
  const RefinePrompt := PromptTemplate(
    [ Lit("HUMAN:\nRefine the original answer to the question using the new (possibly irrelevant) document extract.\nUse ONLY the information from the extract and the previous answer, not your own knowledge.\nThe extract may not be relevant at all to the question.\nConclude your answer with \"[STOP]\" when you're finished.\nAvoid adding any extraneous information.\n\nQuestion:\n-----------------\n"),
      Var("question"),
      Lit("\n\nOriginal answer:\n-----------------\n"),
      Var("previous_answer"),
      Lit("\n\nNew extract:\n-----------------\n"),
      Var("context"),
      Lit("\n\nReminder:\n-----------------\nIf the extract is not relevant or helpful, don't even talk about it. Simply copy the original answer, without adding anything.\nDo not copy the question.\n\nASSISTANT:\n") ],
    ["context", "question", "previous_answer"])

  /** The seed template declares exactly the placeholders it uses, and those
      are the names the loop supplies for the first document. */
  lemma SeedPromptFormattable()
    ensures SeedFormattable(RefineSeedPrompt) && Declared(RefineSeedPrompt)
  {
    var s := RefineSeedPrompt.template;
    assert s[1].Var? && s[1].name == "question" && s[3].Var? && s[3].name == "context";
  }

  /** Likewise for the refine template and the later documents. */
  lemma RefinePromptFormattable()
    ensures RefineFormattable(RefinePrompt) && Declared(RefinePrompt)
  {
    var t := RefinePrompt.template;
    assert t[1].Var? && t[1].name == "question" && t[3].Var? && t[3].name == "previous_answer";
    assert t[5].Var? && t[5].name == "context";
  }

  function SeedEnv(question: string, d: Document): map<string, string> {
    map["question" := question, "context" := d.pageContent]
  }

  function RefineEnv(question: string, d: Document, previous: string): map<string, string> {
    map["question" := question, "context" := d.pageContent, "previous_answer" := previous]
  }

  /** The prompt for the first document. */
  function SeedText(seed: PromptTemplate, question: string, d: Document): string
    requires SeedFormattable(seed)
  {
    Render(seed.template, SeedEnv(question, d))
  }

  /** The prompt for a later document, carrying the previous answer. */
  function RefineText(refine: PromptTemplate, question: string, d: Document, previous: string): string
    requires RefineFormattable(refine)
  {
    Render(refine.template, RefineEnv(question, d, previous))
  }

  /** The seed prompt shows the model the question and the document. */
  lemma SeedTextCarries(seed: PromptTemplate, question: string, d: Document)
    requires SeedFormattable(seed)
    ensures exists a, b :: SeedText(seed, question, d) == a + question + b
    ensures exists a, b :: SeedText(seed, question, d) == a + d.pageContent + b
  {
    var t, env := seed.template, SeedEnv(question, d);
    assert "question" in Vars(t) && "context" in Vars(t);
    var i :| 0 <= i < |t| && t[i].Var? && t[i].name == "question";
    var j :| 0 <= j < |t| && t[j].Var? && t[j].name == "context";
    RenderContains(t, env, i);
    RenderContains(t, env, j);
  }

  /** A refine prompt shows the model both the previous answer and the new extract. */
  lemma RefineTextCarries(refine: PromptTemplate, question: string, d: Document, previous: string)
    requires RefineFormattable(refine)
    ensures exists a, b :: RefineText(refine, question, d, previous) == a + previous + b
    ensures exists a, b :: RefineText(refine, question, d, previous) == a + d.pageContent + b
  {
    var t, env := refine.template, RefineEnv(question, d, previous);
    assert "previous_answer" in Vars(t) && "context" in Vars(t);
    var i :| 0 <= i < |t| && t[i].Var? && t[i].name == "previous_answer";
    var j :| 0 <= j < |t| && t[j].Var? && t[j].name == "context";
    RenderContains(t, env, i);
    RenderContains(t, env, j);
  }

  /** One generation call of the refine loop: its prompt and the answer. */
  datatype Step = Step(prompt: string, answer: string)

  /** The calls the refine loop makes for `docs`, in order: the seed prompt for
      the first document, then a refine prompt threading the previous answer. */
  function RefineRun(generate: string -> string, seed: PromptTemplate, refine: PromptTemplate, question: string, docs: seq<Document>): (run: seq<Step>)
    requires SeedFormattable(seed) && RefineFormattable(refine)
    ensures |run| == |docs|
    decreases |docs|
  {
    if docs == [] then []
    else
      var prev := RefineRun(generate, seed, refine, question, docs[..|docs| - 1]);
      var p := if prev == [] then SeedText(seed, question, docs[0])
               else RefineText(refine, question, docs[|docs| - 1], prev[|prev| - 1].answer);
      prev + [Step(p, generate(p))]
  }

  function PromptsOf(run: seq<Step>): (ps: seq<string>)
    ensures |ps| == |run| && forall i :: 0 <= i < |run| ==> ps[i] == run[i].prompt
  {
    seq(|run|, i requires 0 <= i < |run| => run[i].prompt)
  }

  /** One more document adds one call: the seed prompt for the first document,
      else the refine prompt on the previous answer. */
  lemma RefineRunStep(generate: string -> string, seed: PromptTemplate, refine: PromptTemplate, question: string,
                      docs: seq<Document>, i: nat, run: seq<Step>, p: string)
    requires SeedFormattable(seed) && RefineFormattable(refine)
    requires i < |docs| && run == RefineRun(generate, seed, refine, question, docs[..i])
    requires i == 0 ==> p == SeedText(seed, question, docs[i])
    requires i > 0 ==> p == RefineText(refine, question, docs[i], run[i - 1].answer)
    ensures RefineRun(generate, seed, refine, question, docs[..i + 1]) == run + [Step(p, generate(p))]
  {
    assert docs[..i + 1][..i] == docs[..i];
    assert docs[..i + 1][0] == docs[0] && docs[..i + 1][i] == docs[i];
  }

  lemma PromptsOfAppend(run: seq<Step>, s: Step)
    ensures PromptsOf(run + [s]) == PromptsOf(run) + [s.prompt]
  {
  }

  /** Running the loop on a prefix of the documents performs exactly the first
      calls of running it on all of them. */
  lemma {:induction false} RefineRunPrefix(generate: string -> string, seed: PromptTemplate, refine: PromptTemplate, question: string, docs: seq<Document>, j: nat)
    requires SeedFormattable(seed) && RefineFormattable(refine)
    requires j <= |docs|
    ensures RefineRun(generate, seed, refine, question, docs[..j]) == RefineRun(generate, seed, refine, question, docs)[..j]
    decreases |docs|
  {
    if j < |docs| {
      var n := |docs|;
      assert docs[..n - 1][..j] == docs[..j];
      RefineRunPrefix(generate, seed, refine, question, docs[..n - 1], j);
    } else {
      assert docs[..j] == docs;
    }
  }

  /** The last call of a run, in terms of the run on the documents before it. */
  lemma RefineRunLast(generate: string -> string, seed: PromptTemplate, refine: PromptTemplate, question: string, docs: seq<Document>)
    requires SeedFormattable(seed) && RefineFormattable(refine)
    requires docs != []
    ensures var n := |docs|;
      var run := RefineRun(generate, seed, refine, question, docs);
      var prev := RefineRun(generate, seed, refine, question, docs[..n - 1]);
      && run[n - 1].answer == generate(run[n - 1].prompt)
      && (n == 1 ==> run[n - 1].prompt == SeedText(seed, question, docs[0]))
      && (n > 1 ==> run[n - 1].prompt == RefineText(refine, question, docs[n - 1], prev[n - 2].answer))
  {
  }

  /** Call `i` answers its own prompt; call 0 asks the seed question about the
      first document, and every later call refines the previous call's answer
      with document `i`. */
  lemma RefineRunSteps(generate: string -> string, seed: PromptTemplate, refine: PromptTemplate, question: string, docs: seq<Document>, i: nat)
    requires SeedFormattable(seed) && RefineFormattable(refine)
    requires i < |docs|
    ensures var run := RefineRun(generate, seed, refine, question, docs);
      && run[i].answer == generate(run[i].prompt)
      && (i == 0 ==> run[i].prompt == SeedText(seed, question, docs[0]))
      && (i > 0 ==> run[i].prompt == RefineText(refine, question, docs[i], run[i - 1].answer))
  {
    var run := RefineRun(generate, seed, refine, question, docs);
    var pre := docs[..i + 1];
    RefineRunPrefix(generate, seed, refine, question, docs, i + 1);
    RefineRunPrefix(generate, seed, refine, question, docs, i);
    RefineRunLast(generate, seed, refine, question, pre);
    assert pre[..i] == docs[..i] && pre[0] == docs[0] && pre[i] == docs[i];
    if i > 0 {
      assert run[..i][i - 1] == run[i - 1];
    }
  }

  /** `casalioy.CustomChains.RefineQA`. Its `prompt` field is set as in every
      chain but never read: the calls use the two refine templates. */
  class RefineQA {
    const llm: LanguageModel
    const retriever: Retriever
    const prompt: PromptTemplate
    const seedPrompt: PromptTemplate
    const refinePrompt: PromptTemplate

    /** The two refine templates fit the names the loop supplies. */
    predicate Valid()
    {
      SeedFormattable(seedPrompt) && RefineFormattable(refinePrompt)
    }

    /** `BaseQA.__init__`. */
    constructor (llm: LanguageModel, retriever: Retriever, prompt: Option<PromptTemplate>, nForward: int, nRetrieve: int)
      modifies retriever
      ensures this.llm == llm && this.retriever == retriever
      ensures this.prompt == if prompt.Some? then prompt.value else RefineSeedPrompt
      ensures seedPrompt == RefineSeedPrompt && refinePrompt == RefinePrompt && Valid()
      ensures retriever.searchKwargs == WithRetrievalCounts(old(retriever.searchKwargs), nForward, nRetrieve)
    {
      this.llm := llm;
      this.retriever := retriever;
      this.prompt := if prompt.Some? then prompt.value else RefineSeedPrompt;
      seedPrompt := RefineSeedPrompt;
      refinePrompt := RefinePrompt;
      new;
      SeedPromptFormattable();
      RefinePromptFormattable();
      retriever.searchKwargs := WithRetrievalCounts(retriever.searchKwargs, nForward, nRetrieve);
    }

    /** One pass of the loop: format the seed or the refine prompt for
        document `i` and predict; the run gains that call. */
    method CallStep(inputStr: string, documents: seq<Document>, i: nat, lastAnswer: Option<string>,
                    ghost run: seq<Step>, ghost before: seq<string>)
      returns (answer: string, ghost run': seq<Step>)
      requires Valid() && i < |documents|
      requires run == RefineRun(llm.generate, seedPrompt, refinePrompt, inputStr, documents[..i])
      requires lastAnswer == if i == 0 then None else Some(run[i - 1].answer)
      requires llm.prompts == before + PromptsOf(run)
      modifies llm`prompts
      ensures run' == RefineRun(llm.generate, seedPrompt, refinePrompt, inputStr, documents[..i + 1])
      ensures answer == run'[i].answer
      ensures llm.prompts == before + PromptsOf(run')
    {
      var formattedPrompt;
      if i == 0 {
        formattedPrompt := SeedText(seedPrompt, inputStr, documents[i]);
      } else {
        formattedPrompt := RefineText(refinePrompt, inputStr, documents[i], lastAnswer.value);
      }
      answer := llm.Predict(formattedPrompt);
      RefineRunStep(llm.generate, seedPrompt, refinePrompt, inputStr, documents, i, run, formattedPrompt);
      PromptsOfAppend(run, Step(formattedPrompt, answer));
      run' := run + [Step(formattedPrompt, answer)];
    }

    /** `RefineQA.__call__`: one `predict` per retrieved document, in order; the
        result is the last answer, or "None" when nothing was retrieved, and
        every retrieved document is reported as a source. */
    method Call(inputStr: string) returns (r: Answer)
      requires Valid()
      modifies llm
      ensures var docs := retriever.FetchDocuments(inputStr);
        var run := RefineRun(llm.generate, seedPrompt, refinePrompt, inputStr, docs);
        && llm.prompts == old(llm.prompts) + PromptsOf(run)
        && r.sourceDocuments == docs
        && r.result == if docs == [] then "None" else run[|run| - 1].answer
    {
      var documents := retriever.FetchDocuments(inputStr);
      var lastAnswer: Option<string> := None;
      ghost var run: seq<Step> := [];
      var i := 0;
      while i < |documents|
        invariant 0 <= i <= |documents|
        invariant run == RefineRun(llm.generate, seedPrompt, refinePrompt, inputStr, documents[..i])
        invariant llm.prompts == old(llm.prompts) + PromptsOf(run)
        invariant lastAnswer == if i == 0 then None else Some(run[i - 1].answer)
      {
        var answer;
        answer, run := CallStep(inputStr, documents, i, lastAnswer, run, old(llm.prompts));
        lastAnswer := Some(answer);
        i := i + 1;
      }
      assert documents[..i] == documents;
      r := Answer(if lastAnswer.Some? then lastAnswer.value else "None", documents);
    }
  }
}
