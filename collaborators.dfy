/** The LangChain objects the question-answering chains talk to: retrieved
    documents, the language model and the vector-store retriever. Their own
    behaviour (tokenizer, generation, similarity search) is foreign and is given
    to them as functions. */
module Collaborators {

  type Metadata = map<string, string>

  /** A LangChain `Document`: text plus metadata (loaders set `"source"`). */
  datatype Document = Document(pageContent: string, metadata: Metadata)

  /** A value in a retriever's `search_kwargs`: the document counts `k` and
      `fetch_k`, or any other search setting, kept as its text. */
  datatype SearchValue = Count(n: int) | Setting(text: string)

  /** A language model: `get_num_tokens`, `predict` and the `max_tokens` entry of
      its `dict()`. `prompts` records every prompt `predict` was called with. */
  class LanguageModel {
    const numTokens: string -> nat
    const generate: string -> string
    const maxTokens: int
    var prompts: seq<string>

    constructor (numTokens: string -> nat, generate: string -> string, maxTokens: int)
      ensures this.numTokens == numTokens && this.generate == generate && this.maxTokens == maxTokens
      ensures prompts == []
    {
      this.numTokens := numTokens;
      this.generate := generate;
      this.maxTokens := maxTokens;
      prompts := [];
    }

    /** `llm.predict(prompt)`: one generation call. */
    method Predict(prompt: string) returns (answer: string)
      modifies this`prompts
      ensures prompts == old(prompts) + [prompt]
      ensures answer == generate(prompt)
    {
      prompts := prompts + [prompt];
      answer := generate(prompt);
    }
  }

  /** A `VectorStoreRetriever` in maximal-marginal-relevance mode: `search` is
      the store's answer to a query under the given search settings. */
  class Retriever {
    var searchKwargs: map<string, SearchValue>
    const search: (map<string, SearchValue>, string) -> seq<Document>

    constructor (search: (map<string, SearchValue>, string) -> seq<Document>, searchKwargs: map<string, SearchValue>)
      ensures this.search == search && this.searchKwargs == searchKwargs
    {
      this.search := search;
      this.searchKwargs := searchKwargs;
    }

    /** `get_relevant_documents(query)` under the current search settings. */
    function FetchDocuments(query: string): seq<Document>
      reads this
    {
      search(searchKwargs, query)
    }
  }
}
