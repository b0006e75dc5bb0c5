/**
 * The retrieve, rerank and generate pipeline: context assembly, the prompt
 * text, the choice of language-model backend, the demo answer used when no
 * backend is configured, and the order in which a chat turn reads and
 * updates the conversation memory. Retrieval, scoring and the backends
 * themselves are parameters.
 */
module RagChain {
  import opened Wrappers
  import opened Text
  import opened VectorStore
  import opened Reranker
  import opened Memory

  const NoRelevant: string := "No relevant"

  /** The context text when retrieval found nothing; it starts with `NoRelevant`. */
  const NoDocuments: string := NoRelevant + " documents found in the knowledge base."

  const PartSeparator: string := "\n\n---\n\n"

  const SystemPrompt: string :=
    "You are an intelligent assistant with access to a knowledge base.\n"
    + "Answer questions using ONLY the provided context. If the context doesn't contain enough \n"
    + "information to answer, say so clearly rather than making things up.\n"
    + "\n"
    + "Guidelines:\n"
    + "- Be concise and accurate\n"
    + "- Cite which document you used when relevant\n"
    + "- If asked a follow-up, use the conversation history for context\n"
    + "- Format code blocks properly if needed\n"

  const NotFoundAnswer: string :=
    "I couldn't find relevant information in the knowledge base. "
    + "Please upload documents first and then ask your question."

  const DemoHead: string :=
    "[DEMO MODE – configure OPENAI_API_KEY or use Ollama]\n\n"
    + "Based on the retrieved context, here is a summary:\n\n"

  const DemoTail: string :=
    "…\n\nTo get real AI-generated answers, set your LLM provider in .env."

  const Ellipsis: string := "…"

  /** The block for the `i`-th document, counting from 1. */
  function Part(i: nat, doc: Hit): string {
    "[" + NatToString(i) + "] Source: " + doc.metadata.source.GetOr("Unknown") + "\n" + doc.text
  }

  function Parts(docs: seq<Hit>): (ps: seq<string>)
    ensures |ps| == |docs|
    ensures forall i :: 0 <= i < |docs| ==> ps[i] == Part(i + 1, docs[i])
  {
    seq(|docs|, i requires 0 <= i < |docs| => Part(i + 1, docs[i]))
  }

  /** The context block given to the model. */
  function ContextOf(docs: seq<Hit>): string {
    if docs == [] then NoDocuments else Join(Parts(docs), PartSeparator)
  }

  /** `_build_context`: numbers the documents from 1 in input order. */
  method BuildContext(documents: seq<Hit>) returns (r: string)
    ensures r == ContextOf(documents)
    ensures documents == [] <==> r == NoDocuments
    ensures documents != [] ==> IsPrefix("[1] Source: ", r)
  {
    if documents == [] {
      return NoDocuments;
    }
    var parts: seq<string> := [];
    for i := 0 to |documents|
      invariant |parts| == i
      invariant forall k :: 0 <= k < i ==> parts[k] == Part(k + 1, documents[k])
    {
      var doc := documents[i];
      var src := doc.metadata.source.GetOr("Unknown");
      parts := parts + ["[" + NatToString(i + 1) + "] Source: " + src + "\n" + doc.text];
    }
    assert parts == Parts(documents);
    r := Join(parts, PartSeparator);
    ContextStart(documents);
  }

  /** A non-empty context starts with the first document's header. */
  lemma ContextStart(docs: seq<Hit>)
    requires docs != []
    ensures IsPrefix("[1] Source: ", ContextOf(docs))
    ensures ContextOf(docs) != NoDocuments
  {
    var ps := Parts(docs);
    JoinFirst(ps, PartSeparator);
    assert NatToString(1) == "1";
    assert IsPrefix("[1] Source: ", ps[0]);
    assert ContextOf(docs)[0] == '[';
    assert NoDocuments[0] == NoRelevant[0] == 'N';
  }

  /** A join starts with its first part. */
  lemma {:induction false} JoinFirst(ps: seq<string>, sep: string)
    requires ps != []
    ensures IsPrefix(ps[0], Join(ps, sep))
    decreases |ps|
  {
    if |ps| > 1 {
      var init := ps[..|ps| - 1];
      JoinFirst(init, sep);
      assert Join(ps, sep) == Join(init, sep) + sep + ps[|ps| - 1];
    }
  }

  /** `"no relevant" in context.lower()`. */
  predicate MentionsNoRelevant(context: string) {
    Contains(Lower(context), "no relevant")
  }

  /** `_mock_response`. */
  function MockResponse(query: string, context: string): (r: string)
    ensures MentionsNoRelevant(context) ==> r == NotFoundAnswer
    ensures !MentionsNoRelevant(context) ==>
      var preview := ReplaceChar(PyTake(context, 400), '\n', ' ');
      && r == DemoHead + preview + DemoTail
      && |preview| == Min(400, |context|)
      && forall i :: 0 <= i < |preview| ==> preview[i] != '\n'
  {
    if MentionsNoRelevant(context) then NotFoundAnswer
    else DemoHead + ReplaceChar(PyTake(context, 400), '\n', ' ') + DemoTail
  }

  /** With nothing retrieved the demo answer is the fixed not-found text. */
  lemma MockOnEmptyContext(query: string)
    ensures MockResponse(query, ContextOf([])) == NotFoundAnswer
  {
    LowerPrefix(NoDocuments, |NoRelevant|);
    assert NoDocuments[..|NoRelevant|] == NoRelevant;
    assert Lower(NoRelevant) == "no relevant";
    assert IsPrefix("no relevant", Lower(NoDocuments));
  }

  lemma LowerPrefix(s: string, k: nat)
    requires k <= |s|
    ensures Lower(s)[..k] == Lower(s[..k])
  {
  }

  /** The prompt's opening: the retrieved context under its heading, then an empty line. */
  function PromptHead(context: string): string {
    "Context from knowledge base:\n" + context + "\n\n"
  }

  const ConversationHeading: string := "Conversation so far:\n"

  /** The prompt's closing: an empty line, the question and the instruction. */
  function PromptTail(query: string): string {
    "\n\nQuestion: " + query + "\n\nAnswer based strictly on the context above:"
  }

  /**
   * The prompt text sent to the model: the context, then the conversation so
   * far when there is one (nothing, which leaves a blank line, otherwise),
   * then the question.
   */
  function UserPrompt(query: string, context: string, history: string): (p: string)
    ensures history == "" ==> p == PromptHead(context) + PromptTail(query)
    ensures history != "" ==> p == PromptHead(context) + ConversationHeading + history + PromptTail(query)
    ensures history != "" ==> Contains(p, ConversationHeading + history)
  {
    var conversation := if history != "" then ConversationHeading + history else "";
    InfixContained(PromptHead(context), conversation, PromptTail(query));
    PromptHead(context) + conversation + PromptTail(query)
  }

  lemma {:induction false} InfixContained(a: string, m: string, b: string)
    ensures Contains(a + m + b, m)
    decreases |a|
  {
    if a == [] {
      assert (a + m + b)[..|m|] == m;
    } else {
      assert (a + m + b)[1..] == a[1..] + m + b;
      InfixContained(a[1..], m, b);
    }
  }

  datatype Backend = OpenAI | Ollama | Mock

  /** The backend `_generate` uses. */
  function Route(provider: string, hasClient: bool): (b: Backend)
    ensures b == OpenAI <==> provider == "openai" && hasClient
    ensures b == Ollama <==> provider == "ollama"
    ensures b == Mock <==> !(provider == "openai" && hasClient) && provider != "ollama"
  {
    if provider == "openai" && hasClient then OpenAI
    else if provider == "ollama" then Ollama
    else Mock
  }

  /** The chat messages sent to the chat-completion backend. */
  function OpenAIMessages(userPrompt: string, recent: seq<Turn>): (ms: seq<Turn>)
    ensures |ms| == |recent| + 2
    ensures ms[0] == Turn("system", SystemPrompt) && ms[|ms| - 1] == Turn("user", userPrompt)
    ensures ms[1..|ms| - 1] == recent
  {
    [Turn("system", SystemPrompt)] + recent + [Turn("user", userPrompt)]
  }

  /**
   * `_generate`: the answer of the chosen backend. Each backend call is a
   * parameter that returns the answer text, or its error text on failure.
   */
  function Generate(query: string, context: string, history: string, recent: seq<Turn>,
                    provider: string, hasClient: bool,
                    openai: seq<Turn> -> string, ollama: string -> string): (r: string)
    ensures Route(provider, hasClient) == OpenAI ==> r == openai(OpenAIMessages(UserPrompt(query, context, history), recent))
    ensures Route(provider, hasClient) == Ollama ==> r == ollama(SystemPrompt + "\n\n" + UserPrompt(query, context, history))
    ensures Route(provider, hasClient) == Mock ==> r == MockResponse(query, context)
  {
    var userPrompt := UserPrompt(query, context, history);
    match Route(provider, hasClient)
    case OpenAI => openai(OpenAIMessages(userPrompt, recent))
    case Ollama => ollama(SystemPrompt + "\n\n" + userPrompt)
    case Mock => MockResponse(query, context)
  }

  /** One entry of the response's `reranked` list. */
  datatype RerankedView = RerankedView(text: string, source: Option<string>, score: real, rerankScore: Option<real>)

  datatype ChatResponse = ChatResponse(
    answer: string,
    sources: set<string>,
    contextUsed: seq<string>,
    reranked: seq<RerankedView>)

  /** A reranked entry: at most 150 characters of the text and `…`, with the hit's own source and scores. */
  function View(c: Hit): (v: RerankedView)
    ensures |Ellipsis| <= |v.text| <= 150 + |Ellipsis| && IsPrefix(v.text[..|v.text| - |Ellipsis|], c.text)
    ensures |c.text| <= 150 ==> v.text == c.text + Ellipsis
    ensures |c.text| > 150 ==> v.text == c.text[..150] + Ellipsis
    ensures v.source == c.metadata.source && v.score == c.score && v.rerankScore == c.rerankScore
  {
    RerankedView(PyTake(c.text, 150) + Ellipsis, c.metadata.source, c.score, c.rerankScore)
  }

  /** The response built from the reranked hits and the answer. */
  function Response(answer: string, reranked: seq<Hit>): (resp: ChatResponse)
    ensures resp.answer == answer
    ensures |resp.contextUsed| == |reranked| && |resp.reranked| == |reranked|
    ensures forall i :: 0 <= i < |reranked| ==> resp.reranked[i] == View(reranked[i])
    ensures forall i :: 0 <= i < |reranked| ==>
      && resp.contextUsed[i] == PyTake(reranked[i].text, 200) + Ellipsis
      && |resp.contextUsed[i]| <= 201
    ensures forall s :: s in resp.sources <==> exists c :: c in reranked && c.metadata.source.GetOr("unknown") == s
  {
    ChatResponse(
      answer,
      set c | c in reranked :: c.metadata.source.GetOr("unknown"),
      seq(|reranked|, i requires 0 <= i < |reranked| => PyTake(reranked[i].text, 200) + Ellipsis),
      seq(|reranked|, i requires 0 <= i < |reranked| => View(reranked[i])))
  }

  /** `llm_provider or os.environ.get("LLM_PROVIDER", "openai")`. */
  function ChooseProvider(provider: Option<string>, envProvider: Option<string>): (name: string)
    ensures provider.Some? && provider.value != "" ==> name == provider.value
    ensures provider == None || provider == Some("") ==> name == envProvider.GetOr("openai")
    ensures provider == None && envProvider == None ==> name == "openai"
  {
    if provider.Some? && provider.value != "" then provider.value else envProvider.GetOr("openai")
  }

  class RagChain {
    const store: VectorStore
    const reranker: Reranker
    const memory: ConversationMemory
    const llmProvider: string
    /** Whether a chat-completion client was created. */
    const hasClient: bool

    /** The provider comes from the argument, then the environment; a client needs the package. */
    constructor(store: VectorStore, reranker: Reranker, memory: ConversationMemory,
                provider: Option<string>, envProvider: Option<string>, openaiInstalled: bool)
      ensures this.store == store && this.reranker == reranker && this.memory == memory
      ensures llmProvider == ChooseProvider(provider, envProvider)
      ensures hasClient == (llmProvider == "openai" && openaiInstalled)
    {
      this.store := store;
      this.reranker := reranker;
      this.memory := memory;
      var chosen := ChooseProvider(provider, envProvider);
      llmProvider := chosen;
      hasClient := chosen == "openai" && openaiInstalled;
    }

    /**
     * `chat`: retrieve, rerank when there is something to rerank, read the
     * history, generate, then record the query and the answer, in that order.
     */
    method Chat(query: string, sessionId: string, topK: int, rerankTopK: int,
                service: QueryService, openai: seq<Turn> -> string, ollama: string -> string)
      returns (resp: ChatResponse, ghost reranked: seq<Hit>)
      requires memory.Valid()
      modifies memory
      ensures memory.Valid()
      ensures reranked == Reranked(reranker.model, query,
        HitsOf(service(query, NResults(topK, old(store.DocCount())), None)), rerankTopK)
      ensures resp == Response(resp.answer, reranked)
      ensures resp.answer == Generate(query, ContextOf(reranked),
        Render(old(memory.History(sessionId)), 2000), PyTail(old(memory.History(sessionId)), 6),
        llmProvider, hasClient, openai, ollama)
      ensures memory.Log(sessionId) == old(memory.Log(sessionId)) + [Turn("user", query), Turn("assistant", resp.answer)]
      ensures memory.History(sessionId) ==
        Window(old(memory.Log(sessionId)) + [Turn("user", query), Turn("assistant", resp.answer)], memory.Capacity())
    {
      ghost var history := memory.History(sessionId);
      var candidates := store.SimilaritySearch(query, topK, None, service);
      var ranked := RerankCandidates(reranker, query, candidates, rerankTopK);
      reranked := ranked;
      assert memory.History(sessionId) == history;
      var answer := Answer(query, sessionId, ranked, openai, ollama);
      ghost var generated := Generate(query, ContextOf(ranked), Render(history, 2000), PyTail(history, 6),
        llmProvider, hasClient, openai, ollama);
      assert answer == generated;
      Remember(sessionId, query, answer);
      resp := Response(answer, ranked);
    }

    /** Step 5 of `chat`: the query, then the answer, go into the session's memory. */
    method Remember(sessionId: string, query: string, answer: string)
      requires memory.Valid()
      modifies memory
      ensures memory.Valid()
      ensures memory.Log(sessionId) == old(memory.Log(sessionId)) + [Turn("user", query), Turn("assistant", answer)]
    {
      ghost var log := memory.Log(sessionId);
      ghost var asked := log + [Turn("user", query)];
      memory.AddTurn(sessionId, "user", query);
      memory.AddTurn(sessionId, "assistant", answer);
      assert asked + [Turn("assistant", answer)] == log + [Turn("user", query), Turn("assistant", answer)];
    }

    /** Steps 3 and 4 of `chat`: the context, the history and the recent turns go to the backend. */
    method Answer(query: string, sessionId: string, ranked: seq<Hit>,
                  openai: seq<Turn> -> string, ollama: string -> string) returns (answer: string)
      ensures answer == Generate(query, ContextOf(ranked),
        Render(memory.History(sessionId), 2000), PyTail(memory.History(sessionId), 6),
        llmProvider, hasClient, openai, ollama)
    {
      var contextText := BuildContext(ranked);
      var historyText := memory.FormattedContext(sessionId, 2000);
      var recentMessages := memory.RecentMessages(sessionId, 6);
      answer := Generate(query, contextText, historyText, recentMessages, llmProvider, hasClient, openai, ollama);
    }
  }

  /** The rerank step of `chat`: skipped when retrieval returned nothing. */
  method RerankCandidates(reranker: Reranker, query: string, candidates: seq<Hit>, topK: int)
    returns (ranked: seq<Hit>)
    ensures ranked == Reranked(reranker.model, query, candidates, topK)
  {
    if candidates == [] {
      return [];
    }
    var docs := new Hit[|candidates|];
    forall i | 0 <= i < docs.Length {
      docs[i] := candidates[i];
    }
    assert docs[..] == candidates;
    ranked := reranker.Rerank(query, docs, topK);
  }
}
