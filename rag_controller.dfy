/** `RagController.searchContext` (`POST /rag/answer-by-context`): retrieve
    context for the question, wrap question and context in the RAG prompt,
    and let the chat service answer it. */
module RagApi {
  import opened Common
  import opened External
  import opened VectorService
  import opened Domain
  import opened Rag
  import opened Retriever
  import opened Chat

  /** The two sentences that open every RAG prompt, joined with no space
      between them. */
  const Instruction := "Use the information that you get from the context and answer the question."
                       + "If you don't have context, just say that you don't know, don't try to make up an answer."

  const QuestionLabel := "\nQuestion: "
  const ContextLabel := "\nContext: "

  /** The prompt `String.format` builds from the question and the context. */
  function RagPrompt(question: string, context: string): string
  {
    Instruction + QuestionLabel + question + ContextLabel + context
  }

  /** The prompt opens with the instruction, carries the question right after
      the question label, and ends with the context after the context label:
      question and context are inserted verbatim, question first. */
  lemma PromptLayout(question: string, context: string)
    ensures var p := RagPrompt(question, context);
            var q := |Instruction| + |QuestionLabel|;
            var c := q + |question| + |ContextLabel|;
            && |p| == c + |context|
            && p[..|Instruction|] == Instruction
            && p[|Instruction|..q] == QuestionLabel
            && p[q..q + |question|] == question
            && p[q + |question|..c] == ContextLabel
            && p[c..] == context
  {
    var p := RagPrompt(question, context);
    var q := |Instruction| + |QuestionLabel|;
    var c := q + |question| + |ContextLabel|;
    assert p == (((Instruction + QuestionLabel) + question) + ContextLabel) + context;
    assert p[..c] == ((Instruction + QuestionLabel) + question) + ContextLabel;
    assert p[..q + |question|] == (Instruction + QuestionLabel) + question;
    assert p[..q] == Instruction + QuestionLabel;
    assert p[..|Instruction|] == p[..q][..|Instruction|];
    assert p[|Instruction|..q] == p[..q][|Instruction|..];
    assert p[q..q + |question|] == p[..q + |question|][q..];
    assert p[q + |question|..c] == p[..c][q + |question|..];
  }

  /** The HTTP answer: 200 with the body, or 400 with the exception's message. */
  datatype Response = Ok(body: string) | BadRequest(body: string)

  /** `ResponseEntity.ok(result)`, or `badRequest().body(e.getMessage())`. */
  function ResponseOf(reply: Result<string>): (r: Response)
    ensures r.Ok? <==> reply.Ok?
    ensures reply.Ok? ==> r.body == reply.value
    ensures reply.Err? ==> r.body == reply.error.message
  {
    match reply
    case Ok(answer) => Response.Ok(answer)
    case Err(e) => BadRequest(e.message)
  }

  /** The effect of one request: the requests sent to the embedding service
      and the vector store, the chat histories afterwards, and the response. */
  datatype Answered = Answered(requests: seq<Request>, histories: map<string, ChatHistory>, response: Response)

  /** `searchContext(request)` as a function of the state before it. */
  function AnswerByContext(s: Services, embeddingModel: string, collectionName: string, log: seq<Request>,
                           registry: map<string, CompletionService>, histories: map<string, ChatHistory>,
                           request: InputRequest): (r: Answered)
  {
    var run := SearchRun(s, embeddingModel, collectionName, log, request.input);
    var context := ContextOf(DTOResult(run.result));
    var asked := AskStep(registry, histories, request.userId, RagPrompt(request.input, context), request.modelId);
    Answered(run.requests, asked.histories, ResponseOf(asked.reply))
  }

  /** The retrieval runs before the model is looked up: an unknown model id
      still embeds the question and searches the store (or at least tries to),
      then answers 400 "Model not found: <id>" and leaves every history as it
      was. */
  lemma UnknownModelStillSearches(s: Services, embeddingModel: string, collectionName: string, log: seq<Request>,
                                  registry: map<string, CompletionService>, histories: map<string, ChatHistory>,
                                  request: InputRequest)
    requires request.modelId !in registry
    ensures var r := AnswerByContext(s, embeddingModel, collectionName, log, registry, histories, request);
            && r.requests[0] == Embeddings(embeddingModel, [request.input])
            && r.histories == histories
            && r.response == BadRequest(NotFoundMessage(request.modelId))
  {
  }

  /** A failed search never reaches the client: the model is asked the RAG
      prompt with the apology as its context, and the user's history records
      that prompt. */
  lemma SearchFailureIsAnsweredByTheModel(s: Services, embeddingModel: string, collectionName: string, log: seq<Request>,
                                          registry: map<string, CompletionService>, histories: map<string, ChatHistory>,
                                          request: InputRequest)
    requires request.modelId in registry
    requires SearchRun(s, embeddingModel, collectionName, log, request.input).result.Err?
    ensures var r := AnswerByContext(s, embeddingModel, collectionName, log, registry, histories, request);
            var prompt := RagPrompt(request.input, CannotRetrieve);
            var answer := registry[request.modelId].complete(HistoryOf(histories, request.userId) + [ChatMessage(User, prompt)]);
            && (r.response.Ok? <==> answer.Ok?)
            && |r.histories[request.userId]| > |HistoryOf(histories, request.userId)|
            && r.histories[request.userId][|HistoryOf(histories, request.userId)|] == ChatMessage(User, prompt)
  {
    var h := HistoryOf(histories, request.userId);
    var prompt := RagPrompt(request.input, CannotRetrieve);
    assert (h + [ChatMessage(User, prompt)])[|h|] == ChatMessage(User, prompt);
    var answer := registry[request.modelId].complete(h + [ChatMessage(User, prompt)]);
    if answer.Ok? {
      assert (h + [ChatMessage(User, prompt)] + [ChatMessage(Assistant, Concat(answer.value))])[|h|] == ChatMessage(User, prompt);
    }
  }

  /** The question the user sends is what the store is searched with, and it
      appears verbatim in the prompt the model sees, whatever the retrieval
      returned. */
  lemma {:induction false} QuestionReachesSearchAndModel(s: Services, embeddingModel: string, collectionName: string, log: seq<Request>,
                                                         registry: map<string, CompletionService>, histories: map<string, ChatHistory>,
                                                         request: InputRequest)
    requires request.modelId in registry
    ensures var r := AnswerByContext(s, embeddingModel, collectionName, log, registry, histories, request);
            var h := HistoryOf(histories, request.userId);
            var q := |Instruction| + |QuestionLabel|;
            && r.requests[0] == Embeddings(embeddingModel, [request.input])
            && |r.histories[request.userId]| > |h|
            && r.histories[request.userId][|h|].role == User
            && r.histories[request.userId][|h|].content[q..q + |request.input|] == request.input
  {
    var run := SearchRun(s, embeddingModel, collectionName, log, request.input);
    var context := ContextOf(DTOResult(run.result));
    var prompt := RagPrompt(request.input, context);
    PromptLayout(request.input, context);
    var h := HistoryOf(histories, request.userId);
    var asked := h + [ChatMessage(User, prompt)];
    assert asked[|h|] == ChatMessage(User, prompt);
    var answer := registry[request.modelId].complete(asked);
    if answer.Ok? {
      assert (asked + [ChatMessage(Assistant, Concat(answer.value))])[|h|] == ChatMessage(User, prompt);
    }
  }

  class RagController {
    const chat: ChatService
    /** The plugin the kernel dispatches "ContentRetrieverPlugin" /
        "ContentRetriever" to. */
    const retriever: ContentRetrieverPlugin

    constructor (chat: ChatService, retriever: ContentRetrieverPlugin)
      ensures this.chat == chat && this.retriever == retriever
    {
      this.chat := chat;
      this.retriever := retriever;
    }

    /** `searchContext(request)`. */
    method SearchContext(request: InputRequest) returns (r: Response)
      modifies retriever.rag.vectors.services, chat
      ensures var services := retriever.rag.vectors.services;
              var answered := AnswerByContext(services, retriever.rag.vectors.embeddingModel, retriever.rag.vectors.collectionName,
                                              old(services.log), old(chat.chatCompletionServices), old(chat.userChatHistories), request);
              && services.log == old(services.log) + answered.requests
              && chat.userChatHistories == answered.histories
              && r == answered.response
      ensures chat.chatCompletionServices == old(chat.chatCompletionServices)
      ensures retriever.rag.vectors.services.issuedIds == old(retriever.rag.vectors.services.issuedIds)
    {
      var context := retriever.RetrieveContext(request.input);
      var prompt := RagPrompt(request.input, context);
      var result := chat.Ask(request.userId, prompt, request.modelId);
      r := ResponseOf(result);
    }
  }
}
