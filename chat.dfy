/** `ChatService`: the model registry, filled once from the configured
    completion services, and the per-user chat histories that every `ask`
    extends. */
module Chat {
  import opened Common

  datatype Role = System | User | Assistant

  datatype ChatMessage = ChatMessage(role: Role, content: string)

  type ChatHistory = seq<ChatMessage>

  /** A chat completion service: the model id it declares, and what its model
      answers to a history (the message contents of the reply, or the
      exception the call ends in). */
  datatype CompletionService = CompletionService(modelId: string, complete: ChatHistory -> Result<seq<string>>)

  const SystemPrompt := "You are a friendly helper."

  function NotFoundMessage(modelId: string): string
  {
    "Model not found: " + modelId
  }

  // ---------------------------------------------------------------------------
  // The model registry

  /** The map the constructor builds: each service stored under its own model
      id, a later service overwriting an earlier one with the same id. */
  function Registry(services: seq<CompletionService>): map<string, CompletionService>
  {
    if services == [] then map[]
    else Registry(services[..|services| - 1])[services[|services| - 1].modelId := services[|services| - 1]]
  }

  /** The model ids the services declare. */
  function ModelIds(services: seq<CompletionService>): set<string>
  {
    set i | 0 <= i < |services| :: services[i].modelId
  }

  lemma ModelIdsSnoc(services: seq<CompletionService>)
    requires services != []
    ensures ModelIds(services) == ModelIds(services[..|services| - 1]) + {services[|services| - 1].modelId}
  {
    var n := |services| - 1;
    var init := services[..n];
    forall id | id in ModelIds(services)
      ensures id in ModelIds(init) + {services[n].modelId}
    {
      var i :| 0 <= i < |services| && services[i].modelId == id;
      if i < n {
        assert init[i].modelId == id;
      }
    }
    forall id | id in ModelIds(init)
      ensures id in ModelIds(services)
    {
      var i :| 0 <= i < n && init[i].modelId == id;
      assert services[i].modelId == id;
    }
    assert services[n].modelId in ModelIds(services);
  }

  lemma {:induction false} RegistryKeys(services: seq<CompletionService>)
    ensures Registry(services).Keys == ModelIds(services)
  {
    if services != [] {
      var n := |services| - 1;
      RegistryKeys(services[..n]);
      ModelIdsSnoc(services);
    }
  }

  lemma {:induction false} RegistryLast(services: seq<CompletionService>, j: nat)
    requires j < |services|
    requires forall k :: j < k < |services| ==> services[k].modelId != services[j].modelId
    ensures services[j].modelId in Registry(services) && Registry(services)[services[j].modelId] == services[j]
  {
    var n := |services| - 1;
    var init := services[..n];
    if j < n {
      assert init[j] == services[j];
      forall k | j < k < n
        ensures init[k].modelId != init[j].modelId
      {
        assert init[k] == services[k];
      }
      RegistryLast(init, j);
      assert services[n].modelId != services[j].modelId;
    }
  }

  /** The registry holds exactly the declared model ids, and each one maps to
      the last service in list order that declares it. */
  lemma RegistryLastWriteWins(services: seq<CompletionService>)
    ensures Registry(services).Keys == ModelIds(services)
    ensures forall j :: 0 <= j < |services|
                        && (forall k :: j < k < |services| ==> services[k].modelId != services[j].modelId)
                        ==> Registry(services)[services[j].modelId] == services[j]
  {
    RegistryKeys(services);
    forall j | 0 <= j < |services| && (forall k :: j < k < |services| ==> services[k].modelId != services[j].modelId)
      ensures Registry(services)[services[j].modelId] == services[j]
    {
      RegistryLast(services, j);
    }
  }

  // ---------------------------------------------------------------------------
  // One ask, as a function of the state before it

  /** The history a user's ask extends: the stored one, or a new one seeded
      with the system prompt. */
  function HistoryOf(histories: map<string, ChatHistory>, userId: string): ChatHistory
  {
    if userId in histories then histories[userId] else [ChatMessage(System, SystemPrompt)]
  }

  /** The histories after an ask, and its reply or exception. */
  datatype Asked = Asked(histories: map<string, ChatHistory>, reply: Result<string>)

  /** `ask(userId, question, modelId)`: an unknown model throws before any
      history is touched. Otherwise the user's history (created if absent)
      gets the question; the model sees that history; on success the
      fragments of its reply are joined and appended as the assistant's turn,
      on failure the question stays and nothing more is appended. */
  function AskStep(registry: map<string, CompletionService>, histories: map<string, ChatHistory>,
               userId: string, question: string, modelId: string): (r: Asked)
    ensures modelId !in registry ==>
              r.histories == histories && r.reply == Err(IllegalArgument(NotFoundMessage(modelId)))
    ensures modelId in registry ==>
              && r.histories.Keys == histories.Keys + {userId}
              && var asked := HistoryOf(histories, userId) + [ChatMessage(User, question)];
                 var answer := registry[modelId].complete(asked);
                 && (answer.Err? ==> r.reply == Err(answer.error) && r.histories[userId] == asked)
                 && (answer.Ok? ==>
                       && r.reply == Ok(Concat(answer.value))
                       && r.histories[userId] == asked + [ChatMessage(Assistant, Concat(answer.value))])
    ensures forall u :: u in histories && u != userId ==> u in r.histories && r.histories[u] == histories[u]
  {
    if modelId !in registry then Asked(histories, Err(IllegalArgument(NotFoundMessage(modelId))))
    else
      var asked := HistoryOf(histories, userId) + [ChatMessage(User, question)];
      match registry[modelId].complete(asked)
      case Err(e) => Asked(histories[userId := asked], Err(e))
      case Ok(parts) =>
        var reply := Concat(parts);
        Asked(histories[userId := asked + [ChatMessage(Assistant, reply)]], Ok(reply))
  }

  // ---------------------------------------------------------------------------
  // Properties of asks

  /** A history as the service keeps it: the system prompt first, and no other
      system message. */
  ghost predicate Seeded(h: ChatHistory)
  {
    |h| >= 1 && h[0] == ChatMessage(System, SystemPrompt)
    && forall i :: 1 <= i < |h| ==> h[i].role != System
  }

  /** Every ask keeps every history seeded, and a user's first ask creates a
      history whose first two messages are the system prompt and the question. */
  lemma AskKeepsHistoriesSeeded(registry: map<string, CompletionService>, histories: map<string, ChatHistory>,
                                userId: string, question: string, modelId: string)
    requires forall u :: u in histories ==> Seeded(histories[u])
    ensures var r := AskStep(registry, histories, userId, question, modelId);
      && (forall u :: u in r.histories ==> Seeded(r.histories[u]))
      && (modelId in registry && userId !in histories ==>
            r.histories[userId][..2] == [ChatMessage(System, SystemPrompt), ChatMessage(User, question)])
  {
    var r := AskStep(registry, histories, userId, question, modelId);
    if modelId in registry {
      var asked := HistoryOf(histories, userId) + [ChatMessage(User, question)];
      assert Seeded(HistoryOf(histories, userId));
      assert Seeded(asked);
      var answer := registry[modelId].complete(asked);
      if answer.Ok? {
        assert Seeded(asked + [ChatMessage(Assistant, Concat(answer.value))]);
      }
    }
  }

  /** Two successful asks by one user leave [system, question 1, reply 1,
      question 2, reply 2]; a later ask by another user leaves that history
      as it was. */
  lemma TwoAsksThenAnotherUser(registry: map<string, CompletionService>, modelId: string,
                               alice: string, bob: string, q1: string, q2: string, q3: string)
    requires modelId in registry && alice != bob
    requires var h1 := [ChatMessage(System, SystemPrompt), ChatMessage(User, q1)];
             registry[modelId].complete(h1).Ok?
             && registry[modelId].complete(h1 + [ChatMessage(Assistant, Concat(registry[modelId].complete(h1).value)), ChatMessage(User, q2)]).Ok?
    ensures var first := AskStep(registry, map[], alice, q1, modelId);
            var second := AskStep(registry, first.histories, alice, q2, modelId);
            var third := AskStep(registry, second.histories, bob, q3, modelId);
            && first.reply.Ok? && second.reply.Ok?
            && second.histories[alice] == [ChatMessage(System, SystemPrompt), ChatMessage(User, q1), ChatMessage(Assistant, first.reply.value),
                                           ChatMessage(User, q2), ChatMessage(Assistant, second.reply.value)]
            && third.histories[alice] == second.histories[alice]
            && third.histories[bob][0] == ChatMessage(System, SystemPrompt)
  {
    var first := AskStep(registry, map[], alice, q1, modelId);
    var h1 := [ChatMessage(System, SystemPrompt), ChatMessage(User, q1)];
    assert HistoryOf(map[], alice) + [ChatMessage(User, q1)] == h1;
    var second := AskStep(registry, first.histories, alice, q2, modelId);
    assert HistoryOf(first.histories, alice) + [ChatMessage(User, q2)]
        == h1 + [ChatMessage(Assistant, first.reply.value), ChatMessage(User, q2)];
  }

  /** Turns need not alternate: after a failed completion the question stays
      unanswered, and the next question follows it directly. */
  lemma FailedAskLeavesTwoQuestionsInARow(registry: map<string, CompletionService>, histories: map<string, ChatHistory>,
                                          userId: string, q1: string, q2: string, modelId: string)
    requires modelId in registry
    requires registry[modelId].complete(HistoryOf(histories, userId) + [ChatMessage(User, q1)]).Err?
    ensures var first := AskStep(registry, histories, userId, q1, modelId);
            var second := AskStep(registry, first.histories, userId, q2, modelId);
            var h := second.histories[userId];
            var n := |HistoryOf(histories, userId)|;
            && first.reply.Err?
            && |h| >= n + 2
            && h[n] == ChatMessage(User, q1) && h[n + 1] == ChatMessage(User, q2)
  {
  }

  // ---------------------------------------------------------------------------
  // The service

  lemma UpdateTwice(m: map<string, ChatHistory>, k: string, a: ChatHistory, b: ChatHistory)
    ensures m[k := a][k := b] == m[k := b]
    ensures k in m && m[k] == a ==> m[k := a] == m
  {
  }

  class ChatService {
    /** `chatCompletionServices`: model id to completion service. */
    var chatCompletionServices: map<string, CompletionService>
    /** `userChatHistories`: user id to that user's history. */
    var userChatHistories: map<string, ChatHistory>

    /** Registers every configured service under its model id, in list order. */
    constructor (chatCompletionServiceList: seq<CompletionService>)
      ensures chatCompletionServices == Registry(chatCompletionServiceList)
      ensures userChatHistories == map[]
    {
      userChatHistories := map[];
      chatCompletionServices := map[];
      new;
      for i := 0 to |chatCompletionServiceList|
        invariant chatCompletionServices == Registry(chatCompletionServiceList[..i])
        invariant userChatHistories == map[]
      {
        var service := chatCompletionServiceList[i];
        assert chatCompletionServiceList[..i + 1][..i] == chatCompletionServiceList[..i];
        chatCompletionServices := chatCompletionServices[service.modelId := service];
      }
      assert chatCompletionServiceList[..|chatCompletionServiceList|] == chatCompletionServiceList;
    }

    /** `ask(userId, question, modelId)`. */
    method Ask(userId: string, question: string, modelId: string) returns (r: Result<string>)
      modifies this
      ensures chatCompletionServices == old(chatCompletionServices)
      ensures var asked := AskStep(old(chatCompletionServices), old(userChatHistories), userId, question, modelId);
              userChatHistories == asked.histories && r == asked.reply
    {
      if modelId !in chatCompletionServices {
        return Err(IllegalArgument(NotFoundMessage(modelId)));
      }
      var chatCompletionService := chatCompletionServices[modelId];
      ghost var before := userChatHistories;
      if userId !in userChatHistories {
        userChatHistories := userChatHistories[userId := [ChatMessage(System, SystemPrompt)]];
      }
      var chatHistory := userChatHistories[userId] + [ChatMessage(User, question)];
      assert chatHistory == HistoryOf(before, userId) + [ChatMessage(User, question)];
      UpdateTwice(before, userId, HistoryOf(before, userId), chatHistory);
      userChatHistories := userChatHistories[userId := chatHistory];
      var answer := chatCompletionService.complete(chatHistory);
      if answer.Err? {
        return Err(answer.error);
      }
      var reply := Concat(answer.value);
      UpdateTwice(before, userId, chatHistory, chatHistory + [ChatMessage(Assistant, reply)]);
      userChatHistories := userChatHistories[userId := chatHistory + [ChatMessage(Assistant, reply)]];
      r := Ok(reply);
    }
  }
}
