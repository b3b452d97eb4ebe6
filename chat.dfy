/** The chat panel's message list: a welcome message, then each question
    followed first by a loading placeholder and then by the bot's answer or an
    error message. The request is split into the step that appends the
    question and placeholder and the step that applies the outcome. */
module Chat {
  import opened Wrappers
  import opened Text
  import Api
  import Auth

  /** Message ids: the fixed welcome id, or a kind prefix with the `Date.now()` stamp
      taken when the message was built (`user-<t>`, `loading-<t>`, `bot-<t>`, `error-<t>`). */
  datatype MessageId = Welcome | UserId(stamp: int) | LoadingId(stamp: int) | BotId(stamp: int) | ErrorId(stamp: int)

  datatype Sender = UserSender | BotSender | SystemSender

  /** Optional details of a bot message; `error` false stands for an absent flag. */
  datatype Metadata = Metadata(source: Option<string>, processingTime: Option<real>, error: bool)

  datatype ChatMessage = ChatMessage(
    id: MessageId, sender: Sender, content: string, isLoading: bool, metadata: Option<Metadata>)

  /** The question sent to the bot, with the id of the placeholder shown while it is pending. */
  datatype Question = Question(pergunta: string, userId: Option<int>, placeholder: MessageId)

  /** The fields of a successful answer the panel shows. */
  datatype BotAnswer = BotAnswer(response: string, source: string, processingTime: real)

  const WelcomeText: string := "Olá! Sou o Proto Bot. Faça uma pergunta e vou buscar a melhor resposta em múltiplas fontes!"
  const ClearedText: string := "Chat limpo! Pronto para novas perguntas."
  const UnknownErrorText: string := "Desculpe, ocorreu um erro ao processar sua pergunta."

  function WelcomeMessage(text: string): ChatMessage {
    ChatMessage(Welcome, BotSender, text, false, None)
  }

  /** The list the panel starts with. */
  const InitialMessages: seq<ChatMessage> := [WelcomeMessage(WelcomeText)]

  /** `sendMessage(content)` sends nothing when the trimmed content is empty or a request
      is pending; otherwise it sends the trimmed content and the user's id, if any. */
  function SendRequest(content: string, busy: bool, user: Option<Auth.User>, loadingStamp: int): Option<Question> {
    if IsBlank(content) || busy then None
    else Some(Question(Trim(content), if user.Some? then Some(user.value.id) else None, LoadingId(loadingStamp)))
  }

  function UserMessage(q: Question, userStamp: int): ChatMessage {
    ChatMessage(UserId(userStamp), UserSender, q.pergunta, false, None)
  }

  function Placeholder(q: Question): ChatMessage {
    ChatMessage(q.placeholder, BotSender, "", true, None)
  }

  /** The list while the question is pending: the question, then its placeholder. */
  function SendStarted(msgs: seq<ChatMessage>, q: Question, userStamp: int): seq<ChatMessage> {
    msgs + [UserMessage(q, userStamp), Placeholder(q)]
  }

  /** The text of the error message: the error's own message for an `Error`, a fixed apology otherwise. */
  function ErrorContent(e: Api.Failure): string {
    match e
    case AxiosError(_, m) => m
    case PlainError(m) => m
    case NonError => UnknownErrorText
  }

  /** The message that replaces the placeholder. */
  function Reply(outcome: Result<BotAnswer, Api.Failure>, replyStamp: int): ChatMessage {
    match outcome
    case Success(a) =>
      ChatMessage(BotId(replyStamp), BotSender, a.response, false,
                  Some(Metadata(Some(a.source), Some(a.processingTime), false)))
    case Failure(e) =>
      ChatMessage(ErrorId(replyStamp), BotSender, ErrorContent(e), false, Some(Metadata(None, None, true)))
  }

  /** `prev.filter(msg => msg.id !== id)`. */
  function WithoutId(msgs: seq<ChatMessage>, id: MessageId): (r: seq<ChatMessage>)
    ensures forall m :: m in r ==> m in msgs && m.id != id
    ensures forall m :: m in msgs && m.id != id ==> m in r
  {
    if msgs == [] then []
    else if msgs[0].id == id then WithoutId(msgs[1..], id)
    else [msgs[0]] + WithoutId(msgs[1..], id)
  }

  /** The list once the request settles: the placeholder goes and the reply is appended. */
  function SendCompleted(msgs: seq<ChatMessage>, q: Question, outcome: Result<BotAnswer, Api.Failure>,
                         replyStamp: int): seq<ChatMessage> {
    WithoutId(msgs, q.placeholder) + [Reply(outcome, replyStamp)]
  }

  /** No message carries the id. */
  predicate Absent(msgs: seq<ChatMessage>, id: MessageId) {
    forall i :: 0 <= i < |msgs| ==> msgs[i].id != id
  }

  lemma {:induction false} WithoutIdAppend(a: seq<ChatMessage>, b: seq<ChatMessage>, id: MessageId)
    ensures WithoutId(a + b, id) == WithoutId(a, id) + WithoutId(b, id)
  {
    if a != [] {
      assert (a + b)[1..] == a[1..] + b;
      WithoutIdAppend(a[1..], b, id);
    } else {
      assert a + b == b;
    }
  }

  lemma {:induction false} WithoutAbsentId(msgs: seq<ChatMessage>, id: MessageId)
    requires Absent(msgs, id)
    ensures WithoutId(msgs, id) == msgs
  {
    if msgs != [] {
      assert Absent(msgs[1..], id) by {
        forall i | 0 <= i < |msgs[1..]| ensures msgs[1..][i].id != id {
          assert msgs[1..][i] == msgs[i + 1];
        }
      }
      WithoutAbsentId(msgs[1..], id);
      assert [msgs[0]] + msgs[1..] == msgs;
    }
  }

  /** `sendMessage` is a no-op exactly when the trimmed content is empty or a request is
      pending; otherwise the question is the trimmed, non-empty content. */
  lemma SendGuard(content: string, busy: bool, user: Option<Auth.User>, loadingStamp: int)
    ensures SendRequest(content, busy, user, loadingStamp).None? <==> IsBlank(content) || busy
    ensures SendRequest(content, busy, user, loadingStamp).Some? ==>
      var q := SendRequest(content, busy, user, loadingStamp).value;
      && q.pergunta == Trim(content) && q.pergunta != ""
      && !IsWhitespace(q.pergunta[0]) && !IsWhitespace(q.pergunta[|q.pergunta| - 1])
  {
  }

  /** While the question is pending the list is the previous one, then the user's message
      with the trimmed content, then a loading placeholder. */
  lemma SendStartedShape(msgs: seq<ChatMessage>, q: Question, userStamp: int)
    ensures var r := SendStarted(msgs, q, userStamp);
      && |r| == |msgs| + 2 && r[..|msgs|] == msgs
      && r[|msgs|].sender == UserSender && r[|msgs|].content == q.pergunta
      && r[|msgs| + 1].isLoading && r[|msgs| + 1].id == q.placeholder
  {
    var r := SendStarted(msgs, q, userStamp);
    assert r[..|msgs|] == msgs;
  }

  /** A whole exchange: from a list without the placeholder's id, the list ends as the
      previous one, the user's message and the reply — the placeholder is gone. */
  lemma {:induction false} ExchangeAppendsQuestionAndReply(
    msgs: seq<ChatMessage>, q: Question, outcome: Result<BotAnswer, Api.Failure>, userStamp: int, replyStamp: int)
    requires q.placeholder.LoadingId?
    requires Absent(msgs, q.placeholder)
    ensures SendCompleted(SendStarted(msgs, q, userStamp), q, outcome, replyStamp)
      == msgs + [UserMessage(q, userStamp), Reply(outcome, replyStamp)]
  {
    var id := q.placeholder;
    WithoutIdAppend(msgs, [UserMessage(q, userStamp), Placeholder(q)], id);
    WithoutAbsentId(msgs, id);
    assert [UserMessage(q, userStamp), Placeholder(q)][1..] == [Placeholder(q)];
    assert WithoutId([Placeholder(q)], id) == [];
  }

  /** A success appends a bot message with the answer, its source and its time; a failure
      appends a bot message flagged as an error whose text is the error's message. */
  lemma ReplyShape(outcome: Result<BotAnswer, Api.Failure>, replyStamp: int)
    ensures Reply(outcome, replyStamp).sender == BotSender && !Reply(outcome, replyStamp).isLoading
    ensures outcome.Success? ==>
      && Reply(outcome, replyStamp).content == outcome.value.response
      && Reply(outcome, replyStamp).metadata
           == Some(Metadata(Some(outcome.value.source), Some(outcome.value.processingTime), false))
    ensures outcome.Failure? ==> Reply(outcome, replyStamp).metadata.Some? && Reply(outcome, replyStamp).metadata.value.error
    ensures outcome.Failure? && !outcome.error.NonError? ==> Reply(outcome, replyStamp).content == outcome.error.message
  {
  }

  /** The bot client rethrows every failure as an `Error` carrying the normalised message,
      so a failed client call shows that message, which is never empty. */
  lemma ClientFailureShowsNormalisedMessage(e: Api.Failure, replyStamp: int)
    requires e.AxiosError?
    ensures var r := Reply(Failure(Api.PlainError(Api.GetErrorMessage(e))), replyStamp);
      r.content == Api.GetErrorMessage(e) && r.content != ""
  {
  }

  /** No loading placeholder is listed. */
  predicate NoPlaceholders(msgs: seq<ChatMessage>) {
    forall i :: 0 <= i < |msgs| ==> !msgs[i].id.LoadingId?
  }

  /** Settling removes every placeholder when the only placeholders listed are the pending
      question's, so an idle panel shows none. */
  lemma {:induction false} CompletedHasNoPlaceholders(msgs: seq<ChatMessage>, q: Question,
                                                      outcome: Result<BotAnswer, Api.Failure>, replyStamp: int)
    requires forall i :: 0 <= i < |msgs| && msgs[i].id.LoadingId? ==> msgs[i].id == q.placeholder
    ensures NoPlaceholders(SendCompleted(msgs, q, outcome, replyStamp))
  {
    var r := SendCompleted(msgs, q, outcome, replyStamp);
    var kept := WithoutId(msgs, q.placeholder);
    forall i | 0 <= i < |r| ensures !r[i].id.LoadingId? {
      if i < |kept| {
        assert r[i] == kept[i];
        assert kept[i] in kept;
      }
    }
  }

  /** The panel's state held in place. */
  class ChatSession {
    var messages: seq<ChatMessage>
    var isLoading: bool

    constructor ()
      ensures messages == InitialMessages && !isLoading
      ensures |messages| == 1 && messages[0].id == Welcome && messages[0].sender == BotSender
    {
      messages := [WelcomeMessage(WelcomeText)];
      isLoading := false;
    }

    /** `sendMessage(content)` up to the request; the two stamps are the `Date.now()` readings. */
    method BeginSend(content: string, user: Option<Auth.User>, userStamp: int, loadingStamp: int)
      returns (q: Option<Question>)
      modifies this
      ensures q == SendRequest(content, old(isLoading), user, loadingStamp)
      ensures q.None? ==> messages == old(messages) && isLoading == old(isLoading)
      ensures q.Some? ==> messages == SendStarted(old(messages), q.value, userStamp) && isLoading
    {
      if IsBlank(content) || isLoading {
        return None;
      }
      var question := Question(Trim(content), if user.Some? then Some(user.value.id) else None, LoadingId(loadingStamp));
      messages := messages + [UserMessage(question, userStamp)];
      isLoading := true;
      messages := messages + [Placeholder(question)];
      q := Some(question);
      assert old(messages) + [UserMessage(question, userStamp)] + [Placeholder(question)]
          == SendStarted(old(messages), question, userStamp);
    }

    /** `sendMessage(content)` from the outcome on: the request is over whatever it was. */
    method CompleteSend(q: Question, outcome: Result<BotAnswer, Api.Failure>, replyStamp: int)
      modifies this
      ensures messages == SendCompleted(old(messages), q, outcome, replyStamp)
      ensures !isLoading
    {
      messages := WithoutId(messages, q.placeholder);
      messages := messages + [Reply(outcome, replyStamp)];
      isLoading := false;
    }

    /** `clearChat`: the whole list becomes a single welcome message. */
    method ClearChat()
      modifies this
      ensures messages == [WelcomeMessage(ClearedText)]
      ensures isLoading == old(isLoading)
    {
      messages := [WelcomeMessage(ClearedText)];
    }
  }
}
