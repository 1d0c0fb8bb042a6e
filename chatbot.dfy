/** The support chat of components/Chatbot.tsx: a transcript of messages,
    appended by each send, over the shared chat session. */
module Chatbot {
  import opened Wrappers
  import opened Text
  import opened Types
  import opened GeminiService

  const Greeting := "\U{00A1}Hola! \U{00BF}C\U{00F3}mo puedo ayudarte con tu proyecto de dise\U{00F1}o de interiores hoy?"

  /** The bot text appended when the reply fails. */
  const Apology := "Lo siento, estoy teniendo problemas para conectarme en este momento."

  /** The transcript the chat starts with: one bot greeting, id "1". */
  const InitialTranscript := [ChatMessage("1", Greeting, Bot)]

  /** The role a sender takes in the history sent to the service. */
  function Role(s: Sender): string {
    match s
    case User => "user"
    case Bot => "model"
  }

  /** The sender a history role stands for. */
  function SenderOfRole(role: string): Option<Sender> {
    if role == "user" then Some(User) else if role == "model" then Some(Bot) else None
  }

  /** Reading a role back gives the sender it was made from. */
  lemma RoleRoundTrip(s: Sender)
    ensures SenderOfRole(Role(s)) == Some(s)
  {
  }

  /** `messages.map(...)`: one history entry per message, in order, with the
      sender's role and the text as its single part. */
  function HistoryOf(msgs: seq<ChatMessage>): (h: seq<HistoryEntry>)
    ensures |h| == |msgs|
    ensures forall k :: 0 <= k < |msgs| ==>
      SenderOfRole(h[k].role) == Some(msgs[k].sender) && h[k].parts == [TextPart(msgs[k].text)]
    decreases |msgs|
  {
    if msgs == [] then []
    else [HistoryEntry(Role(msgs[0].sender), [TextPart(msgs[0].text)])] + HistoryOf(msgs[1..])
  }

  /** The history of a longer transcript extends the history of its
      beginning. */
  lemma {:induction false} HistoryOfAppend(a: seq<ChatMessage>, b: seq<ChatMessage>)
    ensures HistoryOf(a + b) == HistoryOf(a) + HistoryOf(b)
    decreases |a|
  {
    if a != [] {
      assert (a + b)[1..] == a[1..] + b;
      HistoryOfAppend(a[1..], b);
    } else {
      assert a + b == b;
    }
  }

  /** The bot text that follows a reply: the reply itself or the apology. */
  function BotText(reply: Reply<string>): (t: string)
    ensures reply.Done? ==> t == reply.value
    ensures reply.Threw? ==> t == Apology
  {
    match reply
    case Done(text) => text
    case Threw(_) => Apology
  }

  /** What a transcript keeps: it opens with the greeting, then alternates
      a non-blank user message and a bot message. */
  predicate TranscriptValid(msgs: seq<ChatMessage>) {
    && |msgs| % 2 == 1
    && msgs[0] == ChatMessage("1", Greeting, Bot)
    && forall k :: 1 <= k < |msgs| ==>
      if k % 2 == 1 then msgs[k].sender == User && !IsBlank(msgs[k].text) else msgs[k].sender == Bot
  }

  /** The transcript after a send of the non-blank `input`: the user
      message, then the bot message. */
  function SendAppended(msgs: seq<ChatMessage>, userId: string, input: string, botId: string, reply: Reply<string>): seq<ChatMessage> {
    msgs + [ChatMessage(userId, input, User), ChatMessage(botId, BotText(reply), Bot)]
  }

  lemma InitialTranscriptValid()
    ensures TranscriptValid(InitialTranscript)
  {
  }

  /** A send of a non-blank input keeps the transcript valid. */
  lemma SendKeepsValid(msgs: seq<ChatMessage>, userId: string, input: string, botId: string, reply: Reply<string>)
    requires TranscriptValid(msgs) && !IsBlank(input)
    ensures TranscriptValid(SendAppended(msgs, userId, input, botId, reply))
  {
    var r := SendAppended(msgs, userId, input, botId, reply);
    forall k | 1 <= k < |r|
      ensures if k % 2 == 1 then r[k].sender == User && !IsBlank(r[k].text) else r[k].sender == Bot
    {
      if k < |msgs| {
        assert r[k] == msgs[k];
      } else if k == |msgs| {
        assert r[k] == ChatMessage(userId, input, User);
      } else {
        assert r[k].sender == Bot;
      }
    }
  }

  /** The chat component, over the shared session `service`. */
  class Chat {
    const service: ChatService
    var messages: seq<ChatMessage>
    var userInput: string
    var isLoading: bool

    constructor (service: ChatService)
      ensures this.service == service
      ensures messages == InitialTranscript && userInput == "" && !isLoading
      ensures TranscriptValid(messages)
    {
      this.service := service;
      messages := InitialTranscript;
      userInput := "";
      isLoading := false;
    }

    /** The input's `onChange`. */
    method SetUserInput(text: string)
      modifies this
      ensures userInput == text && messages == old(messages) && isLoading == old(isLoading)
    {
      userInput := text;
    }

    /** `handleSend()`; `userId` and `botId` are the fresh ids of the two
        messages. A blank input changes nothing. Otherwise the session
        receives the transcript before the new message, and the transcript
        grows by the user message and the bot's answer. */
    method HandleSend(userId: string, botId: string)
      requires TranscriptValid(messages)
      modifies this, service
      ensures TranscriptValid(messages)
      ensures Trim(old(userInput)) == "" ==>
        && messages == old(messages) && userInput == old(userInput) && isLoading == old(isLoading)
        && service.session == old(service.session) && service.sent == old(service.sent)
      ensures Trim(old(userInput)) != "" ==>
        && service.session == SessionAfter(old(service.session), HistoryOf(old(messages)))
        && service.sent == old(service.sent) + [old(userInput)]
        && messages == SendAppended(old(messages), userId, old(userInput), botId,
                                    service.remote.chat(service.session.value, old(service.sent), old(userInput)))
        && userInput == "" && !isLoading
    {
      if Trim(userInput) == "" {
        return;
      }
      TrimEmptyIffBlank(userInput);
      var input := userInput;
      var before := messages;
      var history := HistoryOf(messages);
      var userMessage := ChatMessage(userId, input, User);
      messages := messages + [userMessage];
      userInput := "";
      isLoading := true;
      var reply := service.GetChatResponse(history, input);
      var botMessage := ChatMessage(botId, BotText(reply), Bot);
      messages := messages + [botMessage];
      isLoading := false;
      assert messages == before + [userMessage, botMessage];
      SendKeepsValid(before, userId, input, botId, reply);
    }
  }
}
