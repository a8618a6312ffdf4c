/**
 * One chat turn of the message handler: the history steps of
 * `handle_message` with the completion call abstracted to its outcome, and
 * the reply text the client produces from that outcome.
 */
module Handlers {
  import opened Seqs
  import opened History
  import Texts
  import opened Chunker
  import opened Registry

  /** What the completion library did, as seen by the client. */
  datatype ProviderOutcome =
    | Unconfigured            // no provider was set: g4f is missing, or looking up its provider raised
    | Returned(text: string)  // the call returned; `""` stands for any falsy answer
    | Raised(error: string)   // the call raised; `error` is `str(e)`

  /** `get_response` and `_make_request`: the text the client hands back for an outcome. */
  function Response(outcome: ProviderOutcome): (reply: string)
    ensures reply != ""
    ensures outcome.Raised? ==> reply == Texts.ErrorText(outcome.error[..Min(100, |outcome.error|)])
    ensures outcome.Returned? && outcome.text != "" ==> reply == outcome.text
    ensures outcome.Returned? && outcome.text == "" ==> reply == Texts.EmptyResponse
    ensures outcome.Unconfigured? ==> reply == Texts.NotConfigured
  {
    match outcome
    case Unconfigured => Texts.NotConfigured
    case Returned(text) => if text != "" then text else Texts.EmptyResponse
    case Raised(error) => Texts.ErrorText(if |error| > 100 then error[..100] else error)
  }

  /** Whether a reply is recorded as the assistant's message: non-empty and not starting with `❌`. */
  function Accepted(reply: string): (b: bool)
    ensures b ==> reply != ""
    ensures forall detail :: reply == Texts.ErrorText(detail) ==> !b
    ensures reply == Texts.EmptyResponse || reply == Texts.NoAnswer ==> !b
    ensures reply == Texts.NotConfigured ==> b
  {
    reply != "" && reply[0] != '❌'
  }

  /**
   * The history after one turn: the user's text, then the reply when it is
   * accepted. The user record is the last one, or the one before the
   * assistant's reply; the cap holds either way.
   */
  function TurnHistory(prior: seq<Message>, text: string, sentAt: Timestamp,
                       reply: string, repliedAt: Timestamp): (r: seq<Message>)
    ensures 0 < |r| <= MaxHistoryMessages
    ensures Accepted(reply) ==>
      && |r| == Min(MaxHistoryMessages, |prior| + 2)
      && r[|r| - 2] == Message("user", text, sentAt)
      && r[|r| - 1] == Message("assistant", reply, repliedAt)
    ensures !Accepted(reply) ==>
      && |r| == Min(MaxHistoryMessages, |prior| + 1)
      && r[|r| - 1] == Message("user", text, sentAt)
  {
    var withUser := Added(prior, Message("user", text, sentAt));
    if Accepted(reply) then
      var r := Added(withUser, Message("assistant", reply, repliedAt));
      assert r[..|r| - 1] == withUser[|withUser| + 1 - |r|..];
      assert r[|r| - 2] == r[..|r| - 1][|r| - 2];
      r
    else withUser
  }

  /**
   * A turn keeps exactly the newest 20 of the prior history plus what it
   * appended: the user message, followed by the assistant message exactly when
   * the reply is accepted.
   */
  lemma TurnKeepsNewest(prior: seq<Message>, text: string, sentAt: Timestamp,
                        reply: string, repliedAt: Timestamp)
    ensures var user, bot := Message("user", text, sentAt), Message("assistant", reply, repliedAt);
      TurnHistory(prior, text, sentAt, reply, repliedAt)
        == Newest(prior + (if Accepted(reply) then [user, bot] else [user]), MaxHistoryMessages)
  {
    var user, bot := Message("user", text, sentAt), Message("assistant", reply, repliedAt);
    if Accepted(reply) {
      NewestAfterNewest(prior + [user], bot, MaxHistoryMessages);
      assert (prior + [user]) + [bot] == prior + [user, bot];
    }
  }

  /**
   * Which outcomes leave a reply in the history: the not-configured notice and
   * any non-empty answer that does not itself start with `❌`; never a raised
   * call or an empty answer.
   */
  lemma AcceptedResponse(outcome: ProviderOutcome)
    ensures Accepted(Response(outcome)) <==>
      || outcome.Unconfigured?
      || (outcome.Returned? && outcome.text != "" && outcome.text[0] != '❌')
  {
    if outcome.Raised? {
      assert Response(outcome)[0] == '❌';
    }
  }

  /**
   * Error replies never enter the history: after a raised call or an empty
   * answer the turn only appends the user message.
   */
  lemma FailedCallsRecordOnlyUser(prior: seq<Message>, text: string, sentAt: Timestamp,
                                  outcome: ProviderOutcome, repliedAt: Timestamp)
    requires outcome.Raised? || outcome == Returned("")
    ensures TurnHistory(prior, text, sentAt, Response(outcome), repliedAt)
            == Added(prior, Message("user", text, sentAt))
  {
    assert Response(outcome)[0] == '❌';
  }

  /**
   * The not-configured notice starts with `⚠️`, not `❌`, so it is recorded as
   * an assistant message like any answer.
   */
  lemma UnconfiguredNoticeIsRecorded(prior: seq<Message>, text: string, sentAt: Timestamp,
                                     repliedAt: Timestamp)
    ensures var r := TurnHistory(prior, text, sentAt, Response(Unconfigured), repliedAt);
      r[|r| - 1] == Message("assistant", Texts.NotConfigured, repliedAt)
  {
    assert Texts.NotConfigured[0] == '⚠';
    assert Accepted(Texts.NotConfigured);
  }

  /**
   * What the handler sends for a reply: its 4096-character slices (the text
   * itself when it fits), or the no-answer notice when the reply is empty.
   */
  function Delivered(reply: string): (parts: seq<string>)
    ensures reply != "" ==> parts == Chunks(reply) && Concat(parts) == reply
    ensures reply == "" ==> parts == [Texts.NoAnswer]
  {
    if reply != "" then OutboundIsChunks(reply); Outbound(reply) else [Texts.NoAnswer]
  }

  /**
   * The steps of `handle_message` on the user's history: append the user
   * text, take the context, obtain the reply, append it when accepted, save.
   */
  method RecordTurn(conv: ConversationHistory, store: Store, text: string, sentAt: Timestamp,
                  outcome: ProviderOutcome, repliedAt: Timestamp)
    returns (context: seq<ContextEntry>, response: string)
    modifies conv, store
    ensures context == Context(Added(old(conv.messages), Message("user", text, sentAt)))
    ensures response == Response(outcome)
    ensures conv.messages == TurnHistory(old(conv.messages), text, sentAt, response, repliedAt)
    ensures store.files == old(store.files)[conv.userId := Record(Some(conv.messages))]
  {
    conv.AddMessage("user", text, sentAt);
    context := conv.GetContext();
    response := Response(outcome);
    if response != "" && response[0] != '❌' {
      conv.AddMessage("assistant", response, repliedAt);
    }
    conv.Save(store);
  }

  /**
   * `handle_message` up to the reply: get or create the user's history and
   * run the turn on it. `prior` is the history the turn starts from. The
   * frame allows changing only the registry, the store and this user's
   * history object, so no other user's history changes; what is then sent is
   * `Delivered(reply)`.
   */
  method HandleMessage(registry: Registry, store: Store, userId: int, text: string, sentAt: Timestamp,
                       outcome: ProviderOutcome, repliedAt: Timestamp)
    returns (context: seq<ContextEntry>, reply: string, ghost prior: seq<Message>)
    requires registry.Valid()
    modifies registry, store, if userId in registry.conversations then {registry.conversations[userId]} else {}
    ensures registry.Valid()
    ensures userId in registry.conversations
    ensures userId in old(registry.conversations) ==>
              registry.conversations[userId] == old(registry.conversations[userId])
    ensures prior == if userId in old(registry.conversations)
                     then old(registry.conversations[userId].messages)
                     else Loaded(FileOf(old(store.files), userId))
    ensures context == Context(Added(prior, Message("user", text, sentAt)))
    ensures registry.conversations[userId].messages
              == TurnHistory(prior, text, sentAt, reply, repliedAt)
    ensures store.files == old(store.files)[userId := Record(Some(registry.conversations[userId].messages))]
    ensures registry.conversations == old(registry.conversations)[userId := registry.conversations[userId]]
    ensures reply == Response(outcome)
  {
    var conv := registry.GetConversation(userId, store);
    prior := conv.messages;
    context, reply := RecordTurn(conv, store, text, sentAt, outcome, repliedAt);
  }
}
