/** The global per-user table of histories, `conversations`, and `get_conversation`. */
module Registry {
  import opened History

  class Registry {
    var conversations: map<int, ConversationHistory>

    /** Each entry is the history of the user it is filed under. */
    ghost predicate Valid()
      reads this
    {
      forall u :: u in conversations ==> conversations[u].userId == u
    }

    constructor ()
      ensures Valid() && conversations == map[]
    {
      conversations := map[];
    }

    /**
     * `get_conversation`: the registered history of `userId`, or a new one
     * loaded from `store` and registered; no other entry changes.
     */
    method GetConversation(userId: int, store: Store) returns (conv: ConversationHistory)
      requires Valid()
      modifies this
      ensures Valid()
      ensures conv.userId == userId
      ensures conv.messages == if userId in old(conversations) then old(conversations[userId].messages)
                               else Loaded(FileOf(store.files, userId))
      ensures userId in conversations && conversations[userId] == conv
      ensures conversations == old(conversations)[userId := conv]
      ensures userId in old(conversations) ==> conv == old(conversations[userId]) && conversations == old(conversations)
      ensures userId !in old(conversations) ==>
                && fresh(conv)
                && conv.messages == Loaded(FileOf(store.files, userId))
                && conversations == old(conversations)[userId := conv]
    {
      if userId !in conversations {
        var created := new ConversationHistory(userId, store);
        conversations := conversations[userId := created];
      }
      conv := conversations[userId];
    }
  }
}
