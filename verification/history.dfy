/** The read side: the history list of a user's conversations with message counts, and the
    transcript of one conversation. Both are filtered by the session user's id. */
module History {
  import opened Wrappers
  import opened Store
  import opened Sorting

  /** One line of the history page: a conversation and how many messages reference it. */
  datatype HistoryRow = HistoryRow(conversation: Conversation, messageCount: nat)

  /** Sort key of `ORDER BY c.created_at DESC`. */
  function NewestFirst(c: Conversation): int {
    -c.createdAt
  }

  /** Sort key of `ORDER BY created_at ASC`. */
  function OldestFirst(m: Message): int {
    m.createdAt
  }

  function ConversationsOf(rows: seq<HistoryRow>): (r: seq<Conversation>)
    ensures |r| == |rows|
    ensures forall i :: 0 <= i < |rows| ==> r[i] == rows[i].conversation
  {
    seq(|rows|, i requires 0 <= i < |rows| => rows[i].conversation)
  }

  /** Pairs each conversation with the number of messages that reference it. */
  function WithCounts(convs: seq<Conversation>, msgs: seq<Message>): (rows: seq<HistoryRow>)
    ensures ConversationsOf(rows) == convs
    ensures forall i :: 0 <= i < |rows| ==> rows[i].messageCount == |MessagesOf(msgs, rows[i].conversation.id)|
  {
    seq(|convs|, i requires 0 <= i < |convs| => HistoryRow(convs[i], |MessagesOf(msgs, convs[i].id)|))
  }

  /** Reordering conversations that all belong to `u` leaves them all belonging to `u`. */
  lemma PermutationKeepsOwner(owned: seq<Conversation>, sorted: seq<Conversation>, u: UserId)
    requires forall c :: c in owned ==> c.owner == u
    requires multiset(sorted) == multiset(owned)
    ensures forall i :: 0 <= i < |sorted| ==> sorted[i].owner == u
  {
    forall i | 0 <= i < |sorted|
      ensures sorted[i].owner == u
    {
      assert sorted[i] in multiset(owned);
    }
  }

  /** `history` for user `u`: the user's conversations, newest first, each with the number of
      stored messages that reference it (the LEFT JOIN makes that 0 when there are none). */
  function History(db: Db, u: UserId): (rows: seq<HistoryRow>)
    ensures multiset(ConversationsOf(rows)) == multiset(OwnedBy(db.conversations, u))
    ensures forall i :: 0 <= i < |rows| ==> rows[i].conversation.owner == u
    ensures forall i :: 0 <= i < |rows| ==>
      rows[i].messageCount == |MessagesOf(db.messages, rows[i].conversation.id)|
    ensures forall i, j :: 0 <= i < j < |rows| ==> rows[i].conversation.createdAt >= rows[j].conversation.createdAt
  {
    var owned := OwnedBy(db.conversations, u);
    var sorted := SortBy(owned, NewestFirst);
    var rows := WithCounts(sorted, db.messages);
    PermutationKeepsOwner(owned, sorted, u);
    assert forall i, j :: 0 <= i < j < |rows| ==> rows[i].conversation.createdAt >= rows[j].conversation.createdAt by {
      forall i, j | 0 <= i < j < |rows|
        ensures rows[i].conversation.createdAt >= rows[j].conversation.createdAt
      {
        assert NewestFirst(sorted[i]) <= NewestFirst(sorted[j]);
      }
    }
    rows
  }

  /** The history lists exactly the stored conversations owned by `u`. */
  lemma HistoryListsExactlyOwned(db: Db, u: UserId, c: Conversation)
    ensures c in ConversationsOf(History(db, u)) <==> c in db.conversations && c.owner == u
  {
    var rows := History(db, u);
    assert c in ConversationsOf(rows) <==> c in multiset(ConversationsOf(rows));
    assert c in OwnedBy(db.conversations, u) <==> c in multiset(OwnedBy(db.conversations, u));
    OwnedByMembership(db.conversations, u, c);
  }

  /** A row's count is 0 exactly when no stored message references its conversation. */
  lemma HistoryCountZero(db: Db, u: UserId, i: nat)
    requires i < |History(db, u)|
    ensures var row := History(db, u)[i];
      row.messageCount == 0 <==> forall m :: m in db.messages ==> m.conversationId != row.conversation.id
  {
    var id := History(db, u)[i].conversation.id;
    if exists m :: m in db.messages && m.conversationId == id {
      var m :| m in db.messages && m.conversationId == id;
      MessagesOfMembership(db.messages, id, m);
    }
    if |MessagesOf(db.messages, id)| > 0 {
      MessagesOfMembership(db.messages, id, MessagesOf(db.messages, id)[0]);
    }
  }

  /** A conversation and its transcript. */
  datatype ConversationView = ConversationView(conversation: Conversation, messages: seq<Message>)

  /** What `view_conversation` answers: the page, a redirect for a conversation that is not found,
      or an exception (Flask's server error). */
  datatype ViewReply = Shown(view: ConversationView) | NotFound | Crashed

  /** `view_conversation`: an id SQLite cannot bind raises; otherwise not found unless a
      conversation has this id and is owned by `u`, and then that conversation and every message
      referencing it, oldest first. */
  function ViewConversation(db: Db, u: UserId, id: nat): (r: ViewReply)
    ensures r.Crashed? <==> !FitsInt64(id)
    ensures r.Shown? <==> FitsInt64(id) && Owns(db.conversations, u, id)
    ensures r.Shown? ==>
      r.view.conversation in db.conversations && r.view.conversation.id == id && r.view.conversation.owner == u
    ensures r.Shown? ==> multiset(r.view.messages) == multiset(MessagesOf(db.messages, id))
    ensures r.Shown? ==> forall i, j :: 0 <= i < j < |r.view.messages| ==>
      r.view.messages[i].createdAt <= r.view.messages[j].createdAt
  {
    if !FitsInt64(id) then Crashed
    else match FindOwned(db.conversations, u, id)
    case None => NotFound
    case Some(c) =>
      var msgs := SortBy(MessagesOf(db.messages, id), OldestFirst);
      assert forall i, j :: 0 <= i < j < |msgs| ==> OldestFirst(msgs[i]) <= OldestFirst(msgs[j]);
      Shown(ConversationView(c, msgs))
  }

  /** The transcript holds exactly the stored messages referencing the conversation. */
  lemma TranscriptExactlyReferencing(db: Db, u: UserId, id: nat, m: Message)
    requires ViewConversation(db, u, id).Shown?
    ensures m in ViewConversation(db, u, id).view.messages <==> m in db.messages && m.conversationId == id
  {
    var msgs := ViewConversation(db, u, id).view.messages;
    assert m in msgs <==> m in multiset(msgs);
    assert m in MessagesOf(db.messages, id) <==> m in multiset(MessagesOf(db.messages, id));
    MessagesOfMembership(db.messages, id, m);
  }

  /** In a well-formed store no user can open a conversation that belongs to someone else. */
  lemma ViewIsOwnerScoped(db: Db, u: UserId, c: Conversation)
    requires Valid(db)
    requires c in db.conversations && c.owner != u
    ensures !ViewConversation(db, u, c.id).Shown?
  {
  }
}
