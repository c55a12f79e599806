/** The chat endpoint: decide whether a message starts a new conversation or continues one,
    record the user's message, ask the inference backend, and record its answer. The whole
    turn is one transaction: it is committed only after the answer is recorded. */
module Chat {
  import opened Wrappers
  import opened Store

  /** The JSON body of a chat request. Each field is None when the key is absent or null. */
  datatype ChatRequest = ChatRequest(
    model: Option<string>, message: Option<string>, conversationId: Option<int>, domain: Option<string>)

  /** What the inference backend did with the prompt: a complete answer or an error description. */
  datatype Outcome = Success(text: string) | Failure(reason: string)

  /** The endpoint's answer. `Crashed` is an exception raised outside the handler's try block
      (Flask turns it into a server error); `NotFound` is only produced by the owner-checked variant. */
  datatype ChatReply =
    | Answered(response: string, conversationId: int)
    | Failed(error: string)
    | Crashed
    | NotFound

  /** Python falsiness of the `conversation_id` field: absent, null or 0. */
  predicate Falsy(ref: Option<int>) {
    ref.None? || ref.value == 0
  }

  const TitleLength := 50

  /** The title of a new conversation: the message itself when it has at most 50 characters,
      otherwise its first 50 characters followed by "...". */
  function DeriveTitle(msg: string): (title: string)
    ensures |msg| <= TitleLength ==> title == msg
    ensures |msg| > TitleLength ==> |title| == TitleLength + 3 && title[..TitleLength] == msg[..TitleLength] && title[TitleLength..] == "..."
    ensures |title| <= TitleLength + 3
  {
    if |msg| > TitleLength then msg[..TitleLength] + "..." else msg
  }

  /** The request fails before the backend is reached: `len()` of a missing message, a NOT NULL
      column (`content`, or `model_name`/`domain` of a new conversation) left empty, or a
      continued conversation id too large for SQLite to bind. */
  predicate CrashesEarly(req: ChatRequest) {
    || req.message.None?
    || (Falsy(req.conversationId) && (req.model.None? || req.domain.None?))
    || (!Falsy(req.conversationId) && !FitsInt64(req.conversationId.value))
  }

  /** The id the turn writes its messages under: the fresh conversation id for a falsy reference,
      otherwise the reference as given. */
  function ActiveId(db: Db, req: ChatRequest): int {
    if Falsy(req.conversationId) then db.nextConversationId else req.conversationId.value
  }

  /** One call of the chat endpoint by `user`, with the backend's `outcome` as a parameter.
      `askedAt` stamps the conversation and the user's message, `answeredAt` the assistant's. */
  function ChatTurn(db: Db, user: UserId, req: ChatRequest, outcome: Outcome, askedAt: int, answeredAt: int): (r: (Db, ChatReply))
    // which reply comes back
    ensures r.1.Crashed? <==> CrashesEarly(req)
    ensures r.1.Answered? <==> !CrashesEarly(req) && outcome.Success?
    ensures r.1.Failed? <==> !CrashesEarly(req) && outcome.Failure?
    ensures r.1.Failed? ==> r.1.error == outcome.reason
    ensures r.1.Answered? ==> r.1.response == outcome.text && r.1.conversationId == ActiveId(db, req)
    // nothing is committed unless the backend answered
    ensures !r.1.Answered? ==> r.0 == db
    ensures r.0.files == db.files && r.0.nextFileId == db.nextFileId
    // a falsy reference creates exactly one conversation, a truthy one none
    ensures r.1.Answered? && Falsy(req.conversationId) ==>
      r.0.conversations == db.conversations +
        [Conversation(db.nextConversationId, user, req.model.value, req.domain.value, DeriveTitle(req.message.value), askedAt)]
    ensures r.1.Answered? && !Falsy(req.conversationId) ==>
      r.0.conversations == db.conversations && r.0.nextConversationId == db.nextConversationId
    // exactly two messages are appended: the user's, then the assistant's
    ensures r.1.Answered? ==>
      r.0.messages == db.messages + [
        Message(db.nextMessageId, ActiveId(db, req), user, User, req.message.value, "text", None, askedAt),
        Message(db.nextMessageId + 1, ActiveId(db, req), user, Assistant, outcome.text, "text", None, answeredAt)]
    ensures Valid(db) ==> Valid(r.0)
  {
    if CrashesEarly(req) then (db, Crashed)
    else
      var msg := req.message.value;
      var created := AddConversation(db, user, req.model.GetOr(""), req.domain.GetOr(""), DeriveTitle(msg), askedAt);
      var db1 := if Falsy(req.conversationId) then created.0 else db;
      var active := ActiveId(db, req);
      var db2 := AddMessage(db1, active, user, User, msg, askedAt);
      match outcome
      case Failure(reason) => (db, Failed(reason))
      case Success(text) => (AddMessage(db2, active, user, Assistant, text, answeredAt), Answered(text, active))
  }

  /** A continued conversation id of 2^63 cannot be bound by SQLite: the turn raises before the
      backend is asked and nothing is committed. */
  lemma OversizedConversationIdRaises(db: Db, user: UserId, outcome: Outcome, askedAt: int, answeredAt: int)
    ensures ChatTurn(db, user, ChatRequest(Some("m"), Some("hi"), Some(0x8000_0000_0000_0000), Some("coding")),
                     outcome, askedAt, answeredAt) == (db, Crashed)
  {
  }

  /** An answered turn extends the transcript of its conversation by exactly the two rows it
      appended, and leaves every other transcript as it was. */
  lemma AnsweredTurnTranscript(db: Db, user: UserId, req: ChatRequest, outcome: Outcome, askedAt: int, answeredAt: int, id: int)
    requires ChatTurn(db, user, req, outcome, askedAt, answeredAt).1.Answered?
    ensures var r := ChatTurn(db, user, req, outcome, askedAt, answeredAt);
      MessagesOf(r.0.messages, id) ==
        MessagesOf(db.messages, id) + (if id == r.1.conversationId then r.0.messages[|db.messages|..] else [])
  {
    var r := ChatTurn(db, user, req, outcome, askedAt, answeredAt);
    var tail := r.0.messages[|db.messages|..];
    assert r.0.messages == db.messages + tail;
    MessagesOfAppend(db.messages, tail, id);
    assert tail == [tail[0]] + [tail[1]];
    MessagesOfAppend([tail[0]], [tail[1]], id);
  }

  /** Continuing with the id an answered first turn returned never creates a second conversation
      or re-derives a title, whatever the second turn's outcome. */
  lemma ContinueNeverRecreates(db: Db, user: UserId, req: ChatRequest, o1: Outcome, o2: Outcome, t1: int, t2: int, t3: int, t4: int)
    requires Valid(db)
    requires Falsy(req.conversationId)
    requires ChatTurn(db, user, req, o1, t1, t2).1.Answered?
    ensures var first := ChatTurn(db, user, req, o1, t1, t2);
      var second := ChatTurn(first.0, user, req.(conversationId := Some(first.1.conversationId)), o2, t3, t4);
      && |first.0.conversations| == |db.conversations| + 1
      && second.0.conversations == first.0.conversations
      && (second.1.Answered? ==> second.1.conversationId == first.1.conversationId)
  {
  }

  /** One request of a conversation: the message, what the backend did, and the two timestamps. */
  datatype Turn = Turn(message: string, outcome: Outcome, askedAt: int, answeredAt: int)

  /** The store after `user` sends every turn of `turns`, in order, under the conversation id `id`. */
  function Converse(db: Db, user: UserId, model: string, domain: string, id: int, turns: seq<Turn>): Db
    decreases |turns|
  {
    if |turns| == 0 then db
    else
      var t := turns[0];
      var next := ChatTurn(db, user, ContinueRequest(model, domain, id, t), t.outcome, t.askedAt, t.answeredAt).0;
      Converse(next, user, model, domain, id, turns[1..])
  }

  /** The role and content of each message, as the transcript page shows them. */
  function RolesAndContents(msgs: seq<Message>): (r: seq<(Role, string)>)
    ensures |r| == |msgs|
    ensures forall i :: 0 <= i < |msgs| ==> r[i] == (msgs[i].role, msgs[i].content)
  {
    seq(|msgs|, i requires 0 <= i < |msgs| => (msgs[i].role, msgs[i].content))
  }

  /** What a sequence of turns should add to a transcript: the user's message and the answer for
      every answered turn, nothing for a failed one. */
  function Expected(turns: seq<Turn>): seq<(Role, string)>
    decreases |turns|
  {
    if |turns| == 0 then []
    else
      var head := match turns[0].outcome
        case Success(text) => [(User, turns[0].message), (Assistant, text)]
        case Failure(_) => [];
      head + Expected(turns[1..])
  }

  /** With every turn answered, the additions are 2N entries alternating user and assistant,
      each pair holding that turn's message and answer; with every turn failed there are none. */
  lemma {:induction false} ExpectedShape(turns: seq<Turn>)
    ensures (forall k :: 0 <= k < |turns| ==> turns[k].outcome.Success?) ==>
      && |Expected(turns)| == 2 * |turns|
      && forall k :: 0 <= k < |turns| ==>
           Expected(turns)[2 * k] == (User, turns[k].message) && Expected(turns)[2 * k + 1] == (Assistant, turns[k].outcome.text)
    ensures (forall k :: 0 <= k < |turns| ==> turns[k].outcome.Failure?) ==> Expected(turns) == []
    decreases |turns|
  {
    if |turns| > 0 {
      ExpectedShape(turns[1..]);
      assert forall k :: 1 <= k < |turns| ==> turns[1..][k - 1] == turns[k];
      var rest := Expected(turns[1..]);
      if forall k :: 0 <= k < |turns| ==> turns[k].outcome.Success? {
        forall k | 1 <= k < |turns|
          ensures Expected(turns)[2 * k] == (User, turns[k].message)
          ensures Expected(turns)[2 * k + 1] == (Assistant, turns[k].outcome.text)
        {
          assert Expected(turns)[2 * k] == rest[2 * (k - 1)];
          assert Expected(turns)[2 * k + 1] == rest[2 * (k - 1) + 1];
        }
      }
    }
  }

  /** The request a client sends to continue conversation `id` with the message of `t`. */
  function ContinueRequest(model: string, domain: string, id: int, t: Turn): ChatRequest {
    ChatRequest(Some(model), Some(t.message), Some(id), Some(domain))
  }

  /** One continuing turn appends to the stored messages of the conversation what `Expected` says
      of that single turn; an id SQLite cannot bind makes the turn raise and change nothing. */
  lemma TurnTranscript(db: Db, user: UserId, model: string, domain: string, id: int, t: Turn)
    requires id != 0
    ensures var r := ChatTurn(db, user, ContinueRequest(model, domain, id, t), t.outcome, t.askedAt, t.answeredAt);
      && (FitsInt64(id) ==>
            RolesAndContents(MessagesOf(r.0.messages, id)) == RolesAndContents(MessagesOf(db.messages, id)) + Expected([t]))
      && (!FitsInt64(id) ==> r == (db, Crashed))
  {
    var req := ContinueRequest(model, domain, id, t);
    var r := ChatTurn(db, user, req, t.outcome, t.askedAt, t.answeredAt);
    var before := MessagesOf(db.messages, id);
    if FitsInt64(id) && t.outcome.Success? {
      AnsweredTurnTranscript(db, user, req, t.outcome, t.askedAt, t.answeredAt, id);
      assert MessagesOf(r.0.messages, id) == before + r.0.messages[|db.messages|..];
      assert RolesAndContents(MessagesOf(r.0.messages, id)) == RolesAndContents(before) + [(User, t.message), (Assistant, t.outcome.text)];
    }
  }

  /** Continuing one conversation turn by turn leaves its earlier stored messages in place and
      appends exactly the pairs of the answered turns, in order; with an id SQLite cannot bind,
      every turn raises and the store stays as it was. */
  lemma {:induction false} ConverseTranscript(db: Db, user: UserId, model: string, domain: string, id: int, turns: seq<Turn>)
    requires id != 0
    ensures FitsInt64(id) ==>
      RolesAndContents(MessagesOf(Converse(db, user, model, domain, id, turns).messages, id)) ==
        RolesAndContents(MessagesOf(db.messages, id)) + Expected(turns)
    ensures !FitsInt64(id) ==> Converse(db, user, model, domain, id, turns) == db
    decreases |turns|
  {
    if |turns| > 0 {
      var t := turns[0];
      var next := ChatTurn(db, user, ContinueRequest(model, domain, id, t), t.outcome, t.askedAt, t.answeredAt).0;
      var final := Converse(next, user, model, domain, id, turns[1..]);
      assert Converse(db, user, model, domain, id, turns) == final;
      ConverseTranscript(next, user, model, domain, id, turns[1..]);
      TurnTranscript(db, user, model, domain, id, t);
      var a, b, c := RolesAndContents(MessagesOf(db.messages, id)), Expected([t]), Expected(turns[1..]);
      assert Expected(turns) == b + c by {
        assert [t][1..] == [];
        assert Expected([t][1..]) == [];
        assert [t][0] == turns[0];
      }
      assert a + b + c == a + (b + c);
    }
  }

  /** The ownership rule the read side applies, also applied to a continued conversation: a truthy
      reference must name a conversation of `user`, otherwise the turn is refused untouched. */
  function ChatTurnOwned(db: Db, user: UserId, req: ChatRequest, outcome: Outcome, askedAt: int, answeredAt: int): (r: (Db, ChatReply))
    ensures r.1.NotFound? <==> !Falsy(req.conversationId) && !Owns(db.conversations, user, req.conversationId.value)
    ensures r.1.NotFound? ==> r.0 == db
    ensures !r.1.NotFound? ==> r == ChatTurn(db, user, req, outcome, askedAt, answeredAt)
    ensures Valid(db) ==> Valid(r.0)
    ensures Attributed(db) ==> Attributed(r.0)
  {
    if !Falsy(req.conversationId) && FindOwned(db.conversations, user, req.conversationId.value).None? then (db, NotFound)
    else
      var r := ChatTurn(db, user, req, outcome, askedAt, answeredAt);
      assert Attributed(db) ==> Attributed(r.0) by {
        if Attributed(db) && r.1.Answered? {
          var active := ActiveId(db, req);
          assert Owns(r.0.conversations, user, active);
          forall m | m in r.0.messages
            ensures Owns(r.0.conversations, m.author, m.conversationId)
          {
            if m in db.messages {
              var c :| c in db.conversations && c.id == m.conversationId && c.owner == m.author;
              assert c in r.0.conversations;
            }
          }
        }
      }
      r
  }
}
