/** The persistence store as an immutable value: the conversations, messages and uploaded_files
    tables as sequences in insertion order, each with the next id its AUTOINCREMENT key will issue. */
module Store {
  import opened Wrappers

  /** Users are identified by their positive integer row id, taken from the session. */
  type UserId = x: nat | x > 0 witness 1

  /** An integer SQLite can bind as a parameter: a signed 64-bit value. Binding any other
      integer raises OverflowError in Python's sqlite3 module. */
  predicate FitsInt64(x: int) {
    -0x8000_0000_0000_0000 <= x < 0x8000_0000_0000_0000
  }

  datatype Role = User | Assistant

  datatype Conversation = Conversation(
    id: nat, owner: UserId, modelName: string, domain: string, title: string, createdAt: int)

  /** `conversationId` is whatever the request supplied: nothing enforces that it names an existing
      conversation. `filePath` is a column the chat route never fills. */
  datatype Message = Message(
    id: nat, conversationId: int, author: UserId, role: Role, content: string,
    inputType: string, filePath: Option<string>, createdAt: int)

  /** `conversationId` is the raw form field, recorded without any check. */
  datatype UploadedFile = UploadedFile(
    id: nat, owner: UserId, conversationId: Option<string>, filename: string,
    filePath: string, fileType: string, uploadedAt: int)

  datatype Db = Db(
    conversations: seq<Conversation>, messages: seq<Message>, files: seq<UploadedFile>,
    nextConversationId: nat, nextMessageId: nat, nextFileId: nat)

  /** A freshly initialised database: every table empty, every key sequence starting at 1. */
  const Empty := Db([], [], [], 1, 1, 1)

  /** The freshly initialised database is well formed and attributes every message. */
  lemma EmptyValid()
    ensures Valid(Empty) && Attributed(Empty)
  {
  }

  /** Row ids are positive, strictly increasing in insertion order, and below the next id to issue. */
  predicate Valid(db: Db) {
    && 0 < db.nextConversationId && 0 < db.nextMessageId && 0 < db.nextFileId
    && (forall i :: 0 <= i < |db.conversations| ==> 0 < db.conversations[i].id < db.nextConversationId)
    && (forall i, j :: 0 <= i < j < |db.conversations| ==> db.conversations[i].id < db.conversations[j].id)
    && (forall i :: 0 <= i < |db.messages| ==> 0 < db.messages[i].id < db.nextMessageId)
    && (forall i, j :: 0 <= i < j < |db.messages| ==> db.messages[i].id < db.messages[j].id)
    && (forall i :: 0 <= i < |db.files| ==> 0 < db.files[i].id < db.nextFileId)
    && (forall i, j :: 0 <= i < j < |db.files| ==> db.files[i].id < db.files[j].id)
  }

  /** `INSERT INTO conversations`: the new row takes the next id, which is returned as `lastrowid`. */
  function AddConversation(db: Db, owner: UserId, modelName: string, domain: string, title: string, at: int): (r: (Db, nat))
    ensures Valid(db) ==> Valid(r.0)
    ensures r.1 == db.nextConversationId && r.0.nextConversationId == r.1 + 1
    ensures |r.0.conversations| == |db.conversations| + 1 && r.0.conversations[..|db.conversations|] == db.conversations
    ensures r.0.conversations[|db.conversations|].id == r.1 && r.0.conversations[|db.conversations|].owner == owner
    ensures Valid(db) ==> forall c :: c in db.conversations ==> c.id != r.1
  {
    var c := Conversation(db.nextConversationId, owner, modelName, domain, title, at);
    (db.(conversations := db.conversations + [c], nextConversationId := db.nextConversationId + 1), c.id)
  }

  /** `INSERT INTO messages` with `input_type = 'text'` and no file path. */
  function AddMessage(db: Db, conversationId: int, author: UserId, role: Role, content: string, at: int): (r: Db)
    ensures Valid(db) ==> Valid(r)
    ensures |r.messages| == |db.messages| + 1 && r.messages[..|db.messages|] == db.messages
    ensures r.messages[|db.messages|].id == db.nextMessageId && r.messages[|db.messages|].author == author
    ensures Valid(db) ==> forall m :: m in db.messages ==> m.id != db.nextMessageId
  {
    var m := Message(db.nextMessageId, conversationId, author, role, content, "text", None, at);
    db.(messages := db.messages + [m], nextMessageId := db.nextMessageId + 1)
  }

  /** `INSERT INTO uploaded_files`. */
  function AddFile(db: Db, owner: UserId, conversationId: Option<string>, filename: string,
                   filePath: string, fileType: string, at: int): (r: Db)
    ensures |r.files| == |db.files| + 1 && r.files[..|db.files|] == db.files
    ensures r.files[|db.files|] == UploadedFile(db.nextFileId, owner, conversationId, filename, filePath, fileType, at)
    ensures r.conversations == db.conversations && r.messages == db.messages
    ensures Valid(db) ==> Valid(r) && forall f :: f in db.files ==> f.id != r.files[|db.files|].id
  {
    var f := UploadedFile(db.nextFileId, owner, conversationId, filename, filePath, fileType, at);
    db.(files := db.files + [f], nextFileId := db.nextFileId + 1)
  }

  /** The messages whose `conversation_id` is `id`, in insertion order (`WHERE conversation_id = ?`). */
  function MessagesOf(msgs: seq<Message>, id: int): (r: seq<Message>)
    ensures |r| <= |msgs|
    ensures forall m :: m in r ==> m.conversationId == id
  {
    if |msgs| == 0 then []
    else if msgs[0].conversationId == id then [msgs[0]] + MessagesOf(msgs[1..], id)
    else MessagesOf(msgs[1..], id)
  }

  /** A message belongs to `MessagesOf(msgs, id)` exactly when it is stored and references `id`. */
  lemma {:induction false} MessagesOfMembership(msgs: seq<Message>, id: int, m: Message)
    ensures m in MessagesOf(msgs, id) <==> m in msgs && m.conversationId == id
  {
    if |msgs| > 0 {
      MessagesOfMembership(msgs[1..], id, m);
      assert msgs == [msgs[0]] + msgs[1..];
    }
  }

  /** Filtering distributes over appending rows, so new rows land at the end of a transcript. */
  lemma {:induction false} MessagesOfAppend(a: seq<Message>, b: seq<Message>, id: int)
    ensures MessagesOf(a + b, id) == MessagesOf(a, id) + MessagesOf(b, id)
  {
    if |a| == 0 {
      assert a + b == b;
    } else {
      assert (a + b)[1..] == a[1..] + b;
      MessagesOfAppend(a[1..], b, id);
    }
  }

  /** The conversations owned by `u`, in insertion order (`WHERE user_id = ?`). */
  function OwnedBy(convs: seq<Conversation>, u: UserId): (r: seq<Conversation>)
    ensures |r| <= |convs|
    ensures forall c :: c in r ==> c.owner == u
  {
    if |convs| == 0 then []
    else if convs[0].owner == u then [convs[0]] + OwnedBy(convs[1..], u)
    else OwnedBy(convs[1..], u)
  }

  /** A conversation belongs to `OwnedBy(convs, u)` exactly when it is stored and owned by `u`. */
  lemma {:induction false} OwnedByMembership(convs: seq<Conversation>, u: UserId, c: Conversation)
    ensures c in OwnedBy(convs, u) <==> c in convs && c.owner == u
  {
    if |convs| > 0 {
      OwnedByMembership(convs[1..], u, c);
      assert convs == [convs[0]] + convs[1..];
    }
  }

  /** Some stored conversation has this id and this owner. */
  predicate Owns(convs: seq<Conversation>, u: UserId, id: int) {
    exists c :: c in convs && c.id == id && c.owner == u
  }

  /** `SELECT * FROM conversations WHERE id = ? AND user_id = ?` followed by `fetchone()`. */
  function FindOwned(convs: seq<Conversation>, u: UserId, id: int): (r: Option<Conversation>)
    ensures r.Some? <==> Owns(convs, u, id)
    ensures r.Some? ==> r.value in convs && r.value.id == id && r.value.owner == u
  {
    if |convs| == 0 then None
    else if convs[0].id == id && convs[0].owner == u then Some(convs[0])
    else
      var r := FindOwned(convs[1..], u, id);
      assert Owns(convs, u, id) ==> Owns(convs[1..], u, id) by {
        if Owns(convs, u, id) {
          var c :| c in convs && c.id == id && c.owner == u;
          assert c != convs[0];
          assert c in convs[1..];
        }
      }
      r
  }

  /** Every message was written under the identity of its conversation's owner. */
  predicate Attributed(db: Db) {
    forall m :: m in db.messages ==> Owns(db.conversations, m.author, m.conversationId)
  }
}
