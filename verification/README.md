# Multi-LLM platform: conversation store and model routing

A Dafny model of the core of a small Flask application that lets a signed-in user pick a
subject domain, pick one of that domain's language models, and chat with it, with every turn
stored in SQLite. The model covers:

- the static domain table `MODELS` and the two page routes that consult it (`select_model`,
  `chat`), including the chat route's decoding of the model name from the URL;
- the chat endpoint `api_chat`: create-or-continue, title derivation, the user and assistant
  message rows, and commit-or-rollback around the inference call;
- the upload endpoint `upload_file`: the ordered checks, the extension allow-list
  (`allowed_file`) and the `uploaded_files` row;
- the read side: `history` (owned conversations with message counts, newest first) and
  `view_conversation` (one owned conversation and its transcript, oldest first).

The database is an immutable value `Store.Db`: the conversations, messages and uploaded-file
tables as sequences in insertion order, each with the next id its AUTOINCREMENT key will issue.
Every endpoint is a pure function from the old store (and the request) to the new store and a
reply; "commit" returns the new store and a rolled-back transaction returns the old one. The
session user is an input. The inference backend is a parameter `Chat.Outcome`
(`Success(text)` or `Failure(reason)`), `secure_filename` is a parameter `sanitise`, and the
clock is given as timestamps.

Files, one module each: `wrappers.dfy` (Option), `text.dfy` (lower-casing, last '.', decimal
rendering), `registry.dfy`, `store.dfy`, `sorting.dfy` (stable insertion sort by an integer key,
standing for `ORDER BY`), `chat.dfy`, `uploads.dfy`, `history.dfy`, `findings.dfy`.

What the code does, where its documented design says otherwise. The model follows the code:

- Continuing a conversation does not check that it belongs to the session user, and does not
  check that it exists (SQLite does not enforce foreign keys unless asked to). See Findings.
- When inference fails nothing is committed: the connection is closed without `commit`, so
  the new conversation and the user's message are rolled back, and the error reply carries no
  conversation id. The design asks for the user's message to be kept and the id returned; in
  the model a failed turn adds nothing to the transcript (`Chat.ConverseTranscript`).
- The chat endpoint does not check that the model belongs to the domain, nor that the domain
  is registered, nor that the message is non-empty.
- The upload endpoint records the `conversation_id` form field as given, unchecked.
- A conversation id outside SQLite's signed 64-bit integer range (a JSON number, or a URL
  segment, of 2^63 or more) makes the parameter binding raise. The chat endpoint raises before
  its `try`, and the view raises at its first query; in both cases nothing is committed.

## Model

| member | source | states |
|---|---|---|
| Registry.Resolve | app.py:89-126 | a key resolves exactly when it is one of the six registered domains, and every registered domain lists two distinct candidate models (so none is empty) |
| Registry.SelectModel | app.py:230-237 | an unknown domain redirects to domain selection; a known one renders its own entry of the table |
| Registry.ChatRoute | app.py:239-249 | an unknown domain redirects; a known one renders the chat page for that domain with a model name that contains no '_' and has the same URL encoding as the segment |
| Registry.DecodeEncode | app.py:247 | decoding the URL segment gives back any model identifier that has no '_' |
| Registry.DecodeModelName | app.py:247 | every '_' of the segment becomes '/', every other character is kept, and the length is unchanged |
| Registry.EncodeDecode | app.py:247 | encoding the decoded name gives back any segment that has no '/' |
| Registry.ResolveModelSegment | app.py:246-247 | corrected decoding: a segment that some candidate of the domain encodes to yields such a candidate; any other segment falls back to the '_' to '/' decoding |
| Registry.ChatRouteIntended | app.py:239-249 | the chat route with the corrected decoding; redirect exactly for unknown domains |
| Findings.ResolveModelSegmentRoundTrip | app.py:246-247 | for any domain whose candidates have pairwise different URL encodings, the corrected decoding of a candidate's encoding is that candidate |
| Text.LastDot | app.py:129 | the split point of `rsplit('.', 1)`: None exactly when there is no '.', otherwise a '.' with no '.' after it |
| Text.Extension | app.py:129 | the text after the last '.', itself free of '.', None exactly when the name has no '.' |
| Text.Decimal | app.py:321 | `str(user_id)`: a non-empty string of decimal digits, "0" for zero and without a leading zero otherwise |
| Text.ParseDecimalOfDecimal | app.py:321 | the decimal rendering of the user id used in stored names reads back as that id |
| Uploads.AllowedFile | app.py:128-129 | an allowed name contains a '.', the lower-cased text after its last '.' is an allowed extension of two to four characters, and the name does not end in '.' |
| Uploads.AllowedFileIff | app.py:128-129 | a name is allowed exactly when it has a '.' and the text after its last '.', lower-cased, is one of the 13 allowed extensions |
| Uploads.AllowedFileIgnoresCase | app.py:128-129 | `REPORT.PDF` is allowed |
| Uploads.AllowedFileRejects | app.py:128-129 | `report` and `report.exe` are refused |
| Uploads.AllowedFileUsesLastDot | app.py:128-129 | `archive.tar.docx` is allowed and `notes.txt.exe` refused: only the last extension counts |
| Uploads.Upload | app.py:306-334 | the three checks in order, each with its own error and error text ("No file provided", "No file selected", "Invalid file type"); a rejection changes nothing; an accepted file adds exactly one row owned by the user, with the raw conversation id, the original name, the lower-cased extension as type (hence an allowed one) and the path `uploads/{user}_{stamp}_{sanitised}`; ids stay well formed |
| Uploads.StoredName | app.py:319-321 | the stored name is the user id in decimal, '_', the timestamp, '_', then the sanitised name, exactly as long as its three parts and two separators |
| Uploads.StoredNamesOfDistinctUsersDiffer | app.py:319-321 | files of two different users never get the same stored name, whatever the timestamps and names |
| Store.EmptyValid | app.py:24-85 | the database `init_db` creates (empty tables, AUTOINCREMENT counters at 1) is well formed and attributes every message to its conversation's owner |
| Store.AddConversation | app.py:267-269 | the new conversation takes the next id, which no stored conversation has, and is returned as the last row id |
| Store.AddFile | app.py:327-328 | exactly one row is appended, carrying the next file id, the owner, the raw conversation id, the name, path and type; the other tables are untouched; the new id is fresh and ids stay well formed |
| Store.AddMessage | app.py:272-273 | a message row takes an id no stored message has; ids stay well formed |
| Store.MessagesOf | app.py:369-370 | the filter keeps only messages referencing the conversation and never more rows than stored |
| Store.MessagesOfMembership | app.py:369-370 | a message is in the filtered transcript exactly when it is stored and references the conversation |
| Store.OwnedBy | app.py:341-345 | the filter keeps only conversations owned by the user and never more rows than stored |
| Store.OwnedByMembership | app.py:345 | a conversation passes the owner filter exactly when it is stored and owned by the user |
| Store.FindOwned | app.py:360-362 | the joint (id, owner) lookup finds a row exactly when a conversation with that id and that owner exists, and the row it finds has both |
| Sorting.SortBy | app.py:347 | the ordered result is a permutation of the rows whose keys never decrease |
| Chat.DeriveTitle | app.py:266 | a message of at most 50 characters is its own title; a longer one gives a 53-character title made of its first 50 characters and "..." |
| Chat.ChatTurn | app.py:251-304 | a missing message, a new conversation without model or domain, or a truthy conversation id outside SQLite's signed 64-bit integer range raises before the backend is called; otherwise the reply is answered exactly when the backend succeeds; every unanswered turn leaves the store unchanged (failure carries the backend's error and no id); an answered turn with a falsy id adds exactly one conversation owned by the user with the given model, domain and derived title under the next id, a truthy id adds none and is echoed back; it appends exactly the user's message and then the assistant's, both by the user, typed "text", under the active id; uploads are untouched and ids stay well formed |
| Chat.OversizedConversationIdRaises | app.py:272-273 | continuing conversation 2^63 raises whatever the backend would answer, and the store is unchanged |
| Chat.AnsweredTurnTranscript | app.py:272-289 | an answered turn extends its conversation's transcript by exactly the two appended rows and leaves every other transcript unchanged |
| Chat.ContinueNeverRecreates | app.py:264-269 | after a first answered turn creates a conversation, continuing with the returned id creates no further conversation and answers under the same id |
| Chat.TurnTranscript | app.py:272-289 | one continuing turn adds to the stored messages of its conversation the user's message and the answer when the backend succeeds, and nothing when it fails; an id outside the 64-bit range raises and changes nothing |
| Chat.ConverseTranscript | app.py:251-304 | a sequence of turns continuing one conversation keeps the conversation's earlier stored messages and appends, in order, the (user message, answer) pair of every answered turn and nothing for a failed one; with an id outside the 64-bit range the store is unchanged |
| Chat.ExpectedShape | app.py:272-289 | N answered turns add 2N stored messages to the conversation, alternating user and assistant, each pair carrying that turn's message and answer; N failed turns add none |
| Chat.ChatTurnOwned | app.py:272-273 | corrected turn: a truthy id not owned by the user is refused with the store unchanged; otherwise it behaves as the endpoint; it keeps every message attributed to its conversation's owner |
| History.History | app.py:341-347 | the rows are a permutation of the user's conversations, each owned by the user, each with the number of stored messages referencing it, ordered by creation time non-increasing |
| History.HistoryListsExactlyOwned | app.py:341-347 | a conversation is listed exactly when it is stored and owned by the user |
| History.HistoryCountZero | app.py:342-344 | a row's count is 0 exactly when no stored message references its conversation |
| History.ViewConversation | app.py:360-371 | raises exactly when the id is outside SQLite's signed 64-bit integer range; otherwise found exactly when a conversation has this id and this owner; then it returns that conversation and a permutation of the messages referencing it, with creation times non-decreasing |
| History.TranscriptExactlyReferencing | app.py:369-370 | the transcript holds exactly the stored messages that reference the conversation |
| History.ViewIsOwnerScoped | app.py:360-366 | in a well-formed store a user never opens a conversation owned by someone else |
| Findings.ContinueSkipsOwnerCheck | app.py:272-273 | user 2 continuing user 1's conversation is answered and committed, breaks attribution, and shows up in user 1's transcript |
| Findings.OwnedTurnRefusesForeignConversation | app.py:264-273 | the owner-checked turn refuses the same request and leaves the store as it was |
| Findings.OwnedTurnsKeepAttribution | app.py:251-304 | any sequence of owner-checked turns from any users keeps every message attributed to its conversation's owner |
| Findings.UnderscoreModelUnreachable | app.py:247 | the registered coding model `Jayasimma/codemium_ai` is never the model the chat route renders, for any URL segment |
| Findings.RegisteredEncodingsDistinct | app.py:89-126 | the two candidates of each registered domain have different URL encodings |
| Findings.ChatRouteIntendedRoundTrip | app.py:239-249 | with the corrected decoding, the chat page opened with the encoding of any registered candidate renders exactly that candidate |

## Left out

- Flask plumbing: routing, `session`, `login_required`, `flash`, templates, `jsonify` and HTTP status codes. The signed-in user's id is an input; an uncaught exception is the reply `Crashed`.
- The other routes: home, about, favicon, contact, register, login and logout. They are single inserts, or credential checks resting on the password-hashing library.
- `init_db` and the SQL text. The tables are the fields of `Store.Db`, and AUTOINCREMENT is a per-table counter starting at 1. A rolled-back transaction also rolls back that counter, so failure returns the old store exactly.
- The inference call `ollama.chat`. Its result is the parameter `Outcome`; what it does with the model name and prompt is outside the model.
- `secure_filename`, `datetime.now`, `file.save` and `os.makedirs`. The first is the parameter `sanitise`, the clock is given as the `stamp` string and integer timestamps, and the file-system writes are left out.
- The 16 MiB request limit. The web framework checks it when the handler first reads the body (`request.json` at app.py:254, `request.files` at app.py:309); the refusal comes before any row is written.
- Request bodies that are not JSON objects, and JSON fields of unexpected types (a numeric message, a string conversation id). Fields are modelled as a string, or an integer for `conversation_id`, or absent.
- Text.Lower: lower-cases ASCII letters only, whereas `str.lower()` is Unicode-wide. For membership in the allow-list this changes nothing: no allowed extension contains 'k', and the Kelvin sign is the only non-ASCII character that lower-cases to an ASCII letter.
- Chat.ChatTurn: message, model and domain are sequences of Unicode scalar values. A JSON string with an unpaired surrogate escape (`"\ud800"`) decodes in Python to a lone surrogate that SQLite cannot encode as UTF-8, so the INSERT at app.py:267 or app.py:272 raises before the `try` and nothing is committed; such strings cannot be represented here, so the crash cases of the contract are exact only for representable text.
- Chat.ChatTurn: the conversation row and the user's message both get the timestamp `askedAt`. SQLite takes `CURRENT_TIMESTAMP` per statement, and those two statements run back to back.
- History.ViewConversation: returns whole message rows rather than the selected columns (role, content, created_at). It breaks creation-time ties by insertion order, where SQLite leaves the tie order unspecified; its contract promises only the non-decreasing order.
- History.History: returns the conversation row and its count rather than the selected columns.
- The display order of domains on the selection page.
- Concurrency. That includes two simultaneous first turns creating two conversations, and two uploads in the same second overwriting one file.
- The setup script (package installation, version checks, writing the environment file) and the favicon generator (image drawing). Neither has behaviour in this core.

## Findings

| source | as written | input that shows it | evidently intended | confidence | as-written member | corrected member |
|---|---|---|---|---|---|---|
| app.py:272-273 | a truthy `conversation_id` is used as given: the user and assistant messages are inserted under it with no check that the conversation belongs to the session user | user 2 posts `{"conversation_id": 1, "message": "hi", ...}` where conversation 1 belongs to user 1: the turn is committed and user 1's transcript shows user 2's messages | refuse unless a conversation with that id and the session user as owner exists, as `view_conversation` filters by id and owner jointly | high; not executed | Findings.ContinueSkipsOwnerCheck | Chat.ChatTurnOwned |
| app.py:247 | the chat route turns every '_' of the model segment into '/' | `/chat/coding/Jayasimma_codemium_ai` renders the model `Jayasimma/codemium/ai`; the registered model (app.py:105) is `Jayasimma/codemium_ai`, and no segment yields it | the page shows the registered candidate the segment stands for | medium; not executed (the page that builds the link is not part of this model) | Findings.UnderscoreModelUnreachable | Registry.ChatRouteIntended |
