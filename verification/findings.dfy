/** Two places where the application does not do what it evidently means to, each shown on a
    concrete input, next to the corrected behaviour and the property it restores. */
module Findings {
  import opened Wrappers
  import opened Registry
  import opened Store
  import opened Chat
  import opened History

  // ---------------------------------------------------------------------------------------
  // 1. Continuing a conversation does not check its owner.

  /** User 2 continues user 1's conversation 1: the turn is answered and committed, the store
      stops being attributed, and the owner's transcript now shows user 2's messages. */
  lemma ContinueSkipsOwnerCheck()
    ensures var db := Db([Conversation(1, 1, "Jayasimma/gennai", "agriculture", "hello", 0)], [], [], 2, 1, 1);
      var r := ChatTurn(db, 2, ChatRequest(Some("Jayasimma/gennai"), Some("hi"), Some(1), Some("agriculture")), Success("ok"), 5, 6);
      && Valid(db) && Attributed(db)
      && r.1 == Answered("ok", 1)
      && !Attributed(r.0)
      && ViewConversation(r.0, 1, 1).Shown?
      && exists m :: m in ViewConversation(r.0, 1, 1).view.messages && m.author == 2
  {
    var c := Conversation(1, 1, "Jayasimma/gennai", "agriculture", "hello", 0);
    var db := Db([c], [], [], 2, 1, 1);
    var r := ChatTurn(db, 2, ChatRequest(Some("Jayasimma/gennai"), Some("hi"), Some(1), Some("agriculture")), Success("ok"), 5, 6);
    var m := r.0.messages[0];
    assert m.author == 2 && m.conversationId == 1;
    assert !Owns(r.0.conversations, 2, 1) by {
      assert r.0.conversations == [c];
    }
    TranscriptExactlyReferencing(r.0, 1, 1, m);
  }

  /** With the owner check, the same request is refused and the store is left as it was. */
  lemma OwnedTurnRefusesForeignConversation()
    ensures var db := Db([Conversation(1, 1, "Jayasimma/gennai", "agriculture", "hello", 0)], [], [], 2, 1, 1);
      ChatTurnOwned(db, 2, ChatRequest(Some("Jayasimma/gennai"), Some("hi"), Some(1), Some("agriculture")), Success("ok"), 5, 6)
        == (db, ChatReply.NotFound)
  {
  }

  /** Any sequence of owner-checked turns, from any users, keeps every message attributed to the
      owner of its conversation. */
  lemma {:induction false} OwnedTurnsKeepAttribution(db: Db, turns: seq<(UserId, ChatRequest, Outcome, int, int)>)
    requires Attributed(db)
    ensures Attributed(Replay(db, turns))
    decreases |turns|
  {
    if |turns| > 0 {
      var (u, req, o, t1, t2) := turns[0];
      var next := ChatTurnOwned(db, u, req, o, t1, t2).0;
      OwnedTurnsKeepAttribution(next, turns[1..]);
    }
  }

  /** The store after a sequence of owner-checked chat turns. */
  function Replay(db: Db, turns: seq<(UserId, ChatRequest, Outcome, int, int)>): Db
    decreases |turns|
  {
    if |turns| == 0 then db
    else
      var (u, req, o, t1, t2) := turns[0];
      Replay(ChatTurnOwned(db, u, req, o, t1, t2).0, turns[1..])
  }

  // ---------------------------------------------------------------------------------------
  // 2. The chat route can never produce a model identifier containing '_'.

  /** "Jayasimma/codemium_ai" is a registered coding model, yet no URL segment makes the chat route
      render it: decoding turns every '_' into '/'. */
  lemma UnderscoreModelUnreachable(segment: string)
    ensures "Jayasimma/codemium_ai" in Resolve("coding").value.models
    ensures ChatRoute("coding", segment).ChatPage?
    ensures ChatRoute("coding", segment).modelName != "Jayasimma/codemium_ai"
  {
  }

  /** Scanning the candidates finds the first one encoding to the segment. */
  lemma {:induction false} FirstEncodedAsFinds(models: seq<string>, k: nat)
    requires k < |models|
    requires forall j :: 0 <= j < k ==> EncodeModelName(models[j]) != EncodeModelName(models[k])
    ensures FirstEncodedAs(models, EncodeModelName(models[k])) == Some(models[k])
  {
    if k > 0 {
      FirstEncodedAsFinds(models[1..], k - 1);
    }
  }

  /** For any domain whose candidates have pairwise different URL encodings, the corrected
      decoding of a candidate's encoding is that candidate. */
  lemma ResolveModelSegmentRoundTrip(info: DomainInfo, k: nat)
    requires k < |info.models|
    requires forall i, j :: 0 <= i < j < |info.models| ==>
               EncodeModelName(info.models[i]) != EncodeModelName(info.models[j])
    ensures ResolveModelSegment(info, EncodeModelName(info.models[k])) == info.models[k]
  {
    FirstEncodedAsFinds(info.models, k);
  }

  /** The two candidates of every registered domain have different URL encodings. */
  lemma RegisteredEncodingsDistinct(d: string)
    requires d in Domains
    ensures EncodeModelName(Domains[d].models[0]) != EncodeModelName(Domains[d].models[1])
  {
    var ms := Domains[d].models;
    if d == "education" {
      assert EncodeModelName(ms[0])[10] == 'B';
      assert EncodeModelName(ms[1])[10] == 'c';
    } else {
      assert |ms[0]| != |ms[1]|;
    }
  }

  /** With the corrected decoding, opening the chat page with the encoding of any registered
      candidate renders exactly that candidate. */
  lemma ChatRouteIntendedRoundTrip(d: string, k: nat)
    requires d in Domains && k < |Domains[d].models|
    ensures ChatRouteIntended(d, EncodeModelName(Domains[d].models[k])).ChatPage?
    ensures ChatRouteIntended(d, EncodeModelName(Domains[d].models[k])).modelName == Domains[d].models[k]
  {
    RegisteredEncodingsDistinct(d);
    ResolveModelSegmentRoundTrip(Domains[d], k);
  }
}
