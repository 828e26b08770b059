/**
  The chat store of `chatService`: the Firestore collection `chats`, seen
  as a map from chat id to document, with the operations the client calls
  (create, list by owner, get, append a message, delete, clean up empty
  chats). Every call to Firestore may fail; the outcome of that call is a
  parameter (`ok`). `Timestamp.now()` is the store's natural-number clock.
 */
module ChatService {
  import opened Common

  const PlaceholderTitle: string := "New Chat"
  /** Characters of the first user message kept in a title. */
  const TitleLimit: nat := 30
  const Ellipsis: string := "..."

  /** A message as stored; a document written elsewhere may lack its timestamp. */
  datatype StoredMessage = StoredMessage(text: string, sender: Sender, timestamp: Option<nat>)

  /** A document of the `chats` collection; its `messages` field may be missing. */
  datatype ChatDoc = ChatDoc(userId: string, title: string, createdAt: nat, updatedAt: nat,
                             messages: Option<seq<StoredMessage>>)

  /** A message as the service returns it (`ChatMessage`). */
  datatype ChatMessage = ChatMessage(text: string, sender: Sender, timestamp: nat)

  /** A chat as the service returns it (`Chat`). */
  datatype Chat = Chat(id: string, title: string, userId: string, createdAt: nat, updatedAt: nat,
                       messages: seq<ChatMessage>)

  /** How a write settled: the promise resolved, or it rejected (the service rethrows). */
  datatype Outcome = Done | Threw

  /** `data.messages || []`. */
  function StoredMessages(d: ChatDoc): seq<StoredMessage> {
    d.messages.GetOr([])
  }

  /** The document `createNewChat` adds. */
  function NewChatDoc(uid: string, now: nat): ChatDoc {
    ChatDoc(uid, PlaceholderTitle, now, now, Some([]))
  }

  // ---------------------------------------------------------------------
  // Title derivation and arrayUnion
  // ---------------------------------------------------------------------

  /** `text.slice(0, 30) + (text.length > 30 ? '...' : '')`. */
  function DerivedTitle(text: string): (t: string)
    ensures |t| <= TitleLimit + |Ellipsis|
    ensures |text| <= TitleLimit ==> t == text
    ensures |text| > TitleLimit ==>
              (|t| == TitleLimit + |Ellipsis| && t[..TitleLimit] == text[..TitleLimit] && t[TitleLimit..] == Ellipsis)
  {
    text[..if |text| < TitleLimit then |text| else TitleLimit] + (if |text| > TitleLimit then Ellipsis else "")
  }

  /** The title after a message is added: re-derived from every non-empty user message. */
  function TitleAfter(title: string, m: Message): string {
    if m.sender == User && |m.text| > 0 then DerivedTitle(m.text) else title
  }

  /** `{ ...message, timestamp: Timestamp.now() }`. */
  function Stamp(m: Message, now: nat): StoredMessage {
    StoredMessage(m.text, m.sender, Some(now))
  }

  /** Firestore's `arrayUnion(x)`: adds `x` at the end unless an equal element is present. */
  function ArrayUnion(xs: seq<StoredMessage>, x: StoredMessage): (r: seq<StoredMessage>)
    ensures x in r
    ensures |xs| <= |r| <= |xs| + 1 && r[..|xs|] == xs
    ensures x !in xs ==> r == xs + [x]
    ensures x in xs ==> r == xs
  {
    if x in xs then xs else xs + [x]
  }

  /** The document after `addMessageToChat`'s `updateDoc`. */
  function AfterAppend(d: ChatDoc, m: Message, now: nat): ChatDoc {
    d.(messages := Some(ArrayUnion(StoredMessages(d), Stamp(m, now))),
       updatedAt := now,
       title := TitleAfter(d.title, m))
  }

  // ---------------------------------------------------------------------
  // Reading documents back
  // ---------------------------------------------------------------------

  /** `{ ...msg, timestamp: msg.timestamp?.toDate() || new Date() }`. */
  function ReadMessage(m: StoredMessage, now: nat): ChatMessage {
    ChatMessage(m.text, m.sender, m.timestamp.GetOr(now))
  }

  /** The `Chat` record `getUserChats` and `getChat` build from a document. */
  function ReadChat(id: string, d: ChatDoc, now: nat): (c: Chat)
    ensures c.id == id && c.userId == d.userId && c.title == d.title
    ensures c.createdAt == d.createdAt && c.updatedAt == d.updatedAt
    ensures d.messages.None? ==> c.messages == []
    ensures |c.messages| == |StoredMessages(d)|
    ensures forall i :: 0 <= i < |c.messages| ==>
              && c.messages[i].text == StoredMessages(d)[i].text
              && c.messages[i].sender == StoredMessages(d)[i].sender
              && c.messages[i].timestamp == (if StoredMessages(d)[i].timestamp.Some?
                                             then StoredMessages(d)[i].timestamp.value else now)
  {
    var ms := StoredMessages(d);
    Chat(id, d.title, d.userId, d.createdAt, d.updatedAt,
         seq(|ms|, i requires 0 <= i < |ms| => ReadMessage(ms[i], now)))
  }

  // ---------------------------------------------------------------------
  // Ownership and recency order
  // ---------------------------------------------------------------------

  /** The ids of the documents `where('userId', '==', uid)` selects. */
  function OwnedIds(docs: map<string, ChatDoc>, uid: string): set<string> {
    set id | id in docs && docs[id].userId == uid
  }

  /** The owner's chats with no message, the ones `cleanupEmptyChats` deletes. */
  function EmptyOwnedIds(docs: map<string, ChatDoc>, uid: string): (r: set<string>)
    ensures r <= OwnedIds(docs, uid)
  {
    set id | id in docs && docs[id].userId == uid && StoredMessages(docs[id]) == []
  }

  function IdsOf(cs: seq<Chat>): (r: seq<string>)
    ensures |r| == |cs| && forall i :: 0 <= i < |cs| ==> r[i] == cs[i].id
  {
    seq(|cs|, i requires 0 <= i < |cs| => cs[i].id)
  }

  /** Newest `updatedAt` first (`orderBy('updatedAt', 'desc')`). */
  predicate SortedByRecency(cs: seq<Chat>) {
    forall i, j :: 0 <= i < j < |cs| ==> cs[i].updatedAt >= cs[j].updatedAt
  }

  predicate AllIn(ids: seq<string>, docs: map<string, ChatDoc>) {
    forall k :: 0 <= k < |ids| ==> ids[k] in docs
  }

  predicate IdsByRecency(ids: seq<string>, docs: map<string, ChatDoc>)
    requires AllIn(ids, docs)
  {
    forall i, j :: 0 <= i < j < |ids| ==> docs[ids[i]].updatedAt >= docs[ids[j]].updatedAt
  }

  function InsertByRecency(id: string, ids: seq<string>, docs: map<string, ChatDoc>): (r: seq<string>)
    requires id in docs && AllIn(ids, docs) && IdsByRecency(ids, docs)
    ensures AllIn(r, docs) && IdsByRecency(r, docs)
    ensures multiset(r) == multiset(ids) + multiset{id}
    ensures forall k :: 0 <= k < |r| ==> r[k] == id || r[k] in ids
  {
    if ids == [] then [id]
    else if docs[id].updatedAt >= docs[ids[0]].updatedAt then [id] + ids
    else
      assert ids == [ids[0]] + ids[1..];
      var rest := InsertByRecency(id, ids[1..], docs);
      NewerHeadKeepsOrder(ids[0], rest, docs);
      [ids[0]] + rest
  }

  /** An id no older than any of a recency-ordered list may go in front of it. */
  lemma NewerHeadKeepsOrder(head: string, ids: seq<string>, docs: map<string, ChatDoc>)
    requires head in docs && AllIn(ids, docs) && IdsByRecency(ids, docs)
    requires forall k :: 0 <= k < |ids| ==> docs[head].updatedAt >= docs[ids[k]].updatedAt
    ensures AllIn([head] + ids, docs) && IdsByRecency([head] + ids, docs)
  {
  }

  /** The ids ordered newest first; ties keep no particular order. */
  function SortByRecency(ids: seq<string>, docs: map<string, ChatDoc>): (r: seq<string>)
    requires AllIn(ids, docs)
    ensures AllIn(r, docs) && IdsByRecency(r, docs)
    ensures multiset(r) == multiset(ids)
  {
    if ids == [] then []
    else
      assert ids == [ids[0]] + ids[1..];
      InsertByRecency(ids[0], SortByRecency(ids[1..], docs), docs)
  }

  /** What `getUserChats(uid)` returns when the query succeeds: every chat of
      the owner exactly once, read back from its document, newest first. */
  ghost predicate IsRecencyListing(r: seq<Chat>, docs: map<string, ChatDoc>, uid: string, now: nat) {
    && SortedByRecency(r)
    && multiset(IdsOf(r)) == multiset(OwnedIds(docs, uid))
    && forall i :: 0 <= i < |r| ==> r[i].id in docs && r[i] == ReadChat(r[i].id, docs[r[i].id], now)
  }

  // ---------------------------------------------------------------------
  // Store invariant
  // ---------------------------------------------------------------------

  /** A document written by the service: `createdAt <= updatedAt`, and every
      message carries a timestamp no later than the last write. */
  ghost predicate DocValid(d: ChatDoc) {
    && d.createdAt <= d.updatedAt
    && forall i :: 0 <= i < |StoredMessages(d)| ==>
         StoredMessages(d)[i].timestamp.Some? && StoredMessages(d)[i].timestamp.value <= d.updatedAt
  }

  // ---------------------------------------------------------------------
  // Lemmas about one append
  // ---------------------------------------------------------------------

  /** The new message is last; earlier messages stay, unchanged and in order
      (the append-only history); `updatedAt` becomes the write time. */
  lemma AppendKeepsHistory(d: ChatDoc, m: Message, now: nat)
    ensures |StoredMessages(d)| <= |StoredMessages(AfterAppend(d, m, now))| <= |StoredMessages(d)| + 1
    ensures StoredMessages(AfterAppend(d, m, now))[..|StoredMessages(d)|] == StoredMessages(d)
    ensures Stamp(m, now) in StoredMessages(AfterAppend(d, m, now))
    ensures AfterAppend(d, m, now).updatedAt == now
    ensures AfterAppend(d, m, now).userId == d.userId && AfterAppend(d, m, now).createdAt == d.createdAt
  {
  }

  /** With a clock that has moved since the last write, `arrayUnion` is a
      plain append: the stamped message becomes the last element. */
  lemma FreshStampAppends(d: ChatDoc, m: Message, now: nat)
    requires DocValid(d) && d.updatedAt < now
    ensures StoredMessages(AfterAppend(d, m, now)) == StoredMessages(d) + [Stamp(m, now)]
  {
  }

  /** An append keeps the document well formed when the clock has not gone back. */
  lemma AppendKeepsValid(d: ChatDoc, m: Message, now: nat)
    requires DocValid(d) && d.updatedAt <= now
    ensures DocValid(AfterAppend(d, m, now))
  {
    var ms := StoredMessages(d);
    var ms' := StoredMessages(AfterAppend(d, m, now));
    forall i | 0 <= i < |ms'|
      ensures ms'[i].timestamp.Some? && ms'[i].timestamp.value <= now
    {
      if i < |ms| {
        assert ms'[i] == ms'[..|ms|][i];
      } else {
        assert ms' == ms + [Stamp(m, now)];
      }
    }
  }

  /** The same message added twice within one clock value is stored once. */
  lemma SameInstantAppendCollapses(d: ChatDoc, m: Message, now: nat)
    ensures StoredMessages(AfterAppend(AfterAppend(d, m, now), m, now))
         == StoredMessages(AfterAppend(d, m, now))
  {
  }

  /** A non-empty user message sets the title to its first 30 characters,
      plus "..." exactly when it is longer; this happens on every such
      message, not only on the first. */
  lemma UserMessageRetitles(d: ChatDoc, m: Message, now: nat)
    requires m.sender == User && m.text != []
    ensures var t := AfterAppend(d, m, now).title;
      && |t| <= TitleLimit + |Ellipsis|
      && (|m.text| <= TitleLimit ==> t == m.text)
      && (|m.text| > TitleLimit ==> t == m.text[..TitleLimit] + Ellipsis)
  {
    var t := AfterAppend(d, m, now).title;
    if |m.text| > TitleLimit {
      assert t == t[..TitleLimit] + t[TitleLimit..];
    }
  }

  /** Assistant messages and empty user messages never change the title. */
  lemma OtherMessagesKeepTitle(d: ChatDoc, m: Message, now: nat)
    requires m.sender == Assistant || m.text == []
    ensures AfterAppend(d, m, now).title == d.title
  {
  }

  /** A fresh chat whose first message is from the assistant keeps "New Chat". */
  lemma AssistantFirstKeepsPlaceholder(uid: string, created: nat, m: Message, now: nat)
    requires m.sender == Assistant
    ensures AfterAppend(NewChatDoc(uid, created), m, now).title == PlaceholderTitle
    ensures StoredMessages(AfterAppend(NewChatDoc(uid, created), m, now)) == [Stamp(m, now)]
  {
  }

  // ---------------------------------------------------------------------
  // Fresh identifiers
  // ---------------------------------------------------------------------

  ghost function MaxLength(ids: set<string>): (n: nat)
    ensures forall id :: id in ids ==> |id| <= n
  {
    if ids == {} then 0
    else
      var id :| id in ids;
      var rest := MaxLength(ids - {id});
      if |id| > rest then |id| else rest
  }

  /** However many ids were handed out, there is a non-empty one that was not. */
  lemma FreshIdExists(issued: set<string>)
    ensures exists id: string :: id !in issued && id != ""
  {
    var long := seq(MaxLength(issued) + 1, _ => 'x');
    assert long !in issued;
  }

  // ---------------------------------------------------------------------
  // The store
  // ---------------------------------------------------------------------

  /** Every stored id was issued by the store, and every document is well
      formed and no newer than the clock. */
  ghost predicate StoreValid(docs: map<string, ChatDoc>, issued: set<string>, clock: nat) {
    && docs.Keys <= issued
    && forall id :: id in docs ==> DocValid(docs[id]) && docs[id].updatedAt <= clock
  }

  class ChatStore {
    /** The `chats` collection. */
    var docs: map<string, ChatDoc>
    /** Every id `addDoc` has handed out; auto-generated ids are never reused. */
    var issued: set<string>
    /** `Timestamp.now()`. */
    var clock: nat

    ghost predicate Valid()
      reads this
    {
      StoreValid(docs, issued, clock)
    }

    constructor ()
      ensures Valid() && docs == map[] && issued == {} && clock == 0
    {
      docs, issued, clock := map[], {}, 0;
    }

    /** Time passes. */
    method Tick()
      requires Valid()
      modifies this`clock
      ensures Valid() && clock == old(clock) + 1
    {
      clock := clock + 1;
    }

    /** `createNewChat(user)`: adds a placeholder chat owned by `uid` and
        returns its new id; `None` when `addDoc` rejects (the error is rethrown). */
    method CreateNewChat(uid: string, ok: bool) returns (id: Option<string>)
      requires Valid()
      modifies this`docs, this`issued
      ensures Valid()
      ensures id.Some? <==> ok
      ensures !ok ==> docs == old(docs) && issued == old(issued)
      ensures ok ==> && id.value !in old(issued) && id.value !in old(docs) && id.value != ""
                     && issued == old(issued) + {id.value}
                     && docs == old(docs)[id.value := NewChatDoc(uid, clock)]
    {
      if !ok {
        return None;
      }
      FreshIdExists(issued);
      var newId :| newId !in issued && newId != "";
      issued := issued + {newId};
      docs := docs[newId := NewChatDoc(uid, clock)];
      id := Some(newId);
    }

    /** The `where('userId', '==', user)` query: every owned id exactly once,
        in no particular order. */
    method QueryOwned(uid: string) returns (ids: seq<string>)
      ensures multiset(ids) == multiset(OwnedIds(docs, uid))
      ensures AllIn(ids, docs)
    {
      var remaining := set id | id in docs && docs[id].userId == uid;
      ids := [];
      while remaining != {}
        invariant multiset(ids) + multiset(remaining) == multiset(OwnedIds(docs, uid))
        invariant AllIn(ids, docs)
        invariant remaining <= OwnedIds(docs, uid)
        decreases |remaining|
      {
        var id :| id in remaining;
        assert multiset(remaining) == multiset(remaining - {id}) + multiset{id};
        ids := ids + [id];
        remaining := remaining - {id};
      }
    }

    /** `getUserChats(user)`: the owner's chats, newest first; `[]` when the query fails. */
    method GetUserChats(uid: string, ok: bool) returns (r: seq<Chat>)
      ensures !ok ==> r == []
      ensures ok ==> IsRecencyListing(r, docs, uid, clock)
    {
      if !ok {
        return [];
      }
      var ids := QueryOwned(uid);
      var sorted := SortByRecency(ids, docs);
      var ds, now := docs, clock;
      r := seq(|sorted|, i requires 0 <= i < |sorted| => ReadChat(sorted[i], ds[sorted[i]], now));
      assert IdsOf(r) == sorted;
    }

    /** `getChat(chatId)`: `null` both for a missing id and for a failed read. */
    method GetChat(chatId: string, ok: bool) returns (r: Option<Chat>)
      ensures r.Some? <==> ok && chatId in docs
      ensures r.Some? ==> r.value == ReadChat(chatId, docs[chatId], clock)
    {
      if !ok || chatId !in docs {
        return None;
      }
      r := Some(ReadChat(chatId, docs[chatId], clock));
    }

    /** `addMessageToChat(chatId, message)`. `updateDoc` rejects when the
        write fails or the document does not exist. */
    method AddMessageToChat(chatId: string, m: Message, ok: bool) returns (res: Outcome)
      requires Valid()
      modifies this`docs
      ensures Valid()
      ensures res == Done <==> ok && chatId in old(docs)
      ensures res == Threw ==> docs == old(docs)
      ensures res == Done ==> docs == old(docs)[chatId := AfterAppend(old(docs)[chatId], m, clock)]
    {
      if !ok || chatId !in docs {
        return Threw;
      }
      AppendKeepsValid(docs[chatId], m, clock);
      docs := docs[chatId := AfterAppend(docs[chatId], m, clock)];
      res := Done;
    }

    /** `deleteChat(chatId)`: deleting an absent chat succeeds. */
    method DeleteChat(chatId: string, ok: bool) returns (res: Outcome)
      requires Valid()
      modifies this`docs
      ensures Valid()
      ensures res == Done <==> ok
      ensures docs == if ok then old(docs) - {chatId} else old(docs)
    {
      if !ok {
        return Threw;
      }
      docs := docs - {chatId};
      res := Done;
    }

    /** `cleanupEmptyChats(user)`: lists the owner's chats and deletes every
        one without messages; no chat is exempt. `failing` are the ids whose
        delete rejects; the others are still deleted (all deletes are
        started before `Promise.all` settles). A failed listing reads as
        `[]`, so nothing is deleted and the call succeeds. */
    method CleanupEmptyChats(uid: string, listOk: bool, failing: set<string>) returns (res: Outcome)
      requires Valid()
      modifies this`docs
      ensures Valid()
      ensures !listOk ==> docs == old(docs) && res == Done
      ensures listOk ==> docs == old(docs) - (EmptyOwnedIds(old(docs), uid) - failing)
      ensures res == Threw <==> listOk && EmptyOwnedIds(old(docs), uid) * failing != {}
      ensures listOk && res == Done ==> EmptyOwnedIds(docs, uid) == {}
    {
      var listing := GetUserChats(uid, listOk);
      var empties := Filter(listing, IsEmptyChat);
      EmptiesAreEmptyOwned(listing, docs, uid, clock, listOk);
      ghost var docs0 := docs;
      ghost var seen: set<string> := {};
      var i := 0;
      var failed := false;
      while i < |empties|
        invariant 0 <= i <= |empties|
        invariant Valid()
        invariant seen == IdSet(empties[..i])
        invariant docs == docs0 - (seen - failing)
        invariant failed <==> seen * failing != {}
      {
        var id := empties[i].id;
        var r := DeleteChat(id, id !in failing);
        IdSetSnoc(empties, i);
        DeleteStep(docs0, seen, failing, id);
        seen := seen + {id};
        failed := failed || r == Threw;
        i := i + 1;
      }
      assert empties[..i] == empties;
      res := if failed then Threw else Done;
      if listOk && !failed {
        CleanupLeavesNoEmpty(docs0, uid);
        assert IdSet(empties) * failing == {};
        forall id | id in IdSet(empties) ensures id !in failing {
          assert id !in IdSet(empties) * failing;
        }
        assert IdSet(empties) - failing == IdSet(empties);
      }
    }
  }

  /** Removing the owner's empty chats leaves the owner none. */
  lemma CleanupLeavesNoEmpty(docs: map<string, ChatDoc>, uid: string)
    ensures EmptyOwnedIds(docs - EmptyOwnedIds(docs, uid), uid) == {}
  {
  }

  /** One more delete in the cleanup loop. */
  lemma DeleteStep(docs: map<string, ChatDoc>, seen: set<string>, failing: set<string>, id: string)
    ensures (if id !in failing then (docs - (seen - failing)) - {id} else docs - (seen - failing))
         == docs - ((seen + {id}) - failing)
    ensures (seen + {id}) * failing != {} <==> (seen * failing != {} || id in failing)
  {
    if id in failing {
      assert (seen + {id}) - failing == seen - failing;
      assert id in (seen + {id}) * failing;
    } else {
      assert (seen + {id}) - failing == (seen - failing) + {id};
    }
  }

  /** The ids of a list of chats. */
  function IdSet(cs: seq<Chat>): set<string> {
    set k | 0 <= k < |cs| :: cs[k].id
  }

  lemma IdSetSnoc(cs: seq<Chat>, i: nat)
    requires i < |cs|
    ensures IdSet(cs[..i + 1]) == IdSet(cs[..i]) + {cs[i].id}
  {
    var a, b := cs[..i], cs[..i + 1];
    forall id | id in IdSet(b) ensures id in IdSet(a) + {cs[i].id} {
      var k :| 0 <= k < |b| && b[k].id == id;
      if k < i { assert a[k] == b[k]; }
    }
    forall id | id in IdSet(a) ensures id in IdSet(b) {
      var k :| 0 <= k < |a| && a[k].id == id;
      assert b[k] == a[k];
    }
    assert b[i] == cs[i];
  }

  predicate IsEmptyChat(c: Chat) {
    |c.messages| == 0
  }

  /** Every chat of a listing is one of the owner's, read from its document. */
  lemma ListingMember(listing: seq<Chat>, docs: map<string, ChatDoc>, uid: string, now: nat, j: nat)
    requires IsRecencyListing(listing, docs, uid, now) && j < |listing|
    ensures listing[j].id in OwnedIds(docs, uid)
    ensures listing[j] == ReadChat(listing[j].id, docs[listing[j].id], now)
  {
    assert IdsOf(listing)[j] == listing[j].id;
    assert listing[j].id in multiset(IdsOf(listing));
  }

  /** Every chat of the owner appears in a listing. */
  lemma ListingCovers(listing: seq<Chat>, docs: map<string, ChatDoc>, uid: string, now: nat, id: string)
    requires IsRecencyListing(listing, docs, uid, now) && id in OwnedIds(docs, uid)
    ensures exists j :: 0 <= j < |listing| && listing[j].id == id
  {
    assert id in multiset(IdsOf(listing));
    var j :| 0 <= j < |IdsOf(listing)| && IdsOf(listing)[j] == id;
  }

  /** The chats the cleanup picks out of a listing are exactly the owner's
      chats without messages. */
  lemma EmptiesAreEmptyOwned(listing: seq<Chat>, docs: map<string, ChatDoc>, uid: string, now: nat, listOk: bool)
    requires listOk ==> IsRecencyListing(listing, docs, uid, now)
    requires !listOk ==> listing == []
    ensures IdSet(Filter(listing, IsEmptyChat)) == if listOk then EmptyOwnedIds(docs, uid) else {}
  {
    var empties := Filter(listing, IsEmptyChat);
    if listOk {
      forall id | id in IdSet(empties) ensures id in EmptyOwnedIds(docs, uid) {
        var k :| 0 <= k < |empties| && empties[k].id == id;
        var j :| 0 <= j < |listing| && listing[j] == empties[k];
        ListingMember(listing, docs, uid, now, j);
      }
      forall id | id in EmptyOwnedIds(docs, uid) ensures id in IdSet(empties) {
        ListingCovers(listing, docs, uid, now, id);
        var j :| 0 <= j < |listing| && listing[j].id == id;
        ListingMember(listing, docs, uid, now, j);
        assert IsEmptyChat(listing[j]);
        var k :| 0 <= k < |empties| && empties[k] == listing[j];
      }
    } else {
      assert empties == [];
    }
  }
}
