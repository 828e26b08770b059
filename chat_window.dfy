/**
  The chat window (`ChatWindow`): one `chatState` record updated by three
  handlers — `createNewChat`, `handleSendMessage` and `loadChat`. The chat
  store is the `ChatStore` of the service, whose calls may fail (their
  outcomes are parameters); the reply of `/api/chat` is a finite sequence
  of already decoded text chunks. The `refreshChatList` events the window
  dispatches are counted, and the bodies it posts to `/api/chat` are
  recorded, so that the handlers' effects on the outside are visible.

  A send is specified by the function `Send` on a snapshot of the window
  and the store; the method `ChatSession.HandleSendMessage` is proved to
  take the session from one snapshot to the next exactly as `Send` says,
  and the lemmas below `Send` state what that means.
 */
module ChatWindow {
  import opened Common
  import opened ChatService
  import InferenceRoute

  /** Outcomes of the store calls one send may make: creating the chat,
      appending the user message, appending the assistant message. */
  datatype StoreOutcomes = StoreOutcomes(createOk: bool, userAppendOk: bool, assistantAppendOk: bool)

  /** What `fetch('/api/chat', ...)` gives the window. */
  datatype Reply =
    | FetchRejected
    | HttpError(status: nat)
    | NoBody
      /** The decoded chunks `reader.read()` yields; when `breaks`, the next read rejects. */
    | Body(chunks: seq<string>, breaks: bool)

  /** The fields of `chatState` a send changes, and what the window has
      sent to the outside so far. */
  datatype WindowState = WindowState(
    messages: seq<Message>,
    input: string,
    isTyping: bool,
    partialResponse: string,
    isProcessing: bool,
    isLoadingNewChat: bool,
    currentChatId: Option<string>,
    refreshEvents: nat,
    requests: seq<InferenceRoute.ChatRequest>)

  /** The window together with the stored chats and the ids issued so far. */
  datatype Snapshot = Snapshot(window: WindowState, docs: map<string, ChatDoc>, issued: set<string>)

  // -----------------------------------------------------------------------
  // The pieces of a send
  // -----------------------------------------------------------------------

  /** `!input.trim() || isProcessing`: the send returns at once. */
  predicate SendIgnored(input: string, isProcessing: bool) {
    Trim(input) == [] || isProcessing
  }

  /** `{ text: input.trim(), sender: 'user' }`. */
  function UserMessageOf(input: string): Message {
    Message(Trim(input), User)
  }

  /** `msgs.map(msg => ({ role: msg.sender, content: msg.text }))`. */
  function ApiHistory(msgs: seq<Message>): (r: seq<ApiMessage>)
    ensures |r| == |msgs|
    ensures forall i :: 0 <= i < |msgs| ==> r[i] == ApiMessage(RoleOf(msgs[i].sender), msgs[i].text)
  {
    seq(|msgs|, i requires 0 <= i < |msgs| => ApiMessage(RoleOf(msgs[i].sender), msgs[i].text))
  }

  /** The body posted to `/api/chat`: the user text, and the history built from
      the messages held before the send followed by the user message. */
  function SendRequest(before: seq<Message>, u: Message): InferenceRoute.ChatRequest {
    InferenceRoute.ChatRequest(u.text, Some(ApiHistory(before + [u])))
  }

  /** `{ text: msg.text, sender: msg.sender }` for every loaded message. */
  function LocalMessages(ms: seq<ChatMessage>): (r: seq<Message>)
    ensures |r| == |ms|
    ensures forall i :: 0 <= i < |ms| ==> r[i] == Message(ms[i].text, ms[i].sender)
  {
    seq(|ms|, i requires 0 <= i < |ms| => Message(ms[i].text, ms[i].sender))
  }

  /** `createNewChat` for a signed-in user whose store call returned `newId`. */
  function Created(s: Snapshot, uid: string, newId: string, now: nat): Snapshot {
    Snapshot(
      s.window.(messages := [], currentChatId := Some(newId), isLoadingNewChat := false,
                refreshEvents := s.window.refreshEvents + 1),
      s.docs[newId := NewChatDoc(uid, now)],
      s.issued + {newId})
  }

  /** A successful `addMessageToChat`, followed by its `refreshChatList` event. */
  function Appended(s: Snapshot, id: string, m: Message, now: nat): Snapshot
    requires id in s.docs
  {
    s.(docs := s.docs[id := AfterAppend(s.docs[id], m, now)],
       window := s.window.(refreshEvents := s.window.refreshEvents + 1))
  }

  /** The `catch`: both busy flags drop, everything else stays. */
  function Stopped(s: Snapshot): Snapshot {
    s.(window := s.window.(isTyping := false, isProcessing := false))
  }

  /** The optimistic update at the start of a send. */
  function Begun(s: Snapshot, u: Message): Snapshot {
    s.(window := s.window.(messages := s.window.messages + [u], input := "", isTyping := true,
                           partialResponse := "", isProcessing := true))
  }

  /** The `if (user)` block: create the chat when there is none (giving up
      when that fails), then store the user message (giving up when that
      throws). The flag says whether the send goes on. */
  function StoreUserTurn(s: Snapshot, uid: string, newId: string, now: nat, u: Message,
                         outcomes: StoreOutcomes): (Snapshot, bool)
  {
    if s.window.currentChatId.None? && !outcomes.createOk then
      (s.(window := s.window.(isLoadingNewChat := false)), false)
    else
      var s1 := if s.window.currentChatId.None? then Created(s, uid, newId, now) else s;
      var target := s1.window.currentChatId.value;
      if outcomes.userAppendOk && target in s1.docs then (Appended(s1, target, u, now), true)
      else (s1, false)
  }

  /** The assistant message is shown: the stream is over and the window idle again. */
  function Shown(s: Snapshot, a: Message): Snapshot {
    s.(window := s.window.(messages := s.window.messages + [a], isTyping := false,
                           partialResponse := "", isProcessing := false))
  }

  /** A complete reply `a`: stored into `target` first when there is one
      (a failed write ends in the `catch`), then shown. */
  function Answer(s: Snapshot, target: Option<string>, a: Message, now: nat, assistantOk: bool): Snapshot {
    if target.None? then Shown(s, a)
    else if !assistantOk || target.value !in s.docs then Stopped(s)
    else Shown(Appended(s, target.value, a, now), a)
  }

  /** Everything after the request is posted: read the stream into
      `partialResponse`, then store and show the assistant message. */
  function AfterReply(s: Snapshot, target: Option<string>, now: nat, assistantOk: bool, reply: Reply): Snapshot {
    if !reply.Body? then Stopped(s)
    else
      var text := Concat(reply.chunks);
      var s1 := s.(window := s.window.(partialResponse := text));
      if reply.breaks then Stopped(s1)
      else Answer(s1, target, Message(text, Assistant), now, assistantOk)
  }

  /** Records the request body, then goes on as `AfterReply`. */
  function Posted(s: Snapshot, posted: InferenceRoute.ChatRequest, target: Option<string>, now: nat,
                  assistantOk: bool, reply: Reply): Snapshot
  {
    AfterReply(s.(window := s.window.(requests := s.window.requests + [posted])), target, now, assistantOk, reply)
  }

  /** A send after its optimistic update: a signed-in user's message must be
      stored before the request is made. */
  function Dispatched(user: Option<string>, s: Snapshot, posted: InferenceRoute.ChatRequest, u: Message,
                      newId: string, now: nat, outcomes: StoreOutcomes, reply: Reply): Snapshot
  {
    if user.None? then Posted(s, posted, None, now, outcomes.assistantAppendOk, reply)
    else
      var (s2, goOn) := StoreUserTurn(s, user.value, newId, now, u, outcomes);
      if !goOn then Stopped(s2)
      else Posted(s2, posted, s2.window.currentChatId, now, outcomes.assistantAppendOk, reply)
  }

  /** `handleSendMessage` for the user `user` at time `now`; `newId` is the
      id the store issues if the send has to create a chat. Issued ids are
      never empty, so the source's `if (newId)` test is the success of the
      creation. */
  function Send(user: Option<string>, s: Snapshot, newId: string, now: nat,
                outcomes: StoreOutcomes, reply: Reply): Snapshot
  {
    if SendIgnored(s.window.input, s.window.isProcessing) then s
    else
      var u := UserMessageOf(s.window.input);
      Dispatched(user, Begun(s, u), SendRequest(s.window.messages, u), u, newId, now, outcomes, reply)
  }

  // -----------------------------------------------------------------------
  // The window as a mutable object
  // -----------------------------------------------------------------------

  class ChatSession {
    const store: ChatStore
    /** `useAuth().user`, by its uid; `None` for a guest. */
    var user: Option<string>
    var messages: seq<Message>
    var input: string
    var isTyping: bool
    var partialResponse: string
    var isProcessing: bool
    var isLoadingNewChat: bool
    var isChatLoading: bool
    var currentChatId: Option<string>
    /** `refreshChatList` events dispatched so far. */
    var refreshEvents: nat
    /** Bodies posted to `/api/chat`, in order. */
    var requests: seq<InferenceRoute.ChatRequest>

    ghost predicate Valid()
      reads store
    {
      store.Valid()
    }

    function Current(): Snapshot
      reads this, store
    {
      Snapshot(
        WindowState(messages, input, isTyping, partialResponse, isProcessing, isLoadingNewChat,
                    currentChatId, refreshEvents, requests),
        store.docs, store.issued)
    }

    /** The initial `chatState`. */
    constructor (store: ChatStore, user: Option<string>)
      requires store.Valid()
      ensures Valid() && this.store == store && this.user == user
      ensures messages == [] && input == "" && partialResponse == "" && currentChatId == None
      ensures !isTyping && !isProcessing && !isLoadingNewChat && !isChatLoading
      ensures refreshEvents == 0 && requests == []
    {
      this.store := store;
      this.user := user;
      messages, input, partialResponse, currentChatId := [], "", "", None;
      isTyping, isProcessing, isLoadingNewChat, isChatLoading := false, false, false, false;
      refreshEvents, requests := 0, [];
    }

    /** The authentication state changes. */
    method SetUser(u: Option<string>)
      modifies this`user
      ensures user == u
    {
      user := u;
    }

    /** `handleInputChange`. */
    method HandleInputChange(value: string)
      modifies this`input
      ensures input == value
    {
      input := value;
    }

    /** `createNewChat`: a guest only resets the transcript; a signed-in user
        first gets a new stored chat and adopts it; when that fails only the
        loading flag is cleared. */
    method CreateNewChat(createOk: bool) returns (id: Option<string>)
      requires Valid()
      modifies this`messages, this`currentChatId, this`isLoadingNewChat, this`refreshEvents
      modifies store`docs, store`issued
      ensures Valid() && !isLoadingNewChat
      ensures id.Some? <==> user.Some? && createOk
      ensures user.None? || createOk ==>
                messages == [] && currentChatId == id && refreshEvents == old(refreshEvents) + 1
      ensures user.Some? && !createOk ==>
                messages == old(messages) && currentChatId == old(currentChatId)
                && refreshEvents == old(refreshEvents)
      ensures id.None? ==> store.docs == old(store.docs) && store.issued == old(store.issued)
      ensures id.Some? ==> && id.value !in old(store.issued) && id.value != ""
                           && store.issued == old(store.issued) + {id.value}
                           && store.docs == old(store.docs)[id.value := NewChatDoc(user.value, store.clock)]
    {
      isLoadingNewChat := true;
      if user.None? {
        messages, currentChatId, isLoadingNewChat := [], None, false;
        refreshEvents := refreshEvents + 1;
        return None;
      }
      id := store.CreateNewChat(user.value, createOk);
      if id.Some? {
        messages, currentChatId, isLoadingNewChat := [], id, false;
        refreshEvents := refreshEvents + 1;
      } else {
        isLoadingNewChat := false;
      }
    }

    /** The read loop of `handleSendMessage`: after every chunk,
        `partialResponse` is the concatenation of the chunks read so far. */
    method ReadReply(chunks: seq<string>) returns (text: string)
      requires partialResponse == ""
      modifies this`partialResponse
      ensures text == Concat(chunks) && partialResponse == text
    {
      text := "";
      var i := 0;
      while i < |chunks|
        invariant 0 <= i <= |chunks|
        invariant text == Concat(chunks[..i]) && partialResponse == text
      {
        text := text + chunks[i];
        partialResponse := text;
        assert chunks[..i + 1][..i] == chunks[..i];
        i := i + 1;
      }
      assert chunks[..i] == chunks;
    }

    /** The `if (user)` block of `handleSendMessage`; `created` is the id
        `createNewChat` returned inside it, if it was called and succeeded. */
    method SaveUserTurn(u: Message, outcomes: StoreOutcomes) returns (created: Option<string>, saved: bool)
      requires Valid() && user.Some?
      modifies this`messages, this`currentChatId, this`isLoadingNewChat, this`refreshEvents
      modifies store`docs, store`issued
      ensures Valid()
      ensures created.Some? <==> old(currentChatId).None? && outcomes.createOk
      ensures created.Some? ==> created.value !in old(store.issued) && created.value != ""
      ensures (Current(), saved)
              == StoreUserTurn(old(Current()), user.value, created.GetOr(""), store.clock, u, outcomes)
    {
      created := None;
      if currentChatId.None? {
        created := CreateNewChat(outcomes.createOk);
        if created.None? {
          return created, false;
        }
      }
      var res := store.AddMessageToChat(currentChatId.value, u, outcomes.userAppendOk);
      saved := res == Done;
      if saved {
        refreshEvents := refreshEvents + 1;
      }
    }

    /** The end of a complete reply: store the assistant message into
        `target` when there is one, then show it. */
    method ConcludeReply(a: Message, target: Option<string>, assistantOk: bool)
      requires Valid()
      modifies this`messages, this`isTyping, this`partialResponse, this`isProcessing, this`refreshEvents
      modifies store`docs
      ensures Valid()
      ensures Current() == Answer(old(Current()), target, a, store.clock, assistantOk)
    {
      if target.Some? {
        var res := store.AddMessageToChat(target.value, a, assistantOk);
        if res == Threw {
          isTyping, isProcessing := false, false;
          return;
        }
        refreshEvents := refreshEvents + 1;
      }
      messages, isTyping, partialResponse, isProcessing := messages + [a], false, "", false;
    }

    /** From the request on: record it, read the stream, then store and
        show the assistant message (`target` is the chat to write it to, if any). */
    method PostAndFinish(posted: InferenceRoute.ChatRequest, reply: Reply, target: Option<string>,
                         assistantOk: bool)
      requires Valid() && partialResponse == ""
      modifies this`messages, this`isTyping, this`partialResponse, this`isProcessing, this`refreshEvents
      modifies this`requests, store`docs
      ensures Valid()
      ensures Current() == Posted(old(Current()), posted, target, store.clock, assistantOk, reply)
    {
      requests := requests + [posted];
      if !reply.Body? {
        // `fetch` rejected, `!response.ok` or `!response.body`: all end in `catch`
        isTyping, isProcessing := false, false;
        return;
      }
      var accumulated := ReadReply(reply.chunks);
      if reply.breaks {
        isTyping, isProcessing := false, false;
        return;
      }
      ConcludeReply(Message(accumulated, Assistant), target, assistantOk);
    }

    /** `handleSendMessage` after the optimistic update. */
    method Dispatch(posted: InferenceRoute.ChatRequest, u: Message, outcomes: StoreOutcomes, reply: Reply)
      returns (created: Option<string>)
      requires Valid() && partialResponse == ""
      modifies this`messages, this`isTyping, this`partialResponse, this`isProcessing
      modifies this`isLoadingNewChat, this`currentChatId, this`refreshEvents, this`requests
      modifies store`docs, store`issued
      ensures Valid()
      ensures created.Some? <==> user.Some? && old(currentChatId).None? && outcomes.createOk
      ensures created.Some? ==> created.value !in old(store.issued) && created.value != ""
      ensures Current() == Dispatched(user, old(Current()), posted, u, created.GetOr(""), store.clock, outcomes, reply)
    {
      created := None;
      var target: Option<string> := None;
      if user.Some? {
        var saved;
        created, saved := SaveUserTurn(u, outcomes);
        if !saved {
          isTyping, isProcessing := false, false;
          return;
        }
        target := currentChatId;
      }
      PostAndFinish(posted, reply, target, outcomes.assistantAppendOk);
    }

    /** `handleSendMessage`; `created` is the id of the chat the send had to
        create, if it created one. */
    method HandleSendMessage(outcomes: StoreOutcomes, reply: Reply) returns (created: Option<string>)
      requires Valid()
      modifies this`messages, this`input, this`isTyping, this`partialResponse, this`isProcessing
      modifies this`isLoadingNewChat, this`currentChatId, this`refreshEvents, this`requests
      modifies store`docs, store`issued
      ensures Valid()
      ensures created.Some? <==>
                !SendIgnored(old(input), old(isProcessing)) && user.Some? && old(currentChatId).None? && outcomes.createOk
      ensures created.Some? ==> created.value !in old(store.issued) && created.value != ""
      ensures Current() == Send(user, old(Current()), created.GetOr(""), store.clock, outcomes, reply)
    {
      if SendIgnored(input, isProcessing) {
        return None;
      }
      var userMessage := UserMessageOf(input);
      var posted := SendRequest(messages, userMessage);
      messages, input, isTyping, partialResponse, isProcessing := messages + [userMessage], "", true, "", true;
      created := Dispatch(posted, userMessage, outcomes, reply);
    }

    /** `loadChat(chatId)`: a guest does nothing; otherwise the transcript and
        the current chat are cleared first, then replaced by the stored chat,
        or left empty with `isLoadingNewChat` raised when it cannot be read. */
    method LoadChat(chatId: string, ok: bool)
      requires Valid()
      modifies this`messages, this`currentChatId, this`isChatLoading, this`isLoadingNewChat
      ensures Valid()
      ensures user.None? ==> && messages == old(messages) && currentChatId == old(currentChatId)
                             && isChatLoading == old(isChatLoading) && isLoadingNewChat == old(isLoadingNewChat)
      ensures user.Some? ==> !isChatLoading
      ensures user.Some? && ok && chatId in store.docs ==>
                && messages == LocalMessages(ReadChat(chatId, store.docs[chatId], store.clock).messages)
                && currentChatId == Some(chatId) && !isLoadingNewChat
      ensures user.Some? && !(ok && chatId in store.docs) ==>
                messages == [] && currentChatId == None && isLoadingNewChat
    {
      if user.None? {
        return;
      }
      isChatLoading, messages, currentChatId := true, [], None;
      var chat := store.GetChat(chatId, ok);
      if chat.Some? {
        messages := LocalMessages(chat.value.messages);
        currentChatId, isChatLoading, isLoadingNewChat := Some(chatId), false, false;
      } else {
        isChatLoading, isLoadingNewChat := false, true;
      }
    }
  }

  // -----------------------------------------------------------------------
  // What a send does, case by case
  // -----------------------------------------------------------------------

  /** A signed-in user with no current chat: the send must create one first. */
  predicate NeedsChat(user: Option<string>, current: Option<string>) {
    user.Some? && current.None?
  }

  /** Whether the user message of a send is stored. */
  predicate UserSaved(user: Option<string>, current: Option<string>, docs: map<string, ChatDoc>,
                      outcomes: StoreOutcomes)
  {
    && user.Some?
    && outcomes.userAppendOk
    && (if current.None? then outcomes.createOk else current.value in docs)
  }

  /** Whether a send reaches `fetch`: a guest's always does, a signed-in
      user's once the user message is stored. */
  predicate ReachesFetch(user: Option<string>, current: Option<string>, docs: map<string, ChatDoc>,
                         outcomes: StoreOutcomes)
  {
    user.None? || UserSaved(user, current, docs, outcomes)
  }

  /** Whether a send ends with an assistant message: the request is made, the
      stream ends normally and, for a signed-in user, the assistant message is stored. */
  predicate Answered(user: Option<string>, current: Option<string>, docs: map<string, ChatDoc>,
                     outcomes: StoreOutcomes, reply: Reply)
  {
    && ReachesFetch(user, current, docs, outcomes)
    && reply.Body? && !reply.breaks
    && (user.Some? ==> outcomes.assistantAppendOk)
  }

  /** The transcript once the user turn is handled: the optimistic message
      is appended, but a chat created on the way resets it to `[]`. */
  function TranscriptAfterUserTurn(user: Option<string>, current: Option<string>, before: seq<Message>,
                                  u: Message, outcomes: StoreOutcomes): seq<Message>
  {
    if NeedsChat(user, current) && outcomes.createOk then [] else before + [u]
  }

  /** The stored chat after a send into `base`: the user message, then the
      assistant message when there is one. */
  function DocAfterSend(base: ChatDoc, u: Message, answer: Option<string>, now: nat): ChatDoc {
    var withUser := AfterAppend(base, u, now);
    if answer.Some? then AfterAppend(withUser, Message(answer.value, Assistant), now) else withUser
  }

  /** The text a reply streams: its chunks in order. */
  function ReplyText(reply: Reply): string {
    if reply.Body? then Concat(reply.chunks) else ""
  }

  /** Whether the part after the request ends with the assistant message shown. */
  predicate Completes(s: Snapshot, target: Option<string>, assistantOk: bool, reply: Reply) {
    reply.Body? && !reply.breaks && (target.Some? ==> assistantOk && target.value in s.docs)
  }

  /** `AfterReply` field by field. */
  lemma AfterReplyEffect(s: Snapshot, target: Option<string>, now: nat, assistantOk: bool, reply: Reply)
    ensures var r := AfterReply(s, target, now, assistantOk, reply);
      var done := Completes(s, target, assistantOk, reply);
      var a := Message(ReplyText(reply), Assistant);
      && r.window == s.window.(
           messages := s.window.messages + (if done then [a] else []),
           isTyping := false, isProcessing := false,
           partialResponse := if done then "" else if reply.Body? then ReplyText(reply) else s.window.partialResponse,
           refreshEvents := s.window.refreshEvents + (if done && target.Some? then 1 else 0))
      && r.issued == s.issued
      && r.docs == if done && target.Some? then s.docs[target.value := AfterAppend(s.docs[target.value], a, now)]
                   else s.docs
  {
  }

  /** `StoreUserTurn` field by field. */
  lemma StoreUserTurnEffect(s: Snapshot, uid: string, newId: string, now: nat, u: Message, outcomes: StoreOutcomes)
    ensures var r := StoreUserTurn(s, uid, newId, now, u, outcomes).0;
      var cur := s.window.currentChatId;
      var made := cur.None? && outcomes.createOk;
      var saved := UserSaved(Some(uid), cur, s.docs, outcomes);
      && StoreUserTurn(s, uid, newId, now, u, outcomes).1 == saved
      && r.window == s.window.(
           messages := if made then [] else s.window.messages,
           currentChatId := if made then Some(newId) else cur,
           isLoadingNewChat := if cur.None? then false else s.window.isLoadingNewChat,
           refreshEvents := s.window.refreshEvents + (if made then 1 else 0) + (if saved then 1 else 0))
      && r.issued == (if made then s.issued + {newId} else s.issued)
      && r.docs == (if made then s.docs[newId := if outcomes.userAppendOk then AfterAppend(NewChatDoc(uid, now), u, now)
                                                 else NewChatDoc(uid, now)]
                    else if saved then s.docs[cur.value := AfterAppend(s.docs[cur.value], u, now)]
                    else s.docs)
      && (saved ==> r.window.currentChatId.Some? && r.window.currentChatId.value in r.docs)
  {
  }

  /** `Send` past the guard, as the composition of its two halves. */
  lemma SendUnfold(user: Option<string>, s: Snapshot, newId: string, now: nat,
                   outcomes: StoreOutcomes, reply: Reply)
    requires !SendIgnored(s.window.input, s.window.isProcessing)
    ensures var u := UserMessageOf(s.window.input);
      var s1 := Begun(s, u);
      var posted := SendRequest(s.window.messages, u);
      var stored := StoreUserTurn(s1, user.GetOr(""), newId, now, u, outcomes);
      var target := if user.None? then None else stored.0.window.currentChatId;
      var mid := if user.None? then s1 else stored.0;
      var r := Send(user, s, newId, now, outcomes, reply);
      && (user.Some? && !stored.1 ==> r == Stopped(stored.0))
      && (user.None? || stored.1 ==>
            r == AfterReply(mid.(window := mid.window.(requests := mid.window.requests + [posted])),
                            target, now, outcomes.assistantAppendOk, reply))
  {
  }

  /** What a send that passes the guard does to the window. The transcript
      gets the user turn (which a chat created on the way wipes out), then
      the assistant reply exactly when the whole send succeeded. The
      streaming buffer ends empty on success and holds the text read
      otherwise. A request is posted exactly when the send reaches `fetch`.
      One `refreshChatList` event follows each successful store write. */
  lemma SendWindowEffect(user: Option<string>, s: Snapshot, newId: string, now: nat,
                         outcomes: StoreOutcomes, reply: Reply)
    requires !SendIgnored(s.window.input, s.window.isProcessing)
    ensures var r := Send(user, s, newId, now, outcomes, reply).window;
      var cur := s.window.currentChatId;
      var u := UserMessageOf(s.window.input);
      var answered := Answered(user, cur, s.docs, outcomes, reply);
      && r.input == "" && !r.isTyping && !r.isProcessing
      && r.messages == TranscriptAfterUserTurn(user, cur, s.window.messages, u, outcomes)
                       + (if answered then [Message(ReplyText(reply), Assistant)] else [])
      && r.partialResponse == (if ReachesFetch(user, cur, s.docs, outcomes) && reply.Body? && !answered
                               then ReplyText(reply) else "")
      && r.requests == s.window.requests
                       + (if ReachesFetch(user, cur, s.docs, outcomes) then [SendRequest(s.window.messages, u)] else [])
      && r.currentChatId == (if NeedsChat(user, cur) && outcomes.createOk then Some(newId) else cur)
      && r.isLoadingNewChat == (if NeedsChat(user, cur) then false else s.window.isLoadingNewChat)
      && r.refreshEvents == s.window.refreshEvents
                            + (if NeedsChat(user, cur) && outcomes.createOk then 1 else 0)
                            + (if UserSaved(user, cur, s.docs, outcomes) then 1 else 0)
                            + (if answered && user.Some? then 1 else 0)
  {
    SendUnfold(user, s, newId, now, outcomes, reply);
    var u := UserMessageOf(s.window.input);
    var s1 := Begun(s, u);
    var posted := SendRequest(s.window.messages, u);
    if user.Some? {
      StoreUserTurnEffect(s1, user.value, newId, now, u, outcomes);
      var stored := StoreUserTurn(s1, user.value, newId, now, u, outcomes);
      if stored.1 {
        var mid := stored.0;
        AfterReplyEffect(mid.(window := mid.window.(requests := mid.window.requests + [posted])),
                         mid.window.currentChatId, now, outcomes.assistantAppendOk, reply);
      }
    } else {
      AfterReplyEffect(s1.(window := s1.window.(requests := s1.window.requests + [posted])),
                       None, now, outcomes.assistantAppendOk, reply);
    }
  }

  /** A signed-in first send creates a chat under the new id (or, when that
      fails, leaves the store alone) and writes the user message and, when
      the whole send succeeds, the reply into it. */
  lemma SendCreatesChat(uid: string, s: Snapshot, newId: string, now: nat,
                        outcomes: StoreOutcomes, reply: Reply)
    requires !SendIgnored(s.window.input, s.window.isProcessing) && s.window.currentChatId.None?
    ensures var r := Send(Some(uid), s, newId, now, outcomes, reply);
      var u := UserMessageOf(s.window.input);
      var answer := if Answered(Some(uid), None, s.docs, outcomes, reply) then Some(ReplyText(reply)) else None;
      && r.issued == (if outcomes.createOk then s.issued + {newId} else s.issued)
      && r.docs == (if !outcomes.createOk then s.docs
                    else s.docs[newId := if outcomes.userAppendOk then DocAfterSend(NewChatDoc(uid, now), u, answer, now)
                                         else NewChatDoc(uid, now)])
  {
    SendUnfold(Some(uid), s, newId, now, outcomes, reply);
    var u := UserMessageOf(s.window.input);
    var s1 := Begun(s, u);
    var stored := StoreUserTurn(s1, uid, newId, now, u, outcomes);
    StoreUserTurnEffect(s1, uid, newId, now, u, outcomes);
    if stored.1 {
      var mid := stored.0;
      var posted := SendRequest(s.window.messages, u);
      AfterReplyEffect(mid.(window := mid.window.(requests := mid.window.requests + [posted])),
                       Some(newId), now, outcomes.assistantAppendOk, reply);
    }
  }

  /** A signed-in send into the current chat changes only that chat: it gets
      the user message when that write succeeds, and the reply after it when
      the whole send succeeds. */
  lemma SendIntoCurrentChat(uid: string, s: Snapshot, newId: string, now: nat,
                            outcomes: StoreOutcomes, reply: Reply)
    requires !SendIgnored(s.window.input, s.window.isProcessing) && s.window.currentChatId.Some?
    ensures var r := Send(Some(uid), s, newId, now, outcomes, reply);
      var cur := s.window.currentChatId;
      var u := UserMessageOf(s.window.input);
      var answer := if Answered(Some(uid), cur, s.docs, outcomes, reply) then Some(ReplyText(reply)) else None;
      && r.issued == s.issued
      && r.docs == (if UserSaved(Some(uid), cur, s.docs, outcomes)
                    then s.docs[cur.value := DocAfterSend(s.docs[cur.value], u, answer, now)]
                    else s.docs)
  {
    if UserSaved(Some(uid), s.window.currentChatId, s.docs, outcomes) {
      SendIntoCurrentChatSaved(uid, s, newId, now, outcomes, reply);
    } else {
      SendIntoCurrentChatUnsaved(uid, s, newId, now, outcomes, reply);
    }
  }

  /** `SendIntoCurrentChat` when the user message is stored. */
  lemma SendIntoCurrentChatSaved(uid: string, s: Snapshot, newId: string, now: nat,
                                 outcomes: StoreOutcomes, reply: Reply)
    requires !SendIgnored(s.window.input, s.window.isProcessing) && s.window.currentChatId.Some?
    requires UserSaved(Some(uid), s.window.currentChatId, s.docs, outcomes)
    ensures var r := Send(Some(uid), s, newId, now, outcomes, reply);
      var cur := s.window.currentChatId;
      var u := UserMessageOf(s.window.input);
      var answer := if Answered(Some(uid), cur, s.docs, outcomes, reply) then Some(ReplyText(reply)) else None;
      && r.issued == s.issued
      && r.docs == s.docs[cur.value := DocAfterSend(s.docs[cur.value], u, answer, now)]
  {
    SendUnfold(Some(uid), s, newId, now, outcomes, reply);
    var u := UserMessageOf(s.window.input);
    var s1 := Begun(s, u);
    var cur := s.window.currentChatId;
    StoreUserTurnEffect(s1, uid, newId, now, u, outcomes);
    var mid := StoreUserTurn(s1, uid, newId, now, u, outcomes).0;
    var posted := SendRequest(s.window.messages, u);
    AfterReplyEffect(mid.(window := mid.window.(requests := mid.window.requests + [posted])),
                     cur, now, outcomes.assistantAppendOk, reply);
  }

  /** `SendIntoCurrentChat` when the user message is not stored. */
  lemma SendIntoCurrentChatUnsaved(uid: string, s: Snapshot, newId: string, now: nat,
                                   outcomes: StoreOutcomes, reply: Reply)
    requires !SendIgnored(s.window.input, s.window.isProcessing) && s.window.currentChatId.Some?
    requires !UserSaved(Some(uid), s.window.currentChatId, s.docs, outcomes)
    ensures var r := Send(Some(uid), s, newId, now, outcomes, reply);
      r.issued == s.issued && r.docs == s.docs
  {
    SendUnfold(Some(uid), s, newId, now, outcomes, reply);
    var u := UserMessageOf(s.window.input);
    StoreUserTurnEffect(Begun(s, u), uid, newId, now, u, outcomes);
  }

  /** A blank input or a send in flight changes nothing; a guest's send
      never touches the store, the current chat or the chat-list events. */
  lemma GuardAndGuest(user: Option<string>, s: Snapshot, newId: string, now: nat,
                      outcomes: StoreOutcomes, reply: Reply)
    ensures SendIgnored(s.window.input, s.window.isProcessing) ==> Send(user, s, newId, now, outcomes, reply) == s
    ensures user.None? ==>
              var r := Send(user, s, newId, now, outcomes, reply);
              && r.docs == s.docs && r.issued == s.issued
              && r.window.currentChatId == s.window.currentChatId
              && r.window.refreshEvents == s.window.refreshEvents
              && r.window.isLoadingNewChat == s.window.isLoadingNewChat
  {
    if !SendIgnored(s.window.input, s.window.isProcessing) && user.None? {
      SendWindowEffect(user, s, newId, now, outcomes, reply);
      SendUnfold(user, s, newId, now, outcomes, reply);
      var u := UserMessageOf(s.window.input);
      var s1 := Begun(s, u);
      var posted := SendRequest(s.window.messages, u);
      AfterReplyEffect(s1.(window := s1.window.(requests := s1.window.requests + [posted])),
                       None, now, outcomes.assistantAppendOk, reply);
    }
  }

  /** Storing a well-formed chat under an issued id keeps the store well formed. */
  lemma StoreValidAfterWrite(docs: map<string, ChatDoc>, issued: set<string>, now: nat, id: string, d: ChatDoc)
    requires StoreValid(docs, issued, now) && DocValid(d) && d.updatedAt <= now
    ensures StoreValid(docs[id := d], issued + {id}, now)
  {
  }

  /** A send writes only well-formed chats. */
  lemma DocAfterSendValid(base: ChatDoc, u: Message, answer: Option<string>, now: nat)
    requires DocValid(base) && base.updatedAt <= now
    ensures DocValid(DocAfterSend(base, u, answer, now)) && DocAfterSend(base, u, answer, now).updatedAt <= now
  {
    AppendKeepsValid(base, u, now);
    if answer.Some? {
      AppendKeepsValid(AfterAppend(base, u, now), Message(answer.value, Assistant), now);
    }
  }

  /** A send keeps the store well formed, provided the id it may issue is fresh. */
  lemma SendKeepsStoreValid(user: Option<string>, s: Snapshot, newId: string, now: nat,
                            outcomes: StoreOutcomes, reply: Reply)
    requires StoreValid(s.docs, s.issued, now) && newId !in s.issued
    ensures var r := Send(user, s, newId, now, outcomes, reply);
      StoreValid(r.docs, r.issued, now)
  {
    if SendIgnored(s.window.input, s.window.isProcessing) {
      return;
    }
    var u := UserMessageOf(s.window.input);
    var cur := s.window.currentChatId;
    var answer := if Answered(user, cur, s.docs, outcomes, reply) then Some(ReplyText(reply)) else None;
    if user.None? {
      GuardAndGuest(user, s, newId, now, outcomes, reply);
    } else if cur.None? {
      SendCreatesChat(user.value, s, newId, now, outcomes, reply);
      if outcomes.createOk {
        DocAfterSendValid(NewChatDoc(user.value, now), u, answer, now);
        StoreValidAfterWrite(s.docs, s.issued, now, newId,
          if outcomes.userAppendOk then DocAfterSend(NewChatDoc(user.value, now), u, answer, now)
          else NewChatDoc(user.value, now));
      }
    } else {
      SendIntoCurrentChat(user.value, s, newId, now, outcomes, reply);
      if UserSaved(user, cur, s.docs, outcomes) {
        DocAfterSendValid(s.docs[cur.value], u, answer, now);
        StoreValidAfterWrite(s.docs, s.issued, now, cur.value, DocAfterSend(s.docs[cur.value], u, answer, now));
        assert s.issued + {cur.value} == s.issued;
      }
    }
  }

  // -----------------------------------------------------------------------
  // Consequences
  // -----------------------------------------------------------------------

  /** The history sent to the model is the pre-send transcript and then the
      user message, entry by entry in the same order. */
  lemma HistoryMirrorsTranscript(before: seq<Message>, u: Message, i: nat)
    requires i < |before| + 1
    ensures SendRequest(before, u).history.Some?
    ensures |SendRequest(before, u).history.value| == |before| + 1
    ensures var m := (before + [u])[i];
      SendRequest(before, u).history.value[i] == ApiMessage(RoleOf(m.sender), m.text)
  {
  }

  /** The route appends the message to a history that already ends with it,
      so the model sees the user's text twice at the end of its input. */
  lemma UserTurnReachesModelTwice(before: seq<Message>, input: string)
    requires Trim(input) != []
    ensures var r := InferenceRoute.ModelInput(SendRequest(before, UserMessageOf(input)));
      && |r| == |before| + 3
      && r[|r| - 2] == ApiMessage(UserRole, Trim(input))
      && r[|r| - 1] == ApiMessage(UserRole, Trim(input))
  {
    var req := SendRequest(before, UserMessageOf(input));
    var r := InferenceRoute.ModelInput(req);
    var h := req.history.value;
    assert r[1..|r| - 1] == h;
    assert r[|r| - 2] == h[|h| - 1];
  }

  /** A fully successful first send of a signed-in user shows only the
      assistant message in the window, while the stored chat, read back by
      `loadChat`, holds the user message before it. */
  lemma FirstSendHidesUserMessage(uid: string, s: Snapshot, newId: string, now: nat, chunks: seq<string>)
    requires !SendIgnored(s.window.input, s.window.isProcessing) && s.window.currentChatId.None?
    ensures var r := Send(Some(uid), s, newId, now, StoreOutcomes(true, true, true), Body(chunks, false));
      var u := UserMessageOf(s.window.input);
      var a := Message(Concat(chunks), Assistant);
      && r.window.messages == [a]
      && newId in r.docs
      && LocalMessages(ReadChat(newId, r.docs[newId], now).messages) == [u, a]
  {
    var u := UserMessageOf(s.window.input);
    var a := Message(Concat(chunks), Assistant);
    var outcomes := StoreOutcomes(true, true, true);
    SendWindowEffect(Some(uid), s, newId, now, outcomes, Body(chunks, false));
    SendCreatesChat(uid, s, newId, now, outcomes, Body(chunks, false));
    var d1 := AfterAppend(NewChatDoc(uid, now), u, now);
    assert StoredMessages(d1) == [Stamp(u, now)];
    var d2 := AfterAppend(d1, a, now);
    assert Stamp(a, now) !in StoredMessages(d1);
    assert StoredMessages(d2) == [Stamp(u, now), Stamp(a, now)];
  }
}
