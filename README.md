# Chat persistence and session core of the AI-doctor web app

This Dafny project models the client core of a Next.js chat application. In it, a signed-in user talks to an AI doctor, and every conversation is kept in a Firestore `chats` collection. The model covers six parts:

- **Chat service** (`chat_service.dfy`, module `ChatService`). The `chats` collection is a map from ids to documents held by a `ChatStore` object. It also holds the set of ids handed out so far and an abstract clock. The object has `createNewChat`, `getUserChats`, `getChat`, `addMessageToChat`, `deleteChat` and `cleanupEmptyChats`. Each of them takes a boolean telling whether the remote call succeeds. Other pieces are pure functions:
  - `arrayUnion`, modelled as "append unless an equal element is present";
  - the title derivation;
  - the conversion of a document to a `Chat` record;
  - the newest-first order of the listing.
- **Chat window** (`chat_window.dfy`, module `ChatWindow`). The `chatState` record of `ChatWindow` is a `ChatSession` object bound to a store. It has `createNewChat`, `loadChat` and `handleSendMessage`. `handleSendMessage` is proved against the pure function `Send`, which maps a snapshot of window and store to the snapshot after the send. The lemmas about `Send` describe its effect on the window, on the stored chats and on the store's invariant.
- **Inference route** (`inference_route.dfy`, module `InferenceRoute`). The `POST /api/chat` handler assembles the model input and forwards the non-empty deltas of the model's stream.
- **Sidebar** (`sidebar.dfy`, module `Sidebar`). This covers two things. The first is the chat list of `SidebarMenu`: the displayed subset, the 15-entry cap, loading, refreshing and the delete dialog. The second is the hover/pin machine of `DesktopSidebar`.
- **EHR context** (`ehr_context.dfy`, module `EhrContext`). The set/consume summary cell and the `useEhr` guard.
- **EHR upload** (`file_upload.dfy`, module `EhrUpload`). The state transitions of the upload box.

Shared values are in `common.dfy`:
- `Option` and `Result`;
- messages;
- JavaScript's `String.prototype.trim`;
- chunk concatenation;
- order-preserving filtering;
- decimal rendering of status codes.

Remote services are parameters:
- Firestore success or failure;
- the ids `addDoc` generates, chosen fresh from the ids issued so far;
- `Timestamp.now()`, the store's clock;
- the HTTP reply of `/api/chat`, as its chunks and whether the read breaks;
- the model's delta stream;
- the EHR server's reply.

Window `CustomEvent`s are modelled as counters or command logs:
- `refreshChatList` dispatched by the window becomes `refreshEvents`;
- the posted request bodies become `requests`;
- calls from the sidebar into the window become `commands`.

Behaviours of the code worth knowing:

- **Titles.** Every non-empty user message re-derives the title, not only the first one (`UserMessageRetitles`).
- **Cleanup exemptions.** `cleanupEmptyChats` deletes every empty chat of the user, including the active one.
- **Cleanup failures.** A single failed delete makes it throw, after every delete has been started. `Promise.all` rejects at the first failure, so other deletes may still be pending.
- **Interrupted streams on the client.** A stream that breaks on the client adds no assistant message. The text read so far stays in `partialResponse`.
- **Interrupted streams on the server.** A model stream that breaks on the server is closed normally, so the client takes the prefix for a complete reply (`BrokenStreamIsPrefix`).
- **First send.** On a signed-in user's first send, the nested `createNewChat` resets `messages` to `[]` after the optimistic user message was added. A fully successful first send therefore shows only the assistant reply, while the stored chat holds both (`FirstSendHidesUserMessage`).
- **Failed writes.** When the send creates no chat, or the creation itself fails, a failed store write leaves the optimistic user message in place. When the send does create a chat, the creation has already reset `messages` to `[]`, so a failed user or assistant append leaves the transcript empty (`SendWindowEffect`).
- **Current chat in the sidebar.** `ChatWindow` never dispatches `currentChatUpdate`. The sidebar's `currentChatId` therefore changes only through `handleChatClick` or that listener.

## Model

| member | source | states |
|---|---|---|
| Common.RoleOf | src/app/chat/chatwindow.tsx:167-170 | a history entry's role is never `system` and is `user` exactly for user messages |
| Common.TrimStartSpec | src/app/chat/chatwindow.tsx:138-140 | trimming the front leaves a suffix that does not start with whitespace, and drops only whitespace |
| Common.TrimEndSpec | src/app/chat/chatwindow.tsx:138-140 | trimming the end leaves a prefix that does not end with whitespace, and drops only whitespace |
| Common.TrimIsCore | src/app/chat/chatwindow.tsx:138-140 | `input.trim()` is a contiguous slice of the input, starts and ends with non-whitespace, and everything cut away is whitespace |
| Common.TrimEmptyIff | src/app/chat/chatwindow.tsx:138 | the send guard `!input.trim()` holds exactly when the input is all whitespace |
| Common.ConcatAppend | src/app/chat/chatwindow.tsx:203-205 | accumulating chunks in two runs gives the concatenation of both runs |
| Common.ConcatPrefix | src/app/chat/chatwindow.tsx:204-205 | the text accumulated after any number of chunks is a prefix of the whole reply |
| Common.Filter | src/app/chat/sidebar.tsx:564-566 | the result is no longer than the input, keeps only elements satisfying the predicate, and keeps every one that does |
| Common.FilterConcat | src/app/chat/sidebar.tsx:564-566 | filtering works piecewise over a concatenation, so it keeps relative order |
| Common.FilterKeepsAll | src/app/chat/sidebar.tsx:564-566 | a filter that keeps every element returns the list unchanged |
| Common.ConcatDropsEmpty | src/app/api/chat/route.ts:41-44 | skipping empty deltas does not change the concatenated text |
| Common.NatToString | src/app/ehr/file.tsx:73 | `${status}` is a non-empty string of decimal digits with no leading zero |
| Common.NatToStringRoundTrip | src/app/ehr/file.tsx:73 | the rendered status reads back as the same number |
| ChatService.DerivedTitle | src/app/chat/chatService.tsx:104-106 | the title is the text when it has at most 30 characters, else its first 30 characters and `...`, so at most 33 characters |
| ChatService.ArrayUnion | src/app/chat/chatService.tsx:102 | the element ends up present, the old array is kept as a prefix, a new element goes last, and an element already present leaves the array unchanged |
| ChatService.ReadChat | src/app/chat/chatService.tsx:49-61 | the record copies id, owner, title and dates; a missing `messages` reads as `[]`; each message keeps text and sender and a missing timestamp reads as now |
| ChatService.EmptyOwnedIds | src/app/chat/chatService.tsx:125-126 | the empty chats picked for cleanup are all owned by the user |
| ChatService.InsertByRecency | src/app/chat/chatService.tsx:44 | inserting into a newest-first list keeps it newest-first and adds exactly the one id |
| ChatService.SortByRecency | src/app/chat/chatService.tsx:44 | `orderBy('updatedAt', 'desc')` yields a newest-first permutation of the ids |
| ChatService.AppendKeepsHistory | src/app/chat/chatService.tsx:92-103 | an append keeps earlier messages in order as a prefix, adds the new one, sets `updatedAt` to now and keeps owner and creation date |
| ChatService.FreshStampAppends | src/app/chat/chatService.tsx:96-102 | once the clock has moved since the last write, the message is appended last |
| ChatService.AppendKeepsValid | src/app/chat/chatService.tsx:98-103 | with a clock that does not go back, an append keeps `createdAt <= updatedAt` and every timestamp at most `updatedAt` |
| ChatService.SameInstantAppendCollapses | src/app/chat/chatService.tsx:102 | the same message added twice at one instant is stored once |
| ChatService.UserMessageRetitles | src/app/chat/chatService.tsx:104-106 | every non-empty user message sets the title to its derived title, of at most 33 characters |
| ChatService.OtherMessagesKeepTitle | src/app/chat/chatService.tsx:104-106 | assistant messages and empty user messages leave the title unchanged |
| ChatService.AssistantFirstKeepsPlaceholder | src/app/chat/chatService.tsx:23-32 | a new chat whose first message is from the assistant keeps "New Chat" and holds exactly that message |
| ChatService.FreshIdExists | src/app/chat/chatService.tsx:25-32 | an id that was never issued always exists, so `addDoc` can always name a new document |
| ChatService.ChatStore.CreateNewChat | src/app/chat/chatService.tsx:23-36 | on success the new id is non-empty, was never issued, and maps to an owned "New Chat" document with no messages and equal dates; on failure nothing changes |
| ChatService.ChatStore.QueryOwned | src/app/chat/chatService.tsx:41-47 | the query yields every chat of the owner exactly once |
| ChatService.ChatStore.GetUserChats | src/app/chat/chatService.tsx:39-67 | the result is `[]` on failure, else exactly the owner's chats, newest first, each read from its document |
| ChatService.ChatStore.GetChat | src/app/chat/chatService.tsx:69-90 | a chat is returned exactly when the read succeeds and the id exists, read from its document; otherwise `null` |
| ChatService.ChatStore.AddMessageToChat | src/app/chat/chatService.tsx:92-112 | it completes exactly when the write succeeds on an existing chat, then only that chat changes, to the appended document; otherwise nothing changes |
| ChatService.ChatStore.DeleteChat | src/app/chat/chatService.tsx:114-121 | it completes exactly when the delete succeeds, and then the chat is gone; only that chat changes |
| ChatService.ChatStore.CleanupEmptyChats | src/app/chat/chatService.tsx:123-137 | a failed listing deletes nothing; otherwise every empty chat of the user whose delete succeeds is removed, nothing else is, it throws exactly when some delete fails, and on completion the user has no empty chat |
| ChatService.CleanupLeavesNoEmpty | src/app/chat/chatService.tsx:125-130 | removing the user's empty chats leaves the user none |
| ChatService.ListingMember | src/app/chat/chatService.tsx:41-62 | each listed chat is the owner's and is read from its document |
| ChatService.ListingCovers | src/app/chat/chatService.tsx:41-62 | each chat of the owner is listed |
| ChatService.EmptiesAreEmptyOwned | src/app/chat/chatService.tsx:125-126 | the chats the cleanup filters out of the listing are exactly the user's empty chats, none when the listing failed |
| InferenceRoute.ModelInput | src/app/api/chat/route.ts:18-25 | the model input is the system prompt, then the history (`[]` when absent), then the user message |
| InferenceRoute.DeltaTexts | src/app/api/chat/route.ts:41 | each delta's text is its content, `''` when absent |
| InferenceRoute.Forward | src/app/api/chat/route.ts:37-52 | the browser receives the non-empty deltas in order, never an empty chunk, with the same text as all deltas, whether or not the iteration throws at its end (the `finally` close is not a separate output) |
| InferenceRoute.Post | src/app/api/chat/route.ts:16-62 | a malformed request or a failed model call gives status 500 with the fixed error; otherwise a 200 stream of the forwarded deltas; the model sees the assembled input |
| InferenceRoute.BrokenStreamIsPrefix | src/app/api/chat/route.ts:39-50 | a stream broken after any number of deltas delivers a prefix of the whole reply |
| ChatWindow.ApiHistory | src/app/chat/chatwindow.tsx:167-170 | the history has one entry per message, with its role and text, in order |
| ChatWindow.LocalMessages | src/app/chat/chatwindow.tsx:222 | a loaded chat shows one message per stored message, with its text and sender, in order |
| ChatWindow.ChatSession.constructor | src/app/chat/chatwindow.tsx:29-53 | the window starts with no messages, empty input and buffer, no chat and every flag false |
| ChatWindow.ChatSession.SetUser | src/app/chat/chatwindow.tsx:27 | the window follows the signed-in user |
| ChatWindow.ChatSession.HandleInputChange | src/app/chat/chatwindow.tsx:127-129 | the input becomes the typed value |
| ChatWindow.ChatSession.CreateNewChat | src/app/chat/chatwindow.tsx:76-107 | a guest gets an empty unsaved chat; a user gets a new stored chat, adopted with an empty transcript, or on failure only the loading flag is cleared; a refresh event follows each reset |
| ChatWindow.ChatSession.ReadReply | src/app/chat/chatwindow.tsx:186-206 | after the loop the buffer and the result are the concatenation of all chunks |
| ChatWindow.ChatSession.SaveUserTurn | src/app/chat/chatwindow.tsx:152-165 | the store part of a send: creates a chat when none is current and stores the user message, as `StoreUserTurn` |
| ChatWindow.ChatSession.ConcludeReply | src/app/chat/chatwindow.tsx:188-201 | on stream end the reply is stored (when signed in) and then shown, as `Answer` |
| ChatWindow.ChatSession.PostAndFinish | src/app/chat/chatwindow.tsx:167-210 | the request is posted, the reply read and the send concluded or aborted, as `Posted` |
| ChatWindow.ChatSession.Dispatch | src/app/chat/chatwindow.tsx:152-210 | the `try` block of a send, as `Dispatched`; it creates a chat exactly for a signed-in user with no current chat whose creation succeeds, and that chat's id is non-empty and never issued |
| ChatWindow.ChatSession.HandleSendMessage | src/app/chat/chatwindow.tsx:137-211 | the new state is `Send` of the old one, the store stays well formed, and a chat is created exactly when a non-ignored send by a signed-in user with no current chat has a successful creation, always under a non-empty, never-issued id |
| ChatWindow.ChatSession.LoadChat | src/app/chat/chatwindow.tsx:214-235 | a guest's call does nothing; otherwise the stored chat's messages and id are adopted, or when it cannot be read the window is left empty with `isLoadingNewChat` raised |
| ChatWindow.AfterReplyEffect | src/app/chat/chatwindow.tsx:178-210 | after the request: the assistant message is shown and stored exactly when the reply completes, and the buffer holds the partial text otherwise |
| ChatWindow.StoreUserTurnEffect | src/app/chat/chatwindow.tsx:153-165 | the store part of a send, field by field: chat creation, the user append and the refresh events |
| ChatWindow.SendUnfold | src/app/chat/chatwindow.tsx:137-211 | a send past the guard stops when the user message is not stored, and otherwise posts and handles the reply |
| ChatWindow.SendWindowEffect | src/app/chat/chatwindow.tsx:137-211 | the window after a send: input cleared, flags down, transcript with the user turn and the reply exactly when answered, buffer, posted requests, current chat and refresh events |
| ChatWindow.SendCreatesChat | src/app/chat/chatwindow.tsx:153-193 | a first send of a signed-in user creates the chat under a new id and writes the user message and the reply into it as far as the writes succeed |
| ChatWindow.SendIntoCurrentChat | src/app/chat/chatwindow.tsx:153-193 | a send into the current chat changes only that chat: the user message, then the reply when the send is answered |
| ChatWindow.GuardAndGuest | src/app/chat/chatwindow.tsx:138-153 | a blank input or a send in flight changes nothing; a guest's send never touches the store, the current chat or the refresh events |
| ChatWindow.SendKeepsStoreValid | src/app/chat/chatwindow.tsx:137-211 | a send keeps every stored id issued and every document well formed |
| ChatWindow.HistoryMirrorsTranscript | src/app/chat/chatwindow.tsx:167-175 | the posted history is the transcript before the send and then the user message, entry by entry |
| ChatWindow.UserTurnReachesModelTwice | src/app/chat/chatwindow.tsx:167-175 | the model input ends with the trimmed user text twice |
| ChatWindow.FirstSendHidesUserMessage | src/app/chat/chatwindow.tsx:143-200 | a successful first send shows only the reply, while the stored chat read back holds the user message and then the reply |
| Sidebar.DisplayChatsExactly | src/app/chat/sidebar.tsx:564-566 | a chat is displayed exactly when it is listed and has a message or is the current chat |
| Sidebar.DisplayChatsKeepsOrder | src/app/chat/sidebar.tsx:564-566 | the display keeps the list's order |
| Sidebar.NoEmptyChatAllShown | src/app/chat/sidebar.tsx:564-566 | a list with no empty chat is displayed whole |
| Sidebar.VisibleAndMore | src/app/chat/sidebar.tsx:619-649 | the first min(15, n) display chats are rendered, and the "more" entry appears exactly past 15 and counts the others |
| Sidebar.RemoveChatSpec | src/app/chat/sidebar.tsx:543 | removing a chat keeps exactly the chats with other ids, in order |
| Sidebar.ListingAfterCleanup | src/app/chat/sidebar.tsx:421-425 | a listing taken when the user has no empty chat holds no empty chat |
| Sidebar.ChatList.constructor | src/app/chat/sidebar.tsx:403-414 | the menu starts with no chats, no current chat, the dialog closed and nothing loading or deleting |
| Sidebar.ChatList.LoadChats | src/app/chat/sidebar.tsx:416-437 | on sign-in the empty chats are cleaned up and the list is the fresh newest-first listing (`[]` when it fails), listed even when the cleanup throws; after a full cleanup every listed chat is displayed |
| Sidebar.ChatList.HandleRefresh | src/app/chat/sidebar.tsx:441-452 | a refresh replaces the list with a fresh listing, `[]` when it fails, and ends not loading |
| Sidebar.ChatList.HandleChatClick | src/app/chat/sidebar.tsx:519-522 | the window is asked to load the chat and it becomes current |
| Sidebar.ChatList.HandleNewChat | src/app/chat/sidebar.tsx:510-513 | the window is asked for a new chat |
| Sidebar.ChatList.HandleMessageCountUpdate | src/app/chat/sidebar.tsx:458-460 | the menu records the window's message count |
| Sidebar.ChatList.HandleCurrentChatUpdate | src/app/chat/sidebar.tsx:463-465 | the menu records the announced current chat |
| Sidebar.ChatList.HandleDeleteClick | src/app/chat/sidebar.tsx:524-528 | the dialog opens for the chosen chat |
| Sidebar.ChatList.HandleCloseDeleteDialog | src/app/chat/sidebar.tsx:530-533 | the dialog closes and forgets the chat |
| Sidebar.ChatList.HandleDeleteConfirm | src/app/chat/sidebar.tsx:535-561 | ignored without a chosen chat, during a delete or for a guest; otherwise the dialog ends closed and, exactly when the delete succeeds, the chat leaves store and list, a new chat is requested if it was current, and a refresh is announced |
| Sidebar.StepKeepsValid | src/app/chat/sidebar.tsx:84-109 | no handler leaves a close pending on a pinned sidebar |
| Sidebar.LeaveThenTimerCloses | src/app/chat/sidebar.tsx:84-97 | an unpinned sidebar left by the mouse closes when the timer fires, unless the mouse returns first |
| Sidebar.PinnedStaysOpen | src/app/chat/sidebar.tsx:84-109 | a pinned open sidebar stays pinned and open through any events that do not unpin it |
| Sidebar.HoverSidebar.constructor | src/app/chat/sidebar.tsx:53-54 | the sidebar starts closed and unpinned |
| Sidebar.HoverSidebar.HandleMouseEnter | src/app/chat/sidebar.tsx:84-91 | entering cancels the pending close and opens an unpinned sidebar |
| Sidebar.HoverSidebar.HandleMouseLeave | src/app/chat/sidebar.tsx:93-97 | leaving an unpinned sidebar schedules its close |
| Sidebar.HoverSidebar.HandlePinToggle | src/app/chat/sidebar.tsx:99-109 | unpinning leaves the sidebar as it is; pinning opens it and cancels the pending close |
| Sidebar.HoverSidebar.HandleTimer | src/app/chat/sidebar.tsx:95 | the scheduled close closes the sidebar |
| EhrContext.EhrCell.constructor | src/app/contexts/EhrContext.tsx:14 | the summary starts as `null` |
| EhrContext.EhrCell.SetEhrSummary | src/app/contexts/EhrContext.tsx:16-18 | the held summary becomes the given one |
| EhrContext.EhrCell.ConsumeEhrSummary | src/app/contexts/EhrContext.tsx:20-24 | returns the summary held before the call and leaves `null` |
| EhrContext.UseEhr | src/app/contexts/EhrContext.tsx:33-39 | the provider's cell when there is one, else the error "useEhr must be used within an EhrProvider" |
| EhrUpload.Settle | src/app/ehr/file.tsx:65-81 | the upload succeeds exactly on an ok JSON answer, with its `response`; a non-ok JSON answer reports its non-empty `error` or "HTTP error! status: N"; a body that is not JSON reports the parser's error; a rejected fetch reports its message |
| EhrUpload.ErrorText | src/app/ehr/file.tsx:81 | the shown error is never empty: the message, or "Failed to process file." when it has none |
| EhrUpload.HttpErrorNamesStatus | src/app/ehr/file.tsx:73 | the HTTP error message is the fixed prefix followed by the digits of the status |
| EhrUpload.FileUpload.constructor | src/app/ehr/file.tsx:25-28 | the box starts with no files, not processing, and no result or error |
| EhrUpload.FileUpload.StartUpload | src/app/ehr/file.tsx:56-69 | starting an upload sets `processing` and clears the result, the error and the shared summary |
| EhrUpload.FileUpload.SettleUpload | src/app/ehr/file.tsx:71-84 | on success the result and the shared summary become the `response`; on failure the error is set and the rest kept; `processing` ends false |
| EhrUpload.FileUpload.HandleFileUpload | src/app/ehr/file.tsx:56-85 | after an upload, result and summary are the `response` and there is no error on success; there is an error and no result or summary on failure; never still processing |
| EhrUpload.FileUpload.HandleFileChange | src/app/ehr/file.tsx:35-50 | the new files go after the old ones, `onChange` hears of them, and only the first new file is uploaded; an empty selection starts nothing |

## Left out

- Firestore, Firebase Auth, the OpenAI client and `fetch` are oracles. Each call takes whether it succeeds, and the reply or stream it yields. Wire formats, security rules and query indexes are not modelled.
- `Timestamp.now()` is the store's natural-number clock. It moves only through `ChatStore.Tick`, so two writes in one handler share an instant. Dates are not converted.
- Document ids are chosen fresh with respect to every id the store has issued, and are never empty, as Firestore's auto-generated ids are not. Their format is not modelled. Because of this, the source's truthiness tests on ids (`if (newId)` and `!activeChatId` in chatwindow.tsx, `!chatToDelete` in sidebar.tsx) are modelled as `Option` checks.
- `SortByRecency` and `IsRecencyListing`: Firestore breaks ties in `updatedAt` by document id. The model orders only by `updatedAt` and does not fix the order of chats with equal `updatedAt`.
- `TextDecoder`/`TextEncoder` are not modelled: stream chunks are strings.
- String lengths count Dafny characters, not UTF-16 code units. `slice(0, 30)` on text with astral characters can differ.
- Concurrency is modelled as a sequence of steps:
  - the `Promise.all` in `cleanupEmptyChats`;
  - React's batched `setState`;
  - overlapping sends, loads or uploads;
  - stale closures over earlier renders (for example, two `consumeEhrSummary` calls in one render).
- `Sidebar.HoverSidebar`: `pendingClose` stands for the one timer `hoverRef` holds. Two leaves without an enter in between start two timers, and only the later one can be cancelled. The model does not capture the earlier one still closing the sidebar.
- The sidebar's `open`/`setOpen` props, which can override the provider's own state, are not modelled.
- `window.cleanupEmptyChats` (sidebar.tsx:482-496) is not modelled. It runs the cleanup, then lists the chats and dispatches a refresh event. Unlike `LoadChats`, it never sets `loading`, and when the cleanup throws it only logs the error: it does not list again.
- The sidebar's consultations navigation is not modelled.
- Rendering is not modelled:
  - JSX and animation;
  - scrolling (`scrollIntoView`, chatwindow.tsx:120-124, file.tsx:44-49);
  - the input height;
  - the delete dialog in chatwindow.tsx:384-410, whose buttons have no handlers;
  - `GridPattern`.
- The global `window.loadChat`/`window.createNewChat` registration, the `messageCountUpdate` effect of the window and the `refreshChatList` listener wiring are not modelled. They appear as the commands and counters described above.
- The server's `result.response` is taken to be a string or absent. A value of another JSON type is not modelled, and neither is an `error` field that is not a string.
