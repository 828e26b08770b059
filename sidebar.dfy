/**
  The chat sidebar: the chat list of `SidebarMenu` (which chats are shown,
  the delete dialog, loading and refreshing the list) and the open/close
  machine of `DesktopSidebar` (hover and pin). Calls the sidebar makes into
  the chat window (`window.loadChat`, `window.createNewChat`) and the
  `refreshChatList` events it dispatches are recorded as commands.
 */
module Sidebar {
  import opened Common
  import opened ChatService

  // -----------------------------------------------------------------------
  // Which chats are shown
  // -----------------------------------------------------------------------

  /** A chat is listed when it has a message or is the current chat. */
  predicate Listed(c: Chat, current: Option<string>) {
    |c.messages| > 0 || current == Some(c.id)
  }

  /** `displayChats`. */
  function DisplayChats(chats: seq<Chat>, current: Option<string>): seq<Chat> {
    Filter(chats, c => Listed(c, current))
  }

  /** The number of chats rendered (`slice(0, 15)`). */
  const VisibleLimit := 15

  /** `displayChats.slice(0, 15)`. */
  function Visible(display: seq<Chat>): seq<Chat> {
    if |display| <= VisibleLimit then display else display[..VisibleLimit]
  }

  /** The "N more chats" entry: present only past the limit, with the
      number of chats left out. */
  function MoreChats(display: seq<Chat>): Option<nat> {
    if |display| > VisibleLimit then Some(|display| - VisibleLimit) else None
  }

  /** `displayChats` holds exactly the shown chats of the list. */
  lemma DisplayChatsExactly(chats: seq<Chat>, current: Option<string>, c: Chat)
    ensures c in DisplayChats(chats, current) <==> c in chats && Listed(c, current)
  {
    var p := (x: Chat) => Listed(x, current);
    if c in chats && Listed(c, current) {
      var i :| 0 <= i < |chats| && chats[i] == c;
      assert p(chats[i]);
    }
    if c in DisplayChats(chats, current) {
      var r := DisplayChats(chats, current);
      var i :| 0 <= i < |r| && r[i] == c;
      assert p(r[i]);
    }
  }

  /** `displayChats` keeps the list's order: the display of a list split in
      two is the display of the first part followed by that of the second. */
  lemma DisplayChatsKeepsOrder(a: seq<Chat>, b: seq<Chat>, current: Option<string>)
    ensures DisplayChats(a + b, current) == DisplayChats(a, current) + DisplayChats(b, current)
  {
    FilterConcat(a, b, c => Listed(c, current));
  }

  /** A list with no empty chat is displayed whole. */
  lemma NoEmptyChatAllShown(chats: seq<Chat>, current: Option<string>)
    requires forall i :: 0 <= i < |chats| ==> |chats[i].messages| > 0
    ensures DisplayChats(chats, current) == chats
  {
    FilterKeepsAll(chats, c => Listed(c, current));
  }

  /** The rendered list is the first min(15, n) display chats, and the
      overflow entry counts exactly the others. */
  lemma VisibleAndMore(display: seq<Chat>)
    ensures |Visible(display)| == if |display| < VisibleLimit then |display| else VisibleLimit
    ensures Visible(display) == display[..|Visible(display)|]
    ensures MoreChats(display).Some? <==> |display| > VisibleLimit
    ensures MoreChats(display).Some? ==> |Visible(display)| + MoreChats(display).value == |display|
    ensures MoreChats(display).None? ==> Visible(display) == display
  {
  }

  /** `chats.filter(chat => chat.id !== id)`. */
  function RemoveChat(chats: seq<Chat>, id: string): seq<Chat> {
    Filter(chats, (c: Chat) => c.id != id)
  }

  /** After removal no chat has the id, every other chat stays, and the
      order is kept. */
  lemma RemoveChatSpec(chats: seq<Chat>, id: string, c: Chat)
    ensures c in RemoveChat(chats, id) <==> c in chats && c.id != id
    ensures forall a, b :: RemoveChat(a + b, id) == RemoveChat(a, id) + RemoveChat(b, id)
  {
    var p := (x: Chat) => x.id != id;
    if c in chats && c.id != id {
      var i :| 0 <= i < |chats| && chats[i] == c;
      assert p(chats[i]);
    }
    if c in RemoveChat(chats, id) {
      var r := RemoveChat(chats, id);
      var i :| 0 <= i < |r| && r[i] == c;
      assert p(r[i]);
    }
    forall a, b ensures RemoveChat(a + b, id) == RemoveChat(a, id) + RemoveChat(b, id) {
      FilterConcat(a, b, p);
    }
  }

  /** A listing taken when the owner has no empty chat has no empty chat. */
  lemma ListingAfterCleanup(listing: seq<Chat>, docs: map<string, ChatDoc>, uid: string, now: nat)
    requires IsRecencyListing(listing, docs, uid, now) && EmptyOwnedIds(docs, uid) == {}
    ensures forall i :: 0 <= i < |listing| ==> |listing[i].messages| > 0
  {
    forall i | 0 <= i < |listing|
      ensures |listing[i].messages| > 0
    {
      ListingMember(listing, docs, uid, now, i);
      var id := listing[i].id;
      assert id !in EmptyOwnedIds(docs, uid);
      assert StoredMessages(docs[id]) != [];
    }
  }

  // -----------------------------------------------------------------------
  // The chat list
  // -----------------------------------------------------------------------

  /** What the sidebar asks of the chat window and of other listeners. */
  datatype Command =
    | LoadChatCommand(chatId: string)  // window.loadChat(chatId)
    | CreateNewChatCommand             // window.createNewChat()
    | RefreshChatListEvent             // dispatchEvent(new CustomEvent('refreshChatList'))

  /** Whether `handleDeleteConfirm` returns at once. */
  predicate DeleteIgnored(chatToDelete: Option<string>, isDeleting: bool, user: Option<string>) {
    chatToDelete.None? || isDeleting || user.None?
  }

  /** The state of `SidebarMenu`. */
  class ChatList {
    const store: ChatStore
    var user: Option<string>
    var chats: seq<Chat>
    var loading: bool
    var currentMessages: nat
    var currentChatId: Option<string>
    var isDeleteDialogOpen: bool
    var chatToDelete: Option<string>
    var isDeleting: bool
    var commands: seq<Command>

    ghost predicate Valid()
      reads store
    {
      store.Valid()
    }

    constructor (store: ChatStore, user: Option<string>)
      requires store.Valid()
      ensures Valid() && this.store == store && this.user == user
      ensures chats == [] && !loading && currentMessages == 0 && currentChatId == None
      ensures !isDeleteDialogOpen && chatToDelete == None && !isDeleting && commands == []
    {
      this.store := store;
      this.user := user;
      chats, loading, currentMessages, currentChatId := [], false, 0, None;
      isDeleteDialogOpen, chatToDelete, isDeleting, commands := false, None, false, [];
    }

    /** `loadChats`, run when the user signs in: clean up the empty chats,
        then list; when the cleanup throws, list anyway. The listing fails
        soft to `[]`. */
    method LoadChats(cleanupListOk: bool, failing: set<string>, listOk: bool)
      requires Valid()
      modifies this`chats, this`loading, store`docs
      ensures Valid()
      ensures user.None? ==> chats == old(chats) && loading == old(loading) && store.docs == old(store.docs)
      ensures user.Some? ==>
                && !loading
                && store.docs == (if cleanupListOk then old(store.docs) - (EmptyOwnedIds(old(store.docs), user.value) - failing)
                                  else old(store.docs))
                && (listOk ==> IsRecencyListing(chats, store.docs, user.value, store.clock))
                && (!listOk ==> chats == [])
      ensures user.Some? && cleanupListOk && listOk && EmptyOwnedIds(old(store.docs), user.value) * failing == {} ==>
                DisplayChats(chats, currentChatId) == chats
    {
      if user.None? {
        return;
      }
      loading := true;
      var res := store.CleanupEmptyChats(user.value, cleanupListOk, failing);
      if res == Done {
        chats := store.GetUserChats(user.value, listOk);
      } else {
        // the `catch`: fall back to listing without cleanup
        chats := store.GetUserChats(user.value, listOk);
      }
      if res == Done && cleanupListOk && listOk {
        ListingAfterCleanup(chats, store.docs, user.value, store.clock);
        NoEmptyChatAllShown(chats, currentChatId);
      }
      loading := false;
    }

    /** `handleRefreshChatList`: replace the list with a fresh listing. */
    method HandleRefresh(listOk: bool)
      requires Valid()
      modifies this`chats, this`loading
      ensures Valid()
      ensures user.None? ==> chats == old(chats) && loading == old(loading)
      ensures user.Some? ==> !loading
      ensures user.Some? && listOk ==> IsRecencyListing(chats, store.docs, user.value, store.clock)
      ensures user.Some? && !listOk ==> chats == []
    {
      if user.None? {
        return;
      }
      loading := true;
      chats := store.GetUserChats(user.value, listOk);
      loading := false;
    }

    /** `handleChatClick`: ask the window to load the chat and mark it current. */
    method HandleChatClick(chatId: string)
      modifies this`commands, this`currentChatId
      ensures commands == old(commands) + [LoadChatCommand(chatId)]
      ensures currentChatId == Some(chatId)
    {
      commands := commands + [LoadChatCommand(chatId)];
      currentChatId := Some(chatId);
    }

    /** `handleNewChat`. */
    method HandleNewChat()
      modifies this`commands
      ensures commands == old(commands) + [CreateNewChatCommand]
    {
      commands := commands + [CreateNewChatCommand];
    }

    /** The `messageCountUpdate` listener. */
    method HandleMessageCountUpdate(count: nat)
      modifies this`currentMessages
      ensures currentMessages == count
    {
      currentMessages := count;
    }

    /** The `currentChatUpdate` listener. */
    method HandleCurrentChatUpdate(chatId: Option<string>)
      modifies this`currentChatId
      ensures currentChatId == chatId
    {
      currentChatId := chatId;
    }

    /** `handleDeleteClick` (and `window.deleteChat`): open the dialog for the chat. */
    method HandleDeleteClick(chatId: string)
      modifies this`chatToDelete, this`isDeleteDialogOpen
      ensures chatToDelete == Some(chatId) && isDeleteDialogOpen
    {
      chatToDelete := Some(chatId);
      isDeleteDialogOpen := true;
    }

    /** `handleCloseDeleteDialog`. */
    method HandleCloseDeleteDialog()
      modifies this`chatToDelete, this`isDeleteDialogOpen
      ensures chatToDelete == None && !isDeleteDialogOpen
    {
      isDeleteDialogOpen := false;
      chatToDelete := None;
    }

    /** `handleDeleteConfirm`: delete the chosen chat; on success drop it
        from the list, start a new chat when it was the current one, and
        tell the listeners. The dialog closes whatever happens. */
    method HandleDeleteConfirm(deleteOk: bool)
      requires Valid()
      modifies this`chats, this`isDeleting, this`isDeleteDialogOpen, this`chatToDelete, this`commands
      modifies store`docs
      ensures Valid()
      ensures DeleteIgnored(old(chatToDelete), old(isDeleting), user) ==>
                && chats == old(chats) && isDeleting == old(isDeleting)
                && isDeleteDialogOpen == old(isDeleteDialogOpen) && chatToDelete == old(chatToDelete)
                && commands == old(commands) && store.docs == old(store.docs)
      ensures !DeleteIgnored(old(chatToDelete), old(isDeleting), user) ==>
                var id := old(chatToDelete).value;
                && !isDeleting && !isDeleteDialogOpen && chatToDelete == None
                && store.docs == (if deleteOk then old(store.docs) - {id} else old(store.docs))
                && chats == (if deleteOk then RemoveChat(old(chats), id) else old(chats))
                && commands == old(commands)
                   + (if deleteOk
                      then (if currentChatId == Some(id) then [CreateNewChatCommand] else []) + [RefreshChatListEvent]
                      else [])
    {
      if chatToDelete.None? || isDeleting || user.None? {
        return;
      }
      var id := chatToDelete.value;
      isDeleting := true;
      var res := store.DeleteChat(id, deleteOk);
      if res == Done {
        chats := RemoveChat(chats, id);
        if currentChatId == Some(id) {
          commands := commands + [CreateNewChatCommand];
        }
        commands := commands + [RefreshChatListEvent];
      }
      isDeleting, isDeleteDialogOpen, chatToDelete := false, false, None;
    }
  }

  // -----------------------------------------------------------------------
  // Opening and closing on hover
  // -----------------------------------------------------------------------

  /** The hover/pin state; `pendingClose` stands for the 300 ms timer held in
      `hoverRef` that will close the sidebar. */
  datatype HoverState = HoverState(open: bool, isPinned: bool, pendingClose: bool)

  datatype HoverEvent = MouseEnter | MouseLeave | PinToggle | TimerFires

  /** One handler run. */
  function Step(s: HoverState, e: HoverEvent): HoverState {
    match e
    case MouseEnter => s.(pendingClose := false, open := if s.isPinned then s.open else true)
    case MouseLeave => if s.isPinned then s else s.(pendingClose := true)
    case PinToggle =>
      if s.isPinned then s.(isPinned := false) else HoverState(true, true, false)
    case TimerFires => if s.pendingClose then s.(open := false, pendingClose := false) else s
  }

  /** The handlers run in order. */
  function Run(s: HoverState, es: seq<HoverEvent>): HoverState
    decreases |es|
  {
    if es == [] then s else Run(Step(s, es[0]), es[1..])
  }

  /** A pinned sidebar never has a close pending. */
  predicate HoverValid(s: HoverState) {
    s.isPinned ==> !s.pendingClose
  }

  /** Every handler keeps `HoverValid`. */
  lemma StepKeepsValid(s: HoverState, e: HoverEvent)
    requires HoverValid(s)
    ensures HoverValid(Step(s, e))
  {
  }

  /** An unpinned sidebar left by the mouse closes when the timer fires,
      unless the mouse comes back first. */
  lemma LeaveThenTimerCloses(s: HoverState)
    requires !s.isPinned
    ensures !Run(s, [MouseLeave, TimerFires]).open
    ensures Run(s, [MouseLeave, MouseEnter, TimerFires]).open
  {
    assert [MouseLeave, TimerFires][1..] == [TimerFires];
    assert [MouseLeave, MouseEnter, TimerFires][1..] == [MouseEnter, TimerFires];
    assert [MouseEnter, TimerFires][1..] == [TimerFires];
  }

  /** A pinned, open sidebar stays pinned and open through any run of
      handlers that does not unpin it. */
  lemma {:induction false} PinnedStaysOpen(s: HoverState, es: seq<HoverEvent>)
    requires HoverValid(s) && s.isPinned && s.open
    requires forall i :: 0 <= i < |es| ==> es[i] != PinToggle
    ensures Run(s, es).isPinned && Run(s, es).open
    decreases |es|
  {
    if es != [] {
      PinnedStaysOpen(Step(s, es[0]), es[1..]);
    }
  }

  /** `DesktopSidebar` with the provider's `open` and `isPinned`. */
  class HoverSidebar {
    var open: bool
    var isPinned: bool
    var pendingClose: bool

    function State(): HoverState
      reads this
    {
      HoverState(open, isPinned, pendingClose)
    }

    /** Both flags start false. */
    constructor ()
      ensures State() == HoverState(false, false, false)
    {
      open, isPinned, pendingClose := false, false, false;
    }

    /** `handleMouseEnter`. */
    method HandleMouseEnter()
      modifies this
      ensures State() == Step(old(State()), MouseEnter)
    {
      pendingClose := false;
      if !isPinned {
        open := true;
      }
    }

    /** `handleMouseLeave`. */
    method HandleMouseLeave()
      modifies this
      ensures State() == Step(old(State()), MouseLeave)
    {
      if !isPinned {
        pendingClose := true;
      }
    }

    /** `handlePinToggle`. */
    method HandlePinToggle()
      modifies this
      ensures State() == Step(old(State()), PinToggle)
    {
      if isPinned {
        isPinned := false;
      } else {
        isPinned := true;
        open := true;
        pendingClose := false;
      }
    }

    /** The close timer's callback, `setOpen(false)`. */
    method HandleTimer()
      modifies this
      ensures State() == Step(old(State()), HoverEvent.TimerFires)
    {
      if pendingClose {
        open, pendingClose := false, false;
      }
    }
  }
}
