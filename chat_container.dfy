/**
 * The conversation view (frontend/src/components/ChatContainer.jsx): the list
 * of messages picked for deletion by a long press, the press timer, the
 * delete action, the effect that loads a conversation and subscribes to its
 * pushes, and the side on which each message is drawn.
 *
 * Timers are explicit: pressing schedules a timer under a fresh id and stores
 * that id in the `pressTimer` ref; `TimerFires(t)` is the moment timer `t`
 * runs; clearing removes the timer the ref names. Overwriting the ref does not
 * cancel the timer it named before, exactly as with `setTimeout`.
 */
module ChatContainerState {
  import opened ChatTypes
  import opened SeqFilter
  import opened ChatStore

  type TimerId = nat

  datatype SelectionState = SelectionState(
    selected: seq<Message>,
    pressTimer: Option<TimerId>,
    scheduled: map<TimerId, Message>,
    nextTimer: TimerId)

  /** Every scheduled timer, and the one the ref names, was issued before `nextTimer`. */
  ghost predicate TimersIssued(s: SelectionState)
  {
    && (forall t :: t in s.scheduled ==> t < s.nextTimer)
    && (s.pressTimer.Some? ==> s.pressTimer.value < s.nextTimer)
  }

  /** `prev.filter((m) => m !== message)`. */
  function RemoveEqual(sel: seq<Message>, m: Message): seq<Message>
  {
    Filter((x: Message) => x != m, sel)
  }

  /**
   * `handleMouseDown(message)`: a selected message is removed at once and no
   * timer is scheduled; an unselected one schedules a timer that will append it.
   */
  function MouseDown(s: SelectionState, m: Message): SelectionState
  {
    if m in s.selected then s.(selected := RemoveEqual(s.selected, m))
    else s.(pressTimer := Some(s.nextTimer), scheduled := s.scheduled[s.nextTimer := m], nextTimer := s.nextTimer + 1)
  }

  /** `clearTimeout(pressTimer.current)`, shared by mouse-up and mouse-leave; the ref keeps its value. */
  function ClearPressTimer(s: SelectionState): SelectionState
  {
    if s.pressTimer.Some? then s.(scheduled := s.scheduled - {s.pressTimer.value}) else s
  }

  /** Timer `t` runs, if it is still scheduled: its message is appended to the selection. */
  function Fire(s: SelectionState, t: TimerId): SelectionState
  {
    if t in s.scheduled then s.(selected := s.selected + [s.scheduled[t]], scheduled := s.scheduled - {t})
    else s
  }

  /** Every transition keeps the timer bookkeeping consistent. */
  lemma TransitionsKeepTimersIssued(s: SelectionState, m: Message, t: TimerId)
    requires TimersIssued(s)
    ensures TimersIssued(MouseDown(s, m))
    ensures TimersIssued(ClearPressTimer(s))
    ensures TimersIssued(Fire(s, t))
    ensures TimersIssued(s.(selected := []))
  {
  }

  /**
   * Pressing a selected message removes every copy of it, keeps every other
   * element with its multiplicity, and schedules nothing.
   */
  lemma PressOnSelectedRemoves(s: SelectionState, m: Message)
    requires m in s.selected
    ensures m !in MouseDown(s, m).selected
    ensures forall x :: x != m ==> multiset(MouseDown(s, m).selected)[x] == multiset(s.selected)[x]
    ensures MouseDown(s, m).scheduled == s.scheduled && MouseDown(s, m).pressTimer == s.pressTimer
  {
    var keep := (x: Message) => x != m;
    FilterMembership(keep, s.selected, m);
    FilterMultiset(keep, s.selected);
  }

  /**
   * Pressing an unselected message leaves the selection as it is until its
   * timer fires, which appends the message at the end.
   */
  lemma HeldPressSelects(s: SelectionState, m: Message)
    requires TimersIssued(s)
    requires m !in s.selected
    ensures MouseDown(s, m).selected == s.selected
    ensures MouseDown(s, m).pressTimer == Some(s.nextTimer)
    ensures Fire(MouseDown(s, m), s.nextTimer).selected == s.selected + [m]
  {
  }

  /**
   * A press released (mouse-up or mouse-leave) before its timer fires never
   * changes the selection: the selection is as before the press, and the
   * press's timer, when its moment comes, does nothing.
   */
  lemma CancelledPressNeverSelects(s: SelectionState, m: Message)
    requires TimersIssued(s)
    requires m !in s.selected
    ensures ClearPressTimer(MouseDown(s, m)).selected == s.selected
    ensures s.nextTimer !in ClearPressTimer(MouseDown(s, m)).scheduled
    ensures Fire(ClearPressTimer(MouseDown(s, m)), s.nextTimer) == ClearPressTimer(MouseDown(s, m))
  {
    var s1 := MouseDown(s, m);
    assert s1.scheduled.Keys == s.scheduled.Keys + {s.nextTimer};
  }

  /** Where a message bubble is drawn. */
  datatype Side = ChatEnd | ChatStart

  /** A bubble is drawn on the own side exactly when its sender is the signed-in user. */
  function BubbleSide(m: Message, authUserId: UserId): (side: Side)
    ensures side == ChatEnd <==> m.senderId == authUserId
  {
    if m.senderId == authUserId then ChatEnd else ChatStart
  }

  /**
   * A message appended by the push handler of a conversation with someone
   * other than the signed-in user is always drawn on the counterpart's side.
   */
  lemma {:induction false} PushedMessagesAreIncoming(listeners: seq<UserId>, authUserId: UserId, ms: seq<Message>, m: Message)
    requires authUserId !in listeners
    ensures forall x :: x in DeliverNewMessage(listeners, ms, m) && x !in ms ==> BubbleSide(x, authUserId) == ChatStart
  {
    DeliverNewMessageAppends(listeners, ms, m);
    if CountMatching(listeners, m.senderId) > 0 {
      assert m.senderId in listeners;
    }
  }

  class ChatContainer {
    var selectedMessages: seq<Message>
    var pressTimer: Option<TimerId>
    var scheduled: map<TimerId, Message>
    var nextTimer: TimerId
    const store: Store

    function State(): SelectionState
      reads this
    {
      SelectionState(selectedMessages, pressTimer, scheduled, nextTimer)
    }

    ghost predicate Valid()
      reads this
    {
      TimersIssued(State())
    }

    /** A freshly mounted view: nothing selected, no timer. */
    constructor (store: Store)
      ensures Valid() && this.store == store
      ensures State() == SelectionState([], None, map[], 0)
    {
      selectedMessages := [];
      pressTimer := None;
      scheduled := map[];
      nextTimer := 0;
      this.store := store;
    }

    /** `handleMouseDown(message)`. */
    method HandleMouseDown(message: Message)
      requires Valid()
      modifies this
      ensures Valid() && State() == MouseDown(old(State()), message)
    {
      if message in selectedMessages {
        selectedMessages := RemoveEqual(selectedMessages, message);
        return;
      }
      var t := nextTimer;
      nextTimer := nextTimer + 1;
      scheduled := scheduled[t := message];
      pressTimer := Some(t);
    }

    /** `handleMouseUp`. */
    method HandleMouseUp()
      requires Valid()
      modifies this
      ensures Valid() && State() == ClearPressTimer(old(State()))
    {
      if pressTimer.Some? {
        scheduled := scheduled - {pressTimer.value};
      }
    }

    /** `handleMouseLeave`: the same as mouse-up. */
    method HandleMouseLeave()
      requires Valid()
      modifies this
      ensures Valid() && State() == ClearPressTimer(old(State()))
    {
      HandleMouseUp();
    }

    /** The press timer `t` runs: `setSelectedMessages((prev) => [...prev, message])`. */
    method TimerFires(t: TimerId)
      requires Valid()
      modifies this
      ensures Valid() && State() == Fire(old(State()), t)
    {
      if t in scheduled {
        var message := scheduled[t];
        scheduled := scheduled - {t};
        selectedMessages := selectedMessages + [message];
      }
    }

    /**
     * The delete button, which is only rendered while the history is not
     * loading (the view then shows a skeleton instead) and the selection is
     * not empty: the selection goes to the store's `deleteMessage` and is then
     * emptied, whatever the store's request comes to.
     */
    method HandleDeleteClick(outcome: HttpOutcome<()>) returns (error: Option<string>)
      requires Valid()
      requires !store.isMessagesLoading
      requires |selectedMessages| > 0
      modifies this, store
      ensures Valid() && State() == old(State()).(selected := [])
      ensures store.users == old(store.users) && store.selectedUser == old(store.selectedUser)
      ensures store.isUsersLoading == old(store.isUsersLoading) && store.isMessagesLoading == old(store.isMessagesLoading)
      ensures old(store.selectedUser).Some? && outcome.Success? ==>
                store.messages == WithoutIds(old(store.messages), IdsOf(old(selectedMessages)))
      ensures !(old(store.selectedUser).Some? && outcome.Success?) ==> store.messages == old(store.messages)
      ensures error == if old(store.selectedUser).Some? && !outcome.Success? then Some(DeleteFailure) else None
    {
      error := store.DeleteMessage(selectedMessages, outcome);
      selectedMessages := [];
    }

    /**
     * The first run of the effect keyed on the selected counterpart, on mount:
     * the counterpart's history is fetched and the store subscribes. No
     * cleanup precedes it, so the handlers go after whatever the socket
     * already holds.
     */
    method ConversationEffect(outcome: HttpOutcome<seq<Message>>)
      requires store.selectedUser.Some?
      modifies store, store.socket
      ensures store.messages == if outcome.Success? then outcome.payload else old(store.messages)
      ensures !store.isMessagesLoading
      ensures store.selectedUser == old(store.selectedUser) && store.users == old(store.users)
      ensures store.isUsersLoading == old(store.isUsersLoading)
      ensures store.socket.newMessageHandlers == old(store.socket.newMessageHandlers) + [store.selectedUser.value.id]
      ensures store.socket.messageDeletedHandlers == old(store.socket.messageDeletedHandlers) + 1
    {
      var _ := store.GetMessages(store.selectedUser.value.id, outcome);
      store.SubscribeToMessages();
    }

    /**
     * A later run of the same effect, after the counterpart changed: the
     * previous run's cleanup unsubscribes, then the effect runs again.
     * Afterwards exactly one `newMessage` handler, capturing the current
     * counterpart, and one `messageDeleted` handler are attached, whatever
     * the socket held before, so pushes are never applied twice.
     */
    method ConversationEffectRerun(outcome: HttpOutcome<seq<Message>>)
      requires store.selectedUser.Some?
      modifies store, store.socket
      ensures store.messages == if outcome.Success? then outcome.payload else old(store.messages)
      ensures !store.isMessagesLoading
      ensures store.selectedUser == old(store.selectedUser) && store.users == old(store.users)
      ensures store.isUsersLoading == old(store.isUsersLoading)
      ensures store.socket.newMessageHandlers == [store.selectedUser.value.id]
      ensures store.socket.messageDeletedHandlers == 1
    {
      store.UnsubscribeFromMessages();
      ConversationEffect(outcome);
    }
  }

  /**
   * A conversation with counterpart `u`: its one-message history is loaded,
   * the counterpart deletes that message, and the push empties the list.
   */
  method DeletionPushScenario(u: User, first: Message, later: Message)
  {
    var socket := new Socket();
    var store := new Store(socket);
    store.SetSelectedUser(Some(u));
    var view := new ChatContainer(store);
    view.ConversationEffect(Success([first]));
    assert store.messages == [first];
    store.ReceiveMessageDeleted([first.id]);
    MessageDeletedFiltersOnce(1, [first], [first.id]);
    WithoutIdsSpec([first], [first.id]);
    assert first !in store.messages;
    assert store.messages == [];
    // Leaving the conversation detaches both handlers; a later push changes nothing.
    store.UnsubscribeFromMessages();
    store.ReceiveNewMessage(later);
    assert store.messages == [];
  }
}
