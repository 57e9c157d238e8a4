/**
 * The client-side chat store (frontend/src/store/useChatStore.js): the message
 * list of the open conversation, the counterpart list, the selected
 * counterpart, two loading flags, and the real-time listeners it attaches to
 * the socket. Every HTTP request is replaced by its outcome, given as a
 * parameter; every operation runs to completion before the next one starts.
 */
module ChatStore {
  import opened ChatTypes
  import opened SeqFilter

  /** What `deleteMessage` resolves to when the server refuses or cannot be reached. */
  const DeleteFailure := "Failed to delete messages"

  /** `messages.map((msg) => msg._id)`: the identifiers of the given messages, in order. */
  function IdsOf(ms: seq<Message>): (ids: seq<MessageId>)
    ensures |ids| == |ms|
    ensures forall m :: m in ms ==> m.id in ids
    ensures forall id :: id in ids ==> exists m :: m in ms && m.id == id
  {
    if ms == [] then [] else [ms[0].id] + IdsOf(ms[1..])
  }

  /** `messages.filter((msg) => !messageIds.includes(msg._id))`. */
  function WithoutIds(ms: seq<Message>, ids: seq<MessageId>): seq<Message>
  {
    Filter((m: Message) => m.id !in ids, ms)
  }

  /**
   * Removing by identifier keeps exactly the messages whose identifier is not
   * listed, each as often as before, in their old relative order (removal
   * distributes over concatenation), and it is idempotent.
   */
  lemma WithoutIdsSpec(ms: seq<Message>, ids: seq<MessageId>)
    ensures forall m :: m in WithoutIds(ms, ids) <==> m in ms && m.id !in ids
    ensures forall m :: multiset(WithoutIds(ms, ids))[m] == if m.id in ids then 0 else multiset(ms)[m]
    ensures forall a, b :: a + b == ms ==> WithoutIds(ms, ids) == WithoutIds(a, ids) + WithoutIds(b, ids)
    ensures WithoutIds(WithoutIds(ms, ids), ids) == WithoutIds(ms, ids)
  {
    var keep := (m: Message) => m.id !in ids;
    forall m ensures m in WithoutIds(ms, ids) <==> m in ms && m.id !in ids {
      FilterMembership(keep, ms, m);
    }
    FilterMultiset(keep, ms);
    forall a, b | a + b == ms ensures WithoutIds(ms, ids) == WithoutIds(a, ids) + WithoutIds(b, ids) {
      FilterAppend(keep, a, b);
    }
    FilterIdempotent(keep, ms);
  }

  /**
   * After removing the identifiers of `toDelete`, no remaining message shares an
   * identifier with a deleted one, and every other message is still there.
   */
  lemma DeletedIdsAbsent(ms: seq<Message>, toDelete: seq<Message>)
    ensures forall m, d :: m in WithoutIds(ms, IdsOf(toDelete)) && d in toDelete ==> m.id != d.id
    ensures forall m :: m in ms && (forall d :: d in toDelete ==> m.id != d.id) ==> m in WithoutIds(ms, IdsOf(toDelete))
  {
    WithoutIdsSpec(ms, IdsOf(toDelete));
  }

  /**
   * The `newMessage` listeners registered on the socket, in registration order,
   * each applied to the current list: a listener that captured counterpart `u`
   * appends the message when its sender is `u` and ignores it otherwise.
   */
  function DeliverNewMessage(listeners: seq<UserId>, ms: seq<Message>, m: Message): seq<Message>
  {
    if listeners == [] then ms
    else DeliverNewMessage(listeners[1..], if m.senderId == listeners[0] then ms + [m] else ms, m)
  }

  /** How many of the listeners captured the given counterpart. */
  function CountMatching(listeners: seq<UserId>, u: UserId): (n: nat)
    ensures n <= |listeners|
    ensures n == 0 <==> u !in listeners
  {
    if listeners == [] then 0
    else (if listeners[0] == u then 1 else 0) + CountMatching(listeners[1..], u)
  }

  function Repeat(m: Message, n: nat): (r: seq<Message>)
    ensures |r| == n && forall x :: x in r ==> x == m
  {
    if n == 0 then [] else [m] + Repeat(m, n - 1)
  }

  /**
   * A pushed message is appended once per listener whose captured counterpart
   * is its sender: the old list stays a prefix and nothing is reordered.
   */
  lemma {:induction false} DeliverNewMessageAppends(listeners: seq<UserId>, ms: seq<Message>, m: Message)
    ensures DeliverNewMessage(listeners, ms, m) == ms + Repeat(m, CountMatching(listeners, m.senderId))
  {
    if listeners != [] {
      var next := if m.senderId == listeners[0] then ms + [m] else ms;
      DeliverNewMessageAppends(listeners[1..], next, m);
      var k := CountMatching(listeners[1..], m.senderId);
      if m.senderId == listeners[0] {
        assert Repeat(m, k + 1) == [m] + Repeat(m, k);
      }
    }
  }

  /**
   * With the single listener a subscription installs, a message from the
   * captured counterpart is appended at the end and any other message leaves
   * the list unchanged; with no listener nothing changes.
   */
  lemma NewMessageWithOneListener(u: UserId, ms: seq<Message>, m: Message)
    ensures DeliverNewMessage([u], ms, m) == if m.senderId == u then ms + [m] else ms
    ensures DeliverNewMessage([], ms, m) == ms
  {
  }

  /** The `messageDeleted` listeners, `count` of them, each filtering the current list. */
  function DeliverMessageDeleted(count: nat, ms: seq<Message>, ids: seq<MessageId>): seq<Message>
  {
    if count == 0 then ms else DeliverMessageDeleted(count - 1, WithoutIds(ms, ids), ids)
  }

  /**
   * However many `messageDeleted` listeners are attached, as long as there is
   * one the list loses exactly the listed identifiers, as if filtered once;
   * with none it is unchanged.
   */
  lemma {:induction false} MessageDeletedFiltersOnce(count: nat, ms: seq<Message>, ids: seq<MessageId>)
    ensures DeliverMessageDeleted(count, ms, ids) == if count == 0 then ms else WithoutIds(ms, ids)
  {
    if count > 1 {
      MessageDeletedFiltersOnce(count - 1, WithoutIds(ms, ids), ids);
      WithoutIdsSpec(ms, ids);
    }
  }

  /**
   * The real-time socket, owned by the authentication store. Only its listener
   * table is modelled: `on(event, handler)` adds a handler after the existing
   * ones and `off(event)` drops every handler of that event. A `newMessage`
   * handler is represented by the counterpart id it captured; the
   * `messageDeleted` handlers capture nothing, so only their number matters.
   */
  class Socket {
    var newMessageHandlers: seq<UserId>
    var messageDeletedHandlers: nat

    constructor ()
      ensures newMessageHandlers == [] && messageDeletedHandlers == 0
    {
      newMessageHandlers := [];
      messageDeletedHandlers := 0;
    }
  }

  class Store {
    var messages: seq<Message>
    var users: seq<User>
    var selectedUser: Option<User>
    var isUsersLoading: bool
    var isMessagesLoading: bool
    const socket: Socket

    /** The store's initial state. */
    constructor (socket: Socket)
      ensures messages == [] && users == [] && selectedUser == None
      ensures !isUsersLoading && !isMessagesLoading
      ensures this.socket == socket
    {
      messages := [];
      users := [];
      selectedUser := None;
      isUsersLoading := false;
      isMessagesLoading := false;
      this.socket := socket;
    }

    /**
     * `getUsers`: the fetched list replaces `users` on success; any failure
     * leaves it as it was. The loading flag, raised while the request is out,
     * is down again afterwards.
     */
    method GetUsers(outcome: HttpOutcome<seq<User>>)
      modifies this
      ensures users == if outcome.Success? then outcome.payload else old(users)
      ensures !isUsersLoading
      ensures messages == old(messages) && selectedUser == old(selectedUser)
      ensures isMessagesLoading == old(isMessagesLoading)
    {
      isUsersLoading := true;
      if outcome.Success? {
        users := outcome.payload;
      }
      isUsersLoading := false;
    }

    /**
     * `getMessages(userId)`: the fetched history replaces `messages` wholesale
     * on success; on failure the list is unchanged. The loading flag is down
     * afterwards on every path. When the failure carries no server response,
     * the error handler's read of `error.response.data` throws, so the
     * returned promise rejects (after the `finally` has run).
     */
    method GetMessages(userId: UserId, outcome: HttpOutcome<seq<Message>>) returns (rejected: bool)
      modifies this
      ensures messages == if outcome.Success? then outcome.payload else old(messages)
      ensures !isMessagesLoading
      ensures rejected <==> outcome.NoResponse?
      ensures users == old(users) && selectedUser == old(selectedUser)
      ensures isUsersLoading == old(isUsersLoading)
    {
      isMessagesLoading := true;
      rejected := false;
      match outcome {
        case Success(history) =>
          messages := history;
        case ErrorResponse =>
        case NoResponse =>
          rejected := true;
      }
      isMessagesLoading := false;
    }

    /**
     * `sendMessage(data)`: with a selected counterpart and a successful post,
     * the server's message is appended after the list read at the start;
     * otherwise the list is unchanged. Without a selected counterpart the
     * request is never made: reading its id throws inside the `try`, and the
     * error handler throws again, so the promise rejects. A failure without a
     * server response rejects the same way; a server error response does not.
     */
    method SendMessage(data: MessageData, outcome: HttpOutcome<Message>) returns (rejected: bool)
      modifies this
      ensures selectedUser.Some? && outcome.Success? ==> messages == old(messages) + [outcome.payload]
      ensures !(selectedUser.Some? && outcome.Success?) ==> messages == old(messages)
      ensures rejected <==> selectedUser.None? || outcome.NoResponse?
      ensures users == old(users) && selectedUser == old(selectedUser)
      ensures isUsersLoading == old(isUsersLoading) && isMessagesLoading == old(isMessagesLoading)
    {
      var snapshot := messages;
      if selectedUser.None? {
        rejected := true;
        return;
      }
      match outcome {
        case Success(created) =>
          messages := snapshot + [created];
          rejected := false;
        case ErrorResponse =>
          rejected := false;
        case NoResponse =>
          rejected := true;
      }
    }

    /**
     * `deleteMessage(toDelete)`: without a selected counterpart it returns at
     * once and changes nothing. Otherwise it posts the identifiers of
     * `toDelete`; on success every message carrying one of them is removed and
     * the rest keep their order; on failure the list is unchanged and the
     * error indicator is returned.
     */
    method DeleteMessage(toDelete: seq<Message>, outcome: HttpOutcome<()>) returns (error: Option<string>)
      modifies this
      ensures selectedUser.None? ==> messages == old(messages) && error == None
      ensures selectedUser.Some? && outcome.Success? ==>
                messages == WithoutIds(old(messages), IdsOf(toDelete)) && error == None
      ensures selectedUser.Some? && !outcome.Success? ==>
                messages == old(messages) && error == Some(DeleteFailure)
      ensures users == old(users) && selectedUser == old(selectedUser)
      ensures isUsersLoading == old(isUsersLoading) && isMessagesLoading == old(isMessagesLoading)
    {
      var snapshot := messages;
      if selectedUser.None? {
        return None;
      }
      var messageIds := IdsOf(toDelete);
      if outcome.Success? {
        messages := WithoutIds(snapshot, messageIds);
        error := None;
      } else {
        error := Some(DeleteFailure);
      }
    }

    /**
     * `subscribeToMessages`: with no selected counterpart nothing is
     * registered. Otherwise one `newMessage` handler capturing the current
     * counterpart and one `messageDeleted` handler are added to the socket.
     */
    method SubscribeToMessages()
      modifies socket
      ensures selectedUser.None? ==>
                socket.newMessageHandlers == old(socket.newMessageHandlers)
                && socket.messageDeletedHandlers == old(socket.messageDeletedHandlers)
      ensures selectedUser.Some? ==>
                socket.newMessageHandlers == old(socket.newMessageHandlers) + [selectedUser.value.id]
                && socket.messageDeletedHandlers == old(socket.messageDeletedHandlers) + 1
    {
      if selectedUser.None? {
        return;
      }
      var captured := selectedUser.value.id;
      socket.newMessageHandlers := socket.newMessageHandlers + [captured];
      socket.messageDeletedHandlers := socket.messageDeletedHandlers + 1;
    }

    /** `unsubscribeFromMessages`: both events lose all their handlers. */
    method UnsubscribeFromMessages()
      modifies socket
      ensures socket.newMessageHandlers == [] && socket.messageDeletedHandlers == 0
    {
      socket.newMessageHandlers := [];
      socket.messageDeletedHandlers := 0;
    }

    /** A `newMessage` push: every attached handler runs on the current list. */
    method ReceiveNewMessage(m: Message)
      modifies this
      ensures messages == DeliverNewMessage(socket.newMessageHandlers, old(messages), m)
      ensures users == old(users) && selectedUser == old(selectedUser)
      ensures isUsersLoading == old(isUsersLoading) && isMessagesLoading == old(isMessagesLoading)
    {
      messages := DeliverNewMessage(socket.newMessageHandlers, messages, m);
    }

    /** A `messageDeleted` push carrying `messageIds`: every attached handler filters the current list. */
    method ReceiveMessageDeleted(messageIds: seq<MessageId>)
      modifies this
      ensures messages == DeliverMessageDeleted(socket.messageDeletedHandlers, old(messages), messageIds)
      ensures users == old(users) && selectedUser == old(selectedUser)
      ensures isUsersLoading == old(isUsersLoading) && isMessagesLoading == old(isMessagesLoading)
    {
      messages := DeliverMessageDeleted(socket.messageDeletedHandlers, messages, messageIds);
    }

    /** `setSelectedUser`: only the selection changes. */
    method SetSelectedUser(u: Option<User>)
      modifies this
      ensures selectedUser == u
      ensures messages == old(messages) && users == old(users)
      ensures isUsersLoading == old(isUsersLoading) && isMessagesLoading == old(isMessagesLoading)
    {
      selectedUser := u;
    }
  }
}
