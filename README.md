# Chat client state, modelled in Dafny

This project models the client-side state of a one-to-one chat web application.
It has three parts:

- the chat store (`frontend/src/store/useChatStore.js`). It holds the open
  conversation's messages, the counterpart list, the selected counterpart and
  two loading flags, and it attaches real-time listeners to the socket;
- the message composer (`frontend/src/components/MessageInput.jsx`). Four
  component-state fields change through event handlers, and a guarded send
  passes the trimmed text to the store;
- the conversation view (`frontend/src/components/ChatContainer.jsx`). A
  long press selects messages, mouse-up or mouse-leave cancels the press, and
  a delete button hands the selection to the store. The view also chooses
  the side each bubble is drawn on.

Modules, one per concern:

| file | module | contents |
|---|---|---|
| `types.dfy` | `ChatTypes` | `Message`, `User`, `MessageData`, `HttpOutcome` |
| `filter.dfy` | `SeqFilter` | the order-preserving filter (`Array.prototype.filter`) and its laws |
| `jsstring.dfy` | `JsString` | `String.prototype.trim` and `startsWith` |
| `chat_store.dfy` | `ChatStore` | the `Store` class, the socket's listener table, the list transforms |
| `message_input.dfy` | `MessageInputState` | the composer's state, its transitions and the `MessageInput` class |
| `chat_container.dfy` | `ChatContainerState` | the selection state, its transitions and the `ChatContainer` class |

Each stateful component is a class. `MessageInput` holds exactly the four
state fields of the composer. `ChatContainer` holds the selection and the
press-timer ref, plus two fields that stand for the browser's timer queue:
`scheduled`, the pending timers by id, and `nextTimer`, the next fresh id.
The methods of these two classes are specified by a pure transition
function of the old state (`State() == MouseDown(old(State()), m)`), and
the lemmas state the behaviour the source promises about those functions.
`Store` holds the store's five fields and a reference to the socket, which
the source obtains from the authentication store. Its methods are specified
field by field: each says what the changed field becomes, in terms of the
list transforms `WithoutIds` and `DeliverNewMessage`, and which fields stay
the same.

Every HTTP request is a parameter of type `HttpOutcome`, which has three
cases:

- `Success(payload)`;
- `ErrorResponse`: a rejection that carries a server response;
- `NoResponse`: a rejection without one.

The split matters. The error handlers of `getMessages` and `sendMessage`
read `error.response.data.message`, which throws when there is no response.
So on `NoResponse` those promises reject instead of resolving.

The socket's listener table follows the socket client's emitter semantics:

- `on(event, handler)` adds a handler after the existing ones;
- `off(event)` removes all handlers of that event.

A `newMessage` handler is represented by the counterpart id it captured at
subscription time.

Three consequences of the code are worth stating:

- Subscribing twice without unsubscribing attaches the handlers twice;
  nothing in the store replaces an earlier subscription. Each pushed message
  is then appended once per matching handler (`DeliverNewMessageAppends`).
  The view's effect adds one handler per event on its first run
  (`ChatContainer.ConversationEffect`). Every later run is preceded by the
  previous run's cleanup, which unsubscribes, so afterwards there is exactly
  one handler per event (`ChatContainer.ConversationEffectRerun`).
- The `messageDeleted` handler filters whatever list is current. It does not
  check for an active conversation.
- The composer is cleared after a send only when the store's `sendMessage`
  resolves, that is on success or on a server error response. When
  the request gets no response, or no counterpart is selected, `sendMessage`
  rejects. The composer's `catch` then skips the reset and the text stays.

## Model

| member | source | states |
|---|---|---|
| `ChatStore.Socket.constructor` | frontend/src/store/useChatStore.js:77-97 | the socket's listener table, which `on` extends and `off` empties, starts with no handler for either event |
| `ChatStore.Store.constructor` | frontend/src/store/useChatStore.js:7-11 | the store starts with no messages, no users, no selection and both loading flags down |
| `ChatStore.Store.GetUsers` | frontend/src/store/useChatStore.js:13-23 | on success `users` is the response; on failure it is unchanged; `isUsersLoading` is false afterwards on both paths; nothing else changes |
| `ChatStore.Store.GetMessages` | frontend/src/store/useChatStore.js:25-35 | on success `messages` is exactly the response; on failure it is unchanged; `isMessagesLoading` is false afterwards on every path; the promise rejects exactly when there was no server response |
| `ChatStore.Store.SendMessage` | frontend/src/store/useChatStore.js:37-48 | with a selected counterpart and a successful post, the new list is the old list followed by the server's message; otherwise the list is unchanged; it rejects exactly when there is no selected counterpart or no server response |
| `ChatStore.Store.DeleteMessage` | frontend/src/store/useChatStore.js:50-71 | with no selected counterpart, nothing changes and nothing is returned; on success the list loses exactly the messages whose id is among the deleted ones; on failure the list is unchanged and the error indicator is returned |
| `ChatStore.IdsOf` | frontend/src/store/useChatStore.js:58 | the id list has one entry per deleted message and holds exactly their ids |
| `ChatStore.WithoutIdsSpec` | frontend/src/store/useChatStore.js:64-66 | the id filter keeps exactly the messages whose id is not listed, with their multiplicities and in their order (it distributes over concatenation), and it is idempotent |
| `ChatStore.DeletedIdsAbsent` | frontend/src/store/useChatStore.js:57-66 | after deletion no remaining message shares an id with a deleted message, and every message sharing none survives |
| `ChatStore.Store.SubscribeToMessages` | frontend/src/store/useChatStore.js:73-92 | with no selected counterpart nothing is registered; otherwise one `newMessage` handler capturing the current counterpart and one `messageDeleted` handler are added |
| `ChatStore.Store.UnsubscribeFromMessages` | frontend/src/store/useChatStore.js:94-98 | both events are left with no handler |
| `ChatStore.Store.ReceiveNewMessage` | frontend/src/store/useChatStore.js:80-84 | a pushed message is run through every attached handler on the current list |
| `ChatStore.DeliverNewMessageAppends` | frontend/src/store/useChatStore.js:80-84 | a pushed message is appended at the end once per handler whose captured counterpart is its sender; the old list stays a prefix |
| `ChatStore.NewMessageWithOneListener` | frontend/src/store/useChatStore.js:80-84 | with one handler, a message from another sender leaves the list unchanged and one from the captured counterpart is appended; with no handler nothing changes |
| `ChatStore.Store.ReceiveMessageDeleted` | frontend/src/store/useChatStore.js:87-91 | a deletion push is run through every attached handler on the current list |
| `ChatStore.MessageDeletedFiltersOnce` | frontend/src/store/useChatStore.js:87-91 | with any positive number of handlers, a deletion push removes exactly the listed ids once (applying the filter again changes nothing); with none, the list is unchanged |
| `ChatStore.Store.SetSelectedUser` | frontend/src/store/useChatStore.js:100 | only the selection changes |
| `MessageInputState.MessageInput.constructor` | frontend/src/components/MessageInput.jsx:8-11 | the composer starts with empty text, no preview, no emoji and the picker hidden |
| `MessageInputState.MessageInput.ToggleEmojiPicker` | frontend/src/components/MessageInput.jsx:16-18 | only `showEmojiPicker` changes, to its negation |
| `MessageInputState.ToggleTwiceRestores` | frontend/src/components/MessageInput.jsx:16-18 | toggling flips the flag, touches no other field, and two toggles restore the state |
| `MessageInputState.MessageInput.HandleEmojiClick` | frontend/src/components/MessageInput.jsx:21-23 | the emoji is appended to the text |
| `MessageInputState.EmojiAppendsToText` | frontend/src/components/MessageInput.jsx:21-23 | the new text is the old text followed by the emoji, and no other field changes |
| `MessageInputState.EmojiEnablesSend` | frontend/src/components/MessageInput.jsx:21-23 | after picking an emoji that is not whitespace, sending is enabled whatever the text was |
| `MessageInputState.MessageInput.HandleTextChange` | frontend/src/components/MessageInput.jsx:126 | typing replaces the text and nothing else |
| `MessageInputState.MessageInput.HandleImageChange` | frontend/src/components/MessageInput.jsx:26-40 | the preview becomes the reader's result only for a present file whose type starts with `image/` |
| `MessageInputState.NonImageKeepsPreview` | frontend/src/components/MessageInput.jsx:26-33 | no file, or a file whose type does not start with `image/`, leaves the whole state unchanged |
| `MessageInputState.ImageSetsPreview` | frontend/src/components/MessageInput.jsx:35-39 | an image file sets the preview and nothing else |
| `JsString.StartsWith` | frontend/src/components/MessageInput.jsx:30 | `startsWith` holds exactly when the prefix is the string's leading slice |
| `MessageInputState.MessageInput.RemoveImage` | frontend/src/components/MessageInput.jsx:43-46 | the preview becomes null and nothing else changes |
| `MessageInputState.CanSend` | frontend/src/components/MessageInput.jsx:152 | the send button is enabled exactly when the text is not all whitespace or there is a non-empty preview; the send guard at line 51 is the same condition |
| `JsString.TrimEmptyIff` | frontend/src/components/MessageInput.jsx:51 | the trimmed text is empty exactly when the text is all whitespace |
| `JsString.TrimIsCore` | frontend/src/components/MessageInput.jsx:55 | the trimmed text is a slice of the text; all that is cut off is whitespace, and the slice neither starts nor ends with whitespace |
| `MessageInputState.PayloadIsTrimmed` | frontend/src/components/MessageInput.jsx:54-58 | the payload's text is the slice of the composer text left once its whitespace border is cut off (everything cut is whitespace, and the slice neither starts nor ends with whitespace), its image is the preview, and its emoji is null while `selectedEmoji` was never set |
| `MessageInputState.MessageInput.HandleSendMessage` | frontend/src/components/MessageInput.jsx:49-69 | when the guard fails, nothing changes and nothing is sent. Otherwise the trimmed payload with a null emoji goes to the store. All four fields reset when the store call resolves and keep their values when it rejects. The store's list grows by the server's message exactly on a successful send, and the store's other fields stay the same |
| `ChatContainerState.ChatContainer.constructor` | frontend/src/components/ChatContainer.jsx:24-25 | the view starts with an empty selection and no timer |
| `ChatContainerState.ChatContainer.HandleMouseDown` | frontend/src/components/ChatContainer.jsx:44-55 | a press removes a selected message at once, and otherwise schedules a timer for it under a fresh id held by the ref |
| `ChatContainerState.PressOnSelectedRemoves` | frontend/src/components/ChatContainer.jsx:46-49 | pressing a selected message removes every copy of it, keeps every other element with its multiplicity, and schedules no timer |
| `ChatContainerState.HeldPressSelects` | frontend/src/components/ChatContainer.jsx:52-54 | pressing an unselected message leaves the selection unchanged until its timer fires, which appends the message at the end |
| `ChatContainerState.ChatContainer.TimerFires` | frontend/src/components/ChatContainer.jsx:52-54 | a still-scheduled timer appends its message and is spent; any other timer id changes nothing |
| `ChatContainerState.ChatContainer.HandleMouseUp` | frontend/src/components/ChatContainer.jsx:57-59 | the timer the ref names is cancelled |
| `ChatContainerState.ChatContainer.HandleMouseLeave` | frontend/src/components/ChatContainer.jsx:61-63 | the same as mouse-up |
| `ChatContainerState.CancelledPressNeverSelects` | frontend/src/components/ChatContainer.jsx:57-63 | a press released before its timer fires leaves the selection as it was, and the cancelled timer, when its moment comes, changes nothing |
| `ChatContainerState.TransitionsKeepTimersIssued` | frontend/src/components/ChatContainer.jsx:44-63 | every press, release, timer and delete keeps the timer ids consistent, so a new press never reuses a pending timer's id |
| `ChatContainerState.ChatContainer.HandleDeleteClick` | frontend/src/components/ChatContainer.jsx:65-83 | the button exists only while the history is not loading and the selection is non-empty; the selection goes to the store's `deleteMessage` and is then emptied, whatever the request comes to; the store's other fields stay the same |
| `ChatContainerState.ChatContainer.ConversationEffect` | frontend/src/components/ChatContainer.jsx:27-29 | the effect's first run loads the history as `getMessages` states and adds one handler per event after those already attached; the `newMessage` handler captured the current counterpart; `users` and its flag stay the same |
| `ChatContainerState.ChatContainer.ConversationEffectRerun` | frontend/src/components/ChatContainer.jsx:27-36 | a later run, after the previous run's cleanup unsubscribes, leaves exactly one handler per event, the `newMessage` one capturing the current counterpart, whatever was attached before |
| `ChatContainerState.BubbleSide` | frontend/src/components/ChatContainer.jsx:97 | a bubble is drawn on the own side (`chat-end`) exactly when its sender is the signed-in user |
| `ChatContainerState.PushedMessagesAreIncoming` | frontend/src/components/ChatContainer.jsx:97 | while no handler captured the signed-in user, every message a push appends is drawn on the counterpart's side |

## Left out

- HTTP calls, `toast` notifications and `console.error` logging. Each request is an `HttpOutcome` parameter. The endpoints are behind the backend, which is not part of this model.
- The socket transport. Only the listener table that `on` and `off` change is modelled.
- Asynchronous interleaving. Every operation runs to completion before the next starts, so three things are not captured. A push arriving while `sendMessage` awaits is lost when the send writes its snapshot back. A late `getMessages` response can overwrite a newer conversation. `deleteMessage` is not awaited by the delete click.
- `isUsersLoading` and `isMessagesLoading` are raised while the request is out. The model shows only their value after the operation, because the operation is atomic.
- `FileReader`'s asynchronous read. Its result is a parameter: an opaque data URL, or null when the read fails.
- Resetting the hidden file input's value (MessageInput.jsx lines 45 and 65). That is DOM state outside the four fields.
- The 300 ms delay of the press timer. Timers fire through the explicit `TimerFires` event.
- The scroll-into-view effect, the loading skeleton, avatars, the selection highlight and all other rendering.
- The emoji picker library. An emoji click supplies its emoji string.
- Object identity. The source compares selected messages by reference (`includes`, `!==`); the model compares them as values.
- The fields a message or user carries beyond those the logic reads: creation time, recipient, names and profile pictures.
- An error response without a body. The model assumes every server error response has one, so reading its message does not throw.
- frontend/src/pages/Profile.jsx, frontend/src/App.jsx, backend/src/app.js and frontend/src/components/AuthImagePattern.jsx are not part of this model: they hold routing, server setup, markup and a profile upload with no client-state logic of their own.
