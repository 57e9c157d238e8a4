/**
 * The message composer (frontend/src/components/MessageInput.jsx): four pieces
 * of component state changed by event handlers, and a guarded send that hands
 * the trimmed text to the store and then clears the composer.
 */
module MessageInputState {
  import opened ChatTypes
  import opened JsString
  import opened ChatStore

  /** The four state fields of the composer, as one value. */
  datatype InputState = InputState(
    text: string,
    imagePreview: Option<string>,
    selectedEmoji: Option<string>,
    showEmojiPicker: bool)

  /** A file picked in the file dialog; only its MIME type is inspected. */
  datatype File = File(mimeType: string)

  const Cleared := InputState("", None, None, false)

  /** Every transition below keeps `selectedEmoji` null: nothing ever assigns it a value. */
  ghost predicate EmojiUnset(s: InputState)
  {
    s.selectedEmoji == None
  }

  function ToggledPicker(s: InputState): InputState
  {
    s.(showEmojiPicker := !s.showEmojiPicker)
  }

  function WithEmoji(s: InputState, emoji: string): InputState
  {
    s.(text := s.text + emoji)
  }

  /**
   * The preview becomes `preview` only for a present image file; `preview` is
   * the file reader's result when its read ends, a data URL or null if the
   * read failed.
   */
  function AfterImageChange(s: InputState, file: Option<File>, preview: Option<string>): InputState
  {
    if file.None? || !StartsWith(file.value.mimeType, "image/") then s
    else s.(imagePreview := preview)
  }

  /** JavaScript truthiness of a string that may be null: present and not empty. */
  predicate Truthy(o: Option<string>)
  {
    o.Some? && o.value != ""
  }

  /**
   * The send guard and the send button's enabled state, `text.trim() ||
   * imagePreview`: there is text that is not all whitespace, or there is a
   * non-empty image preview.
   */
  function CanSend(s: InputState): (ok: bool)
    ensures ok <==> !AllWhitespace(s.text) || Truthy(s.imagePreview)
  {
    TrimEmptyIff(s.text);
    Trim(s.text) != [] || Truthy(s.imagePreview)
  }

  /** The body handed to the store's `sendMessage`. */
  function Payload(s: InputState): MessageData
  {
    MessageData(Trim(s.text), s.imagePreview, s.selectedEmoji)
  }

  /** Toggling the picker twice restores it, and toggling touches nothing else. */
  lemma ToggleTwiceRestores(s: InputState)
    ensures ToggledPicker(ToggledPicker(s)) == s
    ensures ToggledPicker(s).showEmojiPicker != s.showEmojiPicker
    ensures ToggledPicker(s).(showEmojiPicker := s.showEmojiPicker) == s
  {
  }

  /** An emoji click appends the emoji to the text and changes nothing else. */
  lemma EmojiAppendsToText(s: InputState, emoji: string)
    ensures WithEmoji(s, emoji).text[..|s.text|] == s.text
    ensures WithEmoji(s, emoji).text[|s.text|..] == emoji
    ensures WithEmoji(s, emoji).(text := s.text) == s
  {
  }

  /**
   * Picking an emoji that is not whitespace always enables sending, whatever
   * the text held before.
   */
  lemma EmojiEnablesSend(s: InputState, emoji: string)
    requires !AllWhitespace(emoji)
    ensures CanSend(WithEmoji(s, emoji))
  {
    var k :| 0 <= k < |emoji| && !IsWhitespace(emoji[k]);
    assert WithEmoji(s, emoji).text[|s.text| + k] == emoji[k];
  }

  /** No file, or a file whose type is not `image/...`, leaves the state as it was. */
  lemma NonImageKeepsPreview(s: InputState, file: Option<File>, preview: Option<string>)
    requires file.None? || |file.value.mimeType| < 6 || file.value.mimeType[..6] != "image/"
    ensures AfterImageChange(s, file, preview) == s
  {
  }

  /** An image file replaces the preview and nothing else. */
  lemma ImageSetsPreview(s: InputState, mimeType: string, preview: Option<string>)
    requires |mimeType| >= 6 && mimeType[..6] == "image/"
    ensures AfterImageChange(s, Some(File(mimeType)), preview) == s.(imagePreview := preview)
  {
  }

  /**
   * The text sent is the composer text with its whitespace border cut off, and
   * the emoji sent is null whenever `selectedEmoji` was never set.
   */
  lemma PayloadIsTrimmed(s: InputState)
    ensures exists i, j ::
              (0 <= i <= j <= |s.text| && Payload(s).text == s.text[i..j]
               && AllWhitespace(s.text[..i]) && AllWhitespace(s.text[j..]))
    ensures Payload(s).text != [] ==>
              !IsWhitespace(Payload(s).text[0]) && !IsWhitespace(Payload(s).text[|Payload(s).text| - 1])
    ensures Payload(s).image == s.imagePreview
    ensures EmojiUnset(s) ==> Payload(s).emoji == None
  {
    TrimIsCore(s.text);
  }

  class MessageInput {
    var text: string
    var imagePreview: Option<string>
    var selectedEmoji: Option<string>
    var showEmojiPicker: bool

    function State(): InputState
      reads this
    {
      InputState(text, imagePreview, selectedEmoji, showEmojiPicker)
    }

    ghost predicate Valid()
      reads this
    {
      EmojiUnset(State())
    }

    /** The initial state: empty text, no preview, no emoji, picker hidden. */
    constructor ()
      ensures Valid() && State() == Cleared
    {
      text := "";
      imagePreview := None;
      selectedEmoji := None;
      showEmojiPicker := false;
    }

    /** `toggleEmojiPicker`. */
    method ToggleEmojiPicker()
      requires Valid()
      modifies this
      ensures Valid() && State() == ToggledPicker(old(State()))
    {
      showEmojiPicker := !showEmojiPicker;
    }

    /** `handleEmojiClick`. */
    method HandleEmojiClick(emoji: string)
      requires Valid()
      modifies this
      ensures Valid() && State() == WithEmoji(old(State()), emoji)
    {
      text := text + emoji;
    }

    /** The text field's change handler. */
    method HandleTextChange(value: string)
      requires Valid()
      modifies this
      ensures Valid() && State() == old(State()).(text := value)
    {
      text := value;
    }

    /**
     * `handleImageChange`: `file` is the first selected file, if any, and
     * `preview` what the file reader produces for it.
     */
    method HandleImageChange(file: Option<File>, preview: Option<string>)
      requires Valid()
      modifies this
      ensures Valid() && State() == AfterImageChange(old(State()), file, preview)
    {
      if file.None? {
        return;
      }
      if !StartsWith(file.value.mimeType, "image/") {
        return;
      }
      imagePreview := preview;
    }

    /** `removeImage`. */
    method RemoveImage()
      requires Valid()
      modifies this
      ensures Valid() && State() == old(State()).(imagePreview := None)
    {
      imagePreview := None;
    }

    /**
     * `handleSendMessage`. When the guard fails nothing happens and nothing is
     * sent. Otherwise the payload goes to the store's `sendMessage`; if that
     * call resolves (success or a server error response) all four
     * fields are reset; if it rejects (no server response, or no selected
     * counterpart) the error is logged and the composer keeps its contents.
     */
    method HandleSendMessage(store: Store, outcome: HttpOutcome<Message>) returns (sent: Option<MessageData>)
      requires Valid()
      modifies this, store
      ensures Valid()
      ensures sent == if CanSend(old(State())) then Some(Payload(old(State()))) else None
      ensures sent.Some? ==> sent.value.emoji == None
      ensures !CanSend(old(State())) ==> State() == old(State()) && store.messages == old(store.messages)
      ensures CanSend(old(State())) ==>
                State() == (if old(store.selectedUser).None? || outcome.NoResponse? then old(State()) else Cleared)
      ensures CanSend(old(State())) && old(store.selectedUser).Some? && outcome.Success? ==>
                store.messages == old(store.messages) + [outcome.payload]
      ensures !(CanSend(old(State())) && old(store.selectedUser).Some? && outcome.Success?) ==>
                store.messages == old(store.messages)
      ensures store.selectedUser == old(store.selectedUser) && store.users == old(store.users)
      ensures store.isUsersLoading == old(store.isUsersLoading) && store.isMessagesLoading == old(store.isMessagesLoading)
    {
      if Trim(text) == [] && !Truthy(imagePreview) {
        return None;
      }
      var data := MessageData(Trim(text), imagePreview, selectedEmoji);
      sent := Some(data);
      var rejected := store.SendMessage(data, outcome);
      if rejected {
        return;
      }
      text := "";
      imagePreview := None;
      selectedEmoji := None;
      showEmojiPicker := false;
    }
  }
}
