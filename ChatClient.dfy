/**
  The connected chat component (frontend/src/components/ChatInterface.tsx): its React state
  as fields, the socket handlers, the history fetch, the send handler and the upload gate.
  The parent's callbacks are recorded: `status` is the last value passed to
  `onStatusChange`, `announced` the ids passed to `onNewConversation`, and `sent` the
  `sendMessage` payloads emitted on the socket.
*/
module ChatClient {
  import opened Wrappers
  import opened JsString
  import opened Protocol
  import opened Composer

  datatype Status = Active | Idle | Analysing

  /** Files above 10 MiB are refused by both the picker and the drop zone. */
  const MaxUploadBytes: nat := 10 * 1024 * 1024

  predicate WithinUploadLimit(size: nat)
  {
    !(size > MaxUploadBytes)
  }

  /** A file passes the gate exactly when it is at most 10 MiB (10485760 bytes): 10 MiB passes, one byte more does not. */
  lemma UploadLimitBoundary(size: nat)
    ensures WithinUploadLimit(size) <==> size <= 10485760
  {
  }

  const BackendUrl: string := "https://inteltrace-bnam.onrender.com"

  /** `getImageUrl`: a `data:` URL is a local preview and kept; anything else is a path on the backend. */
  function GetImageUrl(path: string): string
  {
    if StartsWith(path, "data:") then path else BackendUrl + path
  }

  /** The helper leaves a path unchanged exactly when it is a `data:` URL, and otherwise prefixes the backend. */
  lemma GetImageUrlCases(path: string)
    ensures GetImageUrl(path) == path <==> StartsWith(path, "data:")
    ensures !StartsWith(path, "data:") ==> StartsWith(GetImageUrl(path), BackendUrl)
    ensures GetImageUrl(path)[|GetImageUrl(path)| - |path|..] == path
  {
    if !StartsWith(path, "data:") {
      assert |GetImageUrl(path)| > |path|;
      assert GetImageUrl(path)[..|BackendUrl|] == BackendUrl;
    }
  }

  /** The send guard of `handleSend`, which is also the send button's `disabled` expression. */
  predicate SendBlocked(input: string, image: Option<string>, connected: bool)
  {
    NothingToSend(input, image) || !connected
  }

  class ChatInterface {
    /** The `conversationId` prop. */
    var conversationId: Option<string>
    /** The auth token from the context. */
    var token: Option<string>
    /** `socketRef.current` is set. */
    var connected: bool
    var messages: seq<Message>
    var inputValue: string
    var uploadedImage: Option<string>
    var uploadedFileName: Option<string>
    var status: Option<Status>
    var announced: seq<string>
    var sent: seq<SendData>

    /** First render: empty state; the socket is opened only when there is a token. */
    constructor (conversationId: Option<string>, token: Option<string>)
      ensures this.conversationId == conversationId && this.token == token
      ensures connected == Truthy(token)
      ensures messages == [] && inputValue == "" && uploadedImage == None && uploadedFileName == None
      ensures status == None && announced == [] && sent == []
      ensures SentHaveContent()
    {
      this.conversationId := conversationId;
      this.token := token;
      connected := Truthy(token);
      messages, inputValue, uploadedImage, uploadedFileName := [], "", None, None;
      status, announced, sent := None, [], [];
    }

    /** Every payload emitted so far carries visible text or a non-empty image. */
    predicate SentHaveContent()
      reads this
    {
      forall i :: 0 <= i < |sent| ==> !NothingToSend(sent[i].content, sent[i].image)
    }

    /** The send button is disabled exactly when `handleSend` would return at its guard. */
    predicate SendDisabled()
      reads this
    {
      SendBlocked(inputValue, uploadedImage, connected)
    }

    /** `messageReceived`: append, report ACTIVE, and announce the conversation of a first user message. */
    method OnMessageReceived(m: Message)
      modifies this`messages, this`status, this`announced
      ensures messages == old(messages) + [m]
      ensures status == Some(Active)
      ensures announced == if old(messages) == [] && m.role == UserRole then old(announced) + [m.conversation] else old(announced)
    {
      var wasEmpty := |messages| == 0;
      messages := messages + [m];
      status := Some(Active);
      if wasEmpty && m.role == UserRole {
        announced := announced + [m.conversation];
      }
    }

    /** `newConversation`: pass the new id up. */
    method OnNewConversation(c: Conversation)
      modifies this`announced
      ensures announced == old(announced) + [c.id]
    {
      announced := announced + [c.id];
    }

    /** `messageError`: a toast (not modelled) and ACTIVE; the message list is left alone. */
    method OnMessageError(text: string)
      modifies this`status
      ensures status == Some(Active)
    {
      status := Some(Active);
    }

    /**
      The history effect: with no conversation id or no token the list is cleared; otherwise a
      successful fetch replaces it wholesale and a failed one (None) leaves it as it was.
    */
    method FetchMessages(fetched: Option<seq<Message>>)
      modifies this`messages
      ensures !Truthy(conversationId) || !Truthy(token) ==> messages == []
      ensures Truthy(conversationId) && Truthy(token) && fetched.Some? ==> messages == fetched.value
      ensures Truthy(conversationId) && Truthy(token) && fetched.None? ==> messages == old(messages)
    {
      if !Truthy(conversationId) || !Truthy(token) {
        messages := [];
        return;
      }
      if fetched.Some? {
        messages := fetched.value;
      }
    }

    /**
      `handleSend`: refused (no state change at all) when the guard holds; otherwise it
      reports ANALYSING, emits one `sendMessage` with the untrimmed text, the current image
      and the current conversation id, and clears the composer.
    */
    method HandleSend()
      requires SentHaveContent()
      modifies this`status, this`sent, this`inputValue, this`uploadedImage, this`uploadedFileName
      ensures SentHaveContent()
      ensures old(SendDisabled()) ==>
        && status == old(status) && sent == old(sent) && inputValue == old(inputValue)
        && uploadedImage == old(uploadedImage) && uploadedFileName == old(uploadedFileName)
      ensures !old(SendDisabled()) ==>
        && status == Some(Analysing)
        && sent == old(sent) + [SendData(old(inputValue), old(uploadedImage), conversationId)]
        && inputValue == "" && uploadedImage == None && uploadedFileName == None
    {
      if SendBlocked(inputValue, uploadedImage, connected) {
        return;
      }
      status := Some(Analysing);
      sent := sent + [SendData(inputValue, uploadedImage, conversationId)];
      inputValue := "";
      uploadedImage := None;
      uploadedFileName := None;
    }

    /** The picker's `handleImageUpload`: no file, or a file over 10 MiB, changes nothing. */
    method HandleImageUpload(file: Option<File>)
      modifies this`uploadedImage, this`uploadedFileName
      ensures file.Some? && WithinUploadLimit(file.value.size) ==>
        uploadedImage == Some(file.value.dataUrl) && uploadedFileName == Some(file.value.name)
      ensures file.None? || !WithinUploadLimit(file.value.size) ==>
        uploadedImage == old(uploadedImage) && uploadedFileName == old(uploadedFileName)
    {
      if file.Some? {
        if file.value.size > MaxUploadBytes {
          return;
        }
        uploadedImage := Some(file.value.dataUrl);
        uploadedFileName := Some(file.value.name);
      }
    }

    /** The drop zone's `handleDrop`: the same size gate, and no type check. */
    method HandleDrop(file: Option<File>)
      modifies this`uploadedImage, this`uploadedFileName
      ensures file.Some? && WithinUploadLimit(file.value.size) ==>
        uploadedImage == Some(file.value.dataUrl) && uploadedFileName == Some(file.value.name)
      ensures file.None? || !WithinUploadLimit(file.value.size) ==>
        uploadedImage == old(uploadedImage) && uploadedFileName == old(uploadedFileName)
    {
      if file.None? {
        return;
      }
      if file.value.size > MaxUploadBytes {
        return;
      }
      uploadedImage := Some(file.value.dataUrl);
      uploadedFileName := Some(file.value.name);
    }
  }
}
