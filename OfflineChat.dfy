/**
  The earlier, offline chat component (src/components/ChatInterface.tsx): it echoes the
  user's message locally and later appends a canned assistant reply. The one-second timer
  becomes a queue of scheduled replies, each holding the image captured when it was sent;
  `Date.now()` ids and timestamps are parameters.
*/
module OfflineChat {
  import opened Wrappers
  import opened JsString
  import opened Protocol
  import opened Composer

  /** The component's local message shape. */
  datatype LocalMessage = LocalMessage(
    id: string,
    role: Role,
    content: string,
    image: Option<string>,
    timestamp: int,
    segmentationMask: Option<string>)

  const DemoReply: string := "Analyzing imagery for potential threats and suspicious patterns. The segmentation mask highlights regions of interest based on your query. This is a demonstration response - connect to backend for real analysis."

  /** `uploadedImage || undefined`: an empty data URL counts as none. */
  function Attached(image: Option<string>): (r: Option<string>)
    ensures r.Some? <==> Truthy(image)
    ensures r.Some? ==> r == image
  {
    if Truthy(image) then image else None
  }

  /** Only files whose MIME type starts with "image/" may be dropped. */
  predicate IsImageType(mimeType: string)
  {
    StartsWith(mimeType, "image/")
  }

  /** A user message carries visible text or a non-empty image; assistant messages are unconstrained. */
  predicate HasContent(m: LocalMessage)
  {
    m.role == UserRole ==> !NothingToSend(m.content, m.image)
  }

  class ChatInterface {
    var messages: seq<LocalMessage>
    var inputValue: string
    var uploadedImage: Option<string>
    /** The image each still-scheduled reply captured at send time, oldest first. */
    var scheduled: seq<Option<string>>

    /** Every user message in the list carries visible text or a non-empty image. */
    predicate UserMessagesHaveContent()
      reads this
    {
      forall i :: 0 <= i < |messages| ==> HasContent(messages[i])
    }

    constructor ()
      ensures messages == [] && inputValue == "" && uploadedImage == None && scheduled == []
      ensures UserMessagesHaveContent()
    {
      messages, inputValue, uploadedImage, scheduled := [], "", None, [];
    }

    /**
      `handleSend`: nothing happens when the guard holds; otherwise one user message with the
      untrimmed text and the attached image goes at the end, the composer is cleared, and a
      reply is scheduled with the image as it was at send time.
    */
    method HandleSend(id: string, now: int)
      requires UserMessagesHaveContent()
      modifies this`messages, this`inputValue, this`uploadedImage, this`scheduled
      ensures UserMessagesHaveContent()
      ensures NothingToSend(old(inputValue), old(uploadedImage)) ==>
        && messages == old(messages) && inputValue == old(inputValue)
        && uploadedImage == old(uploadedImage) && scheduled == old(scheduled)
      ensures !NothingToSend(old(inputValue), old(uploadedImage)) ==>
        && messages == old(messages) + [LocalMessage(id, UserRole, old(inputValue), Attached(old(uploadedImage)), now, None)]
        && inputValue == "" && uploadedImage == None
        && scheduled == old(scheduled) + [Attached(old(uploadedImage))]
    {
      if NothingToSend(inputValue, uploadedImage) {
        return;
      }
      var captured := uploadedImage;
      var userMessage := LocalMessage(id, UserRole, inputValue, Attached(captured), now, None);
      assert Truthy(Attached(captured)) == Truthy(captured);
      assert HasContent(userMessage);
      ghost var before := messages;
      messages := messages + [userMessage];
      forall i | 0 <= i < |messages|
        ensures HasContent(messages[i])
      {
        if i < |before| {
          assert messages[i] == before[i];
        }
      }
      inputValue := "";
      uploadedImage := None;
      scheduled := scheduled + [Attached(captured)];
    }

    /** The oldest timer fires: the canned reply goes after whatever is present, masked with the captured image. */
    method FireReply(id: string, now: int)
      requires scheduled != [] && UserMessagesHaveContent()
      modifies this`messages, this`scheduled
      ensures UserMessagesHaveContent()
      ensures messages == old(messages) + [LocalMessage(id, AssistantRole, DemoReply, None, now, old(scheduled)[0])]
      ensures scheduled == old(scheduled)[1..]
    {
      var reply := LocalMessage(id, AssistantRole, DemoReply, None, now, scheduled[0]);
      assert HasContent(reply);
      messages := messages + [reply];
      scheduled := scheduled[1..];
    }

    /** `handleImageUpload`: any chosen file is attached; there is no type or size check. */
    method HandleImageUpload(file: Option<File>)
      modifies this`uploadedImage
      ensures uploadedImage == if file.Some? then Some(file.value.dataUrl) else old(uploadedImage)
    {
      if file.Some? {
        uploadedImage := Some(file.value.dataUrl);
      }
    }

    /** `handleDrop`: a dropped file is attached only when its type starts with "image/". */
    method HandleDrop(file: Option<File>)
      modifies this`uploadedImage
      ensures uploadedImage == if file.Some? && IsImageType(file.value.mimeType) then Some(file.value.dataUrl) else old(uploadedImage)
    {
      if file.Some? && IsImageType(file.value.mimeType) {
        uploadedImage := Some(file.value.dataUrl);
      }
    }

    /** The preview's clear button. */
    method ClearImage()
      modifies this`uploadedImage
      ensures uploadedImage == None
    {
      uploadedImage := None;
    }
  }

  /** A reply masks with the image captured at send time even if a new image was attached since. */
  method SendThenReattach(first: File, second: File)
    requires first.dataUrl != ""
  {
    var chat := new ChatInterface();
    chat.HandleImageUpload(Some(first));
    chat.HandleSend("1", 0);
    chat.HandleImageUpload(Some(second));
    chat.FireReply("2", 1);
    assert chat.messages[1].segmentationMask == Some(first.dataUrl);
    assert chat.uploadedImage == Some(second.dataUrl);
  }
}
