/**
  What one run of the `sendMessage` handler and one firing of a reply timer guarantee,
  stated over the specification functions of RelayServer (which the class Relay is proved
  to follow).
*/
module RelayProperties {
  import opened Wrappers
  import opened JsString
  import opened Protocol
  import opened DataUrl
  import opened AuthGate
  import opened PathJoin
  import opened RelayServer

  /** The user message a successful run saves and echoes. */
  function SentMessage(data: SendData, f: Fresh, convoId: string): Message
  {
    UserMessage(f, convoId, data.content, ImagePath(data.image, f.uploadName))
  }

  /** The title keeps at most the first 30 characters and always ends in "...", even for short content. */
  lemma TitleShape(content: string)
    ensures Title(content) == content[..Min(TitleLength, |content|)] + Ellipsis
    ensures |content| <= TitleLength ==> Title(content) == content + Ellipsis
    ensures |Title(content)| == Min(TitleLength, |content|) + 3
  {
    SubstringPrefix(content, TitleLength);
  }

  /** The stub reply embeds the query so that it can be read back. */
  lemma QueryOfMockReply(query: string)
    ensures QueryOf(MockReply(query)) == query
  {
    var r := MockReply(query);
    assert r[|ReplyOpening|..|r| - |ReplyClosing|] == query;
  }

  /** Any send touches only the sender's room: every other room's events are unchanged. */
  lemma SendStaysInSenderRoom(st: Store, user: User, data: SendData, f: Fresh, other: string)
    requires other != user.id
    ensures Events(HandleSend(st, user, data, f).outbox, other) == Events(st.outbox, other)
  {
    if f.fault != ConversationFault {
      var resolved := ResolveConversation(st, user, data, f);
      assert Events(resolved.outbox, other) == Events(st.outbox, other);
      assert HandleSend(st, user, data, f) == AfterConversation(resolved, user.id, data, f, ConversationIdFor(data, f));
    }
  }

  /** A run in which no step throws is step 1, then the write, then steps 3 to 5. */
  lemma SuccessfulSendSteps(st: Store, user: User, data: SendData, f: Fresh)
    requires !Throws(data, f)
    ensures var resolved := ResolveConversation(st, user, data, f);
            && resolved.uploads == st.uploads && resolved.messages == st.messages && resolved.pending == st.pending
            && HandleSend(st, user, data, f)
               == AfterUpload(resolved.(uploads := StoreImage(st.uploads, UploadsDir(st.serverDir), data.image, f.uploadName)),
                              user.id, data, f, ConversationIdFor(data, f), ImagePath(data.image, f.uploadName))
  {
    var resolved := ResolveConversation(st, user, data, f);
    assert resolved.uploads == st.uploads;
    assert HandleSend(st, user, data, f) == AfterConversation(resolved, user.id, data, f, ConversationIdFor(data, f));
  }

  /**
    A falsy conversation id stores one conversation under the database's fresh id, owned by
    the sender and titled from the content (one more conversation when that id is new);
    `newConversation` is emitted strictly before the echo of the user message.
  */
  lemma NewConversationAnnouncedFirst(st: Store, user: User, data: SendData, f: Fresh)
    requires !Truthy(data.conversationId) && !Throws(data, f)
    ensures var st' := HandleSend(st, user, data, f);
            var c := NewConversationFor(user, data.content, f);
            && c.owner == user.id && c.title == Title(data.content) && c.id == f.conversationId
            && st'.conversations == st.conversations[c.id := c]
            && (c.id !in st.conversations ==> |st'.conversations| == |st.conversations| + 1)
            && Events(st'.outbox, user.id)
               == Events(st.outbox, user.id) + [NewConversation(c), MessageReceived(SentMessage(data, f, c.id))]
  {
    var c := NewConversationFor(user, data.content, f);
    SuccessfulSendSteps(st, user, data, f);
    var resolved := ResolveConversation(st, user, data, f);
    assert resolved.conversations == st.conversations[c.id := c];
    assert Events(resolved.outbox, user.id) == Events(st.outbox, user.id) + [NewConversation(c)];
    var written := resolved.(uploads := StoreImage(st.uploads, UploadsDir(st.serverDir), data.image, f.uploadName));
    var st' := AfterUpload(written, user.id, data, f, c.id, ImagePath(data.image, f.uploadName));
    assert st'.conversations == resolved.conversations;
    assert Events(st'.outbox, user.id) == Events(resolved.outbox, user.id) + [MessageReceived(SentMessage(data, f, c.id))];
    if c.id !in st.conversations {
      AddFresh(st.conversations, c.id, c);
    }
  }

  /**
    A present conversation id only refreshes that record's `updatedAt` (nothing when no such
    record exists): no conversation is created and no `newConversation` is emitted.
  */
  lemma ExistingConversationTouched(st: Store, user: User, data: SendData, f: Fresh)
    requires Truthy(data.conversationId) && !Throws(data, f)
    ensures var st' := HandleSend(st, user, data, f);
            var id := data.conversationId.value;
            && st'.conversations.Keys == st.conversations.Keys
            && (forall k :: k in st.conversations && k != id ==> st'.conversations[k] == st.conversations[k])
            && (id in st.conversations ==> st'.conversations[id] == st.conversations[id].(updatedAt := f.now))
            && Events(st'.outbox, user.id) == Events(st.outbox, user.id) + [MessageReceived(SentMessage(data, f, id))]
  {
  }

  /**
    The existing id is not checked against the sender, nor for existence: a message is
    appended to a conversation another user owns, or to one that does not exist.
  */
  lemma NoOwnershipCheck(st: Store, user: User, data: SendData, f: Fresh)
    requires Truthy(data.conversationId) && !Throws(data, f)
    requires var id := data.conversationId.value; id !in st.conversations || st.conversations[id].owner != user.id
    ensures HandleSend(st, user, data, f).messages == st.messages + [SentMessage(data, f, data.conversationId.value)]
  {
  }

  /**
    A successful run appends the user message (role user, the raw content, the image path)
    after every earlier message, and schedules exactly one reply carrying the same
    conversation, query and image path, aimed at the sender's room.
  */
  lemma SuccessfulSendLogsAndSchedules(st: Store, user: User, data: SendData, f: Fresh)
    requires !Throws(data, f)
    ensures var st' := HandleSend(st, user, data, f);
            var convoId := if Truthy(data.conversationId) then data.conversationId.value else f.conversationId;
            var m := SentMessage(data, f, convoId);
            && m.role == UserRole && m.content == data.content && m.image == ImagePath(data.image, f.uploadName)
            && st'.messages == st.messages + [m]
            && st'.pending == st.pending + [Reply(user.id, convoId, data.content, m.image)]
  {
  }

  /**
    With an image, a successful run writes one new file, at the path `path.join` resolves
    for `<name>.<ext>`, holding the text after the last ";base64," and stores
    `/uploads/<name>.<ext>`; when nothing is at that path yet, earlier files are untouched.
    Without one, nothing is written and the stored reference is null.
  */
  lemma ImageMaterialized(st: Store, user: User, data: SendData, f: Fresh)
    requires !Throws(data, f) && NewUploadPath(st, data, f)
    ensures var st' := HandleSend(st, user, data, f);
            if Truthy(data.image) then
              var ext := ExtensionOf(data.image.value);
              && ImagePath(data.image, f.uploadName) == Some(UploadPath(f.uploadName, ext))
              && st'.uploads == st.uploads[Resolve(UploadsDir(st.serverDir), FileName(f.uploadName, ext)) := StoredFile(ext, BodyOf(data.image.value))]
              && |st'.uploads| == |st.uploads| + 1
              && (forall k :: k in st.uploads ==> k in st'.uploads && st'.uploads[k] == st.uploads[k])
            else st'.uploads == st.uploads && ImagePath(data.image, f.uploadName) == None
  {
    SuccessfulSendSteps(st, user, data, f);
    StoreImageAddsOne(st.uploads, UploadsDir(st.serverDir), data.image, f.uploadName);
  }

  /** The write adds exactly the one new file (or nothing, without an image) and keeps the others. */
  lemma StoreImageAddsOne(uploads: map<seq<string>, StoredFile>, dir: seq<string>, image: Option<string>, name: string)
    requires Truthy(image) ==> Resolve(dir, FileName(name, ExtensionOf(image.value))) !in uploads
    ensures var uploads' := StoreImage(uploads, dir, image, name);
            if Truthy(image) then
              var ext := ExtensionOf(image.value);
              && ImagePath(image, name) == Some(UploadPath(name, ext))
              && uploads' == uploads[Resolve(dir, FileName(name, ext)) := StoredFile(ext, BodyOf(image.value))]
              && |uploads'| == |uploads| + 1
              && (forall k :: k in uploads ==> k in uploads' && uploads'[k] == uploads[k])
            else uploads' == uploads && ImagePath(image, name) == None
  {
    if Truthy(image) {
      var ext := ExtensionOf(image.value);
      AddFresh(uploads, Resolve(dir, FileName(name, ext)), StoredFile(ext, BodyOf(image.value)));
    }
  }

  /** Adding a key that is not yet present grows the map by one and keeps every other entry. */
  lemma AddFresh<K, V>(m: map<K, V>, k: K, v: V)
    requires k !in m
    ensures |m[k := v]| == |m| + 1
    ensures forall j :: j in m ==> j in m[k := v] && m[k := v][j] == m[j]
  {
    assert m[k := v].Keys == m.Keys + {k};
  }

  /**
    A failing step yields exactly one `messageError` with "Failed to send message.", after a
    `newConversation` only when the conversation was already created; no message is saved,
    no reply is scheduled, and work already done is not rolled back: the created or
    refreshed conversation, and a file written before the message save failed, remain.
  */
  lemma FailureReportedOnce(st: Store, user: User, data: SendData, f: Fresh)
    requires Throws(data, f)
    ensures var st' := HandleSend(st, user, data, f);
            var created := f.fault != ConversationFault && !Truthy(data.conversationId);
            var c := NewConversationFor(user, data.content, f);
            && st'.messages == st.messages
            && st'.pending == st.pending
            && Events(st'.outbox, user.id)
               == Events(st.outbox, user.id) + (if created then [NewConversation(c)] else []) + [MessageError(FailedToSend)]
            && (created ==> st'.conversations == st.conversations[c.id := c])
            && (f.fault == ConversationFault ==> st'.conversations == st.conversations && st'.uploads == st.uploads)
            && (f.fault != ConversationFault && Truthy(data.conversationId) ==>
                  st'.conversations == Touch(st.conversations, data.conversationId.value, f.now))
            && (f.fault == UploadFault ==> st'.uploads == st.uploads)
            && (f.fault == UserSaveFault ==> st'.uploads == StoreImage(st.uploads, UploadsDir(st.serverDir), data.image, f.uploadName))
  {
    if f.fault != ConversationFault {
      var resolved := ResolveConversation(st, user, data, f);
      assert resolved.uploads == st.uploads && resolved.messages == st.messages && resolved.pending == st.pending;
      assert HandleSend(st, user, data, f) == AfterConversation(resolved, user.id, data, f, ConversationIdFor(data, f));
    }
  }

  /**
    The handler does not validate the payload: empty text with no image is saved and echoed
    like any other message, and no `messageError` is emitted.
  */
  lemma EmptyMessageAccepted(st: Store, user: User, id: string, f: Fresh)
    requires id != "" && f.fault == NoFault
    ensures var data := SendData("", None, Some(id));
            var st' := HandleSend(st, user, data, f);
            var m := SentMessage(data, f, id);
            && m.content == "" && m.image == None
            && st'.messages == st.messages + [m]
            && Events(st'.outbox, user.id) == Events(st.outbox, user.id) + [MessageReceived(m)]
  {
  }

  /**
    Nor is the media subtype checked: a well-formed data URL of any subtype (a bitmap, say) is
    written, with its body, where `path.join` resolves `<name>.<subtype>`, which is that name
    inside the uploads directory when neither part holds a '/'; `/uploads/<name>.<subtype>`
    is stored with the message.
  */
  lemma AnySubtypeStored(st: Store, user: User, data: SendData, f: Fresh, ext: string, body: string)
    requires data.image == Some(DataUrlOf(ext, body)) && ';' !in ext && ';' !in body
    requires !Throws(data, f)
    ensures var st' := HandleSend(st, user, data, f);
            var dir := UploadsDir(st.serverDir);
            && st'.uploads == st.uploads[Resolve(dir, FileName(f.uploadName, ext)) := StoredFile(ext, body)]
            && ('/' !in ext && '/' !in f.uploadName && |f.uploadName| >= 2 ==>
                  Resolve(dir, FileName(f.uploadName, ext)) == dir + [FileName(f.uploadName, ext)])
            && st'.messages[|st'.messages| - 1].image == Some(UploadPath(f.uploadName, ext))
  {
    ParseDataUrlOf(ext, body);
    SuccessfulSendSteps(st, user, data, f);
    SuccessfulSendLogsAndSchedules(st, user, data, f);
    if '/' !in ext && '/' !in f.uploadName && |f.uploadName| >= 2 {
      FileNameStaysInside(UploadsDir(st.serverDir), f.uploadName, ext);
    }
  }

  /**
    When the path `path.join` resolves for `<name>.<ext>` already holds a file, a successful
    run replaces that file and no new one appears.
  */
  lemma ExistingFileReplaced(st: Store, user: User, data: SendData, f: Fresh, ext: string, body: string, key: seq<string>)
    requires data.image == Some(DataUrlOf(ext, body)) && ';' !in ext && ';' !in body
    requires Resolve(UploadsDir(st.serverDir), FileName(f.uploadName, ext)) == key
    requires !Throws(data, f) && key in st.uploads
    ensures var st' := HandleSend(st, user, data, f);
            && st'.uploads == st.uploads[key := StoredFile(ext, body)]
            && st'.uploads.Keys == st.uploads.Keys
  {
    ParseDataUrlOf(ext, body);
    SuccessfulSendSteps(st, user, data, f);
  }

  /** A subtype "x/../<target>" contains no ';'. */
  lemma NoSemicolonAfter(prefix: string, target: string)
    requires ';' !in prefix && ';' !in target
    ensures ';' !in prefix + target
  {
    var s := prefix + target;
    forall i | 0 <= i < |s| ensures s[i] != ';' {
      if i < |prefix| { assert s[i] == prefix[i]; } else { assert s[i] == target[i - |prefix|]; }
    }
  }

  /**
    The extension is not sanitised: a data URL whose "subtype" is "x/../<target>" makes
    `path.join` land on `target` in the uploads directory, so an existing upload is
    overwritten and no new file appears.
  */
  lemma TraversalOverwrites(st: Store, user: User, data: SendData, f: Fresh, target: string, body: string)
    requires data.image == Some(DataUrlOf("x/../" + target, body)) && ';' !in target && ';' !in body
    requires '/' !in target && IsName(target)
    requires '/' !in f.uploadName && f.uploadName != ""
    requires !Throws(data, f) && UploadsDir(st.serverDir) + [target] in st.uploads
    ensures var st' := HandleSend(st, user, data, f);
            var key := UploadsDir(st.serverDir) + [target];
            && st'.uploads == st.uploads[key := StoredFile("x/../" + target, body)]
            && st'.uploads.Keys == st.uploads.Keys
  {
    NoSemicolonAfter("x/../", target);
    ExtensionReachesSibling(UploadsDir(st.serverDir), f.uploadName, target);
    ExistingFileReplaced(st, user, data, f, "x/../" + target, body, UploadsDir(st.serverDir) + [target]);
  }

  /**
    Climbing out of the uploads directory and back in names the same file: a "subtype"
    "x/../../uploads/<target>" overwrites the existing upload `target` too.
  */
  lemma ReentryOverwrites(st: Store, user: User, data: SendData, f: Fresh, target: string, body: string)
    requires data.image == Some(DataUrlOf("x/../../uploads/" + target, body)) && ';' !in target && ';' !in body
    requires '/' !in target && IsName(target)
    requires '/' !in f.uploadName && f.uploadName != ""
    requires !Throws(data, f) && UploadsDir(st.serverDir) + [target] in st.uploads
    ensures var st' := HandleSend(st, user, data, f);
            var key := UploadsDir(st.serverDir) + [target];
            && st'.uploads == st.uploads[key := StoredFile("x/../../uploads/" + target, body)]
            && st'.uploads.Keys == st.uploads.Keys
  {
    var ext := "x/../../uploads/" + target;
    NoSemicolonAfter("x/../../uploads/", target);
    assert "x/../../" + UploadsDirName + "/" + target == ext;
    ExtensionReenters(st.serverDir, UploadsDirName, f.uploadName, target);
    assert st.serverDir + [UploadsDirName, target] == UploadsDir(st.serverDir) + [target];
    ExistingFileReplaced(st, user, data, f, ext, body, UploadsDir(st.serverDir) + [target]);
  }

  /**
    One more ".." leaves the uploads directory: a "subtype" "x/../../<target>" writes `target`
    into the server's own directory, outside the uploads directory.
  */
  lemma EscapeWritesOutside(st: Store, user: User, data: SendData, f: Fresh, target: string, body: string)
    requires data.image == Some(DataUrlOf("x/../../" + target, body)) && ';' !in target && ';' !in body
    requires '/' !in target && IsName(target) && target != UploadsDirName
    requires '/' !in f.uploadName && f.uploadName != ""
    requires !Throws(data, f)
    ensures var st' := HandleSend(st, user, data, f);
            var key := st.serverDir + [target];
            && st'.uploads == st.uploads[key := StoredFile("x/../../" + target, body)]
            && !(UploadsDir(st.serverDir) <= key)
  {
    var ext := "x/../../" + target;
    NoSemicolonAfter("x/../../", target);
    ParseDataUrlOf(ext, body);
    ExtensionEscapes(st.serverDir, UploadsDirName, f.uploadName, target);
    SuccessfulSendSteps(st, user, data, f);
    var key := st.serverDir + [target];
    assert key[|st.serverDir|] == target;
    assert UploadsDir(st.serverDir)[|st.serverDir|] == UploadsDirName;
  }

  /** Every stored file sits under a normalised absolute path, so each file has exactly one key. */
  predicate KeysNormal(uploads: map<seq<string>, StoredFile>)
  {
    forall k :: k in uploads ==> Normal(k)
  }

  /** A send keeps every key normalised, whatever the subtype, as long as the server's directory is. */
  lemma SendKeepsKeysNormal(st: Store, user: User, data: SendData, f: Fresh)
    requires Normal(st.serverDir) && KeysNormal(st.uploads)
    ensures KeysNormal(HandleSend(st, user, data, f).uploads)
  {
    var dir := UploadsDir(st.serverDir);
    assert Normal(dir) by {
      forall i | 0 <= i < |dir| ensures IsName(dir[i]) {
        if i < |st.serverDir| { assert dir[i] == st.serverDir[i]; }
      }
    }
    if Throws(data, f) {
      FailureReportedOnce(st, user, data, f);
    } else {
      SuccessfulSendSteps(st, user, data, f);
    }
    if Truthy(data.image) {
      ResolveIsNormal(dir, FileName(f.uploadName, ExtensionOf(data.image.value)));
    }
  }

  /** The message log only grows, by at most one entry per send. */
  lemma SendAppendsAtMostOne(st: Store, user: User, data: SendData, f: Fresh)
    ensures var st' := HandleSend(st, user, data, f);
            && st.messages <= st'.messages
            && |st'.messages| <= |st.messages| + 1
  {
    if Throws(data, f) {
      FailureReportedOnce(st, user, data, f);
    } else {
      SuccessfulSendLogsAndSchedules(st, user, data, f);
    }
  }

  /**
    A timer firing appends exactly one assistant message to the log, for the reply's
    conversation, embedding its query, with the user's image path as its mask, and emits it
    into the reply's room only.
  */
  lemma ReplyDelivered(st: Store, id: string, now: int)
    requires st.pending != []
    ensures var st' := DeliverNext(st, id, now);
            var r := st.pending[0];
            var a := st'.messages[|st'.messages| - 1];
            && st'.messages == st.messages + [a]
            && a.role == AssistantRole && a.conversation == r.conversation
            && a.segmentationMask == r.mask && QueryOf(a.content) == r.query
            && Events(st'.outbox, r.room) == Events(st.outbox, r.room) + [MessageReceived(a)]
            && (forall other :: other != r.room ==> Events(st'.outbox, other) == Events(st.outbox, other))
            && st'.pending == st.pending[1..]
            && st'.conversations == st.conversations && st'.uploads == st.uploads
  {
    QueryOfMockReply(st.pending[0].query);
  }

  /** `m` is the saved user message that reply `r` answers. */
  predicate Backs(m: Message, r: Reply)
  {
    m.role == UserRole && m.conversation == r.conversation && m.content == r.query && m.image == r.mask
  }

  /** Some saved message is the user message that `r` answers. */
  ghost predicate Answered(messages: seq<Message>, r: Reply)
  {
    exists m :: m in messages && Backs(m, r)
  }

  /** Every reply in `pending` answers a message in `messages`. */
  ghost predicate AllAnswered(messages: seq<Message>, pending: seq<Reply>)
  {
    forall i :: 0 <= i < |pending| ==> Answered(messages, pending[i])
  }

  /** Every scheduled reply answers a saved user message with its conversation, query and image. */
  ghost predicate RepliesBacked(st: Store)
  {
    AllAnswered(st.messages, st.pending)
  }

  /** Saving a message and scheduling the reply that answers it keeps every reply answered. */
  lemma {:induction false} AppendKeepsAnswered(messages: seq<Message>, pending: seq<Reply>, m: Message, r: Reply)
    requires AllAnswered(messages, pending) && Backs(m, r)
    ensures AllAnswered(messages + [m], pending + [r])
  {
    var messages', pending' := messages + [m], pending + [r];
    forall i | 0 <= i < |pending'|
      ensures Answered(messages', pending'[i])
    {
      if i < |pending| {
        assert pending'[i] == pending[i];
        var m0 :| m0 in messages && Backs(m0, pending[i]);
        assert m0 in messages';
      } else {
        assert m in messages' && pending'[i] == r;
      }
    }
  }

  lemma {:induction false} SendKeepsRepliesBacked(st: Store, user: User, data: SendData, f: Fresh)
    requires RepliesBacked(st)
    ensures RepliesBacked(HandleSend(st, user, data, f))
  {
    var st' := HandleSend(st, user, data, f);
    if Throws(data, f) {
      FailureReportedOnce(st, user, data, f);
      assert st'.messages == st.messages && st'.pending == st.pending;
    } else {
      SuccessfulSendLogsAndSchedules(st, user, data, f);
      var convoId := if Truthy(data.conversationId) then data.conversationId.value else f.conversationId;
      var m := SentMessage(data, f, convoId);
      var r := Reply(user.id, convoId, data.content, m.image);
      assert st'.messages == st.messages + [m] && st'.pending == st.pending + [r];
      AppendKeepsAnswered(st.messages, st.pending, m, r);
    }
  }

  lemma {:induction false} DeliverKeepsRepliesBacked(st: Store, id: string, now: int)
    requires st.pending != [] && RepliesBacked(st)
    ensures RepliesBacked(DeliverNext(st, id, now))
  {
    var st' := DeliverNext(st, id, now);
    forall i | 0 <= i < |st'.pending|
      ensures Answered(st'.messages, st'.pending[i])
    {
      var r := st.pending[i + 1];
      assert st'.pending[i] == r;
      var m :| m in st.messages && Backs(m, r);
      assert m in st'.messages;
    }
  }

  /**
    End to end, from no scheduled replies: a send without a conversation id, then its timer,
    put into the sender's room `newConversation`, the user's `messageReceived` and the
    assistant's `messageReceived`, in that order, all for the new conversation; the
    assistant's mask is the user message's image path.
  */
  lemma NewThreadRoundTrip(st: Store, user: User, data: SendData, f: Fresh, id: string, now: int)
    requires st.pending == [] && !Truthy(data.conversationId) && !Throws(data, f)
    ensures var st1 := HandleSend(st, user, data, f);
            st1.pending != [] &&
            var st2 := DeliverNext(st1, id, now);
            var c := NewConversationFor(user, data.content, f);
            var u := SentMessage(data, f, c.id);
            var a := AssistantMessage(Reply(user.id, c.id, data.content, u.image), id, now);
            && st2.messages == st.messages + [u, a]
            && a.conversation == c.id && a.segmentationMask == u.image && a.role == AssistantRole
            && Events(st2.outbox, user.id)
               == Events(st.outbox, user.id) + [NewConversation(c), MessageReceived(u), MessageReceived(a)]
            && st2.pending == []
  {
    var st1 := HandleSend(st, user, data, f);
    NewConversationAnnouncedFirst(st, user, data, f);
    SuccessfulSendLogsAndSchedules(st, user, data, f);
    ReplyDelivered(st1, id, now);
  }

  /** A caller of the class: one admitted socket opens a thread and its timer fires. */
  method NewThreadScenario(serverDir: seq<string>, token: string, user: User, content: string, f: Fresh, replyId: string, now: int)
    requires token != "" && f.fault == NoFault
  {
    var relay := new Relay(serverDir);
    var admitted := relay.Connect("socket-1", Some(token), t => Found(user));
    assert admitted == Success(user);
    var data := SendData(content, None, None);
    relay.SendMessage("socket-1", data, f);
    relay.FireReply(replyId, now);
    NewThreadRoundTrip(EmptyStore(serverDir), user, data, f, replyId, now);
    var events := Events(relay.outbox, user.id);
    assert |events| == 3 && events[0].NewConversation? && events[1].MessageReceived? && events[2].MessageReceived?;
    assert events[2].msg.conversation == events[0].conversation.id;
  }
}
