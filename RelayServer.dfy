/**
  The realtime relay of backend/server.js: the connection gate and room binding, the
  `sendMessage` handler and the deferred assistant reply.

  One handler run is modelled as running to completion: the steps between its `await`s
  (lines 102, 109 and 132) are taken in order with nothing else in between, although in the
  source other handlers and reply timers may run at each of those points. Under that reading
  the handler is a sequential state machine over the stores it touches. `Store` is that
  state as a value: the conversation collection, the message collection in insertion order,
  the files written (keyed by the absolute path `path.join` resolves), what has been emitted into each room (keyed by room name), and the
  replies whose timers are still to fire. `HandleSend` and `DeliverNext` specify one
  handler run and one timer firing; the class `Relay` performs them step by step on its
  fields and is proved to agree with them. The database's fresh ids, `uuidv4`, `Date.now`
  and which step throws are supplied in a `Fresh` record; the directory the server runs
  from (`__dirname`) is part of the state.
*/
module RelayServer {
  import opened Wrappers
  import opened JsString
  import opened Protocol
  import opened DataUrl
  import opened AuthGate
  import opened PathJoin

  const TitleLength: nat := 30
  const Ellipsis: string := "..."
  /** The payload of the single `messageError` a failed send produces. */
  const FailedToSend: string := "Failed to send message."

  /** A new conversation's title, `content.substring(0, 30) + '...'`. */
  function Title(content: string): string
  {
    Substring(content, 0, TitleLength) + Ellipsis
  }

  const ReplyOpening: string := "[MOCK RESPONSE] Analysis complete for query: \""
  const ReplyClosing: string := "\". Reasoning-based segmentation identifies 3 high-priority threats."

  /** The stub analysis text, embedding the user's query. */
  function MockReply(query: string): string
  {
    ReplyOpening + query + ReplyClosing
  }

  /** Reads the query back out of a stub reply (the text between the fixed opening and closing). */
  function QueryOf(reply: string): string
  {
    if |reply| < |ReplyOpening| + |ReplyClosing| then ""
    else reply[|ReplyOpening|..|reply| - |ReplyClosing|]
  }

  /** The name of the uploads directory, created next to the server's own file. */
  const UploadsDirName: string := "uploads"

  /** `path.join(__dirname, 'uploads')`, for the server's directory given by its segments. */
  function UploadsDir(serverDir: seq<string>): seq<string>
  {
    serverDir + [UploadsDirName]
  }

  /** A file written by the handler: its extension and the base64 text written. */
  datatype StoredFile = StoredFile(ext: string, body: string)

  /** A scheduled assistant reply: the room to emit into, the conversation, the query and the mask. */
  datatype Reply = Reply(room: string, conversation: string, query: string, mask: Option<string>)

  /** Which step of the handler throws, if any (the file write is synchronous; the others are awaited). */
  datatype Fault =
    | NoFault
    | ConversationFault   // saving the new conversation, or updating the existing one, throws
    | UploadFault         // writing the decoded image throws
    | UserSaveFault       // saving the user's message throws

  /** What the environment supplies to one handler run, including which step (if any) throws. */
  datatype Fresh = Fresh(conversationId: string, messageId: string, uploadName: string, now: int, fault: Fault)

  datatype Store = Store(
    serverDir: seq<string>,
    conversations: map<string, Conversation>,
    messages: seq<Message>,
    uploads: map<seq<string>, StoredFile>,
    outbox: map<string, seq<Event>>,
    pending: seq<Reply>)

  /** A server just started from `serverDir`: nothing stored, emitted or scheduled. */
  function EmptyStore(serverDir: seq<string>): Store
  {
    Store(serverDir, map[], [], map[], map[], [])
  }

  /** Everything emitted so far into `room`. */
  function Events(outbox: map<string, seq<Event>>, room: string): seq<Event>
  {
    if room in outbox then outbox[room] else []
  }

  /** `io.to(room).emit(ev)`. */
  function EmitTo(outbox: map<string, seq<Event>>, room: string, ev: Event): (out: map<string, seq<Event>>)
    ensures Events(out, room) == Events(outbox, room) + [ev]
    ensures forall other :: other != room ==> Events(out, other) == Events(outbox, other)
  {
    outbox[room := Events(outbox, room) + [ev]]
  }

  /** The catch block: one `messageError` to the sender's room; nothing done earlier is undone. */
  function Failed(st: Store, room: string): Store
  {
    st.(outbox := EmitTo(st.outbox, room, MessageError(FailedToSend)))
  }

  /** The conversation document created for a falsy `conversationId`. */
  function NewConversationFor(user: User, content: string, f: Fresh): Conversation
  {
    Conversation(f.conversationId, user.id, Title(content), f.now, f.now)
  }

  /** `findByIdAndUpdate(id, {updatedAt})`: an unknown id matches nothing and is not an error. */
  function Touch(conversations: map<string, Conversation>, id: string, now: int): map<string, Conversation>
  {
    if id in conversations then conversations[id := conversations[id].(updatedAt := now)] else conversations
  }

  /** The conversation id used from step 1 on: the new document's id, or the one sent. */
  function ConversationIdFor(data: SendData, f: Fresh): string
  {
    if Truthy(data.conversationId) then data.conversationId.value else f.conversationId
  }

  /** Step 1 once its awaited call succeeded: a falsy id creates and announces a conversation, any other is refreshed. */
  function ResolveConversation(st: Store, user: User, data: SendData, f: Fresh): Store
  {
    if !Truthy(data.conversationId) then
      var c := NewConversationFor(user, data.content, f);
      st.(conversations := st.conversations[c.id := c],
          outbox := EmitTo(st.outbox, user.id, NewConversation(c)))
    else
      st.(conversations := Touch(st.conversations, data.conversationId.value, f.now))
  }

  /** The path stored with the user's message: `/uploads/<name>.<ext>`, or null without an image. */
  function ImagePath(image: Option<string>, name: string): Option<string>
  {
    if Truthy(image) then Some(UploadPath(name, ExtensionOf(image.value))) else None
  }

  /**
    Step 2 once the write succeeded: the file `path.join(dir, "<name>.<ext>")` holds the
    base64 body. Files are keyed by that resolved absolute path, so an extension holding ".."
    segments lands (and overwrites) elsewhere.
  */
  function StoreImage(uploads: map<seq<string>, StoredFile>, dir: seq<string>, image: Option<string>, name: string): map<seq<string>, StoredFile>
  {
    if Truthy(image) then
      var ext := ExtensionOf(image.value);
      uploads[Resolve(dir, FileName(name, ext)) := StoredFile(ext, BodyOf(image.value))]
    else uploads
  }

  /** The user's message document saved in step 3. */
  function UserMessage(f: Fresh, conversation: string, content: string, image: Option<string>): Message
  {
    Message(f.messageId, conversation, UserRole, content, image, None, f.now)
  }

  /** Whether the step named by `f.fault` is reached and throws (the write only happens with an image). */
  predicate Throws(data: SendData, f: Fresh)
  {
    || f.fault == ConversationFault
    || (f.fault == UploadFault && Truthy(data.image))
    || f.fault == UserSaveFault
  }

  /** One run of the `sendMessage` handler for `user`'s socket; `user.id` names the sender's room. */
  function HandleSend(st: Store, user: User, data: SendData, f: Fresh): Store
  {
    if f.fault == ConversationFault then Failed(st, user.id)
    else AfterConversation(ResolveConversation(st, user, data, f), user.id, data, f, ConversationIdFor(data, f))
  }

  /** Steps 2 to 5, once the conversation id is known. */
  function AfterConversation(st: Store, room: string, data: SendData, f: Fresh, convoId: string): Store
  {
    if f.fault == UploadFault && Truthy(data.image) then Failed(st, room)
    else
      AfterUpload(st.(uploads := StoreImage(st.uploads, UploadsDir(st.serverDir), data.image, f.uploadName)),
                  room, data, f, convoId, ImagePath(data.image, f.uploadName))
  }

  /** Steps 3 to 5: save the user's message, echo it, schedule the reply. */
  function AfterUpload(st: Store, room: string, data: SendData, f: Fresh, convoId: string, imageUrl: Option<string>): Store
  {
    if f.fault == UserSaveFault then Failed(st, room)
    else
      var m := UserMessage(f, convoId, data.content, imageUrl);
      st.(messages := st.messages + [m],
          outbox := EmitTo(st.outbox, room, MessageReceived(m)),
          pending := st.pending + [Reply(room, convoId, data.content, imageUrl)])
  }

  /** Nothing is stored yet at the path the image of `data` resolves to. */
  predicate NewUploadPath(st: Store, data: SendData, f: Fresh)
  {
    Truthy(data.image) ==> Resolve(UploadsDir(st.serverDir), FileName(f.uploadName, ExtensionOf(data.image.value))) !in st.uploads
  }

  /** The assistant message a reply's timer saves. */
  function AssistantMessage(r: Reply, id: string, now: int): Message
  {
    Message(id, r.conversation, AssistantRole, MockReply(r.query), None, r.mask, now)
  }

  /** The oldest pending timer fires: it saves the assistant message and emits it into the same room. */
  function DeliverNext(st: Store, id: string, now: int): Store
    requires st.pending != []
  {
    var r := st.pending[0];
    var a := AssistantMessage(r, id, now);
    st.(messages := st.messages + [a],
        outbox := EmitTo(st.outbox, r.room, MessageReceived(a)),
        pending := st.pending[1..])
  }

  /** The server process: the stores, what has been emitted, pending timers, and the admitted sockets. */
  class Relay {
    /** `__dirname`, the directory the server runs from. */
    const serverDir: seq<string>
    var conversations: map<string, Conversation>
    var messages: seq<Message>
    var uploads: map<seq<string>, StoredFile>
    var outbox: map<string, seq<Event>>
    var pending: seq<Reply>
    /** `socket.user` of every admitted socket, by socket id. */
    var sockets: map<string, User>
    /** The rooms each admitted socket has joined. */
    var rooms: map<string, set<string>>

    /** Every admitted socket has joined exactly the room named by its user's id. */
    ghost predicate Valid()
      reads this
    {
      && sockets.Keys == rooms.Keys
      && forall sid :: sid in sockets ==> rooms[sid] == {sockets[sid].id}
    }

    function State(): Store
      reads this
    {
      Store(serverDir, conversations, messages, uploads, outbox, pending)
    }

    constructor (serverDir: seq<string>)
      ensures Valid()
      ensures State() == EmptyStore(serverDir) && sockets == map[]
    {
      this.serverDir := serverDir;
      conversations, messages, uploads, outbox, pending := map[], [], map[], map[], [];
      sockets, rooms := map[], map[];
    }

    /** The gate (`io.use`) followed, on success, by the connection handler's `socket.join`. */
    method Connect(sid: string, token: Option<string>, resolve: string -> Lookup) returns (r: Result<User, AuthError>)
      requires Valid() && sid !in sockets
      modifies this`sockets, this`rooms
      ensures Valid()
      ensures r == Authenticate(token, resolve)
      ensures r.Success? ==> sockets == old(sockets)[sid := r.value] && rooms == old(rooms)[sid := {r.value.id}]
      ensures r.Failure? ==> sockets == old(sockets) && rooms == old(rooms)
    {
      if !Truthy(token) {
        return Failure(NoToken);
      }
      var found := resolve(token.value);
      if found == BadToken {
        return Failure(TokenInvalid);
      }
      if found == NoSuchUser {
        return Failure(UserNotFound);
      }
      var user := found.user;
      sockets := sockets[sid := user];
      rooms := rooms[sid := {user.id}];
      r := Success(user);
    }

    method Emit(room: string, ev: Event)
      modifies this`outbox
      ensures outbox == EmitTo(old(outbox), room, ev)
    {
      outbox := outbox[room := Events(outbox, room) + [ev]];
    }

    /** The `sendMessage` handler of socket `sid`, one step per statement of the source. */
    method SendMessage(sid: string, data: SendData, f: Fresh)
      requires Valid() && sid in sockets
      modifies this`conversations, this`messages, this`uploads, this`outbox, this`pending
      ensures State() == HandleSend(old(State()), sockets[sid], data, f)
      ensures Valid()
    {
      var user := sockets[sid];
      var room := user.id;
      // 1. find or create the conversation
      if f.fault == ConversationFault {
        Emit(room, MessageError(FailedToSend));
        return;
      }
      var convoId := FindOrCreateConversation(user, data, f);
      ghost var resolved := ResolveConversation(old(State()), user, data, f);
      assert State() == resolved;
      // 2. write the image, if any
      if f.fault == UploadFault && Truthy(data.image) {
        Emit(room, MessageError(FailedToSend));
        return;
      }
      var imageUrl := WriteImage(data.image, f.uploadName);
      ghost var written := resolved.(uploads := StoreImage(resolved.uploads, UploadsDir(serverDir), data.image, f.uploadName));
      assert State() == written;
      assert HandleSend(old(State()), user, data, f) == AfterUpload(written, room, data, f, convoId, imageUrl);
      // 3. save the user's message, 4. echo it, 5. schedule the reply
      SaveAndEcho(room, data, f, convoId, imageUrl);
    }

    /** Step 1 once its awaited call succeeds: create and announce, or refresh `updatedAt`. */
    method FindOrCreateConversation(user: User, data: SendData, f: Fresh) returns (convoId: string)
      modifies this`conversations, this`outbox
      ensures State() == ResolveConversation(old(State()), user, data, f)
      ensures convoId == ConversationIdFor(data, f)
    {
      if !Truthy(data.conversationId) {
        var c := NewConversationFor(user, data.content, f);
        conversations := conversations[c.id := c];
        convoId := c.id;
        Emit(user.id, NewConversation(c));
      } else {
        convoId := data.conversationId.value;
        if convoId in conversations {
          conversations := conversations[convoId := conversations[convoId].(updatedAt := f.now)];
        }
      }
    }

    /** Step 2 once the write succeeds: the body goes to the resolved `<name>.<ext>` and the URL path is returned. */
    method WriteImage(image: Option<string>, name: string) returns (imageUrl: Option<string>)
      modifies this`uploads
      ensures uploads == StoreImage(old(uploads), UploadsDir(serverDir), image, name)
      ensures imageUrl == ImagePath(image, name)
    {
      if !Truthy(image) {
        return None;
      }
      var data := image.value;
      var ext := ExtensionOf(data);
      imageUrl := Some(UploadPath(name, ext));
      assert imageUrl == ImagePath(image, name);
      uploads := uploads[Resolve(UploadsDir(serverDir), FileName(name, ext)) := StoredFile(ext, BodyOf(data))];
    }

    /** Steps 3 to 5. */
    method SaveAndEcho(room: string, data: SendData, f: Fresh, convoId: string, imageUrl: Option<string>)
      modifies this`messages, this`outbox, this`pending
      ensures State() == AfterUpload(old(State()), room, data, f, convoId, imageUrl)
    {
      var userMessage := UserMessage(f, convoId, data.content, imageUrl);
      if f.fault == UserSaveFault {
        Emit(room, MessageError(FailedToSend));
        return;
      }
      messages := messages + [userMessage];
      Emit(room, MessageReceived(userMessage));
      pending := pending + [Reply(room, convoId, data.content, imageUrl)];
    }

    /** The oldest scheduled timer fires. */
    method FireReply(id: string, now: int)
      requires pending != []
      modifies this`messages, this`outbox, this`pending
      ensures State() == DeliverNext(old(State()), id, now)
    {
      var r := pending[0];
      var assistantMessage := AssistantMessage(r, id, now);
      messages := messages + [assistantMessage];
      Emit(r.room, MessageReceived(assistantMessage));
      pending := pending[1..];
    }
  }
}
