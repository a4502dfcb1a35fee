# IntelTrace realtime relay and chat composer, in Dafny

This project models the core of IntelTrace, a surveillance-imagery chat assistant. The core
has three parts:

- **The realtime relay** (`backend/server.js`):
  - the socket.io connection gate, which turns a handshake token into a user or one of three
    rejection texts;
  - the binding of every admitted socket to the room named by its user's id;
  - the `sendMessage` handler. It creates and announces a conversation, or refreshes the
    existing one. It writes an inlined base64 image to `/uploads/<uuid>.<ext>`, saves and
    echoes the user's message, and schedules a mock assistant reply that is saved and emitted
    2.5 s later. If any step throws, it emits a single `messageError`.
- **The connected chat component** (`frontend/src/components/ChatInterface.tsx`): its socket
  handlers, the history fetch, the send guard and payload, the 10 MiB upload gate, and the
  image URL helper.
- **The earlier offline chat component** (`src/components/ChatInterface.tsx`): it echoes the
  user's message locally and appends a canned reply after a timer. It has its own upload and
  drop handlers and a clear button.

Module layout:

- `JsString`: the JavaScript string built-ins the code relies on, with their edge cases
  (`substring`, `indexOf`, `split`/`pop`, `trim`, truthiness).
- `Protocol`: the documents and socket events.
- `DataUrl`: the slicing of a `data:` URL (RFC 2397, section 2) into an extension and a body.
- `PathJoin`: which file Node's `path.join(uploadsDir, filename)` names once "", "." and ".."
  segments are resolved, as an absolute path from the root.
- `AuthGate`: the connection gate.
- `RelayServer`: the relay.
  - `Store` is the relay's state as a value: the directory the server runs from
    (`__dirname`), conversations, the message log, the files written (keyed by absolute path),
    the events emitted into each room, and the reply timers still pending.
  - `HandleSend` and `DeliverNext` specify one handler run and one timer firing. A handler run
    is taken to complete before anything else happens (see "## Left out").
  - The class `Relay` performs the same steps imperatively on its fields. Each of its methods
    is proved to produce exactly the specified state.
- `RelayProperties`: what a send and a reply guarantee, stated over those functions.
- `Composer`: the shared send guard.
- `ChatClient` and `OfflineChat`: the two components as classes whose fields are their React
  state.

The relay's environment is passed in as parameters: the database's fresh ids, `uuidv4`, the
clock, and which step (if any) throws. They travel in a `Fresh` record.

The model follows the code where the code does less than a careful design would. In
particular:

- An existing conversation id is looked up only to refresh its `updatedAt`. It is not checked
  against the sender, an id that matches no record is silently ignored, and the message is
  still saved under it (`NoOwnershipCheck`). This is for well-formed ids: a malformed id makes
  `findByIdAndUpdate` throw, which the model reaches only through the `Fault` parameter.
- The title always ends in "...", even for content of 30 characters or fewer (`TitleShape`).
- The server does not reject empty messages (`EmptyMessageAccepted`).
- The server does not check the size or subtype of an image (`AnySubtypeStored`).
- The extension is not sanitised, and `path.join` resolves ".." segments in it. An image whose
  subtype reads `x/../<file>` overwrites the existing upload `<file>` (`TraversalOverwrites`),
  and so does `x/../../uploads/<file>`, which leaves the directory and comes back in
  (`ReentryOverwrites`). With `x/../../<file>` the file lands in the server's own directory,
  outside the uploads directory (`EscapeWritesOutside`).
- Every failure produces the same text, "Failed to send message.", and nothing written before
  the failure is rolled back (`FailureReportedOnce`).

## Model

| member | source | states |
|---|---|---|
| JsString.SubstringInRange | backend/server.js:117 | with in-range ordered bounds `substring` is the plain slice |
| JsString.SubstringSwapped | backend/server.js:117 | `substring` swaps reversed bounds: the result is the same for (a, b) and (b, a) |
| JsString.SubstringPrefix | backend/server.js:100 | `substring(0, n)` is empty for n <= 0, the first n characters for 0 <= n <= length, the whole string beyond |
| JsString.Substring | backend/server.js:100 | `s.substring(a, b)`: both bounds are clamped to [0, length] and taken in increasing order; SubstringInRange, SubstringSwapped and SubstringPrefix state what it yields |
| JsString.IndexFrom | backend/server.js:117 | the answer is -1 or a position at or after the start from which the pattern fits |
| JsString.IndexFromIsFirst | backend/server.js:117 | no occurrence lies between the start position and the answer, nor anywhere after the start when the answer is -1 |
| JsString.IndexFromOccurs | backend/server.js:117 | an answer other than -1 is an occurrence |
| JsString.IndexOf | backend/server.js:117 | `indexOf` answers -1 or a position where the pattern fits |
| JsString.IndexOfIsFirst | backend/server.js:117 | `indexOf` is -1 exactly when the pattern occurs nowhere; otherwise it is an occurrence and none comes before it |
| JsString.IndexOfAfterPrefix | backend/server.js:117 | when the pattern's first character is absent from a, the first match in a + pat + b is at index \|a\| |
| JsString.IndexFromAbsent | backend/server.js:116 | a search finds nothing where the pattern's first character never occurs |
| JsString.NoneAfter | backend/server.js:116 | if the search from k finds nothing, `s[k..]` holds no occurrence at all |
| JsString.SplitFrom | backend/server.js:116 | splitting yields at least one piece |
| JsString.Split | backend/server.js:116 | `split` with a non-empty separator yields at least one piece |
| JsString.JoinSplitFrom | backend/server.js:116 | joining the pieces of `s[from..]` with the separator gives back `s[from..]` |
| JsString.JoinSplit | backend/server.js:116 | `split` loses nothing: joining its pieces with the separator gives the original string |
| JsString.LastStart | backend/server.js:116 | the last piece starts within the string, at or after the search start |
| JsString.LastStartNoMatch | backend/server.js:116 | no separator starts at or after where the last piece starts |
| JsString.LastStartAfterMatch | backend/server.js:116 | the last piece starts at the beginning or immediately after a separator |
| JsString.AfterLastShape | backend/server.js:116 | `split(sep).pop()` ends the string, contains no separator, and is the whole string or immediately follows a separator |
| JsString.LastPieceFrom | backend/server.js:116 | the last element of the split of `s[from..]` is the text from where the last piece starts |
| JsString.AfterLastIsLastPiece | backend/server.js:116 | the text after the last separator is exactly the element `pop` returns from `split` |
| JsString.AfterLastOfJoined | backend/server.js:116 | when the separator's first character occurs in neither a nor b, the last piece of a + sep + b is b |
| JsString.AfterLast | backend/server.js:116 | `s.split(sep).pop()`; AfterLastIsLastPiece proves it is the last element of `Split`, and AfterLastShape says what that text is |
| JsString.TrimStartShape | frontend/src/components/ChatInterface.tsx:166 | trimming the start removes exactly a leading run of white space |
| JsString.TrimEndShape | frontend/src/components/ChatInterface.tsx:166 | trimming the end removes exactly a trailing run of white space |
| JsString.BlankIffAllWhitespace | frontend/src/components/ChatInterface.tsx:166 | `!s.trim()` holds exactly when every character of s is ECMAScript white space |
| JsString.Trim | frontend/src/components/ChatInterface.tsx:166 | `s.trim()`; TrimStartShape, TrimEndShape and BlankIffAllWhitespace say exactly which characters it removes |
| JsString.Truthy | backend/server.js:97 | a string that may be null or undefined is truthy exactly when it is present and non-empty |
| DataUrl.BodyAfterLastSeparator | backend/server.js:116 | the stored body ends the data URL, contains no ";base64,", and is the whole URL or immediately follows a ";base64," |
| DataUrl.ParseDataUrlOf | backend/server.js:116-117 | on `data:image/<ext>;base64,<body>` with no ';' in ext or body, the slices recover exactly ext and body |
| DataUrl.NoMarker | backend/server.js:116-117 | without ";base64" the extension is the first 11 characters (the -1 bound is clamped and swapped) and the body is the whole string |
| DataUrl.MarkerInSeparator | backend/server.js:116-117 | an occurrence of ";base64," is an occurrence of ";base64" |
| DataUrl.IndexOfAbsentSeparator | backend/server.js:116-117 | a string without ";base64" has no ";base64," |
| DataUrl.MarkerBeforePrefixEnd | backend/server.js:117 | a ";base64" starting before position 11 makes `substring` swap, and the extension is the text between it and position 11 |
| DataUrl.UploadPathsDistinct | backend/server.js:118-122 | distinct uuids of equal length give distinct stored paths, whatever the extensions |
| DataUrl.ExtensionOf | backend/server.js:117 | the text between position 11 and the first ";base64", by `substring`; ParseDataUrlOf, NoMarker and MarkerBeforePrefixEnd state it on well-formed and malformed URLs |
| DataUrl.BodyOf | backend/server.js:116 | the last piece of the split at ";base64,"; BodyAfterLastSeparator states what it is |
| DataUrl.FileName | backend/server.js:118 | `${uuid}.${ext}`; FileNameStaysInside, ExtensionReachesSibling, ExtensionEscapes and ExtensionReenters state where it resolves |
| DataUrl.UploadPath | backend/server.js:122 | `/uploads/${filename}`, the reference stored with the message; UploadPathsDistinct states that distinct uuids give distinct references |
| DataUrl.FileNameStaysInside | backend/server.js:118-119 | a name and an extension without '/' resolve to that very file name directly inside the uploads directory |
| DataUrl.ExtensionReachesSibling | backend/server.js:117-121 | an extension `x/../<target>` makes the resolved path the existing name `<target>` in the uploads directory, not a new `<uuid>.` file |
| DataUrl.ExtensionEscapes | backend/server.js:117-121 | an extension `x/../../<target>` makes the resolved path `<target>` in the parent of the uploads directory, that is the server's own directory |
| DataUrl.ExtensionReenters | backend/server.js:117-121 | an extension `x/../../uploads/<target>` leaves the uploads directory and comes back in: it resolves to the same path as `<target>` |
| PathJoin.Segments | backend/server.js:119 | a path splits at '/' into at least one segment; SegmentsOfPlain, SegmentsCons and SegmentsAfterPlain state the split exactly |
| PathJoin.SegmentsOfPlain | backend/server.js:119 | a path with no '/' is a single segment |
| PathJoin.SegmentsCons | backend/server.js:119 | a leading '/' starts a new segment, any other first character joins the first segment |
| PathJoin.SegmentsAfterPlain | backend/server.js:119 | a '/'-free part followed by '/' is the first segment, and the rest splits on its own |
| PathJoin.Push | backend/server.js:119 | one step of `path.join`'s normalisation: "" and "." are dropped, ".." cancels the segment before it and at the root stays at the root; PushKeepsNormal states the invariant it keeps |
| PathJoin.Resolve | backend/server.js:119 | the absolute path `path.join(uploadsDir, name)` denotes; ResolveIsNormal, ResolvePlain, ResolveDotDot, ResolveEscapes and ResolveReenters state what it is |
| PathJoin.PushKeepsNormal | backend/server.js:119 | a normalisation step keeps every segment of an absolute path a real name (no "", "." or "..") |
| PathJoin.PushAllKeepsNormal | backend/server.js:119 | the same holds after any number of steps |
| PathJoin.PushAllAppend | backend/server.js:119 | normalising a concatenation of segment lists is normalising the first, then going on with the second |
| PathJoin.ResolveIsNormal | backend/server.js:119 | from a normalised directory every resolved path is normalised, so a file has exactly one resolved form |
| PathJoin.ResolvePlain | backend/server.js:119 | a name with no '/' that is not "", "." or ".." resolves to that entry directly inside the directory |
| PathJoin.PushSibling | backend/server.js:119 | a name, "..", then a target leave the target inside the starting directory |
| PathJoin.ResolveDotDot | backend/server.js:119 | `<head>/../<target>` resolves to `<target>` inside the directory |
| PathJoin.PushClimb | backend/server.js:119 | a name, "..", ".." climb from a directory to its parent |
| PathJoin.ResolveEscapes | backend/server.js:119 | `<head>/../../<target>` resolves to `<target>` in the parent of the directory |
| PathJoin.SegmentsOfReentry | backend/server.js:119 | the segments of `<head>/../../<sub>/<target>` |
| PathJoin.ResolveReenters | backend/server.js:119 | `<head>/../../<sub>/<target>`, from the directory `<sub>`, resolves to the same path as `<target>` |
| AuthGate.ErrorText | backend/server.js:67-78 | each rejection text starts with "Authentication error: " |
| AuthGate.ErrorTextsDistinct | backend/server.js:64-80 | the three rejection reasons have different texts |
| AuthGate.Authenticate | backend/server.js:64-80 | a falsy token is refused as missing; a token that fails verification (or whose lookup throws) is refused as invalid; a token naming no user is refused as not found; otherwise the named user is admitted. Each outcome is given as an if-and-only-if |
| RelayServer.EmitTo | backend/server.js:106 | emitting into a room appends one event to that room's log and leaves every other room's log unchanged |
| RelayServer.Title | backend/server.js:100 | `content.substring(0, 30) + '...'`; TitleShape states it |
| RelayServer.MockReply | backend/server.js:143 | the stub analysis text around the query; QueryOfMockReply proves the query can be read back |
| RelayServer.Failed | backend/server.js:153-156 | the catch block: one `messageError` into the sender's room, nothing else changed; FailureReportedOnce states what a failing run leaves |
| RelayServer.NewConversationFor | backend/server.js:98-101 | the new conversation is owned by the sender and titled from the content; NewConversationAnnouncedFirst states it |
| RelayServer.Touch | backend/server.js:109 | `findByIdAndUpdate`: refreshes `updatedAt` of the matching record, ignores a miss; ExistingConversationTouched states it |
| RelayServer.ResolveConversation | backend/server.js:96-110 | step 1: create and announce for a falsy id, refresh otherwise; Relay.FindOrCreateConversation is proved to perform it |
| RelayServer.ImagePath | backend/server.js:112-123 | `/uploads/<name>.<ext>` with a truthy image, null otherwise; ImageMaterialized states it |
| RelayServer.StoreImage | backend/server.js:112-121 | step 2: the body stored at the absolute path `path.join` resolves; StoreImageAddsOne, ExistingFileReplaced, TraversalOverwrites, ReentryOverwrites and SendKeepsKeysNormal state what the write adds or replaces |
| RelayServer.UserMessage | backend/server.js:125-132 | the user message document; SuccessfulSendLogsAndSchedules states its fields |
| RelayServer.HandleSend | backend/server.js:89-157 | one run of the handler; the RelayProperties lemmas state what a run does, and Relay.SendMessage is proved to perform it |
| RelayServer.AfterConversation | backend/server.js:112-157 | steps 2 to 5 once the conversation id is known; SuccessfulSendSteps states how a run decomposes into them |
| RelayServer.AfterUpload | backend/server.js:125-157 | steps 3 to 5; Relay.SaveAndEcho is proved to perform them |
| RelayServer.AssistantMessage | backend/server.js:140-146 | the reply document: the stub text for the query, masked with the user's image path; ReplyDelivered states it |
| RelayServer.DeliverNext | backend/server.js:139-151 | the oldest timer fires; ReplyDelivered and DeliverKeepsRepliesBacked state what it does and keeps |
| RelayServer.Relay.constructor | backend/server.js:50-61 | a server started from a directory has empty stores, that directory, and no admitted sockets |
| RelayServer.Relay.Connect | backend/server.js:64-87 | the verdict is `Authenticate`'s; an admitted socket records its user and, besides socket.io's own room named by the socket id, joins exactly the room named by the user's id; a refused one changes nothing |
| RelayServer.Relay.Emit | backend/server.js:155 | `io.to(room).emit` appends to that room's log |
| RelayServer.Relay.SendMessage | backend/server.js:89-157 | running the handler statement by statement leaves exactly the state `HandleSend` specifies, and every socket stays bound to its user's room |
| RelayServer.Relay.FindOrCreateConversation | backend/server.js:96-110 | creates and announces a conversation for a falsy id, or refreshes `updatedAt` of an existing record; returns the id used from then on |
| RelayServer.Relay.WriteImage | backend/server.js:112-123 | with a truthy image the body is stored at the absolute path `path.join(uploadsDir, "<name>.<ext>")` resolves to and `/uploads/<name>.<ext>` is returned; otherwise nothing is written and the result is null |
| RelayServer.Relay.SaveAndEcho | backend/server.js:125-151 | saves the user message, echoes it into the sender's room and schedules one reply, or on a save failure emits the error only |
| RelayServer.Relay.FireReply | backend/server.js:139-151 | the oldest timer saves the assistant message and emits it into its room |
| RelayProperties.TitleShape | backend/server.js:100 | the title is the first min(30, length) characters plus "...", so it is always 3 characters longer than that prefix |
| RelayProperties.QueryOfMockReply | backend/server.js:143 | the mock reply embeds the query verbatim: the text between its fixed opening and closing is exactly the query |
| RelayProperties.SendStaysInSenderRoom | backend/server.js:89-157 | a send emits nothing into any room but the sender's |
| RelayProperties.NewConversationAnnouncedFirst | backend/server.js:97-135 | a falsy id stores one conversation under the database's fresh id (one more conversation when that id is new), owned by the sender and titled from the content; `newConversation` is emitted before the echo, and (the run completing without interleaving) immediately before it |
| RelayProperties.ExistingConversationTouched | backend/server.js:107-110 | a truthy id creates no conversation and emits no `newConversation`; only that record's `updatedAt` changes |
| RelayProperties.NoOwnershipCheck | backend/server.js:107-132 | the message is saved under the given id even when the id is unknown or belongs to another user |
| RelayProperties.SuccessfulSendLogsAndSchedules | backend/server.js:125-151 | a successful send appends exactly the user message (raw content, image path) and schedules one reply with the same conversation, query and image path |
| RelayProperties.SuccessfulSendSteps | backend/server.js:96-151 | a run in which nothing throws is step 1, then the write, then steps 3 to 5, with step 1 leaving files, messages and timers alone |
| RelayProperties.ImageMaterialized | backend/server.js:112-123 | with an image and nothing yet at the resolved absolute path, exactly one new file is written there and earlier files are kept; without one, nothing is written and the stored reference is null |
| RelayProperties.StoreImageAddsOne | backend/server.js:116-122 | writing where nothing is yet at the resolved absolute path of `<name>.<ext>` adds exactly that one file with the body and keeps every other file; without an image nothing is written |
| RelayProperties.FailureReportedOnce | backend/server.js:153-156 | a failing step emits exactly one `messageError` "Failed to send message.", preceded by `newConversation` only if the conversation was already created; no message is saved, no reply is scheduled, and nothing is rolled back: a created or refreshed conversation stays, and so does a file written before the message save failed |
| RelayProperties.EmptyMessageAccepted | backend/server.js:89-135 | empty text without an image is saved and echoed, and no error is emitted |
| RelayProperties.AnySubtypeStored | backend/server.js:112-123 | a well-formed data URL of any subtype is written where `path.join` resolves `<name>.<subtype>` (that very name inside the uploads directory when neither part holds '/'), whatever is already there, and `/uploads/<name>.<subtype>` is stored with the message |
| RelayProperties.ExistingFileReplaced | backend/server.js:119-121 | when the resolved path already holds a file, the write replaces it and no new file appears |
| RelayProperties.TraversalOverwrites | backend/server.js:112-123 | a subtype `x/../<file>` makes the write land on the existing upload `<file>`, which is replaced; no new file appears |
| RelayProperties.ReentryOverwrites | backend/server.js:112-123 | a subtype `x/../../uploads/<file>` also lands on the existing upload `<file>`, which is replaced; no new file appears |
| RelayProperties.EscapeWritesOutside | backend/server.js:112-123 | a subtype `x/../../<file>` writes `<file>` into the server's own directory, a path not inside the uploads directory |
| RelayProperties.SendKeepsKeysNormal | backend/server.js:119-121 | from a normalised server directory, every file a send writes is keyed by a normalised absolute path, so no file is stored under two keys |
| RelayProperties.SendAppendsAtMostOne | backend/server.js:125-132 | the message log is append-only and grows by at most one entry per send |
| RelayProperties.ReplyDelivered | backend/server.js:139-151 | a timer firing appends one assistant message for the reply's conversation, embedding the query, masked with the user's image path, and emits it into the reply's room only |
| RelayProperties.SendKeepsRepliesBacked | backend/server.js:125-151 | every pending reply answers a saved user message with the same conversation, query and image; a send preserves this |
| RelayProperties.DeliverKeepsRepliesBacked | backend/server.js:139-151 | delivering a reply preserves the same invariant |
| RelayProperties.NewThreadRoundTrip | backend/server.js:89-151 | end to end, with the run completing before the timer fires and whatever is stored already: a first send followed by its timer gives the sender's room `newConversation`, the user's `messageReceived` and the assistant's `messageReceived`, in that order, all for the new conversation |
| Composer.SendableHasContent | frontend/src/components/ChatInterface.tsx:166 | whatever passes the guard has a non-white-space character or a non-empty image |
| Composer.WhitespaceOnlyRefused | src/components/ChatInterface.tsx:24 | white-space-only text without an image is refused |
| Composer.NothingToSend | frontend/src/components/ChatInterface.tsx:166 | `!inputValue.trim() && !uploadedImage`; SendableHasContent and WhitespaceOnlyRefused state both directions |
| ChatClient.UploadLimitBoundary | frontend/src/components/ChatInterface.tsx:190-226 | a file passes exactly when its size is at most 10485760 bytes (10 MiB) |
| ChatClient.GetImageUrlCases | frontend/src/components/ChatInterface.tsx:229-232 | the helper returns a path unchanged exactly when it is a `data:` URL; otherwise it prefixes the backend URL and keeps the path as the suffix |
| ChatClient.GetImageUrl | frontend/src/components/ChatInterface.tsx:229-232 | keeps a `data:` URL and prefixes anything else with the backend URL; GetImageUrlCases states it |
| ChatClient.SendBlocked | frontend/src/components/ChatInterface.tsx:166 | the send guard, also the button's `disabled` at line 426; ChatInterface.HandleSend is a no-op exactly when it holds |
| ChatClient.ChatInterface.constructor | frontend/src/components/ChatInterface.tsx:63-83 | the first render has empty state and no sent payload; the socket is opened only when there is a token |
| ChatClient.ChatInterface.OnMessageReceived | frontend/src/components/ChatInterface.tsx:86-94 | appends the message and reports ACTIVE; if the list was empty and the message is the user's, its conversation is passed to the parent |
| ChatClient.ChatInterface.OnNewConversation | frontend/src/components/ChatInterface.tsx:97-100 | passes the new conversation's id to the parent |
| ChatClient.ChatInterface.OnMessageError | frontend/src/components/ChatInterface.tsx:103-110 | reports ACTIVE and leaves the messages alone |
| ChatClient.ChatInterface.FetchMessages | frontend/src/components/ChatInterface.tsx:127-149 | without a conversation id or token the list is cleared; a successful fetch replaces it, and a failed one leaves it unchanged |
| ChatClient.ChatInterface.HandleSend | frontend/src/components/ChatInterface.tsx:165-180 | when the guard holds nothing changes; otherwise it reports ANALYSING, emits one payload (untrimmed text, current image, current conversation id) and clears the composer. Every payload ever sent has content |
| ChatClient.ChatInterface.HandleImageUpload | frontend/src/components/ChatInterface.tsx:190-206 | a file of at most 10 MiB is attached with its name; no file, or a larger one, changes nothing |
| ChatClient.ChatInterface.HandleDrop | frontend/src/components/ChatInterface.tsx:208-226 | the same size gate for a dropped file, with no type check |
| OfflineChat.Attached | src/components/ChatInterface.tsx:30 | `uploadedImage \|\| undefined` is present exactly when the image is truthy, and is then that image |
| OfflineChat.IsImageType | src/components/ChatInterface.tsx:66 | the MIME type starts with "image/"; ChatInterface.HandleDrop attaches exactly such files |
| OfflineChat.ChatInterface.constructor | src/components/ChatInterface.tsx:18-20 | the component starts with no messages, text or image |
| OfflineChat.ChatInterface.HandleSend | src/components/ChatInterface.tsx:23-49 | when the guard holds nothing changes; otherwise it appends one user message with the untrimmed text and the attached image, clears the composer, and schedules a reply that captures the image as it was at send time. User messages always have content |
| OfflineChat.ChatInterface.FireReply | src/components/ChatInterface.tsx:39-48 | the oldest timer appends the canned reply, masked with its captured image |
| OfflineChat.ChatInterface.HandleImageUpload | src/components/ChatInterface.tsx:51-60 | any chosen file is attached, with no type or size check |
| OfflineChat.ChatInterface.HandleDrop | src/components/ChatInterface.tsx:62-73 | a dropped file is attached only when its MIME type starts with "image/" |
| OfflineChat.ChatInterface.ClearImage | src/components/ChatInterface.tsx:113 | the clear button removes the attached image |

## Left out

- Express, CORS, static file serving, the REST routes and the server's start-up are not part of this model; only the socket.io core is.
- `jwt.verify` and `User.findById` are folded into one oracle (`resolve`). Token cryptography and the database lookup are not modelled.
- Mongoose persistence is a set of maps and a sequence. Database ids, `uuidv4()` and `Date.now()` are parameters, and which step throws is a `Fault` parameter. A malformed conversation id (line 109 throws) and a write into a missing directory or onto a directory (line 121 throws) are therefore choices of that parameter, not forced by the input.
- Base64 decoding and the file system are not modelled. A written file is the pair (extension, base64 text) under the absolute path `path.join` resolves, as its list of segments from the root; symbolic links are not modelled, so two different lists are taken to be two different files. Writing onto a path that is a directory (the uploads directory itself, for instance) or inside a directory that does not exist throws in the source; the model writes there unless the `Fault` parameter says the write throws.
- `setTimeout` becomes a FIFO queue of pending replies, fired one at a time. Every timer has the same delay, so they fire in order. A failure inside the timer (an unhandled rejection in the source) is not modelled.
- Delivery to live sockets, disconnects, and the socket id/room bookkeeping after a disconnect are not modelled. A room is a log of what was emitted into it.
- `content` is taken to be a string; the source would throw on a non-string content for a new conversation.
- The `isNewConversation` flag (backend/server.js:94, 104) is set but never read, so it is not modelled.
- React rendering, toasts, auto-scroll, drag highlighting, `handleExport`, the segmentation viewer and the presentation components are not part of this model.
- FileReader is treated as completing at once: the `File` value carries its data URL.
- The socket effect depends on `messages.length` (frontend/src/components/ChatInterface.tsx:76-124): on every change the cleanup disconnects the socket and a new connection is opened with fresh handlers, so events emitted into the room during the reconnect are lost. The model keeps one connection (`connected` stays true) that receives every event, and the handlers read the current message count, which is what each freshly registered closure sees.
- `onStatusChange` is treated as present. `status` records the last value passed to it.
- `connect_error` (frontend/src/components/ChatInterface.tsx:112-119) only shows a toast, so it is not modelled.
- RelayProperties.NewThreadScenario and OfflineChat.SendThenReattach drive the classes through a concrete scenario. They state their results as assertions, not as contracts, so they have no row above.
- RelayServer.HandleSend: a handler run is one uninterrupted step. In the source, other handlers and reply timers can run at the awaits on backend/server.js:102, 109 and 132, so another event can land in the room between `newConversation` and the echo, or an earlier reply can arrive between them. The model does not produce those interleavings.
- RelayServer.Relay.SendMessage: follows `HandleSend`, so it runs to completion in the same way.
- RelayProperties.NewConversationAnnouncedFirst: `newConversation` and the echo are adjacent in the room log only because of that run-to-completion reading. The source promises their order, not that nothing comes between them.
- RelayProperties.NewThreadRoundTrip: the three events are adjacent for the same reason, and because the lemma covers a send followed directly by its own timer. In the source, other sends and timers can emit into the room during those 2.5 s.
- JsString.Substring: strings are sequences of code points, while JavaScript's `substring` and `length` count UTF-16 code units. The two differ once a character outside the Basic Multilingual Plane appears, and JavaScript can cut a surrogate pair, which the model cannot represent.
- RelayProperties.TitleShape: counts code points for the same reason. For content with characters outside the Basic Multilingual Plane, the source's 30-unit title keeps fewer characters than the model's: 16 emoji give 15 plus "..." in the source and all 16 plus "..." here.
