# Presentation slot: a verified model

The system lets an admin page choose the image that every connected viewer
shows. The server keeps one optional image URL in memory. When a client
connects, the server sends it the stored value. When any client sends
"changeImage", the server stores the new URL and then broadcasts it as
"imageChanged" to every connected client, the sender included. The pages keep
a little local state that these events drive.

This project models that core in Dafny:

- `storage.dfy` — module `Storage`: the store, a class `Store` with one
  mutable field `state` (a `PresentationState` record) and its
  get/set/copy methods.
- `websocket.dfy` — module `WebSocket`: the broadcast server. The abstract
  state is `Hub`: the stored image, the set of live connection ids, one outbox
  per live connection (the ordered "imageChanged" payloads sent to it), and
  the next fresh id. There is one function per handler (`AfterConnect`,
  `AfterChangeImage`, `AfterDisconnect`), plus `Run` over event sequences.
  Class `Server` holds a reference to a caller-owned `Store` and is proved to
  follow these functions. Its
  `ChangeImage` loops over the live connections and appends to each outbox.
- `admin.dfy`, `viewer.dfy`, `home.dfy` — the event handlers of the three
  pages as classes whose fields are the pages' state variables. The rendering
  choices (placeholder, caption) are pure functions.
- `js.dfy` — the JavaScript semantics the pages use: truthiness of
  `string | null`, and `trim`.
- `options.dfy` — `Option`, standing for `string | null`.

Sockets are abstract. A connection is a `nat` id that the server allocates and
never reuses. An emit is an append to that connection's outbox. Events are
handled one at a time, in the order the server receives them.

Two behaviours come from the transport, not from the handler code:

- Socket.IO removes a closed socket from the broadcast set by itself. The
  source's `disconnect` handler only logs. `AfterDisconnect` models that
  removal.
- A "changeImage" can only reach a handler registered on a connected socket.
  So in the model, a request whose sender is no longer live changes nothing.

## Model

| member | source | states |
|---|---|---|
| `Storage.Store.constructor` | lib/storage.ts:6-8 | a new store holds no image (`currentImage` is null) |
| `Storage.Store.GetCurrentImage` | lib/storage.ts:10-12 | returns exactly the stored value and changes nothing |
| `Storage.Store.SetCurrentImage` | lib/storage.ts:14-16 | afterwards the store holds `Some(url)` for any `url`, `""` included, with no validation |
| `Storage.Store.GetState` | lib/storage.ts:18-20 | returns a record equal to the current state; the store is unchanged |
| `Storage.Written` | lib/storage.ts:14-16 | the state after a write holds exactly the written URL |
| `Storage.LastWriteWins` | lib/storage.ts:14-16 | writing `a` then `b` gives the same state as writing `b` alone |
| `Storage.WriteIdempotent` | lib/storage.ts:14-16 | writing the same URL twice gives the same state as writing it once |
| `Storage.WriteThenRead` | lib/storage.ts:10-16 | on a store object, `set(a); set(b); get()` returns `b` |
| `WebSocket.AfterConnect` | lib/websocket.ts:13-17 | the connection handler: the new id joins the live set and its outbox is exactly the stored value; the store is unchanged; the invariant is kept |
| `WebSocket.AfterChangeImage` | lib/websocket.ts:19-23 | the "changeImage" handler: the store becomes `url` when the sender is live (otherwise the request is lost and nothing changes); the live set is unchanged; the invariant is kept |
| `WebSocket.AfterDisconnect` | lib/websocket.ts:25-27 | disconnection, with the transport's removal of the closed socket: the id leaves the live set; the store is unchanged; the invariant is kept |
| `WebSocket.Step` | lib/websocket.ts:13-27 | one handler run, events handled one at a time: keeps the invariant, never reuses an id, and only "changeImage" can change the store |
| `WebSocket.Run` | lib/websocket.ts:13-27 | after any sequence of events the invariant holds, so each live connection's last message equals the stored value; ids are never reused |
| `WebSocket.Shown` | src/app/viewer/page.tsx:23-25 | a client whose "imageChanged" handler overwrites its image shows the last message it handled, or its old image if it handled none |
| `WebSocket.StartedInv` | lib/websocket.ts:5-13 | a freshly started server has no connections and satisfies the server invariant |
| `WebSocket.ConnectCatchUp` | lib/websocket.ts:13-17 | a new connection gets a fresh id and exactly one message, the stored value (possibly null); the store and every other outbox are unchanged; the invariant is kept |
| `WebSocket.ChangeImageFanOut` | lib/websocket.ts:19-23 | the store becomes `url`; every live connection, the sender included, gets `url` appended exactly once; the live set is unchanged; the invariant is kept |
| `WebSocket.ChangeImageLost` | lib/websocket.ts:19-23 | a request from a connection that is no longer live changes nothing |
| `WebSocket.DisconnectIsolation` | lib/websocket.ts:25-27 | disconnecting removes only that id; the store and the other outboxes are unchanged; the invariant is kept |
| `WebSocket.BroadcastAfterDisconnect` | lib/websocket.ts:19-27 | after one client disconnects, a broadcast still reaches every remaining connection |
| `WebSocket.NoReuse` | lib/websocket.ts:13-17 | an id that has disconnected never becomes live again, so a reconnecting client is a new connection |
| `WebSocket.AppendOnly` | lib/websocket.ts:16-22 | outboxes are append-only: what a connection was sent earlier is a prefix of what it is sent later (per-connection FIFO) |
| `WebSocket.QuietKeepsImage` | lib/websocket.ts:13-27 | connecting and disconnecting never change the stored value |
| `WebSocket.LastWriteWins` | lib/websocket.ts:19-22 | after a request for `url`, and as long as no later request arrives, the store holds `url` and a newly connecting client is caught up with `url` |
| `WebSocket.Converged` | lib/websocket.ts:16-22 | after any events from a fresh start, every live client that has handled its messages shows the stored value |
| `WebSocket.ClearScenario` | lib/websocket.ts:16-22 | two clients connect, one publishes a slide and then `""`; both receive null, the slide, then `""`, and the store ends at `""` |
| `WebSocket.Server.constructor` | lib/websocket.ts:5-13 | a server over a given store starts with no connections, in the abstract state `Started` |
| `WebSocket.Server.Connect` | lib/websocket.ts:13-17 | adds a fresh id and sends it the stored value (`AfterConnect`); keeps `Valid` |
| `WebSocket.Server.ChangeImage` | lib/websocket.ts:19-23 | stores `url` and then, by a loop over the live set, appends it to every live outbox (`AfterChangeImage`); keeps `Valid` |
| `WebSocket.Server.Disconnect` | lib/websocket.ts:25-27 | removes the id and its outbox (`AfterDisconnect`); keeps `Valid` |
| `Js.Truthy` | src/app/admin/page.tsx:52 | a string-or-null value is truthy exactly when it is neither null nor `""` |
| `Js.SkipLeading` | src/app/admin/page.tsx:39-40 | the leading scan of `trim`: everything skipped is white space and it stops at the first non-white-space character or the end |
| `Js.SkipTrailing` | src/app/admin/page.tsx:39-40 | the trailing scan of `trim`: everything dropped from the end is white space and it stops after the last non-white-space character or at the start |
| `Js.Trim` | src/app/admin/page.tsx:39-40 | the trimmed string is no longer than the input and neither starts nor ends with white space |
| `Js.TrimIsInfix` | src/app/admin/page.tsx:39-40 | `trim` keeps a contiguous piece of its input and drops only white space on either side |
| `Js.TrimEmptyIff` | src/app/admin/page.tsx:39 | `trim` yields `""` exactly when the input is entirely white space |
| `Js.TrimIdempotent` | src/app/admin/page.tsx:39-40 | trimming twice equals trimming once |
| `Admin.ShowsPlaceholder` | src/app/admin/page.tsx:52-63 | "No image selected" is shown exactly when the current image is null or `""` |
| `Admin.AdminPage.constructor` | src/app/admin/page.tsx:15-17 | the page starts with no socket, no image and an empty input |
| `Admin.AdminPage.Mount` | src/app/admin/page.tsx:19-21 | the mount effect makes the socket present and changes nothing else |
| `Admin.AdminPage.OnImageChanged` | src/app/admin/page.tsx:23-25 | receiving `imageChanged(u)` sets the local image to `u` only |
| `Admin.AdminPage.EditCustomImageUrl` | src/app/admin/page.tsx:94 | typing sets the input to the typed text only |
| `Admin.AdminPage.ChangeImage` | src/app/admin/page.tsx:32-36 | emits `changeImage(url)` exactly when the socket is present, otherwise does nothing |
| `Admin.AdminPage.HandleCustomImage` | src/app/admin/page.tsx:38-43 | a blank input publishes nothing and stays as it is; otherwise the non-empty trimmed input is published (when there is a socket) and the input is reset to `""` (even when there is none) |
| `Admin.AdminPage.ClearDisplay` | src/app/admin/page.tsx:108-110 | "Clear Display" publishes exactly `""` |
| `Viewer.ShowsWaiting` | src/app/viewer/page.tsx:44-58 | the waiting placeholder is shown exactly when the current image is null or `""` |
| `Viewer.Caption` | src/app/viewer/page.tsx:64 | a name of at most 60 characters is kept as is; a longer one becomes its first 60 characters followed by `...`; the caption is never longer than 63 |
| `Viewer.CaptionKeepsPrefix` | src/app/viewer/page.tsx:64 | the caption always begins with as much of the name as fits in 60 characters |
| `Viewer.CaptionBar` | src/app/viewer/page.tsx:61-67 | the caption bar is rendered, with the caption of the image, exactly when the image (and not the placeholder) is shown |
| `Viewer.ViewerPage.constructor` | src/app/viewer/page.tsx:8-9 | the page starts with no image and disconnected |
| `Viewer.ViewerPage.OnConnect` | src/app/viewer/page.tsx:15-17 | `connect` sets the flag to true and leaves the image as it is |
| `Viewer.ViewerPage.OnDisconnect` | src/app/viewer/page.tsx:19-21 | `disconnect` sets the flag to false and leaves the image as it is |
| `Viewer.ViewerPage.OnImageChanged` | src/app/viewer/page.tsx:23-25 | `imageChanged(u)` sets the image to `u` and leaves the flag as it is |
| `Home.ShowsWaiting` | src/app/page.tsx:47-65 | the placeholder is shown exactly when the current image is null or `""` |
| `Home.HomePage.constructor` | src/app/page.tsx:8-9 | the page starts with no image and disconnected |
| `Home.HomePage.OnConnect` | src/app/page.tsx:14-16 | `connect` sets the flag to true and leaves the image as it is |
| `Home.HomePage.OnDisconnect` | src/app/page.tsx:18-20 | `disconnect` sets the flag to false and leaves the image as it is |
| `Home.HomePage.OnImageChanged` | src/app/page.tsx:22-24 | `imageChanged(u)` overwrites the image with `u` and leaves the flag as it is |

## Left out

- The Socket.IO transport, the HTTP server and the CORS settings (lib/websocket.ts:6-11) are foreign library code. Connections are abstract ids with outboxes.
- Network timing, delivery order across connections, and failed writes are not modelled. Events are one sequential interleaving, and an emit is an append that always succeeds.
- The `console.log` calls (lib/websocket.ts:14, lib/websocket.ts:26) are output with no effect on state.
- Process restart and persistence are not modelled beyond this: a new `Store` holds no image, and `Started(None)` is a fresh server.
- React rendering, CSS, `<img>` loading, the `useEffect` lifecycle and `socket.close()` on unmount are framework concerns. Only the handlers and the placeholder/caption choices are modelled. The connection-status labels are left out too.
- React's asynchronous, batched `setState`, and the `socket` value captured by a render's closures, are not modelled. Each handler updates the page's fields at once.
- `SAMPLE_IMAGES` (src/app/admin/page.tsx:6-12) is configuration data. A click on a sample is `AdminPage.ChangeImage` with any URL.
- The admin page's emits are recorded in its `emitted` field. They are not wired to `Server.ChangeImage`: the connection from client to server is the transport that this model abstracts away.
- The "changeImage" payload is typed `string` only by a TypeScript annotation (lib/websocket.ts:19). At run time the server stores and rebroadcasts whatever a client sends, such as `null` or a number. `Event.ChangeImage` carries only strings, which is what every client here sends.
- Js.IsWhitespace: covers the ASCII white space, NBSP and BOM, not the full Unicode white-space and line-terminator set that JavaScript's `trim` removes.
- Viewer.Caption: counts Dafny characters (Unicode scalar values). JavaScript's `length` and `substring` count UTF-16 code units, so the two differ on characters outside the Basic Multilingual Plane.
