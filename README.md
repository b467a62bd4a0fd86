# Collaborative editor relay: a Dafny model

This project models the coordination core of a small real-time collaborative
text editor. The editor is a React/Quill client; the relay is a Node.js
socket.io server backed by a MongoDB `Document` collection. It has two parts.

**The relay server** (`server/server.js`). This is the `io.on("connection")`
handler and the handlers it installs on each socket. The `Server.Relay` class
holds the server's mutable state:

- the socket.io room table, `map<DocId, set<ConnId>>`;
- the document collection, `map<string, Json>`;
- which handlers each live connection has installed (`Phase`);
- each connection's `activeUsers` variable.

Each socket event is one method, run as one atomic step. Each method returns
every emit it makes, as a recipient set and a payload.

- A connection starts unbound. `get-document` runs `findOrCreateDocument`,
  joins the room, and broadcasts the recomputed room size to the whole room.
  It then sends `load-document` to the joiner alone. Only then are the
  `send-changes`, `send-cursor`, `save-document` and `disconnect` handlers
  installed.
- The room-table operations are pure functions in module `Rooms`:
  - `socket.join`;
  - the adapter's leave-all on disconnect, which deletes emptied rooms;
  - `rooms.get(id)?.size || 0`;
  - `socket.broadcast.to`.
- The collection operations are pure functions in module `Documents`:
  `findOrCreateDocument` and `findByIdAndUpdate`.
- `Server.Consistent` ties the room table, the collection and the installed
  handlers together:
  - a document's room holds exactly the connections bound to it;
  - every bound document exists.

  Every method keeps this invariant. `PresenceIsBoundCount` derives from it
  that the broadcast count is the live number of connections bound to the
  document.

**The editor client** (`client/src/TextEditor.jsx`). This is a state machine
of pure functions.

- The remote-cursor table (module `Cursors`) changes through old-map to
  new-map transforms for `update-cursor` and `user-disconnected`.
- Module `Editor` holds the rest of the component's state:
  - the enable flag and the one-shot `load-document` listener;
  - the active-user count;
  - the editor contents, kept as the last full `setContents` plus the deltas
    applied on top of it.
- The `text-change` echo filter and the `send-cursor` payload are pure
  functions.

Module `Session` relates the two sides. It shows what a peer sees once the
server has relayed one client's selection or edit. It also plays through a
two-editor session on a `Relay` object.

Points where the code does something easy to miss; the model follows the
code:

- **Null document id.** `get-document` with a null id does not fail silently.
  The socket still joins a room named null, and the count is broadcast to that
  room. Then reading `document.data` of the missing document throws. The model
  returns `Crashed`, with the one emit that did happen, and installs no
  handlers.
- **`user-disconnected`.** The server never emits it, although the client
  listens for it. On disconnect the peers only get the new count.
  `DisconnectKeepsCursors` shows that a departed user's cursor then stays
  shown.
- **Store failures abort before the join.** Only a lookup that succeeds and
  finds nothing reaches `Document.create` (server/server.js:150-152). A
  failing `findById` rejects the `await` at server/server.js:116, so the
  handler stops before the join: no room entry, no count and no load. Store
  failures are not modelled (see "Left out").
- **Saving to a missing document.** `findByIdAndUpdate` does not upsert, so
  saving to an id with no document changes nothing (`Documents.Update`). For a
  bound connection the document always exists, so a save is an overwrite.

## Model

| member | source | states |
|---|---|---|
| `Rooms.Size` | server/server.js:118 | the count is the size of the room, and is 0 exactly when the room is absent (empty rooms are deleted) |
| `Rooms.JoinAddsMember` | server/server.js:117 | `socket.join` puts the socket in the room (creating it), touches no other room and creates no empty room |
| `Rooms.LeaveAll` | server/server.js:139-141 | on disconnect the socket is in no room afterwards, every other member stays where it was, and no empty room is kept |
| `Rooms.BroadcastTo` | server/server.js:125 | `socket.broadcast.to` reaches exactly the room's members other than the sender |
| `Rooms.SizeAfterJoin` | server/server.js:117-118 | a join raises the room's count by one unless the socket was already a member |
| `Rooms.SizeAfterLeaveAll` | server/server.js:139-141 | a disconnect lowers the count of each room the socket was in by exactly one |
| `Rooms.JoinLeaveAllRoundTrip` | server/server.js:117 | a socket in no room that joins and then disconnects leaves the room table exactly as it was |
| `Documents.FindOrCreate` | server/server.js:147-153 | a null id yields nothing and leaves the collection alone; a known id yields the stored document unchanged; an unknown id creates it with data `""` and yields it; only that id may be added |
| `Documents.Update` | server/server.js:136 | `findByIdAndUpdate` replaces the data of an existing document, keeps every other document, and adds nothing for an unknown id |
| `Documents.FindOrCreateKeepsOthers` | server/server.js:150-152 | a lookup never alters a stored document and grows the collection by exactly one when the id is new |
| `Documents.FindOrCreateIdempotent` | server/server.js:150-151 | a second lookup of the same id returns the same document and creates nothing |
| `Documents.UpdateLastWriteWins` | server/server.js:135-137 | of two saves to a document the later one wins |
| `Documents.SaveThenLoad` | server/server.js:136 | the next lookup after a save returns the saved data |
| `Server.RelayedCursor` | server/server.js:129-132 | the relayed cursor carries the sender's socket id with the sender's range and username |
| `Server.PresenceIsBoundCount` | server/server.js:118 | in a consistent state a document's room is exactly the set of connections bound to it, so the count broadcast is the number of live connections on that document |
| `Server.NullJoinKeepsConsistent` | server/server.js:116-122 | a null-id join leaves the connection unbound in the null room and the state consistent |
| `Server.BindKeepsConsistent` | server/server.js:115-122 | a completed join binds the connection to an existing document, in that document's room only |
| `Server.Relay.constructor` | server/server.js:110 | the server starts with no rooms and no connections over the persisted collection |
| `Server.Relay.Connect` | server/server.js:110-113 | a new connection is unbound with an active-user count of 0; rooms and collection are untouched |
| `Server.Relay.FindOrCreateDocument` | server/server.js:147-153 | the method's result and new collection are those of `Documents.FindOrCreate` |
| `Server.Relay.GetDocument` | server/server.js:115-122 | the joiner joins the room, the recomputed room size goes to every member including the joiner, then the stored data goes to the joiner alone and the handlers are installed; a null id ends in `Crashed` after the join and the broadcast, with no load and no handlers |
| `Server.Relay.SendChanges` | server/server.js:124-126 | a delta goes unchanged to exactly the room minus the sender; before `get-document` nothing is sent |
| `Server.Relay.SendCursor` | server/server.js:128-133 | the cursor tagged with the sender id goes to exactly the room minus the sender; before `get-document` nothing is sent |
| `Server.Relay.SaveDocument` | server/server.js:135-137 | the bound document's data is overwritten and no other document changes; before `get-document` nothing changes |
| `Server.Relay.Disconnect` | server/server.js:139-143 | the socket leaves every room; if bound, exactly one `update-active-users` with the recomputed size goes to the rest of its room; no `user-disconnected` is sent; the connection is forgotten |
| `Cursors.Without` | client/src/TextEditor.jsx:77-81 | the spread copy with one key deleted has that key removed and every other entry unchanged |
| `Cursors.OnUpdateCursor` | client/src/TextEditor.jsx:68-83 | an event about the client's own socket changes nothing; otherwise a range shows the sender's cursor with its username at the bounds of the range start, replacing any prior entry, and a null range removes it; all other entries are unchanged |
| `Cursors.OnUserDisconnected` | client/src/TextEditor.jsx:85-91 | the socket's entry is removed and nothing else changes |
| `Cursors.UserDisconnectedIdempotent` | client/src/TextEditor.jsx:85-91 | applying `user-disconnected` twice equals applying it once |
| `Cursors.RemoveAbsentIsNoOp` | client/src/TextEditor.jsx:76-81 | removing a cursor that is not shown (by null range or by disconnect) leaves the table unchanged |
| `Cursors.ShowThenHide` | client/src/TextEditor.jsx:70-81 | showing a cursor and then hiding it leaves the table as if it had never been shown |
| `Cursors.LastCursorWins` | client/src/TextEditor.jsx:70-75 | of two cursor events from one sender only the later one matters |
| `Editor.Mount` | client/src/TextEditor.jsx:143-144 | a mounted editor is disabled, shows `Loading...`, awaits its document and has no cursors |
| `Editor.OnTextChange` | client/src/TextEditor.jsx:116-119 | a change is sent as `send-changes` exactly when its source is `"user"` |
| `Editor.OnSelectionChange` | client/src/TextEditor.jsx:121-123 | every `send-cursor` carries the current range, possibly null, and the client's username |
| `Editor.OnUserEdit` | client/src/TextEditor.jsx:116-118 | a disabled editor takes no input and sends nothing; an enabled one applies the edit and sends it once |
| `Editor.OnServerEvent` | client/src/TextEditor.jsx:59-111 | no server event makes the client send anything; only the first `load-document` sets the contents and enables the editor; the other events change only the count, the cursor table or the applied deltas |
| `Editor.LoadAppliedOnce` | client/src/TextEditor.jsx:59-62 | over any event sequence the editor is enabled exactly when a `load-document` arrived, and its contents rest on the first such document only |
| `Editor.DisabledUntilFirstLoad` | client/src/TextEditor.jsx:143-144 | from mount the editor stays disabled on `Loading...` and ignores typing until the first `load-document`, then is enabled on that document |
| `Editor.UsernameFixed` | client/src/TextEditor.jsx:48 | after any events the client's socket id is unchanged and every `send-cursor` still carries the username drawn at mount |
| `Session.CursorReachesPeer` | client/src/TextEditor.jsx:121-122 | a selection change relayed by the server shows (or for a null range hides) the sender's cursor at a peer under its username, leaving other cursors alone |
| `Session.OwnCursorIgnored` | client/src/TextEditor.jsx:69 | a cursor event about the client's own socket leaves the client unchanged |
| `Session.EditReachesPeerOnce` | client/src/TextEditor.jsx:106-118 | a user edit is sent once; at a peer the relayed delta is applied and not sent back |
| `Session.DisconnectKeepsCursors` | server/server.js:139-143 | the only emit a disconnect makes leaves the peers' cursor tables unchanged, so a departed user's cursor stays shown |
| `Session.FirstEditorJoins` | server/server.js:115-122 | on a fresh server the first joiner of `doc1` gets count 1 and the new empty document |
| `Session.SecondEditorJoins` | server/server.js:117-122 | the second joiner's count of 2 reaches both editors, its document only itself |
| `Session.EditThenLeave` | server/server.js:124-143 | A's delta reaches B only; when B closes, A receives count 1 and nothing else |
| `Session.TwoEditorSession` | server/server.js:115-143 | one session on one server: A's join gets count 1 and the empty document; B's join sends count 2 to both and the document to B only; A's delta reaches B only; B's close sends only count 1 to A |
| `Session.SaveThenReopen` | server/server.js:135-137 | what a client saved is what the next editor to open the document loads |

## Left out

- The Express app, HTTP listener, health routes, Mongo connection and dotenv configuration (server/server.js:69-108, 155-158) are I/O plumbing.
- The commented-out earlier server (server/server.js:1-67) is dead code.
- socket.io transport: delivery order, per-sender FIFO and framing are not modelled. Broadcasts are recipient sets only.
- Interleaving at the `await` points (server/server.js:116, 136) is not modelled. Each handler is one atomic step.
- Store failures are not modelled: a rejected `findById`, `create` or `findByIdAndUpdate`, or an unreachable database. The collection is a map that always answers.
- socket.io's private per-socket room, named by the socket id, is not modelled. A document id equal to a live socket id would also count that socket.
- `DocId.Null` stands for both `null` and `undefined`. socket.io would treat them as two room names.
- After a `Crashed` `get-document` the model assumes the server process outlives the rejected handler: the socket stays in the null room, counts for later null joiners and may send `get-document` again. The throw at server/server.js:122 is an unhandled promise rejection, which by Node's default since version 15 ends the process; that process exit is not modelled.
- Server.Relay.GetDocument: requires an unbound connection. A second `get-document` on a bound connection would register a second set of handlers, and that duplicate registration is not modelled.
- Server.RelayedCursor: `cursorData` is modelled as `{ range, username }`, the only shape the client sends. A payload with its own `socketId` field would override the sender's id through the object spread; that case is not modelled.
- Server.Relay.Valid: does not tie `activeUsers` to the live connections. Each method states that map's exact update instead.
- The client's periodic `save-document` timer (client/src/TextEditor.jsx:98-101) is not modelled. On the server, `save-document` is a plain event.
- Client socket wiring is not modelled: creating and closing the socket, `socket.on`/`off` registration and the `get-document` emit at mount (client/src/TextEditor.jsx:50-54, 93).
- React rendering, the toolbar and `UserCursor` styling are not modelled.
- A cursor's position (`quill.getBounds`, floating-point pixels) is an opaque type parameter. `getBounds` is a parameter.
- The random username is a parameter of `Editor.Mount`.
- Quill's delta composition is not interpreted. Contents are the last full document plus the deltas applied since.
- A disabled Quill editor ignores typing. This is the widget's behaviour, stated in `Editor.OnUserEdit`.
- JSON numbers are integers here. Floating point does not matter, because document data and deltas are never inspected.
