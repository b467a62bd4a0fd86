/**
 Values and events exchanged between the editor clients and the relay server
 over socket.io. Document contents and edit deltas are JSON values that the
 relay never looks inside.
 */
module Wire {

  datatype Option<+T> = None | Some(value: T)

  /** `socket.id`: the identifier socket.io gives each connection. */
  type ConnId = string

  /** The argument of `get-document` as the client sends it: a document id,
      or null/undefined (both are caught by the server's `id == null`). */
  datatype DocId = Null | Id(key: string)

  /** A JSON value as carried by socket.io and stored in a document's `data`. */
  datatype Json =
    | JNull
    | JBool(b: bool)
    | JNum(n: int)
    | JStr(s: string)
    | JArr(items: seq<Json>)
    | JObj(fields: map<string, Json>)

  /** A Quill selection: the caret or selected span. */
  datatype Range = Range(index: nat, length: nat)

  /** The `send-cursor` payload a client sends: `{ range, username }`;
      `range` is null when the editor has lost focus. */
  datatype CursorData = CursorData(range: Option<Range>, username: string)

  /** The `update-cursor` payload the server relays: `{ socketId, range, username }`. */
  datatype CursorEvent = CursorEvent(socketId: ConnId, range: Option<Range>, username: string)

  /** Events a client emits to the server. */
  datatype ClientEvent =
    | GetDocument(id: DocId)
    | SendChanges(delta: Json)
    | SendCursor(cursor: CursorData)
    | SaveDocument(data: Json)

  /** Events a client listens for. `UserDisconnected` has a client listener
      but no server code that emits it. */
  datatype ServerEvent =
    | LoadDocument(data: Json)
    | UpdateActiveUsers(count: nat)
    | ReceiveChanges(delta: Json)
    | UpdateCursor(cursor: CursorEvent)
    | UserDisconnected(socketId: ConnId)

  /** One emit on the server: an event and the connections it reaches. */
  datatype Emit = Emit(to: set<ConnId>, event: ServerEvent)
}
