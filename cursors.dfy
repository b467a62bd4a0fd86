/**
 The editor client's table of other users' cursors (`cursors`), keyed by
 socket id. Each handler is a pure old-table to new-table transform, as the
 component's `setCursors(prev => ...)` updaters are. A cursor's position comes
 from the editor's `getBounds` and is kept opaque (type parameter `P`).
 */
module Cursors {
  import opened Wire

  datatype Cursor<P> = Cursor(username: string, position: P)

  type CursorTable<P> = map<ConnId, Cursor<P>>

  /** `{ ...prev }` followed by `delete copy[socketId]`. */
  function Without<P>(prev: CursorTable<P>, socketId: ConnId): (next: CursorTable<P>)
    ensures next.Keys == prev.Keys - {socketId}
    ensures forall k :: k in next ==> next[k] == prev[k]
  {
    prev - {socketId}
  }

  /** The `update-cursor` handler. An event about this client's own socket is
      ignored; a non-null range shows the sender's cursor at the bounds of the
      range's start, replacing what was shown; a null range hides it. */
  function OnUpdateCursor<P>(prev: CursorTable<P>, self: ConnId, ev: CursorEvent,
                             getBounds: nat -> P): (next: CursorTable<P>)
    ensures ev.socketId == self ==> next == prev
    ensures ev.socketId != self ==> (ev.socketId in next <==> ev.range.Some?)
    ensures ev.socketId != self && ev.range.Some? ==>
              next[ev.socketId] == Cursor(ev.username, getBounds(ev.range.value.index))
    ensures forall k :: k != ev.socketId ==> (k in next <==> k in prev)
    ensures forall k :: k != ev.socketId && k in next ==> next[k] == prev[k]
  {
    if ev.socketId == self then prev
    else match ev.range
      case Some(range) => prev[ev.socketId := Cursor(ev.username, getBounds(range.index))]
      case None => Without(prev, ev.socketId)
  }

  /** The `user-disconnected` handler: drop that socket's cursor, nothing else. */
  function OnUserDisconnected<P>(prev: CursorTable<P>, socketId: ConnId): (next: CursorTable<P>)
    ensures socketId !in next
    ensures forall k :: k != socketId ==> (k in next <==> k in prev)
    ensures forall k :: k in next ==> next[k] == prev[k]
  {
    Without(prev, socketId)
  }

  /** `user-disconnected` applied twice is the same as once. */
  lemma UserDisconnectedIdempotent<P>(prev: CursorTable<P>, socketId: ConnId)
    ensures OnUserDisconnected(OnUserDisconnected(prev, socketId), socketId)
         == OnUserDisconnected(prev, socketId)
  {
  }

  /** Hiding a cursor that is not shown changes nothing, by either route. */
  lemma RemoveAbsentIsNoOp<P>(prev: CursorTable<P>, self: ConnId, ev: CursorEvent, getBounds: nat -> P)
    requires ev.socketId !in prev
    ensures OnUserDisconnected(prev, ev.socketId) == prev
    ensures ev.range.None? ==> OnUpdateCursor(prev, self, ev, getBounds) == prev
  {
    assert Without(prev, ev.socketId) == prev;
  }

  /** Showing a cursor and then hiding it again (a null range, or a disconnect)
      leaves the table as if that cursor had never been shown. */
  lemma ShowThenHide<P>(prev: CursorTable<P>, self: ConnId, sender: ConnId, username: string,
                        range: Range, getBounds: nat -> P)
    requires sender != self
    ensures var shown := OnUpdateCursor(prev, self, CursorEvent(sender, Some(range), username), getBounds);
            && OnUpdateCursor(shown, self, CursorEvent(sender, None, username), getBounds) == Without(prev, sender)
            && OnUserDisconnected(shown, sender) == Without(prev, sender)
  {
    var shown := OnUpdateCursor(prev, self, CursorEvent(sender, Some(range), username), getBounds);
    assert Without(shown, sender) == Without(prev, sender);
  }

  /** The last `update-cursor` from a sender decides what is shown for it:
      a later event overwrites an earlier one. */
  lemma LastCursorWins<P>(prev: CursorTable<P>, self: ConnId, first: CursorEvent, second: CursorEvent,
                          getBounds: nat -> P)
    requires first.socketId == second.socketId != self
    ensures OnUpdateCursor(OnUpdateCursor(prev, self, first, getBounds), self, second, getBounds)
         == OnUpdateCursor(prev, self, second, getBounds)
  {
    var sender := first.socketId;
    var once := OnUpdateCursor(prev, self, first, getBounds);
    assert Without(once, sender) == Without(prev, sender);
  }
}
