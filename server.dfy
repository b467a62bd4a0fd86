/**
 The relay server: the `io.on("connection")` handler and the handlers it
 installs on each socket. Every handler runs as one atomic step and returns
 the emits it makes, each with its set of recipients.
 */
module Server {
  import opened Wire
  import opened Rooms
  import opened Documents

  /** Which handlers a connection has: before a successful `get-document` only
      that one; afterwards also `send-changes`, `send-cursor`, `save-document`
      and `disconnect`, all closed over the document id. */
  datatype Phase = Unbound | Bound(doc: string)

  /** How a `get-document` handler ended. `Crashed`: the id was null, so
      reading `data` of the missing document threw after the join and the
      count broadcast, and no further handler was installed. */
  datatype Outcome = Completed | Crashed

  /** The `update-cursor` payload `{ socketId: socket.id, ...cursorData }`. */
  function RelayedCursor(sender: ConnId, data: CursorData): (ev: CursorEvent)
    ensures ev.socketId == sender
    ensures ev.range == data.range && ev.username == data.username
  {
    CursorEvent(sender, data.range, data.username)
  }

  /** The connections whose handlers are bound to document `d`. */
  ghost function BoundTo(phase: map<ConnId, Phase>, d: string): set<ConnId> {
    set c | c in phase && phase[c] == Bound(d)
  }

  /** How the room table, the collection and the connections' handlers stay
      in step: rooms hold only live connections, a bound connection is in its
      document's room and its document exists, and a document's room holds
      only connections bound to it. */
  ghost predicate Consistent(rooms: RoomTable, store: Store, phase: map<ConnId, Phase>) {
    && NoEmptyRooms(rooms)
    && (forall k, c :: k in rooms && c in rooms[k] ==>
          c in phase && (k.Id? ==> phase[c] == Bound(k.key)))
    && (forall c :: c in phase && phase[c].Bound? ==>
          phase[c].doc in store && Id(phase[c].doc) in rooms && c in rooms[Id(phase[c].doc)])
  }

  /** The presence count for a document is the number of connections bound
      to it: it is recomputed from membership, never a drifting counter. */
  lemma PresenceIsBoundCount(rooms: RoomTable, store: Store, phase: map<ConnId, Phase>, d: string)
    requires Consistent(rooms, store, phase)
    ensures Members(rooms, Id(d)) == BoundTo(phase, d)
    ensures Size(rooms, Id(d)) == |BoundTo(phase, d)|
  {
    forall c | c in BoundTo(phase, d)
      ensures c in Members(rooms, Id(d))
    {
      assert phase[c].Bound? && phase[c].doc == d;
    }
  }

  /** A join with a null id keeps the state consistent: the connection sits
      unbound in the null room. Growing the collection never breaks it. */
  lemma NullJoinKeepsConsistent(rooms: RoomTable, store: Store, store': Store,
                                phase: map<ConnId, Phase>, c: ConnId)
    requires Consistent(rooms, store, phase) && c in phase && phase[c] == Unbound
    requires store.Keys <= store'.Keys
    ensures Consistent(Join(rooms, Null, c), store', phase)
  {
  }

  /** A completed join keeps the state consistent: the connection is bound to
      a document that exists and is in that document's room only. */
  lemma BindKeepsConsistent(rooms: RoomTable, store: Store, store': Store,
                            phase: map<ConnId, Phase>, c: ConnId, key: string)
    requires Consistent(rooms, store, phase) && c in phase && phase[c] == Unbound
    requires store.Keys <= store'.Keys && key in store'
    ensures Consistent(Join(rooms, Id(key), c), store', phase[c := Bound(key)])
  {
    var r := Join(rooms, Id(key), c);
    var p := phase[c := Bound(key)];
    forall d | c in Members(rooms, Id(d))
      ensures false
    {
    }
    forall d, x | x in Members(r, Id(d))
      ensures x in p && p[x] == Bound(d)
    {
      if x != c {
        assert x in Members(rooms, Id(d));
      }
    }
  }

  class Relay {
    /** `io.sockets.adapter.rooms` */
    var rooms: RoomTable
    /** The `Document` collection. */
    var store: Store
    /** The handlers each live connection has installed. */
    var phase: map<ConnId, Phase>
    /** Each connection's `let activeUsers`. */
    var activeUsers: map<ConnId, nat>

    ghost predicate Valid()
      reads this
    {
      Consistent(rooms, store, phase)
    }

    /** A server process starting over a persisted collection: no rooms, no connections. */
    constructor (persisted: Store)
      ensures Valid()
      ensures rooms == map[] && store == persisted && phase == map[] && activeUsers == map[]
    {
      rooms, store, phase, activeUsers := map[], persisted, map[], map[];
    }

    /** `io.on("connection")`: a new socket with only the `get-document` handler. */
    method Connect(c: ConnId)
      requires Valid() && c !in phase
      modifies this
      ensures Valid()
      ensures phase == old(phase)[c := Unbound] && activeUsers == old(activeUsers)[c := 0]
      ensures rooms == old(rooms) && store == old(store)
    {
      phase := phase[c := Unbound];
      activeUsers := activeUsers[c := 0];
    }

    /** `findOrCreateDocument(id)` against the collection. */
    method FindOrCreateDocument(id: DocId) returns (doc: Option<Document>)
      modifies this`store
      ensures doc == FindOrCreate(old(store), id).0 && store == FindOrCreate(old(store), id).1
    {
      if id.Null? {
        return None;
      }
      if id.key in store {
        doc := Some(Document(id.key, store[id.key]));
      } else {
        store := store[id.key := DefaultValue];
        doc := Some(Document(id.key, DefaultValue));
      }
    }

    /** The `get-document` handler: find or create the document, join its room,
        broadcast the recomputed count to the whole room (the joiner included),
        then send the data to the joiner alone and install the other handlers. */
    method GetDocument(c: ConnId, id: DocId) returns (emits: seq<Emit>, outcome: Outcome)
      requires Valid() && c in phase && phase[c] == Unbound
      modifies this
      ensures Valid()
      ensures store == FindOrCreate(old(store), id).1
      ensures rooms == Join(old(rooms), id, c)
      ensures activeUsers == old(activeUsers)[c := Size(rooms, id)]
      ensures |emits| >= 1 && emits[0] == Emit(Members(rooms, id), UpdateActiveUsers(Size(rooms, id)))
      ensures c in emits[0].to && emits[0].to == Members(old(rooms), id) + {c}
      ensures id.Null? ==> outcome == Crashed && |emits| == 1 && phase == old(phase)
      ensures id.Id? ==> && outcome == Completed && phase == old(phase)[c := Bound(id.key)]
                         && |emits| == 2 && emits[1] == Emit({c}, LoadDocument(store[id.key]))
    {
      ghost var before := store;
      var document := FindOrCreateDocument(id);
      var joined := Join(rooms, id, c);
      var count := Size(joined, id);
      emits := [Emit(Members(joined, id), UpdateActiveUsers(count))];
      match document
      case None =>
        NullJoinKeepsConsistent(rooms, before, store, phase, c);
        rooms, activeUsers := joined, activeUsers[c := count];
        outcome := Crashed;
      case Some(doc) =>
        BindKeepsConsistent(rooms, before, store, phase, c, id.key);
        rooms, activeUsers := joined, activeUsers[c := count];
        emits := emits + [Emit({c}, LoadDocument(doc.data))];
        phase := phase[c := Bound(id.key)];
        outcome := Completed;
    }

    /** The `send-changes` handler: the delta goes unchanged to the rest of the
        room. Before `get-document` there is no handler and nothing happens. */
    method SendChanges(c: ConnId, delta: Json) returns (emits: seq<Emit>)
      requires Valid() && c in phase
      ensures phase[c].Unbound? ==> emits == []
      ensures phase[c].Bound? ==> emits == [Emit(Members(rooms, Id(phase[c].doc)) - {c}, ReceiveChanges(delta))]
      ensures forall e :: e in emits ==> c !in e.to
    {
      match phase[c]
      case Unbound => emits := [];
      case Bound(d) => emits := [Emit(BroadcastTo(rooms, Id(d), c), ReceiveChanges(delta))];
    }

    /** The `send-cursor` handler: the cursor, tagged with the sender's id, goes
        to the rest of the room. */
    method SendCursor(c: ConnId, data: CursorData) returns (emits: seq<Emit>)
      requires Valid() && c in phase
      ensures phase[c].Unbound? ==> emits == []
      ensures phase[c].Bound? ==>
        emits == [Emit(Members(rooms, Id(phase[c].doc)) - {c}, UpdateCursor(CursorEvent(c, data.range, data.username)))]
      ensures forall e :: e in emits ==> c !in e.to
    {
      match phase[c]
      case Unbound => emits := [];
      case Bound(d) => emits := [Emit(BroadcastTo(rooms, Id(d), c), UpdateCursor(RelayedCursor(c, data)))];
    }

    /** The `save-document` handler: overwrite the bound document's data. */
    method SaveDocument(c: ConnId, data: Json)
      requires Valid() && c in phase
      modifies this`store
      ensures Valid()
      ensures phase[c].Unbound? ==> store == old(store)
      ensures phase[c].Bound? ==> store == old(store)[phase[c].doc := data]
    {
      if phase[c].Bound? {
        store := Update(store, phase[c].doc, data);
      }
    }

    /** A socket closing: socket.io takes it out of every room, then the
        `disconnect` handler (if installed) broadcasts the recomputed count to
        what is left of the room. No `user-disconnected` is sent. */
    method Disconnect(c: ConnId) returns (emits: seq<Emit>)
      requires Valid() && c in phase
      modifies this
      ensures Valid()
      ensures rooms == LeaveAll(old(rooms), c)
      ensures store == old(store) && phase == old(phase) - {c} && activeUsers == old(activeUsers) - {c}
      ensures old(phase[c]).Unbound? ==> emits == []
      ensures old(phase[c]).Bound? ==>
        emits == [Emit(Members(rooms, Id(old(phase[c]).doc)), UpdateActiveUsers(Size(rooms, Id(old(phase[c]).doc))))]
      ensures forall e :: e in emits ==> c !in e.to && e.event.UpdateActiveUsers?
    {
      var was := phase[c];
      rooms := LeaveAll(rooms, c);
      phase := phase - {c};
      activeUsers := activeUsers - {c};
      match was
      case Unbound => emits := [];
      case Bound(d) => emits := [Emit(Members(rooms, Id(d)), UpdateActiveUsers(Size(rooms, Id(d))))];
    }
  }
}
