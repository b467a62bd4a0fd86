/**
 The socket.io room table (`io.sockets.adapter.rooms`): a room is named by the
 document id passed to `socket.join` and holds the connections that joined it.
 The adapter deletes a room as soon as its last member leaves.
 */
module Rooms {
  import opened Wire

  type RoomTable = map<DocId, set<ConnId>>

  /** No room is kept once it is empty. */
  ghost predicate NoEmptyRooms(rooms: RoomTable) {
    forall k :: k in rooms ==> rooms[k] != {}
  }

  /** The members of room `k`; an absent room has none. This is also the
      recipient set of `io.to(k).emit(...)`. */
  function Members(rooms: RoomTable, k: DocId): (members: set<ConnId>) {
    if k in rooms then rooms[k] else {}
  }

  /** `rooms.get(k)?.size || 0`: the live size of a room, 0 when absent. */
  function Size(rooms: RoomTable, k: DocId): (n: nat)
    ensures n == |Members(rooms, k)|
    ensures NoEmptyRooms(rooms) ==> (n == 0 <==> k !in rooms)
  {
    if k in rooms then |rooms[k]| else 0
  }

  /** `socket.join(k)`: adds `c` to room `k`, creating the room if needed. */
  function Join(rooms: RoomTable, k: DocId, c: ConnId): (joined: RoomTable)
  {
    rooms[k := Members(rooms, k) + {c}]
  }

  /** What a join does to the table: room `k` gains `c` (and exists), every
      other room is untouched, and no empty room appears. */
  lemma JoinAddsMember(rooms: RoomTable, k: DocId, c: ConnId)
    ensures Join(rooms, k, c).Keys == rooms.Keys + {k}
    ensures Members(Join(rooms, k, c), k) == Members(rooms, k) + {c}
    ensures forall k' :: k' != k ==> Members(Join(rooms, k, c), k') == Members(rooms, k')
    ensures NoEmptyRooms(rooms) ==> NoEmptyRooms(Join(rooms, k, c))
  {
  }

  /** The adapter removing a disconnecting socket from every room it is in;
      a room left empty is deleted. */
  function LeaveAll(rooms: RoomTable, c: ConnId): (r: RoomTable)
    ensures NoEmptyRooms(r)
    ensures r.Keys <= rooms.Keys
    ensures forall k :: c !in Members(r, k)
    ensures forall k, x :: x != c ==> (x in Members(r, k) <==> x in Members(rooms, k))
  {
    map k | k in rooms && rooms[k] - {c} != {} :: rooms[k] - {c}
  }

  /** `socket.broadcast.to(k)`: every member of room `k` except the sender. */
  function BroadcastTo(rooms: RoomTable, k: DocId, sender: ConnId): (to: set<ConnId>)
    ensures sender !in to
    ensures forall x :: x in to <==> x in Members(rooms, k) && x != sender
  {
    Members(rooms, k) - {sender}
  }

  /** Joining adds one member to the count unless the socket was already in the room. */
  lemma SizeAfterJoin(rooms: RoomTable, k: DocId, c: ConnId)
    ensures Size(Join(rooms, k, c), k) == Size(rooms, k) + (if c in Members(rooms, k) then 0 else 1)
  {
    var m := Members(rooms, k);
    assert Members(Join(rooms, k, c), k) == m + {c};
    if c in m {
      assert m + {c} == m;
    } else {
      assert m * {c} == {};
    }
  }

  /** Leaving takes exactly the leaver off the count of each room it was in. */
  lemma SizeAfterLeaveAll(rooms: RoomTable, k: DocId, c: ConnId)
    ensures Size(LeaveAll(rooms, c), k) == Size(rooms, k) - (if c in Members(rooms, k) then 1 else 0)
  {
    assert Members(LeaveAll(rooms, c), k) == Members(rooms, k) - {c};
  }

  /** A socket that is in no room joins one and then disconnects: the table is
      back where it was (the room it created is deleted again). */
  lemma JoinLeaveAllRoundTrip(rooms: RoomTable, k: DocId, c: ConnId)
    requires NoEmptyRooms(rooms)
    requires forall k' :: c !in Members(rooms, k')
    ensures LeaveAll(Join(rooms, k, c), c) == rooms
  {
    var r := LeaveAll(Join(rooms, k, c), c);
    forall k' | k' in rooms
      ensures k' in r && r[k'] == rooms[k']
    {
      assert Members(r, k') == Members(rooms, k');
    }
    forall k' | k' in r
      ensures k' in rooms
    {
      assert Members(r, k') == Members(rooms, k');
    }
  }
}
