/**
 Properties of editor clients and the relay server together: what one
 client's action looks like at its peers once the server has relayed it.
 */
module Session {
  import opened Wire
  import opened Rooms
  import opened Documents
  import opened Server
  import opened Cursors
  import opened Editor

  /** A selection change at one client, relayed by the server, shows (or, for a
      null range, hides) that client's cursor at a peer under its username,
      and leaves the peer's other cursors alone. */
  lemma CursorReachesPeer<P>(sender: Client<P>, peer: Client<P>, range: Option<Range>, getBounds: nat -> P)
    requires sender.self != peer.self
    ensures var sent := OnSelectionChange(sender, range)[0].cursor;
            var next := OnServerEvent(peer, UpdateCursor(RelayedCursor(sender.self, sent)), getBounds).0;
            && (sender.self in next.cursors <==> range.Some?)
            && (range.Some? ==> next.cursors[sender.self] == Cursor(sender.username, getBounds(range.value.index)))
            && (forall k :: k != sender.self ==> (k in next.cursors <==> k in peer.cursors))
            && (forall k :: k != sender.self && k in next.cursors ==> next.cursors[k] == peer.cursors[k])
  {
  }

  /** A client never shows a cursor for its own socket, even if one reached it. */
  lemma OwnCursorIgnored<P>(cl: Client<P>, data: CursorData, getBounds: nat -> P)
    ensures OnServerEvent(cl, UpdateCursor(RelayedCursor(cl.self, data)), getBounds).0 == cl
  {
  }

  /** A user edit at an enabled client is sent once; relayed to a peer it is
      applied there and sent no further (no echo loop). */
  lemma EditReachesPeerOnce<P>(sender: Client<P>, peer: Client<P>, delta: Json, getBounds: nat -> P)
    requires sender.enabled
    ensures OnUserEdit(sender, delta).1 == [SendChanges(delta)]
    ensures var (next, out) := OnServerEvent(peer, ReceiveChanges(delta), getBounds);
            && out == []
            && next.contents.applied == peer.contents.applied + [delta]
  {
  }

  /** The server's only emit on a disconnect is the new count, which leaves
      the peers' cursor tables as they were: a departed user's cursor stays
      shown until a null range for it arrives. */
  lemma DisconnectKeepsCursors<P>(peer: Client<P>, count: nat, getBounds: nat -> P)
    ensures OnServerEvent(peer, UpdateActiveUsers(count), getBounds).0.cursors == peer.cursors
  {
  }

  /** Editor A opens document "doc1" on a fresh server with an empty
      collection; editor B has connected but not yet asked for a document. */
  method FirstEditorJoins() returns (relay: Relay, joinA: seq<Emit>)
    ensures fresh(relay) && relay.Valid()
    ensures relay.rooms == map[Id("doc1") := {"A"}]
    ensures relay.phase == map["A" := Bound("doc1"), "B" := Unbound]
    ensures relay.store == map["doc1" := DefaultValue]
    ensures joinA == [Emit({"A"}, UpdateActiveUsers(1)), Emit({"A"}, LoadDocument(DefaultValue))]
  {
    assert "A" != "B" by { assert "A"[0] != "B"[0]; }
    relay := new Relay(map[]);
    relay.Connect("A");
    relay.Connect("B");
    var outcomeA;
    joinA, outcomeA := relay.GetDocument("A", Id("doc1"));
    assert relay.rooms == map[Id("doc1") := {"A"}];
  }

  /** Then B opens the same document (continuing from `FirstEditorJoins`): the new count reaches both editors,
      the stored document only B. */
  method SecondEditorJoins(relay: Relay) returns (joinB: seq<Emit>)
    requires relay.Valid()
    requires relay.rooms == map[Id("doc1") := {"A"}]
    requires relay.phase == map["A" := Bound("doc1"), "B" := Unbound]
    requires relay.store == map["doc1" := DefaultValue]
    modifies relay
    ensures relay.Valid()
    ensures relay.rooms == map[Id("doc1") := {"A", "B"}]
    ensures relay.phase == map["A" := Bound("doc1"), "B" := Bound("doc1")]
    ensures joinB == [Emit({"A", "B"}, UpdateActiveUsers(2)), Emit({"B"}, LoadDocument(DefaultValue))]
  {
    assert "A" != "B" by { assert "A"[0] != "B"[0]; }
    var outcomeB;
    joinB, outcomeB := relay.GetDocument("B", Id("doc1"));
    assert {"A"} + {"B"} == {"A", "B"};
  }

  /** Continuing from `SecondEditorJoins`: A types, then B closes. B alone receives A's change; A
      learns the new count of 1 and nothing else. */
  method EditThenLeave(relay: Relay, delta: Json) returns (edit: seq<Emit>, leave: seq<Emit>)
    requires relay.Valid()
    requires relay.rooms == map[Id("doc1") := {"A", "B"}]
    requires relay.phase == map["A" := Bound("doc1"), "B" := Bound("doc1")]
    modifies relay
    ensures edit == [Emit({"B"}, ReceiveChanges(delta))]
    ensures leave == [Emit({"A"}, UpdateActiveUsers(1))]
  {
    assert "A" != "B" by { assert "A"[0] != "B"[0]; }
    edit := relay.SendChanges("A", delta);
    assert {"A", "B"} - {"A"} == {"B"};
    leave := relay.Disconnect("B");
    assert {"A", "B"} - {"B"} == {"A"};
    assert LeaveAll(map[Id("doc1") := {"A", "B"}], "B") == map[Id("doc1") := {"A"}];
  }

  /** The three steps above played through in one sequence on one server:
      A opens "doc1", B opens it too, A types and B closes. */
  method TwoEditorSession(delta: Json) returns (joinA: seq<Emit>, joinB: seq<Emit>, edit: seq<Emit>, leave: seq<Emit>)
    ensures joinA == [Emit({"A"}, UpdateActiveUsers(1)), Emit({"A"}, LoadDocument(DefaultValue))]
    ensures joinB == [Emit({"A", "B"}, UpdateActiveUsers(2)), Emit({"B"}, LoadDocument(DefaultValue))]
    ensures edit == [Emit({"B"}, ReceiveChanges(delta))]
    ensures leave == [Emit({"A"}, UpdateActiveUsers(1))]
  {
    var relay;
    relay, joinA := FirstEditorJoins();
    joinB := SecondEditorJoins(relay);
    edit, leave := EditThenLeave(relay, delta);
  }

  /** What a client saved is what the next editor to open the document loads. */
  method SaveThenReopen(content: Json) returns (reopen: seq<Emit>)
    ensures |reopen| == 2 && reopen[1] == Emit({"B"}, LoadDocument(content))
  {
    var relay := new Relay(map[]);
    relay.Connect("A");
    var joinA, outcomeA := relay.GetDocument("A", Id("doc1"));
    relay.SaveDocument("A", content);
    var leaveA := relay.Disconnect("A");
    relay.Connect("B");
    var outcomeB;
    reopen, outcomeB := relay.GetDocument("B", Id("doc1"));
  }
}
