/**
 The editor client (the `TextEditor` component) as a state machine: what each
 server event does to the client's state, and which events the client sends
 in reply to the user's edits and selections. Rendering, the toolbar and the
 periodic save timer are not part of it.
 */
module Editor {
  import opened Wire
  import opened Cursors

  /** The `source` Quill reports for an edit typed by the user. */
  const UserSource: string := "user"
  /** The `source` Quill reports for changes made through its API
      (`setContents`, `updateContents`). */
  const ApiSource: string := "api"
  /** The placeholder text shown until the document arrives. */
  const LoadingText: Json := JStr("Loading...")

  /** The editor's contents: what was last set as a whole (`setText`,
      `setContents`) and the deltas applied on top of it since
      (`updateContents`, user edits). Deltas are not interpreted. */
  datatype Contents = Contents(base: Json, applied: seq<Json>)

  function Apply(contents: Contents, delta: Json): (next: Contents) {
    contents.(applied := contents.applied + [delta])
  }

  /** One mounted editor. `awaitingLoad` is true while the one-shot
      `load-document` listener is still registered. */
  datatype Client<P> = Client(
    self: ConnId,
    username: string,
    enabled: bool,
    contents: Contents,
    awaitingLoad: bool,
    activeUsers: nat,
    cursors: CursorTable<P>)

  /** Disabled, showing the placeholder, and still waiting for the document. */
  ghost predicate Loading<P>(cl: Client<P>) {
    !cl.enabled && cl.awaitingLoad && cl.contents.base == LoadingText
  }

  /** The editor is enabled exactly when the document has been loaded. */
  ghost predicate Gated<P>(cl: Client<P>) {
    cl.enabled == !cl.awaitingLoad
  }

  /** The component mounted: the editor is created disabled with the
      placeholder text, and the listeners are registered. The username is drawn
      at random once per mount; here it is a parameter. */
  function Mount<P>(self: ConnId, username: string): (cl: Client<P>)
    ensures Loading(cl) && Gated(cl)
    ensures cl.self == self && cl.username == username
    ensures cl.cursors == map[] && cl.activeUsers == 0
  {
    Client(self, username, false, Contents(LoadingText, []), true, 0, map[])
  }

  /** The `text-change` handler: a change is sent as `send-changes` only when
      Quill reports that the user made it. */
  function OnTextChange(delta: Json, source: string): (out: seq<ClientEvent>)
    ensures source == UserSource ==> out == [SendChanges(delta)]
    ensures source != UserSource ==> out == []
  {
    if source != UserSource then [] else [SendChanges(delta)]
  }

  /** The `selection-change` handler: the new range, possibly null, goes out
      with this client's username. */
  function OnSelectionChange<P>(cl: Client<P>, range: Option<Range>): (out: seq<ClientEvent>)
    ensures |out| == 1 && out[0].SendCursor?
    ensures out[0].cursor.range == range && out[0].cursor.username == cl.username
  {
    [SendCursor(CursorData(range, cl.username))]
  }

  /** The user typing: a disabled editor takes no input; an enabled one applies
      the edit and reports it with the user source. */
  function OnUserEdit<P>(cl: Client<P>, delta: Json): (res: (Client<P>, seq<ClientEvent>))
    ensures !cl.enabled ==> res == (cl, [])
    ensures cl.enabled ==> res.0 == cl.(contents := Apply(cl.contents, delta)) && res.1 == [SendChanges(delta)]
  {
    if !cl.enabled then (cl, [])
    else (cl.(contents := Apply(cl.contents, delta)), OnTextChange(delta, UserSource))
  }

  /** The client's listeners for server events. `load-document` is a one-shot
      listener: the first one sets the contents and enables the editor, later
      ones find no listener. A relayed delta is applied through the API, so
      the `text-change` it raises is not sent back. */
  function OnServerEvent<P>(cl: Client<P>, ev: ServerEvent, getBounds: nat -> P): (res: (Client<P>, seq<ClientEvent>))
    ensures res.1 == []
    ensures res.0.self == cl.self && res.0.username == cl.username
    ensures ev.LoadDocument? && cl.awaitingLoad ==>
              res.0 == cl.(enabled := true, awaitingLoad := false, contents := Contents(ev.data, []))
    ensures ev.LoadDocument? && !cl.awaitingLoad ==> res.0 == cl
    ensures !ev.LoadDocument? ==> && res.0.enabled == cl.enabled && res.0.awaitingLoad == cl.awaitingLoad
                                  && res.0.contents.base == cl.contents.base
    ensures ev.ReceiveChanges? ==> res.0 == cl.(contents := Apply(cl.contents, ev.delta))
    ensures ev.UpdateActiveUsers? ==> res.0 == cl.(activeUsers := ev.count)
    ensures ev.UpdateCursor? ==> res.0 == cl.(cursors := OnUpdateCursor(cl.cursors, cl.self, ev.cursor, getBounds))
    ensures ev.UserDisconnected? ==> res.0 == cl.(cursors := OnUserDisconnected(cl.cursors, ev.socketId))
  {
    match ev
    case LoadDocument(data) =>
      if cl.awaitingLoad then (cl.(enabled := true, awaitingLoad := false, contents := Contents(data, [])), [])
      else (cl, [])
    case UpdateActiveUsers(count) => (cl.(activeUsers := count), [])
    case ReceiveChanges(delta) => (cl.(contents := Apply(cl.contents, delta)), OnTextChange(delta, ApiSource))
    case UpdateCursor(cursor) => (cl.(cursors := OnUpdateCursor(cl.cursors, cl.self, cursor, getBounds)), [])
    case UserDisconnected(socketId) => (cl.(cursors := OnUserDisconnected(cl.cursors, socketId)), [])
  }

  /** The client after a sequence of server events. */
  function Run<P>(cl: Client<P>, evs: seq<ServerEvent>, getBounds: nat -> P): (after: Client<P>)
    decreases |evs|
  {
    if evs == [] then cl else Run(OnServerEvent(cl, evs[0], getBounds).0, evs[1..], getBounds)
  }

  /** The document carried by the first `load-document` in a sequence. */
  function FirstLoad(evs: seq<ServerEvent>): (d: Option<Json>)
    ensures d.Some? <==> exists i :: 0 <= i < |evs| && evs[i].LoadDocument?
    ensures d.Some? ==> exists i :: 0 <= i < |evs| && evs[i] == LoadDocument(d.value)
                                && forall j :: 0 <= j < i ==> !evs[j].LoadDocument?
  {
    if evs == [] then None
    else if evs[0].LoadDocument? then Some(evs[0].data)
    else
      var rest := FirstLoad(evs[1..]);
      assert forall i :: 0 < i < |evs| ==> evs[i] == evs[1..][i - 1];
      rest
  }

  /** Only the first `load-document` is applied: the editor ends up enabled
      exactly when one arrived, showing that first document as its base, and
      a client already loaded is unaffected by later ones. */
  lemma {:induction false} LoadAppliedOnce<P>(cl: Client<P>, evs: seq<ServerEvent>, getBounds: nat -> P)
    requires Gated(cl)
    ensures var r := Run(cl, evs, getBounds);
            && Gated(r)
            && r.enabled == (cl.enabled || FirstLoad(evs).Some?)
            && r.contents.base == (if cl.awaitingLoad && FirstLoad(evs).Some? then FirstLoad(evs).value
                                   else cl.contents.base)
    decreases |evs|
  {
    if evs != [] {
      LoadAppliedOnce(OnServerEvent(cl, evs[0], getBounds).0, evs[1..], getBounds);
    }
  }

  /** From mount, the editor stays disabled on the placeholder, and ignores the
      user's typing, until the first `load-document`; from then on it is
      enabled on that document. */
  lemma DisabledUntilFirstLoad<P>(self: ConnId, username: string, evs: seq<ServerEvent>,
                                  getBounds: nat -> P, delta: Json)
    ensures var r := Run(Mount(self, username), evs, getBounds);
            && (FirstLoad(evs).None? ==> Loading(r) && OnUserEdit(r, delta).1 == [])
            && (FirstLoad(evs).Some? ==> r.enabled && r.contents.base == FirstLoad(evs).value)
  {
    LoadAppliedOnce(Mount<P>(self, username), evs, getBounds);
  }

  /** The client's identity and username never change, so every `send-cursor`
      it ever sends carries the username drawn at mount and the current range. */
  lemma {:induction false} UsernameFixed<P>(cl: Client<P>, evs: seq<ServerEvent>, getBounds: nat -> P,
                                            range: Option<Range>)
    ensures Run(cl, evs, getBounds).self == cl.self
    ensures OnSelectionChange(Run(cl, evs, getBounds), range) == [SendCursor(CursorData(range, cl.username))]
    decreases |evs|
  {
    if evs != [] {
      UsernameFixed(OnServerEvent(cl, evs[0], getBounds).0, evs[1..], getBounds, range);
    }
  }
}
