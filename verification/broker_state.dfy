/**
 * The state of the session broker of the remote-desktop relay server, and
 * what each Socket.IO event handler does to it, as functions of the state
 * before the event. The broker pairs a host connection (the machine being
 * controlled) with a viewer connection under a session id and relays screen
 * frames (host to viewer) and control events (viewer to host) between them,
 * without looking inside either.
 *
 * A handler runs to completion before the next one starts, and instead of
 * calling `emit` it returns the messages it sends, in the order it sends them.
 */
module BrokerState {
  import opened KeyOrder

  datatype Option<+T> = None | Some(value: T) {
    /** The value, or `default` when absent (Python's `dict.get(key, default)`). */
    function GetOr(default: T): T {
      match this
      case Some(v) => v
      case None => default
    }
  }

  /** A connection identifier assigned by the transport; it is never empty. */
  type Sid = s: string | s != [] witness "sid"

  /** A session id: whatever string the client sent (possibly empty), or a host's sid. */
  type SessionId = string

  /** A wall-clock reading, supplied by the caller. */
  type Timestamp = real

  /** One live session: its host and viewer connection, when bound, and when it was created. */
  datatype Session = Session(host: Option<Sid>, viewer: Option<Sid>, createdAt: Timestamp)

  /** Names of the outbound events. */
  datatype Event =
    | HostRegistered      // 'host_registered'
    | ViewerRegistered    // 'viewer_registered'
    | ViewerConnected     // 'viewer_connected'
    | HostDisconnected    // 'host_disconnected'
    | ViewerDisconnected  // 'viewer_disconnected'
    | Error               // 'error'
    | ScreenFrame         // 'screen_frame'
    | ControlEvent        // 'control_event'
    | SessionsList        // 'sessions_list'

  /** One entry of a 'sessions_list' reply. */
  datatype SessionInfo = SessionInfo(sessionId: SessionId, hasHost: bool, hasViewer: bool)

  /** The body of an outbound event; frames and control events are relayed as opaque `P`. */
  datatype Payload<P> =
    | NoData
    | Ack(sessionId: SessionId, message: string)
    | Failure(message: string)
    | Listing(entries: seq<SessionInfo>)
    | Opaque(data: P)

  /** `emit(event, payload, room=to)`: one message addressed to the room of the sid `to`. */
  datatype Message<P> = Message(to: Sid, event: Event, payload: Payload<P>)

  const HostRegisteredText: string := "Host registered successfully"
  const ViewerRegisteredText: string := "Viewer connected successfully"
  const InvalidSessionText: string := "Invalid session ID"

  /**
   * The three module-level dicts. `order` is the insertion order of the keys
   * of `sessions`: the order in which the dict is iterated.
   */
  datatype State = State(
    sessions: map<SessionId, Session>,
    order: seq<SessionId>,
    hosts: map<Sid, SessionId>,
    viewers: map<Sid, SessionId>)

  /** The state at start-up: three empty dicts. */
  const Initial: State := State(map[], [], map[], map[])

  /** The new state after a handler, and the messages it sent. */
  datatype Step<P> = Step(next: State, out: seq<Message<P>>)

  /** Every live session has a host: no handler ever sets a session's host to None. */
  ghost predicate EveryHostPresent(sessions: map<SessionId, Session>) {
    forall id :: id in sessions ==> sessions[id].host.Some?
  }

  /**
   * What every handler keeps. The host and viewer indexes are deliberately
   * absent: they can point at sessions that are gone or have moved on.
   */
  ghost predicate Valid(st: State) {
    EveryHostPresent(st.sessions) && Lists(st.order, st.sessions.Keys)
  }

  lemma InitialValid()
    ensures Valid(Initial)
  {
  }

  /** `sid` is indexed as a host under a session that is still live. */
  predicate HostsLive(st: State, sid: Sid) {
    sid in st.hosts && st.hosts[sid] in st.sessions
  }

  /** `sid` is indexed as a viewer under a session that is still live. */
  predicate ViewsLive(st: State, sid: Sid) {
    sid in st.viewers && st.viewers[sid] in st.sessions
  }

  // ---------------------------------------------------------------- disconnect

  /** The host half of 'disconnect'. */
  function LeaveAsHost<P>(st: State, sid: Sid): (r: Step<P>)
    requires Valid(st)
    ensures Valid(r.next)
    ensures r.next.hosts == st.hosts - {sid} && r.next.viewers == st.viewers
    // the session `sid` hosts is deleted, and only that one
    ensures forall id :: id in r.next.sessions <==> id in st.sessions && !(sid in st.hosts && id == st.hosts[sid])
    ensures forall id :: id in r.next.sessions ==> r.next.sessions[id] == st.sessions[id]
    // deleting a key keeps the iteration order of the others
    ensures r.next.order == if sid in st.hosts then Without(st.order, st.hosts[sid]) else st.order
    // only that session's viewer, if one is bound, is told
    ensures |r.out| <= 1
    ensures r.out != [] <==> HostsLive(st, sid) && st.sessions[st.hosts[sid]].viewer.Some?
    ensures forall i :: 0 <= i < |r.out| ==>
              r.out[i] == Message(st.sessions[st.hosts[sid]].viewer.value, HostDisconnected, NoData)
  {
    if sid !in st.hosts then Step(st, [])
    else
      var sessionId := st.hosts[sid];
      if sessionId !in st.sessions then
        WithoutAbsent(st.order, sessionId);
        Step(st.(hosts := st.hosts - {sid}), [])
      else
        var viewer := st.sessions[sessionId].viewer;
        WithoutLists(st.order, st.sessions.Keys, sessionId);
        Step(State(st.sessions - {sessionId}, Without(st.order, sessionId), st.hosts - {sid}, st.viewers),
             if viewer.Some? then [Message(viewer.value, HostDisconnected, NoData)] else [])
  }

  /** The viewer half of 'disconnect'. */
  function LeaveAsViewer<P>(st: State, sid: Sid): (r: Step<P>)
    requires Valid(st)
    ensures Valid(r.next)
    ensures r.next.hosts == st.hosts && r.next.viewers == st.viewers - {sid} && r.next.order == st.order
    // the session `sid` views keeps its host and loses its viewer; nothing else changes
    ensures r.next.sessions.Keys == st.sessions.Keys
    ensures forall id :: id in r.next.sessions ==>
              r.next.sessions[id] == if sid in st.viewers && id == st.viewers[sid]
                                     then st.sessions[id].(viewer := None)
                                     else st.sessions[id]
    // only that session's host is told
    ensures |r.out| <= 1
    ensures r.out != [] <==> ViewsLive(st, sid) && st.sessions[st.viewers[sid]].host.Some?
    ensures forall i :: 0 <= i < |r.out| ==>
              r.out[i] == Message(st.sessions[st.viewers[sid]].host.value, ViewerDisconnected, NoData)
  {
    if sid !in st.viewers then Step(st, [])
    else
      var sessionId := st.viewers[sid];
      if sessionId !in st.sessions then Step(st.(viewers := st.viewers - {sid}), [])
      else
        var host := st.sessions[sessionId].host;
        Step(st.(sessions := st.sessions[sessionId := st.sessions[sessionId].(viewer := None)],
                 viewers := st.viewers - {sid}),
             if host.Some? then [Message(host.value, ViewerDisconnected, NoData)] else [])
  }

  /**
   * 'disconnect': the host half, then the viewer half on what the host half
   * left. As a host, `sid` ends the session it is indexed under; as a viewer,
   * it frees the viewer slot of its session. A `sid` in neither index is a
   * no-op.
   */
  function Disconnect<P>(st: State, sid: Sid): (r: Step<P>)
    requires Valid(st)
    ensures Valid(r.next)
    ensures r.next.hosts == st.hosts - {sid} && r.next.viewers == st.viewers - {sid}
    ensures forall id :: id in r.next.sessions <==> id in st.sessions && !(sid in st.hosts && id == st.hosts[sid])
    ensures forall id :: id in r.next.sessions ==>
              r.next.sessions[id] == if sid in st.viewers && id == st.viewers[sid]
                                     then st.sessions[id].(viewer := None)
                                     else st.sessions[id]
    ensures r.next.order == if sid in st.hosts then Without(st.order, st.hosts[sid]) else st.order
    ensures |r.out| <= 2
    ensures sid !in st.hosts && sid !in st.viewers ==> r == Step(st, [])
    // a sid with one role sends what that role's half sends
    ensures sid !in st.viewers ==> r.out == LeaveAsHost<P>(st, sid).out
    ensures sid !in st.hosts ==> r.out == LeaveAsViewer<P>(st, sid).out
  {
    var asHost := LeaveAsHost<P>(st, sid);
    var asViewer := LeaveAsViewer<P>(asHost.next, sid);
    assert sid !in st.hosts ==> asHost == Step(st, []);
    assert sid !in st.viewers ==> asViewer.out == [];
    Step(asViewer.next, asHost.out + asViewer.out)
  }

  // ---------------------------------------------------------------- registration

  /**
   * 'register_host'. The session id is the one supplied, or `sid` itself when
   * the client supplied none (an empty id is taken as it is). The session is
   * created if new, otherwise its host is replaced; either way the caller is
   * told which id it got. An older host entry for the same session stays in
   * `hosts`.
   */
  function RegisterHost<P>(st: State, sid: Sid, requested: Option<SessionId>, now: Timestamp): (r: Step<P>)
    requires Valid(st)
    ensures Valid(r.next)
  {
    var sessionId := requested.GetOr(sid);
    var hosts := st.hosts[sid := sessionId];
    var reply := [Message(sid, HostRegistered, Ack(sessionId, HostRegisteredText))];
    if sessionId !in st.sessions then
      AppendLists(st.order, st.sessions.Keys, sessionId);
      Step(State(st.sessions[sessionId := Session(Some(sid), None, now)], st.order + [sessionId], hosts, st.viewers),
           reply)
    else
      Step(State(st.sessions[sessionId := st.sessions[sessionId].(host := Some(sid))], st.order, hosts, st.viewers),
           reply)
  }

  /**
   * What 'register_host' does to the indexes and what it sends: the id is the
   * supplied one, or the caller's sid when none was supplied; the caller's
   * host entry points at it, and only the caller is answered, with that id.
   */
  lemma RegisterHostIndexes<P>(st: State, sid: Sid, requested: Option<SessionId>, now: Timestamp)
    requires Valid(st)
    ensures var r := RegisterHost<P>(st, sid, requested, now);
      && r.next.hosts == st.hosts[sid := requested.GetOr(sid)]
      && r.next.viewers == st.viewers
      && r.out == [Message(sid, HostRegistered, Ack(requested.GetOr(sid), HostRegisteredText))]
  {
  }

  /**
   * What 'register_host' does to the sessions: afterwards the session exists
   * with the caller as its host; it keeps its viewer, creation time and place
   * in the iteration order, or is new, has no viewer and comes last. No other
   * session changes.
   */
  lemma RegisterHostSession<P>(st: State, sid: Sid, requested: Option<SessionId>, now: Timestamp)
    requires Valid(st)
    ensures var r := RegisterHost<P>(st, sid, requested, now); var id := requested.GetOr(sid);
      && r.next.sessions.Keys == st.sessions.Keys + {id}
      && r.next.sessions[id].host == Some(sid)
      && r.next.sessions[id].viewer == (if id in st.sessions then st.sessions[id].viewer else None)
      && r.next.sessions[id].createdAt == (if id in st.sessions then st.sessions[id].createdAt else now)
      && r.next.order == (if id in st.sessions then st.order else st.order + [id])
      && (forall other :: other in st.sessions && other != id ==> r.next.sessions[other] == st.sessions[other])
  {
  }

  /** A viewer may join only a session that is named, non-empty and live. */
  predicate CanJoin(st: State, requested: Option<SessionId>) {
    requested.Some? && requested.value != [] && requested.value in st.sessions
  }

  /**
   * 'register_viewer'. Only an explicit, non-empty, live session id is
   * accepted; anything else is answered with an error and changes nothing.
   * An accepted viewer replaces the session's viewer without notice to the
   * one it replaces; it is told its session id, and the host is told that a
   * viewer connected.
   */
  function RegisterViewer<P>(st: State, sid: Sid, requested: Option<SessionId>): (r: Step<P>)
    requires Valid(st)
    ensures Valid(r.next)
    ensures !CanJoin(st, requested) ==> r == Step(st, [Message(sid, Error, Failure(InvalidSessionText))])
    ensures CanJoin(st, requested) ==> var id := requested.value;
      && r.next.viewers == st.viewers[sid := id]
      && r.next.hosts == st.hosts
      && r.next.order == st.order
      && r.next.sessions.Keys == st.sessions.Keys
      && r.next.sessions[id] == st.sessions[id].(viewer := Some(sid))
      && (forall other :: other in st.sessions && other != id ==> r.next.sessions[other] == st.sessions[other])
      && r.out == [Message(sid, ViewerRegistered, Ack(id, ViewerRegisteredText)),
                   Message(st.sessions[id].host.value, ViewerConnected, NoData)]
  {
    if requested.None? || requested.value == [] || requested.value !in st.sessions then
      Step(st, [Message(sid, Error, Failure(InvalidSessionText))])
    else
      var sessionId := requested.value;
      var sessions := st.sessions[sessionId := st.sessions[sessionId].(viewer := Some(sid))];
      Step(st.(sessions := sessions, viewers := st.viewers[sid := sessionId]),
           [Message(sid, ViewerRegistered, Ack(sessionId, ViewerRegisteredText)),
            Message(sessions[sessionId].host.value, ViewerConnected, NoData)])
  }

  // ---------------------------------------------------------------- relaying

  /**
   * 'screen_frame'. The frame goes, unchanged, to the viewer of the session
   * the sender hosts, and to nobody else; it is dropped when the sender is
   * not a host, its session is gone, or no viewer is bound.
   */
  function RelayFrame<P>(st: State, sid: Sid, data: P): (out: seq<Message<P>>)
    ensures |out| <= 1
    ensures out != [] <==> HostsLive(st, sid) && st.sessions[st.hosts[sid]].viewer.Some?
    ensures forall i :: 0 <= i < |out| ==>
              && Some(out[i].to) == st.sessions[st.hosts[sid]].viewer
              && out[i].event == ScreenFrame
              && out[i].payload == Opaque(data)
  {
    if sid !in st.hosts then []
    else if st.hosts[sid] !in st.sessions then []
    else
      var viewer := st.sessions[st.hosts[sid]].viewer;
      if viewer.Some? then [Message(viewer.value, ScreenFrame, Opaque(data))] else []
  }

  /**
   * 'control_event'. The event goes, unchanged, to the host of the session
   * the sender views, and to nobody else; it is dropped when the sender is
   * not a viewer, its session is gone, or no host is bound.
   */
  function RelayControl<P>(st: State, sid: Sid, data: P): (out: seq<Message<P>>)
    ensures |out| <= 1
    ensures out != [] <==> ViewsLive(st, sid) && st.sessions[st.viewers[sid]].host.Some?
    ensures forall i :: 0 <= i < |out| ==>
              && Some(out[i].to) == st.sessions[st.viewers[sid]].host
              && out[i].event == ControlEvent
              && out[i].payload == Opaque(data)
  {
    if sid !in st.viewers then []
    else if st.viewers[sid] !in st.sessions then []
    else
      var host := st.sessions[st.viewers[sid]].host;
      if host.Some? then [Message(host.value, ControlEvent, Opaque(data))] else []
  }

  // ---------------------------------------------------------------- listing

  /** The 'sessions_list' entry of one session: which of its two fields are set. */
  function Describe(id: SessionId, s: Session): SessionInfo {
    SessionInfo(id, s.host.Some?, s.viewer.Some?)
  }

  /** The 'sessions_list' entries of the sessions `ids`, in that order. */
  function Snapshot(ids: seq<SessionId>, sessions: map<SessionId, Session>): (entries: seq<SessionInfo>)
    requires forall id :: id in ids ==> id in sessions
    ensures |entries| == |ids|
  {
    if ids == [] then []
    else
      var last := ids[|ids| - 1];
      Snapshot(ids[..|ids| - 1], sessions) + [Describe(last, sessions[last])]
  }

  /** Entry `i` names the `i`-th session and reports whether its host and its viewer are set. */
  lemma {:induction false} SnapshotAt(ids: seq<SessionId>, sessions: map<SessionId, Session>, i: nat)
    requires forall id :: id in ids ==> id in sessions
    requires i < |ids|
    ensures Snapshot(ids, sessions)[i].sessionId == ids[i]
    ensures Snapshot(ids, sessions)[i].hasHost == sessions[ids[i]].host.Some?
    ensures Snapshot(ids, sessions)[i].hasViewer == sessions[ids[i]].viewer.Some?
  {
    if i < |ids| - 1 {
      SnapshotAt(ids[..|ids| - 1], sessions, i);
    }
  }

  /**
   * 'get_sessions'. One reply to the caller, with one entry per live session
   * in the dict's iteration order; every entry reports a host, and reports a
   * viewer exactly when one is bound. The state does not change.
   */
  function ListSessions<P>(st: State, sid: Sid): (out: seq<Message<P>>)
    requires Valid(st)
    ensures |out| == 1 && out[0].to == sid && out[0].event == SessionsList && out[0].payload.Listing?
    ensures |out[0].payload.entries| == |st.order| == |st.sessions|
    ensures forall i :: 0 <= i < |out[0].payload.entries| ==>
              && out[0].payload.entries[i].sessionId == st.order[i]
              && out[0].payload.entries[i].hasHost
              && out[0].payload.entries[i].hasViewer == st.sessions[st.order[i]].viewer.Some?
  {
    ListsCardinality(st.order, st.sessions.Keys);
    var entries := Snapshot(st.order, st.sessions);
    assert forall i :: 0 <= i < |entries| ==>
             entries[i].sessionId == st.order[i] && entries[i].hasHost
             && entries[i].hasViewer == st.sessions[st.order[i]].viewer.Some? by {
      forall i | 0 <= i < |entries|
        ensures entries[i].sessionId == st.order[i] && entries[i].hasHost
                && entries[i].hasViewer == st.sessions[st.order[i]].viewer.Some?
      {
        SnapshotAt(st.order, st.sessions, i);
      }
    }
    [Message(sid, SessionsList, Listing(entries))]
  }
}
