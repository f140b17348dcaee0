/**
 * Runs of several handlers in a row from the start-up state, and what each
 * run sends. They show what the handlers do together, including two
 * consequences of the host and viewer indexes not being kept consistent
 * with the sessions.
 */
module Scenarios {
  import opened BrokerState

  /**
   * Host `h` opens session `id`, viewer `v` joins it, then `h` disconnects:
   * `v` alone is told, the session is gone, and a later control event from
   * `v` reaches nobody.
   */
  lemma HostDisconnectCascade<P>(h: Sid, v: Sid, id: SessionId, event: P)
    requires h != v && id != []
    ensures var started := RegisterHost<P>(Initial, h, Some(id), 0.0).next;
            var joined := RegisterViewer<P>(started, v, Some(id)).next;
            var left := Disconnect<P>(joined, h);
            && left.out == [Message(v, HostDisconnected, NoData)]
            && RelayControl(left.next, v, event) == []
            && ListSessions<P>(left.next, v) == [Message(v, SessionsList, Listing([]))]
  {
    var started := RegisterHost<P>(Initial, h, Some(id), 0.0).next;
    assert started == State(map[id := Session(Some(h), None, 0.0)], [id], map[h := id], map[]);
    var joined := RegisterViewer<P>(started, v, Some(id)).next;
    assert joined == State(map[id := Session(Some(h), Some(v), 0.0)], [id], map[h := id], map[v := id]);
    var left := Disconnect<P>(joined, h);
    assert left.next.sessions == map[];
  }

  /**
   * Viewer `v` leaves session `id`: the host alone is told, and the session
   * stays listed with its host and a free viewer slot.
   */
  lemma ViewerLeaves<P>(h: Sid, v: Sid, id: SessionId)
    requires h != v && id != []
    ensures var started := RegisterHost<P>(Initial, h, Some(id), 0.0).next;
            var joined := RegisterViewer<P>(started, v, Some(id)).next;
            var left := Disconnect<P>(joined, v);
            && left.out == [Message(h, ViewerDisconnected, NoData)]
            && ListSessions<P>(left.next, h) == [Message(h, SessionsList, Listing([SessionInfo(id, true, false)]))]
  {
    var started := RegisterHost<P>(Initial, h, Some(id), 0.0).next;
    assert started == State(map[id := Session(Some(h), None, 0.0)], [id], map[h := id], map[]);
    var joined := RegisterViewer<P>(started, v, Some(id)).next;
    assert joined == State(map[id := Session(Some(h), Some(v), 0.0)], [id], map[h := id], map[v := id]);
    assert LeaveAsHost<P>(joined, v) == Step(joined, []);
    var left := LeaveAsViewer<P>(joined, v);
    assert left.out == [Message(h, ViewerDisconnected, NoData)];
    assert left.next.sessions == map[id := Session(Some(h), None, 0.0)];
    assert left.next.order == [id];
    assert Disconnect<P>(joined, v) == left;
    assert [id][..0] == [];
    assert Snapshot([id], left.next.sessions) == [SessionInfo(id, true, false)];
  }

  /**
   * After viewer `v1` has left session `id`, viewer `v2` can take the free
   * slot, is acknowledged, the host is told, and the host's next frame
   * reaches `v2`.
   */
  lemma ViewerReattach<P>(h: Sid, v1: Sid, v2: Sid, id: SessionId, frame: P)
    requires h != v1 && h != v2 && v1 != v2 && id != []
    ensures var started := RegisterHost<P>(Initial, h, Some(id), 0.0).next;
            var joined := RegisterViewer<P>(started, v1, Some(id)).next;
            var left := Disconnect<P>(joined, v1).next;
            var rejoined := RegisterViewer<P>(left, v2, Some(id));
            && rejoined.out == [Message(v2, ViewerRegistered, Ack(id, ViewerRegisteredText)),
                                Message(h, ViewerConnected, NoData)]
            && RelayFrame(rejoined.next, h, frame) == [Message(v2, ScreenFrame, Opaque(frame))]
  {
    var started := RegisterHost<P>(Initial, h, Some(id), 0.0).next;
    assert started == State(map[id := Session(Some(h), None, 0.0)], [id], map[h := id], map[]);
    var joined := RegisterViewer<P>(started, v1, Some(id)).next;
    assert joined == State(map[id := Session(Some(h), Some(v1), 0.0)], [id], map[h := id], map[v1 := id]);
    assert LeaveAsHost<P>(joined, v1) == Step(joined, []);
    var left := LeaveAsViewer<P>(joined, v1).next;
    assert left.sessions == map[id := Session(Some(h), None, 0.0)];
    assert left.hosts == map[h := id] && left.viewers == map[];
    assert Disconnect<P>(joined, v1).next == left;
  }

  /**
   * A host that sends no session id gets its own sid as session id; an
   * empty session id is accepted from a host but refused from a viewer, as
   * is a missing one.
   */
  lemma SessionIdResolution<P>(h1: Sid, h2: Sid, v: Sid)
    requires h1 != h2
    ensures var own := RegisterHost<P>(Initial, h1, None, 0.0);
            var empty := RegisterHost<P>(own.next, h2, Some(""), 1.0);
            && own.out == [Message(h1, HostRegistered, Ack(h1, HostRegisteredText))]
            && empty.out == [Message(h2, HostRegistered, Ack("", HostRegisteredText))]
            && "" in empty.next.sessions
            && RegisterViewer<P>(empty.next, v, Some("")).out == [Message(v, Error, Failure(InvalidSessionText))]
            && RegisterViewer<P>(empty.next, v, None).out == [Message(v, Error, Failure(InvalidSessionText))]
  {
  }

  /**
   * Host `h2` re-registers session `id` while the first host `h1` is still
   * connected. The stale entry for `h1` stays in the host index, so when
   * `h1` disconnects it tears down the session that `h2` now hosts and tells
   * its viewer: no session is left, `h2`'s frames reach nobody, and `h2`
   * stays in the host index.
   */
  lemma StaleHostTeardown<P>(h1: Sid, h2: Sid, v: Sid, id: SessionId, frame: P)
    requires h1 != h2 && h1 != v && h2 != v && id != []
    ensures var first := RegisterHost<P>(Initial, h1, Some(id), 0.0).next;
            var reclaimed := RegisterHost<P>(first, h2, Some(id), 1.0);
            var joined := RegisterViewer<P>(reclaimed.next, v, Some(id)).next;
            var left := Disconnect<P>(joined, h1);
            && reclaimed.out == [Message(h2, HostRegistered, Ack(id, HostRegisteredText))]
            && left.out == [Message(v, HostDisconnected, NoData)]
            && left.next.sessions == map[]
            && left.next.hosts == map[h2 := id]
            && RelayFrame(left.next, h2, frame) == []
  {
    var first := RegisterHost<P>(Initial, h1, Some(id), 0.0).next;
    assert first == State(map[id := Session(Some(h1), None, 0.0)], [id], map[h1 := id], map[]);
    var reclaimed := RegisterHost<P>(first, h2, Some(id), 1.0).next;
    assert reclaimed == State(map[id := Session(Some(h2), None, 0.0)], [id], map[h1 := id, h2 := id], map[]);
    var joined := RegisterViewer<P>(reclaimed, v, Some(id)).next;
    assert joined == State(map[id := Session(Some(h2), Some(v), 0.0)], [id], map[h1 := id, h2 := id], map[v := id]);
    var left := LeaveAsHost<P>(joined, h1);
    assert left.out == [Message(v, HostDisconnected, NoData)];
    assert left.next.sessions == map[];
    assert left.next.hosts == map[h2 := id];
    assert LeaveAsViewer<P>(left.next, h1) == Step(left.next, []);
    assert Disconnect<P>(joined, h1) == left;
  }

  /**
   * Viewer `v` joins live session `a`, then live session `b`. Joining `b`
   * does not release `a`: `v` is the bound viewer of both, and the frames of
   * a host of either reach it, while the viewer index records only `b`.
   */
  lemma ViewerInTwoSessions<P>(st: State, v: Sid, a: SessionId, b: SessionId, h1: Sid, h2: Sid, frame: P)
    requires Valid(st) && CanJoin(st, Some(a)) && CanJoin(st, Some(b)) && a != b
    requires h1 in st.hosts && st.hosts[h1] == a && h2 in st.hosts && st.hosts[h2] == b
    ensures var joinedA := RegisterViewer<P>(st, v, Some(a)).next;
            var joinedB := RegisterViewer<P>(joinedA, v, Some(b)).next;
            && joinedB.sessions[a].viewer == Some(v)
            && joinedB.sessions[b].viewer == Some(v)
            && joinedB.viewers == st.viewers[v := b]
            && RelayFrame(joinedB, h1, frame) == [Message(v, ScreenFrame, Opaque(frame))]
            && RelayFrame(joinedB, h2, frame) == [Message(v, ScreenFrame, Opaque(frame))]
  {
    var joinedA := RegisterViewer<P>(st, v, Some(a)).next;
    assert CanJoin(joinedA, Some(b));
    var joinedB := RegisterViewer<P>(joinedA, v, Some(b)).next;
    assert joinedB.sessions[a] == joinedA.sessions[a];
    assert joinedB.viewers == st.viewers[v := a][v := b];
  }

  /**
   * A second viewer `v2` takes session `id` over from `v1` without `v1`
   * being told. `v1` stays in the viewer index, so its control events still
   * reach the host, and when `v1` disconnects it unbinds `v2`: the host's
   * frames then reach nobody.
   */
  lemma ViewerOverwrite<P>(h: Sid, v1: Sid, v2: Sid, id: SessionId, event: P, frame: P)
    requires h != v1 && h != v2 && v1 != v2 && id != []
    ensures var started := RegisterHost<P>(Initial, h, Some(id), 0.0).next;
            var first := RegisterViewer<P>(started, v1, Some(id)).next;
            var taken := RegisterViewer<P>(first, v2, Some(id));
            var left := Disconnect<P>(taken.next, v1);
            && taken.out == [Message(v2, ViewerRegistered, Ack(id, ViewerRegisteredText)),
                             Message(h, ViewerConnected, NoData)]
            && RelayControl(taken.next, v1, event) == [Message(h, ControlEvent, Opaque(event))]
            && left.out == [Message(h, ViewerDisconnected, NoData)]
            && RelayFrame(left.next, h, frame) == []
  {
    var started := RegisterHost<P>(Initial, h, Some(id), 0.0).next;
    assert started == State(map[id := Session(Some(h), None, 0.0)], [id], map[h := id], map[]);
    var first := RegisterViewer<P>(started, v1, Some(id)).next;
    assert first == State(map[id := Session(Some(h), Some(v1), 0.0)], [id], map[h := id], map[v1 := id]);
    var taken := RegisterViewer<P>(first, v2, Some(id)).next;
    assert taken == State(map[id := Session(Some(h), Some(v2), 0.0)], [id], map[h := id], map[v1 := id, v2 := id]);
    assert LeaveAsHost<P>(taken, v1) == Step(taken, []);
    var left := LeaveAsViewer<P>(taken, v1);
    assert left.out == [Message(h, ViewerDisconnected, NoData)];
    assert left.next.sessions == map[id := Session(Some(h), None, 0.0)];
    assert left.next.hosts == map[h := id];
    assert Disconnect<P>(taken, v1) == left;
  }
}
