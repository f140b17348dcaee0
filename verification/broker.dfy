/**
 * The session broker as the server keeps it: three module-level dicts that
 * each Socket.IO event handler updates in place. `Broker` holds them as
 * fields, and each handler is a method whose new state and messages are the
 * ones the matching function of `BrokerState` prescribes for the state
 * before the event.
 */
module SessionBroker {
  import opened KeyOrder
  import opened BrokerState

  class Broker<P> {
    /** session id -> session */
    var sessions: map<SessionId, Session>
    /** The keys of `sessions` in insertion order: the order in which the dict is iterated. */
    var order: seq<SessionId>
    /** host sid -> the session id it last registered under */
    var hosts: map<Sid, SessionId>
    /** viewer sid -> the session id it last registered under */
    var viewers: map<Sid, SessionId>

    /** The dicts as one value. */
    ghost function Model(): State
      reads this
    {
      State(sessions, order, hosts, viewers)
    }

    /** The module-level state at start-up: three empty dicts. */
    constructor ()
      ensures Model() == Initial && Valid(Model())
    {
      sessions, order, hosts, viewers := map[], [], map[], map[];
    }

    /** 'disconnect': the host half, then the viewer half. */
    method HandleDisconnect(sid: Sid) returns (out: seq<Message<P>>)
      requires Valid(Model())
      modifies this
      ensures Valid(Model())
      ensures Model() == Disconnect<P>(old(Model()), sid).next
      ensures out == Disconnect<P>(old(Model()), sid).out
    {
      var hostNotice := LeaveAsHost(sid);
      var viewerNotice := LeaveAsViewer(sid);
      out := hostNotice + viewerNotice;
    }

    /** The host half of 'disconnect': end the session `sid` hosts and tell its viewer. */
    method LeaveAsHost(sid: Sid) returns (out: seq<Message<P>>)
      requires Valid(Model())
      modifies this
      ensures Valid(Model())
      ensures Model() == BrokerState.LeaveAsHost<P>(old(Model()), sid).next
      ensures out == BrokerState.LeaveAsHost<P>(old(Model()), sid).out
    {
      out := [];
      if sid in hosts {
        var sessionId := hosts[sid];
        if sessionId in sessions {
          var viewer := sessions[sessionId].viewer;
          if viewer.Some? {
            out := out + [Message(viewer.value, HostDisconnected, NoData)];
          }
          WithoutLists(order, sessions.Keys, sessionId);
          sessions := sessions - {sessionId};
          order := Without(order, sessionId);
        }
        hosts := hosts - {sid};
      }
    }

    /** The viewer half of 'disconnect': free the viewer slot `sid` holds and tell the host. */
    method LeaveAsViewer(sid: Sid) returns (out: seq<Message<P>>)
      requires Valid(Model())
      modifies this
      ensures Valid(Model())
      ensures Model() == BrokerState.LeaveAsViewer<P>(old(Model()), sid).next
      ensures out == BrokerState.LeaveAsViewer<P>(old(Model()), sid).out
    {
      out := [];
      if sid in viewers {
        var sessionId := viewers[sid];
        if sessionId in sessions {
          var host := sessions[sessionId].host;
          if host.Some? {
            out := out + [Message(host.value, ViewerDisconnected, NoData)];
          }
          sessions := sessions[sessionId := sessions[sessionId].(viewer := None)];
        }
        viewers := viewers - {sid};
      }
    }

    /** 'register_host': bind the caller as host of the requested session, or of its own sid. */
    method HandleRegisterHost(sid: Sid, requested: Option<SessionId>, now: Timestamp) returns (out: seq<Message<P>>)
      requires Valid(Model())
      modifies this
      ensures Valid(Model())
      ensures Model() == RegisterHost<P>(old(Model()), sid, requested, now).next
      ensures out == RegisterHost<P>(old(Model()), sid, requested, now).out
    {
      var sessionId := requested.GetOr(sid);
      hosts := hosts[sid := sessionId];
      if sessionId !in sessions {
        sessions := sessions[sessionId := Session(Some(sid), None, now)];
        order := order + [sessionId];
      } else {
        sessions := sessions[sessionId := sessions[sessionId].(host := Some(sid))];
      }
      out := [Message(sid, HostRegistered, Ack(sessionId, HostRegisteredText))];
    }

    /** 'register_viewer': bind the caller as viewer of a named live session, or answer with an error. */
    method HandleRegisterViewer(sid: Sid, requested: Option<SessionId>) returns (out: seq<Message<P>>)
      requires Valid(Model())
      modifies this
      ensures Valid(Model())
      ensures Model() == RegisterViewer<P>(old(Model()), sid, requested).next
      ensures out == RegisterViewer<P>(old(Model()), sid, requested).out
    {
      if requested.None? || requested.value == [] || requested.value !in sessions {
        out := [Message(sid, Error, Failure(InvalidSessionText))];
        return;
      }
      var sessionId := requested.value;
      sessions := sessions[sessionId := sessions[sessionId].(viewer := Some(sid))];
      viewers := viewers[sid := sessionId];
      var host := sessions[sessionId].host.value;
      out := [Message(sid, ViewerRegistered, Ack(sessionId, ViewerRegisteredText)),
              Message(host, ViewerConnected, NoData)];
    }

    /** 'screen_frame': pass the frame to the viewer of the caller's session, if any. */
    method HandleScreenFrame(sid: Sid, data: P) returns (out: seq<Message<P>>)
      ensures out == RelayFrame(Model(), sid, data)
    {
      out := [];
      if sid !in hosts {
        return;
      }
      var sessionId := hosts[sid];
      if sessionId !in sessions {
        return;
      }
      var viewer := sessions[sessionId].viewer;
      if viewer.Some? {
        out := [Message(viewer.value, ScreenFrame, Opaque(data))];
      }
    }

    /** 'control_event': pass the event to the host of the caller's session, if any. */
    method HandleControlEvent(sid: Sid, data: P) returns (out: seq<Message<P>>)
      ensures out == RelayControl(Model(), sid, data)
    {
      out := [];
      if sid !in viewers {
        return;
      }
      var sessionId := viewers[sid];
      if sessionId !in sessions {
        return;
      }
      var host := sessions[sessionId].host;
      if host.Some? {
        out := [Message(host.value, ControlEvent, Opaque(data))];
      }
    }

    /** 'get_sessions': one entry per live session, built by walking the dict in order. */
    method HandleGetSessions(sid: Sid) returns (out: seq<Message<P>>)
      requires Valid(Model())
      ensures out == ListSessions(Model(), sid)
    {
      var entries: seq<SessionInfo> := [];
      var i := 0;
      while i < |order|
        invariant 0 <= i <= |order|
        invariant entries == Snapshot(order[..i], sessions)
      {
        var s := sessions[order[i]];
        assert order[..i + 1][..i] == order[..i];
        entries := entries + [Describe(order[i], s)];
        i := i + 1;
      }
      assert order[..i] == order;
      out := [Message(sid, SessionsList, Listing(entries))];
    }

    /**
     * The status route: the number of live sessions (which is the number of
     * entries 'get_sessions' lists), of host entries and of viewer entries.
     */
    method Index() returns (activeSessions: nat, hostCount: nat, viewerCount: nat)
      requires Valid(Model())
      ensures activeSessions == |sessions| == |order|
      ensures hostCount == |hosts| && viewerCount == |viewers|
    {
      ListsCardinality(order, sessions.Keys);
      activeSessions, hostCount, viewerCount := |sessions|, |hosts|, |viewers|;
    }
  }
}
