# Session broker of the remote-desktop relay server

The relay server pairs a *host* connection (the machine being controlled) with
a *viewer* connection (the remote controller) under a session id. It then
relays two kinds of opaque payloads between them: screen frames from host to
viewer and control events from viewer to host. All of its state is three
module-level dicts:

- `sessions`: session id → `{host, viewer, created_at}`
- `hosts`: host sid → session id
- `viewers`: viewer sid → session id

The project has four modules:

- `BrokerState` (`broker_state.dfy`) holds the three dicts as one value,
  `State`. Each handler is a pure function of the state before the event
  that returns the new state and the messages sent, as a `Step`. `State`
  has a fourth field, `order`, for the insertion order of the `sessions`
  keys. It is needed because `get_sessions` iterates the dict, and Python
  dicts iterate in insertion order.
- `SessionBroker` (`broker.dfy`) is the server as it runs. The class
  `Broker<P>` has one `map` field per dict, and each handler is a method that
  updates them in place. Each method is proved to reach exactly the state
  and send exactly the messages that the matching `BrokerState` function
  prescribes. `P` is the type of the relayed payloads, which the broker never
  inspects.
- `KeyOrder` (`key_order.dfy`) holds the facts about the iteration order: a
  new key goes to the end, and a deleted key leaves the others in place.
- `Scenarios` (`scenarios.dfy`) proves what handler sequences from the
  start-up state send.

Instead of calling `emit`, a handler returns the messages it sends, in order,
as `Message(to, event, payload)` values:

- `emit(e, room=x)` becomes a message to `x`.
- `emit(e)` with no room goes to the requesting connection, so it becomes a
  message to the caller's `sid`.

A sid is a non-empty string, as the transport assigns it. This makes Python's
truthiness tests (`if viewer_sid:`, `if host_sid:`) the same as "the field is
bound" (`Some?`).

Every handler keeps the invariant `Valid`. It has two parts:

- `EveryHostPresent`: every live session has a host, because no handler ever
  sets a session's host to None.
- `order` lists exactly the live session ids, each of them once.

The stronger "index consistency" (`hosts[c] == id` exactly when
`sessions[id].host == c`, and the same for viewers) does NOT hold for the code
as written. The model states per-handler postconditions and frame conditions
instead. The scenarios prove two consequences of the code as written:

- A host that re-registers an id still held by another live connection leaves
  the old `hosts` entry in place. When the old connection disconnects, it tears
  down the new host's session (`StaleHostTeardown`).
- A second viewer silently replaces the first one. The first viewer's control
  events still reach the host. When the first viewer disconnects, it unbinds
  the second one (`ViewerOverwrite`).
- One viewer sid can be the viewer of two sessions at once. Registering as
  viewer of a second session never clears the first binding
  (`ViewerInTwoSessions`).

The model follows the code in `main.py`:

- A viewer must name a live session explicitly. There is no scan for a free
  session.
- A host that sends no session id gets its own sid as its session id. There is
  no generated id.
- A host's empty session id is taken as it is, while a viewer's empty id is
  refused.

## Model

| member | source | states |
|---|---|---|
| `BrokerState.InitialValid` | main.py:14-16 | The start-up state, three empty dicts, satisfies the invariant. |
| `BrokerState.LeaveAsHost` | main.py:36-43 | The invariant is kept. The sid leaves `hosts` and `viewers` is untouched. Exactly the session the sid is indexed under as a host is deleted, and every other session keeps its value. The order loses that id and keeps the others in place. At most one message is sent: exactly when the sid hosts a live session with a viewer, `host_disconnected` goes to that viewer. |
| `BrokerState.LeaveAsViewer` | main.py:45-52 | The invariant is kept. The sid leaves `viewers`, and `hosts` and the order are untouched. No session appears or disappears. The session the sid is indexed under as a viewer gets viewer None, and every other session keeps its value. At most one message is sent: exactly when the sid views a live session with a host, `viewer_disconnected` goes to that host. |
| `BrokerState.Disconnect` | main.py:31-52 | The invariant is kept. The sid leaves both indexes. The session it hosts is deleted and every other session survives. The session it views loses its viewer, and all others keep their value. The order of the surviving sessions is kept. At most two messages are sent. A sid in neither index changes nothing and sends nothing. |
| `BrokerState.RegisterHost` | main.py:54-75 | Registering a host keeps the invariant: the session it binds has a host, and a new id is appended to the order exactly once. |
| `BrokerState.RegisterHostIndexes` | main.py:57-75 | The id is the supplied `session_id`, or the caller's sid when the key is absent. `hosts[sid]` becomes that id, and `viewers` is untouched. The only reply is `host_registered` to the caller, carrying that id and its text. |
| `BrokerState.RegisterHostSession` | main.py:59-68 | Afterwards the session exists with the caller as host. A new session has no viewer, the given creation time, and goes to the end of the order. An existing session keeps its viewer, its creation time and its place. No other session changes. |
| `BrokerState.RegisterViewer` | main.py:77-97 | A missing, empty or unknown id leaves the state unchanged and sends only `error` "Invalid session ID" to the caller. Otherwise `viewers[sid]` becomes the id and the session's viewer becomes the sid, replacing any earlier viewer. Host, creation time, the other sessions, `hosts` and the order are unchanged. The replies are `viewer_registered` to the caller, then `viewer_connected` to the session's host. The invariant is kept in both cases. |
| `BrokerState.RelayFrame` | main.py:99-112 | At most one message is sent. One is sent exactly when the sender is indexed as a host of a live session that has a viewer. That message carries the payload unchanged, as `screen_frame`, to that viewer. |
| `BrokerState.RelayControl` | main.py:114-127 | At most one message is sent. One is sent exactly when the sender is indexed as a viewer of a live session that has a host. That message carries the payload unchanged, as `control_event`, to that host. |
| `BrokerState.Snapshot` | main.py:131-137 | The listing of a sequence of session ids has one entry per id. |
| `BrokerState.SnapshotAt` | main.py:132-137 | Entry i names the i-th session and reports whether its host and its viewer are set. |
| `BrokerState.ListSessions` | main.py:129-138 | One `sessions_list` reply goes to the caller. It has one entry per live session, in the dict's iteration order. Every entry reports a host, and reports a viewer exactly when one is bound. |
| `SessionBroker.Broker.constructor` | main.py:14-16 | The broker starts with three empty dicts, and the invariant holds. |
| `SessionBroker.Broker.HandleDisconnect` | main.py:31-52 | Updating the fields in place reaches the state `Disconnect` prescribes and sends its messages, in that order. The invariant is kept. |
| `SessionBroker.Broker.LeaveAsHost` | main.py:36-43 | The in-place host half reaches the state and messages of `BrokerState.LeaveAsHost`. |
| `SessionBroker.Broker.LeaveAsViewer` | main.py:45-52 | The in-place viewer half reaches the state and messages of `BrokerState.LeaveAsViewer`. |
| `SessionBroker.Broker.HandleRegisterHost` | main.py:54-75 | The in-place update reaches the state and reply of `RegisterHost`. The invariant is kept. |
| `SessionBroker.Broker.HandleRegisterViewer` | main.py:77-97 | The in-place update, or the early return with `error`, reaches the state and replies of `RegisterViewer`. The invariant is kept. |
| `SessionBroker.Broker.HandleScreenFrame` | main.py:99-112 | Sends exactly what `RelayFrame` prescribes for the current dicts, and changes nothing. |
| `SessionBroker.Broker.HandleControlEvent` | main.py:114-127 | Sends exactly what `RelayControl` prescribes for the current dicts, and changes nothing. |
| `SessionBroker.Broker.HandleGetSessions` | main.py:129-138 | The loop over the dict builds exactly the reply of `ListSessions`, and changes nothing. |
| `SessionBroker.Broker.Index` | main.py:18-25 | The status counts are the number of live sessions (equal to the length of the iteration order, and so to the number of entries `get_sessions` lists), of host entries and of viewer entries. |
| `KeyOrder.Without` | main.py:42 | Deleting a key from the iteration order leaves exactly the other keys. |
| `KeyOrder.WithoutAbsent` | main.py:38 | Deleting a key that is not in the order leaves the order as it was. |
| `KeyOrder.WithoutAt` | main.py:42 | Deleting a key that sits at position k closes the gap and keeps every other key in its relative order. |
| `KeyOrder.WithoutDistinct` | main.py:42 | After a deletion, no key occurs twice. |
| `KeyOrder.WithoutLists` | main.py:42 | After a deletion, the order lists exactly the remaining keys, each once. |
| `KeyOrder.AppendLists` | main.py:61-66 | Inserting a new key at the end keeps the order listing exactly the dict's keys, each once. |
| `KeyOrder.ListsCardinality` | main.py:132-137 | An order that lists the dict's keys, each once, has exactly one position per key, so the listing has one entry per session. |
| `Scenarios.HostDisconnectCascade` | main.py:36-43 | Host registers id, viewer joins, host disconnects. The viewer alone gets `host_disconnected`. The viewer's next control event reaches nobody, and `get_sessions` lists nothing. |
| `Scenarios.ViewerLeaves` | main.py:45-52 | Host registers id, viewer joins, viewer disconnects. The host alone gets `viewer_disconnected`, and `get_sessions` lists the session with a host and no viewer. |
| `Scenarios.ViewerReattach` | main.py:86-97 | After the first viewer has left, a second viewer joins the same id. It is acknowledged, the host is told, and the host's next frame reaches the new viewer. |
| `Scenarios.SessionIdResolution` | main.py:57 | A host without `session_id` is given its own sid as its id. A host's empty id is accepted and creates a session. A viewer's empty or missing id is refused with `error`. |
| `Scenarios.StaleHostTeardown` | main.py:59-68 | A second host re-registers a live id while the first host is still connected. Disconnecting the first host deletes the session now held by the second host and notifies the viewer. No session is left, the second host's frames reach nobody, and its host entry remains. |
| `Scenarios.ViewerInTwoSessions` | main.py:86-87 | In any state with two distinct live sessions a and b, a viewer that registers for a and then for b is the bound viewer of both. The frames of a host indexed under either session reach it. `viewers` records only b for it. |
| `Scenarios.ViewerOverwrite` | main.py:86-87 | A second viewer takes the session without the first viewer being told. The first viewer's control events still reach the host. Its disconnect unbinds the second viewer, and the host's frames then reach nobody. |

## Left out

- The Flask/Socket.IO/eventlet bootstrap, CORS, the secret key and `socketio.run` (main.py:1-12, main.py:140-141). These are framework set-up with no broker state.
- `handle_connect` and every `print` call. They only log.
- `join_room` (main.py:70, main.py:89). A `Message` records the room an `emit` addresses, not the connections that receive it. Every connection is in the room named by its own sid. When a session id equals a sid, as it does by default (main.py:57 falls back to the host's sid), `join_room` at main.py:89 also makes the viewer a member of the host's room. An emit to `room=host_sid` then reaches that viewer too, and this includes a viewer that is itself the sender, because such an emit includes the sender by default. The emits affected are `viewer_connected` (main.py:97), `control_event` (main.py:127) and `viewer_disconnected` (main.py:50). The model does not capture these extra deliveries.
- `created_at = time.time()`. The wall clock is a parameter, `now: real`, of `RegisterHost` and `HandleRegisterHost`. Its value is only stored.
- The JSON shape and the status string of the `/` route. `Index` returns the three counts only.
- Session ids that are not strings. JSON `null` or a number as `session_id`, and a `data` argument that is not a dict (on which `data.get` raises), are not modelled. Session ids are strings and an absent key is `None` of `Option`.
- Interleaving of eventlet green threads. Each handler is one atomic step, since no handler yields in the middle.
- Delivery itself. An `emit` to a connection that has gone away is lost by the transport, and the model only records who a message is addressed to.
