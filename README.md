# XMPPChat: a Dafny model of the `UChat` session wrapper

XMPPChat is an Unreal Engine plugin. It wraps the engine's XMPP module in a single
Blueprint-visible object, `UChat`. `UChat` does four things:

- It obtains one XMPP connection at login.
- It attaches eight listeners to that connection's delegates.
- It forwards host commands to the connection's optional sub-interfaces: presence,
  messages, private chat, multi-user chat and pub/sub.
- It re-broadcasts engine events to host observers, with the engine's enums mapped to the
  host enums (`UChatUtil`).

The project has three modules, one per layer:

- `Xmpp` (`xmpp.dfy`) is the engine as `UChat` sees it.
  - It holds the protocol enums and the records `UChat` builds: server settings,
    messages, room configuration and pub/sub items.
  - It records which sub-interfaces a connection provides (each getter may return null).
  - A class `Connection` holds the engine-maintained state (login status, own presence,
    the room-member lookup). It also holds the set of live listener bindings
    `(delegate, handle)`, a handle counter, and a log `calls` of every request made to
    the connection.
  - Sending a request means appending it to `calls`.
- `ChatUtil` (`chat_util.dfy`) holds the host enums and the `UChatUtil` mappings, all pure
  functions. A protocol enum value that names none of the enumerators is written
  `Unnamed…(code)`. That is how the mappings' `default:` branches are modelled.
- `ChatSession` (`chat.dfy`) is the class `UChat`. Its fields match the source's:
  - the connection (`null` when there is none);
  - `inited` and `done`;
  - the eight delegate handles (0 means unset);
  - a log `events` of everything broadcast to host observers.

  Its methods are the source's methods, and each one's `ensures` gives the whole new state
  of the session and the connection: every field, including the values of the handles
  `Init` issues and the connection's handle counter.

The session behaves in these ways, all proved:

- `Init` attaches listeners only once. Each listener gets a handle that was not live
  before, and no two listeners share a handle.
- `Login` always replaces the connection. When the session was already initialised, the
  new connection gets no listeners, because `inited` stays true. The old connection keeps
  its bindings.
- `DeInit` removes the two room-join handles from the room-chat delegate, not from the
  delegates they were added to. It clears `inited` but keeps the connection.
- `Finish` logs out a logged-in connection. Otherwise, if a connection exists, it sets
  `done`; without one nothing changes.
- Every command makes its request only when the sub-interface it needs exists.
  `MucJoin` picks the public join for an empty password and the private join otherwise.
- A room message is re-broadcast under the sender's nickname when the member lookup knows
  the sender, and under "Unknown User" otherwise.

## Model

| member | source | states |
|---|---|---|
| ChatUtil.ToXmppPresence | Source/XMPPChat/Public/Chat.h:62-74 | Each host presence goes to the protocol presence of the same name (through the independent name table `SameNamePresence`), so never to a value outside the six named ones |
| ChatUtil.ToHostPresence | Source/XMPPChat/Public/Chat.h:76-88 | A named protocol presence comes back as the host value that maps onto it; any other value becomes `Chat` |
| ChatUtil.ToHostLoginStatus | Source/XMPPChat/Public/Chat.h:90-98 | The host status is `LoggedIn` exactly when the protocol status is `LoggedIn`; every other value, named or not, is `LoggedOut` |
| ChatUtil.ToHostMemberRole | Source/XMPPChat/Public/Chat.h:100-111 | A named protocol role keeps its name; any other value becomes `Outcast` |
| ChatUtil.HostPresenceRoundTrip | Source/XMPPChat/Public/Chat.h:62-88 | Host presence to protocol presence and back is the identity |
| ChatUtil.ProtocolPresenceRoundTrip | Source/XMPPChat/Public/Chat.h:62-88 | Protocol presence to host presence and back is the identity on the six named values |
| ChatUtil.ToXmppPresenceInjective | Source/XMPPChat/Public/Chat.h:62-74 | Distinct host presences map to distinct protocol presences |
| ChatUtil.ToXmppPresenceImage | Source/XMPPChat/Public/Chat.h:62-74 | A protocol presence is reached from the host enum if and only if it is one of the named values |
| ChatUtil.ToHostPresenceOnto | Source/XMPPChat/Public/Chat.h:76-88 | Every host presence is the image of some protocol presence |
| ChatUtil.ToHostMemberRoleOnto | Source/XMPPChat/Public/Chat.h:100-111 | Every host role is the image of some protocol role |
| ChatUtil.ToHostMemberRoleCollisions | Source/XMPPChat/Public/Chat.h:100-111 | Two different protocol roles share a host role only when that role is `Outcast` (the `default:` fall-through) |
| ChatUtil.ToHostPresenceCollisions | Source/XMPPChat/Public/Chat.h:76-88 | Two different protocol presences share a host presence only when that presence is `Chat` (the `default:` fall-through) |
| Xmpp.Connection.AddListener | Source/XMPPChat/Private/Chat.cpp:27-49 | Binding a listener returns a handle never issued before, adds exactly that binding, logs the request and changes nothing else |
| Xmpp.Connection.RemoveListener | Source/XMPPChat/Private/Chat.cpp:59-66 | Removing a listener removes exactly the `(delegate, handle)` pair (nothing when it is not bound there), logs the request and changes nothing else |
| Xmpp.Connection.Issue | Source/XMPPChat/Private/Chat.cpp:92-94 | A request is appended to the log; bindings and engine-maintained state are unchanged |
| ChatSession.UChat.constructor | Source/XMPPChat/Private/Chat.cpp:12-14 | A new session has no connection, `inited` and `done` false, unset handles and nothing broadcast |
| ChatSession.UChat.Init | Source/XMPPChat/Private/Chat.cpp:21-51 | With a connection and `inited` false: sets `inited` and adds exactly the eight bindings, each under a handle not live before and distinct from the others. It logs the eight requests in source order and leaves the engine state alone. Otherwise it changes nothing |
| ChatSession.UChat.DeInit | Source/XMPPChat/Private/Chat.cpp:53-70 | With a connection: clears `inited` and removes the eight `(delegate, handle)` pairs the source names, including the two join handles on the room-chat delegate. It keeps the connection and the handles. Without one it changes nothing |
| ChatSession.UChat.Login | Source/XMPPChat/Private/Chat.cpp:82-96 | Replaces the connection with the factory's result. On a new connection: listeners are attached if `inited` was false, then the server is set, then the login is requested. On a re-login the new connection gets no listeners. Without a connection, no request is made |
| ChatSession.UChat.LoginToServer | Source/XMPPChat/Private/Chat.cpp:72-80 | Same new state as `Login` (new connection logged out, no members, initial presence, listeners and handles, request log), with the server record built from the three strings |
| ChatSession.UChat.Logout | Source/XMPPChat/Private/Chat.cpp:214-220 | Requests a logout if and only if a connection exists and reports `LoggedIn`; changes nothing else |
| ChatSession.UChat.Finish | Source/XMPPChat/Private/Chat.cpp:155-168 | A logged-in connection is logged out and `done` is kept. A connection in any other status is left alone and `done` becomes true. Without a connection nothing changes |
| ChatSession.UChat.ToXmppPresence | Source/XMPPChat/Private/Chat.cpp:328-340 | The session's own copy of the presence mapping agrees with `ChatUtil.ToXmppPresence` on every input |
| ChatSession.UChat.ToHostLoginStatus | Source/XMPPChat/Private/Chat.cpp:342-350 | The session's own copy of the login-status mapping agrees with `ChatUtil.ToHostLoginStatus` on every input |
| ChatSession.UChat.Presence | Source/XMPPChat/Private/Chat.cpp:170-179 | With a presence interface, publishes the current presence with availability and mapped status replaced; the status text sent is the one already held. Without the interface nothing changes |
| ChatSession.UChat.PresenceQuery | Source/XMPPChat/Private/Chat.cpp:181-187 | Queries the user's presence exactly when the presence interface exists |
| ChatSession.UChat.Message | Source/XMPPChat/Private/Chat.cpp:189-200 | Sends a message of type "test" with the given sender, recipient and payload exactly when the messages interface exists |
| ChatSession.UChat.PrivateChat | Source/XMPPChat/Private/Chat.cpp:202-212 | Sends a chat message with the given sender, recipient and body exactly when the private-chat interface exists |
| ChatSession.UChat.MucCreate | Source/XMPPChat/Private/Chat.cpp:222-233 | Creates a room named after its id, not persistent, with the given privacy and password, exactly when a connection with a multi-user-chat interface exists |
| ChatSession.UChat.MucJoin | Source/XMPPChat/Private/Chat.cpp:235-248 | With a multi-user-chat interface: an empty password gives a public join, any other a private join with that password. Otherwise nothing changes |
| ChatSession.UChat.MucExit | Source/XMPPChat/Private/Chat.cpp:250-256 | Leaves the room exactly when a multi-user-chat interface exists |
| ChatSession.UChat.MucChat | Source/XMPPChat/Private/Chat.cpp:258-264 | Sends the body to the room exactly when a multi-user-chat interface exists |
| ChatSession.UChat.MucConfig | Source/XMPPChat/Private/Chat.cpp:266-275 | Reconfigures the room with only privacy and password set and the rest left at defaults, exactly when a multi-user-chat interface exists |
| ChatSession.UChat.MucRefresh | Source/XMPPChat/Private/Chat.cpp:277-283 | Asks for room information exactly when a multi-user-chat interface exists |
| ChatSession.UChat.PubSubCreate | Source/XMPPChat/Private/Chat.cpp:285-292 | Creates the node with a default configuration exactly when a pub/sub interface exists |
| ChatSession.UChat.PubSubDestroy | Source/XMPPChat/Private/Chat.cpp:294-300 | Destroys the node exactly when a pub/sub interface exists |
| ChatSession.UChat.PubSubSubscribe | Source/XMPPChat/Private/Chat.cpp:302-308 | Subscribes to the node exactly when a pub/sub interface exists |
| ChatSession.UChat.PubSubUnsubscribe | Source/XMPPChat/Private/Chat.cpp:310-316 | Unsubscribes from the node exactly when a pub/sub interface exists |
| ChatSession.UChat.PubSubPublish | Source/XMPPChat/Private/Chat.cpp:318-326 | Publishes an item carrying the payload exactly when a pub/sub interface exists |
| ChatSession.UChat.OnLoginComplete | Source/XMPPChat/Private/Chat.cpp:99-104 | Broadcasts exactly one login-complete event with the jid, success flag and error |
| ChatSession.UChat.OnLogoutComplete | Source/XMPPChat/Private/Chat.cpp:106-111 | Broadcasts exactly one logout-complete event with the jid, success flag and error |
| ChatSession.UChat.OnLoginChanged | Source/XMPPChat/Private/Chat.cpp:113-118 | Broadcasts exactly one status-change event, whose host status is `LoggedIn` if and only if the protocol status is |
| ChatSession.UChat.OnChatReceiveMessage | Source/XMPPChat/Private/Chat.cpp:120-125 | Broadcasts exactly one event with the sender and the message payload |
| ChatSession.UChat.OnPrivateChatReceiveMessage | Source/XMPPChat/Private/Chat.cpp:127-132 | Broadcasts exactly one event with the sender and the chat body |
| ChatSession.UChat.OnMucReceiveMessage | Source/XMPPChat/Private/Chat.cpp:134-143 | Broadcasts exactly one event with the room id, the sender's display name (`SenderName`) and the body |
| ChatSession.SenderNameUnknownIffAbsent | Source/XMPPChat/Private/Chat.cpp:136-141 | If no member is nicknamed "Unknown User", a message shows "Unknown User" if and only if its sender is not in the member lookup |
| ChatSession.SenderNameFollowsLookup | Source/XMPPChat/Private/Chat.cpp:136-141 | A sender recorded in the lookup is shown under its nickname; once removed, it is shown as "Unknown User" |
| ChatSession.UChat.OnMucRoomJoinPublicComplete | Source/XMPPChat/Private/Chat.cpp:145-148 | Broadcasts exactly one public-join event with the success flag, room id and error |
| ChatSession.UChat.OnMucRoomJoinPrivateComplete | Source/XMPPChat/Private/Chat.cpp:150-153 | Broadcasts exactly one private-join event with the success flag, room id and error |
| ChatSession.ReloginAttachesNothing | Source/XMPPChat/Private/Chat.cpp:21-25 | After logins as two different users with no teardown between them, the first connection still carries the login-complete listener and the second carries no listener at all |
| ChatSession.DeInitLeavesJoinListeners | Source/XMPPChat/Private/Chat.cpp:53-66 | After a login and a teardown, the login-complete listener is gone but both room-join listeners are still bound |
| ChatSession.InitTwiceAttachesOnce | Source/XMPPChat/Private/Chat.cpp:21-25 | After a login, a further `Init` changes neither the bindings nor the request log |
| ChatSession.MucJoinRoutes | Source/XMPPChat/Private/Chat.cpp:235-248 | Joining with an empty password and then with "secret" issues a public join followed by a private join with that password |

## Left out

- Module lookup and connection registry: `FModuleManager`/`FXmppModule` are not modelled.
  - `CreateConnection` (Chat.cpp:86) becomes the `created`/`caps` parameters of `Login`.
  - The `RemoveConnection` call in `DeInit` (Chat.cpp:68) is not modelled. The model's
    `DeInit` keeps the connection, as the session field does in the source.
- ChatSession.UChat.Login: the connection factory is assumed to return a new connection,
  logged out, with no members and no listeners. The real module may hand back the existing
  connection for the same user id. Logging in again as the same user without `DeInit`
  could then land on the listeners still bound there; the model does not cover that case.
- Xmpp.Connection.constructor: a new connection's own presence is fixed as unavailable,
  `Offline`, with empty status text. The engine's actual initial presence is not part of
  this model. This fixes the status text that every `Presence` call sends, because the
  wrapper never sets that text and the model never updates the held presence.
- ChatSession.UChat.MucCreate: the default arguments in the header (Chat.h:287,
  `bIsPrivate = false`, `Password = ""`) are not modelled. Dafny callers always pass all
  four arguments.
- Logging (`UE_LOG`) has no observable effect and is left out.
- Delegate and multicast mechanics are reduced to two things. A binding is a
  `(delegate, handle)` pair in `Connection.live`. A host broadcast is an `Event` appended
  to `events`. Observers and the engine's own delivery of callbacks are not modelled.
- `ConvertFrom`, `PresenceGetRosterMembers` and `MucGetMembers` are declared in Chat.h
  with no definition in Chat.cpp, so they have no behaviour to model.
- Jids and room ids are strings: the full path the source broadcasts. `FXmppUserJid` parsing
  is not part of this model.
- Handles come from a per-connection counter that starts at 1. The engine's handle
  allocation is global, and only the uniqueness the model relies on is kept.
- The engine-maintained state is read-only to `UChat`: login status, own presence and the
  member lookup. Server traffic changes it asynchronously, so it is left out. Timestamps
  (`FDateTime` fields) and record fields the wrapper never sets are left out too.
- Which sub-interfaces a connection provides is fixed when the connection is created.
  Sub-interface getters that start returning null later are not modelled.
- Null dereferences become preconditions.
  - `Init` and `DeInit` dereference the messages, private-chat and multi-user-chat
    interfaces without checking, so they require those interfaces on the connection.
  - `Presence`, `PresenceQuery`, `Message` and `PrivateChat` dereference the connection
    without checking, so they require one.
  - `OnMucReceiveMessage` dereferences the multi-user-chat interface of the connection it
    is given, so it requires that interface.
- The destructor (Chat.cpp:16-19) only calls `DeInit`. Dafny has no destructors; calling
  `DeInit` is the model's equivalent.
- The header and the implementation disagree in two places. The model follows the
  implementation, Chat.cpp.
  - Chat.h:268 declares `Message` with four parameters, but Chat.cpp:189 defines it with
    three and a fixed type "test".
  - `FOnChatReceiveMessage` (Chat.h:118) is declared with three parameters, but
    Chat.cpp:124 broadcasts two: sender and payload.
- ChatUtil.ToXmppPresence: the host enum is modelled with exactly its six values. The
  `default:` branch for an out-of-range host byte (Chat.h:71) therefore has no input in
  the model.
- Threading is not modelled: engine callbacks and host calls are treated as interleaving
  one at a time.
