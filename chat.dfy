/** The chat session object: one optional XMPP connection, the listeners it
    attaches to that connection's delegates, the commands it forwards to the
    connection's sub-interfaces and the host events it re-broadcasts.
    A broadcast is an entry appended to `events`; a request to the engine is an
    entry appended to the connection's `calls` (see module Xmpp). */
module ChatSession {
  import Xmpp
  import ChatUtil

  /** The events the session broadcasts to host observers. */
  datatype Event =
    | ChatLoginComplete(jid: string, success: bool, error: string)
    | ChatLogoutComplete(jid: string, success: bool, error: string)
    | ChatLoginChanged(jid: string, status: ChatUtil.LoginStatus)
    | ChatMessageReceived(jid: string, payload: string)
    | PrivateChatReceived(jid: string, body: string)
    | RoomMessageReceived(roomId: string, sender: string, body: string)
    | RoomJoinPublicComplete(success: bool, roomId: string, error: string)
    | RoomJoinPrivateComplete(success: bool, roomId: string, error: string)

  /** Display name used for a room message whose sender is not a known member. */
  const UnknownUser := "Unknown User"

  /** The display name a room message is broadcast under: the nickname the
      member lookup holds for (room, jid), or `UnknownUser` when it holds none. */
  function SenderName(members: map<(string, string), Xmpp.ChatMember>, roomId: string, userJid: string): (name: string)
  {
    if (roomId, userJid) in members then members[(roomId, userJid)].nickname else UnknownUser
  }

  /** The sentinel is shown exactly when the lookup has no member, provided no
      member is itself nicknamed "Unknown User". */
  lemma SenderNameUnknownIffAbsent(members: map<(string, string), Xmpp.ChatMember>, roomId: string, userJid: string)
    requires forall k :: k in members ==> members[k].nickname != UnknownUser
    ensures SenderName(members, roomId, userJid) == UnknownUser <==> (roomId, userJid) !in members
  {
  }

  /** Once the lookup holds a member for (room, jid), messages from that jid in that
      room carry its nickname; once it is removed, they carry the sentinel again. */
  lemma SenderNameFollowsLookup(members: map<(string, string), Xmpp.ChatMember>, roomId: string, userJid: string,
                                member: Xmpp.ChatMember)
    ensures SenderName(members[(roomId, userJid) := member], roomId, userJid) == member.nickname
    ensures SenderName(members - {(roomId, userJid)}, roomId, userJid) == UnknownUser
  {
  }

  /** The three sub-interfaces that `Init` and `DeInit` dereference without checking. */
  predicate ListenerInterfaces(caps: Xmpp.Capabilities) {
    caps.messages && caps.privateChat && caps.muc
  }

  class UChat {
    /** The connection; null before the first login and after a login whose connection was not created. */
    var conn: Xmpp.Connection?
    /** Whether the listeners have been attached. */
    var inited: bool
    /** Whether the session has been finished without a logout. */
    var done: bool

    /** Handles of the eight listeners; 0 is the unset handle. */
    var loginCompleteHandle: nat
    var logoutCompleteHandle: nat
    var loginChangedHandle: nat
    var privateChatHandle: nat
    var chatMessageHandle: nat
    var roomMessageHandle: nat
    var joinPublicHandle: nat
    var joinPrivateHandle: nat

    /** Every event broadcast so far, oldest first. */
    var events: seq<Event>

    ghost predicate Valid()
      reads this, conn
    {
      conn != null ==> conn.Valid()
    }

    /** The eight handles, in declaration order. */
    ghost function Handles(): (hs: seq<nat>)
      reads this
    {
      [loginCompleteHandle, logoutCompleteHandle, loginChangedHandle, privateChatHandle,
       chatMessageHandle, roomMessageHandle, joinPublicHandle, joinPrivateHandle]
    }

    /** The handle recorded for the listener on delegate `d`. */
    function HandleOf(d: Xmpp.Delegate): (h: nat)
      reads this
    {
      match d
      case OnLoginComplete => loginCompleteHandle
      case OnLogoutComplete => logoutCompleteHandle
      case OnLoginChanged => loginChangedHandle
      case OnReceiveMessage => chatMessageHandle
      case OnReceiveChat => privateChatHandle
      case OnRoomChatReceived => roomMessageHandle
      case OnJoinPublicRoom => joinPublicHandle
      case OnJoinPrivateRoom => joinPrivateHandle
    }

    /** No two listeners share a handle. */
    ghost predicate HandlesDistinct()
      reads this
    {
      forall d: Xmpp.Delegate, e: Xmpp.Delegate :: d != e ==> HandleOf(d) != HandleOf(e)
    }

    /** Handles issued one after another are pairwise distinct and all new. */
    lemma ConsecutiveHandlesDistinct(first: nat)
      requires Handles() == [first, first + 1, first + 2, first + 4, first + 3, first + 5, first + 6, first + 7]
      ensures HandlesDistinct()
      ensures forall b :: b in Listeners() ==> first <= b.1 < first + 8
    {
    }

    /** The bindings `Init` creates: each delegate with its own handle. */
    ghost function Listeners(): (bs: set<(Xmpp.Delegate, nat)>)
      reads this
    {
      {(Xmpp.OnLoginComplete, loginCompleteHandle), (Xmpp.OnLogoutComplete, logoutCompleteHandle),
       (Xmpp.OnLoginChanged, loginChangedHandle), (Xmpp.OnReceiveMessage, chatMessageHandle),
       (Xmpp.OnReceiveChat, privateChatHandle), (Xmpp.OnRoomChatReceived, roomMessageHandle),
       (Xmpp.OnJoinPublicRoom, joinPublicHandle), (Xmpp.OnJoinPrivateRoom, joinPrivateHandle)}
    }

    /** The requests `Init` makes, in order. */
    ghost function AttachRequests(): (rs: seq<Xmpp.Request>)
      reads this
    {
      [Xmpp.AddListener(Xmpp.OnLoginComplete, loginCompleteHandle),
       Xmpp.AddListener(Xmpp.OnLogoutComplete, logoutCompleteHandle),
       Xmpp.AddListener(Xmpp.OnLoginChanged, loginChangedHandle),
       Xmpp.AddListener(Xmpp.OnReceiveMessage, chatMessageHandle),
       Xmpp.AddListener(Xmpp.OnReceiveChat, privateChatHandle),
       Xmpp.AddListener(Xmpp.OnRoomChatReceived, roomMessageHandle),
       Xmpp.AddListener(Xmpp.OnJoinPublicRoom, joinPublicHandle),
       Xmpp.AddListener(Xmpp.OnJoinPrivateRoom, joinPrivateHandle)]
    }

    /** The bindings `DeInit` removes. The two room-join handles are removed from
        the room-chat delegate, not from the join delegates they were added to. */
    ghost function Detached(): (bs: set<(Xmpp.Delegate, nat)>)
      reads this
    {
      {(Xmpp.OnLoginComplete, loginCompleteHandle), (Xmpp.OnLogoutComplete, logoutCompleteHandle),
       (Xmpp.OnLoginChanged, loginChangedHandle), (Xmpp.OnReceiveMessage, chatMessageHandle),
       (Xmpp.OnReceiveChat, privateChatHandle), (Xmpp.OnRoomChatReceived, roomMessageHandle),
       (Xmpp.OnRoomChatReceived, joinPublicHandle), (Xmpp.OnRoomChatReceived, joinPrivateHandle)}
    }

    /** The requests `DeInit` makes, in order. */
    ghost function DetachRequests(): (rs: seq<Xmpp.Request>)
      reads this
    {
      [Xmpp.RemoveListener(Xmpp.OnLoginComplete, loginCompleteHandle),
       Xmpp.RemoveListener(Xmpp.OnLogoutComplete, logoutCompleteHandle),
       Xmpp.RemoveListener(Xmpp.OnLoginChanged, loginChangedHandle),
       Xmpp.RemoveListener(Xmpp.OnReceiveMessage, chatMessageHandle),
       Xmpp.RemoveListener(Xmpp.OnReceiveChat, privateChatHandle),
       Xmpp.RemoveListener(Xmpp.OnRoomChatReceived, roomMessageHandle),
       Xmpp.RemoveListener(Xmpp.OnRoomChatReceived, joinPublicHandle),
       Xmpp.RemoveListener(Xmpp.OnRoomChatReceived, joinPrivateHandle)]
    }

    /** A fresh session: no connection, nothing attached, nothing broadcast. */
    constructor ()
      ensures Valid()
      ensures conn == null && !inited && !done && events == []
      ensures Handles() == [0, 0, 0, 0, 0, 0, 0, 0]
    {
      conn := null;
      inited, done := false, false;
      loginCompleteHandle, logoutCompleteHandle, loginChangedHandle, privateChatHandle := 0, 0, 0, 0;
      chatMessageHandle, roomMessageHandle, joinPublicHandle, joinPrivateHandle := 0, 0, 0, 0;
      events := [];
    }

    /** Attaches the eight listeners, once: only when a connection exists and
        nothing is attached yet. Afterwards every listener is bound under a handle
        not bound before, and a further call changes nothing. */
    method Init()
      requires Valid()
      requires conn != null && !inited ==> ListenerInterfaces(conn.caps)
      modifies this, conn
      ensures Valid() && conn == old(conn)
      ensures done == old(done) && events == old(events)
      ensures old(conn != null && !inited) ==>
        && inited
        && Handles() == [old(conn.nextHandle), old(conn.nextHandle) + 1, old(conn.nextHandle) + 2,
                         old(conn.nextHandle) + 4, old(conn.nextHandle) + 3, old(conn.nextHandle) + 5,
                         old(conn.nextHandle) + 6, old(conn.nextHandle) + 7]
        && conn.nextHandle == old(conn.nextHandle) + 8
        && HandlesDistinct()
        && Listeners() !! old(conn.live)
        && conn.live == old(conn.live) + Listeners()
        && conn.calls == old(conn.calls) + AttachRequests()
        && conn.status == old(conn.status) && conn.presence == old(conn.presence)
        && conn.members == old(conn.members)
      ensures !old(conn != null && !inited) ==> unchanged(this) && (conn != null ==> unchanged(conn))
    {
      if conn != null && !inited {
        var c := conn;
        ghost var first := c.nextHandle;
        inited := true;
        AttachConnectionListeners(c);
        AttachMessageListeners(c);
        AttachRoomListeners(c);
        ConsecutiveHandlesDistinct(first);
      }
    }

    /** `Init`'s first three listeners, on the connection's own delegates. */
    method AttachConnectionListeners(c: Xmpp.Connection)
      requires c.Valid()
      modifies this`loginCompleteHandle, this`logoutCompleteHandle, this`loginChangedHandle, c
      ensures c.Valid() && c.nextHandle == old(c.nextHandle) + 3
      ensures loginCompleteHandle == old(c.nextHandle) && logoutCompleteHandle == old(c.nextHandle) + 1
      ensures loginChangedHandle == old(c.nextHandle) + 2
      ensures c.live == old(c.live) + {(Xmpp.OnLoginComplete, loginCompleteHandle)}
        + {(Xmpp.OnLogoutComplete, logoutCompleteHandle)} + {(Xmpp.OnLoginChanged, loginChangedHandle)}
      ensures c.calls == old(c.calls) + [Xmpp.AddListener(Xmpp.OnLoginComplete, loginCompleteHandle),
        Xmpp.AddListener(Xmpp.OnLogoutComplete, logoutCompleteHandle),
        Xmpp.AddListener(Xmpp.OnLoginChanged, loginChangedHandle)]
      ensures c.status == old(c.status) && c.presence == old(c.presence) && c.members == old(c.members)
    {
      var h1 := c.AddListener(Xmpp.OnLoginComplete);
      var h2 := c.AddListener(Xmpp.OnLogoutComplete);
      var h3 := c.AddListener(Xmpp.OnLoginChanged);
      loginCompleteHandle, logoutCompleteHandle, loginChangedHandle := h1, h2, h3;
    }

    /** `Init`'s listeners on the message and private-chat sub-interfaces. */
    method AttachMessageListeners(c: Xmpp.Connection)
      requires c.Valid() && c.caps.messages && c.caps.privateChat
      modifies this`chatMessageHandle, this`privateChatHandle, c
      ensures c.Valid() && c.nextHandle == old(c.nextHandle) + 2
      ensures chatMessageHandle == old(c.nextHandle) && privateChatHandle == old(c.nextHandle) + 1
      ensures c.live == old(c.live) + {(Xmpp.OnReceiveMessage, chatMessageHandle)}
        + {(Xmpp.OnReceiveChat, privateChatHandle)}
      ensures c.calls == old(c.calls) + [Xmpp.AddListener(Xmpp.OnReceiveMessage, chatMessageHandle),
        Xmpp.AddListener(Xmpp.OnReceiveChat, privateChatHandle)]
      ensures c.status == old(c.status) && c.presence == old(c.presence) && c.members == old(c.members)
    {
      var h4 := c.AddListener(Xmpp.OnReceiveMessage);
      var h5 := c.AddListener(Xmpp.OnReceiveChat);
      chatMessageHandle, privateChatHandle := h4, h5;
    }

    /** `Init`'s listeners on the multi-user-chat sub-interface. */
    method AttachRoomListeners(c: Xmpp.Connection)
      requires c.Valid() && c.caps.muc
      modifies this`roomMessageHandle, this`joinPublicHandle, this`joinPrivateHandle, c
      ensures c.Valid() && c.nextHandle == old(c.nextHandle) + 3
      ensures roomMessageHandle == old(c.nextHandle) && joinPublicHandle == old(c.nextHandle) + 1
      ensures joinPrivateHandle == old(c.nextHandle) + 2
      ensures c.live == old(c.live) + {(Xmpp.OnRoomChatReceived, roomMessageHandle)}
        + {(Xmpp.OnJoinPublicRoom, joinPublicHandle)} + {(Xmpp.OnJoinPrivateRoom, joinPrivateHandle)}
      ensures c.calls == old(c.calls) + [Xmpp.AddListener(Xmpp.OnRoomChatReceived, roomMessageHandle),
        Xmpp.AddListener(Xmpp.OnJoinPublicRoom, joinPublicHandle),
        Xmpp.AddListener(Xmpp.OnJoinPrivateRoom, joinPrivateHandle)]
      ensures c.status == old(c.status) && c.presence == old(c.presence) && c.members == old(c.members)
    {
      var h6 := c.AddListener(Xmpp.OnRoomChatReceived);
      var h7 := c.AddListener(Xmpp.OnJoinPublicRoom);
      var h8 := c.AddListener(Xmpp.OnJoinPrivateRoom);
      roomMessageHandle, joinPublicHandle, joinPrivateHandle := h6, h7, h8;
    }

    /** Detaches the listeners when a connection exists, and clears `inited`.
        The connection itself is kept. */
    method DeInit()
      requires Valid()
      requires conn != null ==> ListenerInterfaces(conn.caps)
      modifies this, conn
      ensures Valid() && conn == old(conn)
      ensures done == old(done) && events == old(events) && Handles() == old(Handles())
      ensures conn != null ==>
        && !inited
        && conn.live == old(conn.live) - Detached()
        && conn.calls == old(conn.calls) + DetachRequests()
        && conn.nextHandle == old(conn.nextHandle)
        && conn.status == old(conn.status) && conn.presence == old(conn.presence)
        && conn.members == old(conn.members)
      ensures conn == null ==> unchanged(this)
    {
      if conn != null {
        var c := conn;
        inited := false;
        DetachConnectionListeners(c);
        DetachMessageListeners(c);
        DetachRoomListeners(c);
      }
    }

    /** `DeInit`'s removals from the connection's own delegates. */
    method DetachConnectionListeners(c: Xmpp.Connection)
      requires c.Valid()
      modifies c
      ensures c.Valid() && c.nextHandle == old(c.nextHandle)
      ensures c.live == old(c.live) - {(Xmpp.OnLoginComplete, loginCompleteHandle)}
        - {(Xmpp.OnLogoutComplete, logoutCompleteHandle)} - {(Xmpp.OnLoginChanged, loginChangedHandle)}
      ensures c.calls == old(c.calls) + [Xmpp.RemoveListener(Xmpp.OnLoginComplete, loginCompleteHandle),
        Xmpp.RemoveListener(Xmpp.OnLogoutComplete, logoutCompleteHandle),
        Xmpp.RemoveListener(Xmpp.OnLoginChanged, loginChangedHandle)]
      ensures c.status == old(c.status) && c.presence == old(c.presence) && c.members == old(c.members)
    {
      c.RemoveListener(Xmpp.OnLoginComplete, loginCompleteHandle);
      c.RemoveListener(Xmpp.OnLogoutComplete, logoutCompleteHandle);
      c.RemoveListener(Xmpp.OnLoginChanged, loginChangedHandle);
    }

    /** `DeInit`'s removals from the message and private-chat sub-interfaces. */
    method DetachMessageListeners(c: Xmpp.Connection)
      requires c.Valid() && c.caps.messages && c.caps.privateChat
      modifies c
      ensures c.Valid() && c.nextHandle == old(c.nextHandle)
      ensures c.live == old(c.live) - {(Xmpp.OnReceiveMessage, chatMessageHandle)}
        - {(Xmpp.OnReceiveChat, privateChatHandle)}
      ensures c.calls == old(c.calls) + [Xmpp.RemoveListener(Xmpp.OnReceiveMessage, chatMessageHandle),
        Xmpp.RemoveListener(Xmpp.OnReceiveChat, privateChatHandle)]
      ensures c.status == old(c.status) && c.presence == old(c.presence) && c.members == old(c.members)
    {
      c.RemoveListener(Xmpp.OnReceiveMessage, chatMessageHandle);
      c.RemoveListener(Xmpp.OnReceiveChat, privateChatHandle);
    }

    /** `DeInit`'s removals from the multi-user-chat sub-interface: all three from
        the room-chat delegate. */
    method DetachRoomListeners(c: Xmpp.Connection)
      requires c.Valid() && c.caps.muc
      modifies c
      ensures c.Valid() && c.nextHandle == old(c.nextHandle)
      ensures c.live == old(c.live) - {(Xmpp.OnRoomChatReceived, roomMessageHandle)}
        - {(Xmpp.OnRoomChatReceived, joinPublicHandle)} - {(Xmpp.OnRoomChatReceived, joinPrivateHandle)}
      ensures c.calls == old(c.calls) + [Xmpp.RemoveListener(Xmpp.OnRoomChatReceived, roomMessageHandle),
        Xmpp.RemoveListener(Xmpp.OnRoomChatReceived, joinPublicHandle),
        Xmpp.RemoveListener(Xmpp.OnRoomChatReceived, joinPrivateHandle)]
      ensures c.status == old(c.status) && c.presence == old(c.presence) && c.members == old(c.members)
    {
      c.RemoveListener(Xmpp.OnRoomChatReceived, roomMessageHandle);
      c.RemoveListener(Xmpp.OnRoomChatReceived, joinPublicHandle);
      c.RemoveListener(Xmpp.OnRoomChatReceived, joinPrivateHandle);
    }

    /** Logs in through a new connection. `created` and `caps` stand for the
        module's connection factory: whether it returned a connection and which
        sub-interfaces that connection provides. The previous connection, if any,
        is dropped untouched. With a connection, the listeners are attached (only
        if none were attached before), then the server is set, then the login is
        requested; without one, no request is made. */
    method Login(userId: string, auth: string, server: Xmpp.Server, created: bool, caps: Xmpp.Capabilities)
      requires Valid()
      requires created && !inited ==> ListenerInterfaces(caps)
      modifies this
      ensures Valid()
      ensures done == old(done) && events == old(events)
      ensures !created ==> conn == null && inited == old(inited) && Handles() == old(Handles())
      ensures created ==>
        && conn != null && fresh(conn) && conn.caps == caps && inited
        && conn.status == Xmpp.LoggedOut && conn.members == map[]
        && conn.presence == Xmpp.UserPresence(false, Xmpp.Offline, "")
      ensures created && old(inited) ==>
        && Handles() == old(Handles())
        && conn.live == {} && conn.nextHandle == 1
        && conn.calls == [Xmpp.SetServer(server), Xmpp.Login(userId, auth)]
      ensures created && !old(inited) ==>
        && Handles() == [1, 2, 3, 5, 4, 6, 7, 8] && conn.nextHandle == 9
        && HandlesDistinct()
        && conn.live == Listeners()
        && conn.calls == AttachRequests() + [Xmpp.SetServer(server), Xmpp.Login(userId, auth)]
    {
      if created {
        conn := new Xmpp.Connection(caps);
      } else {
        conn := null;
      }
      if conn != null {
        Init();
        conn.Issue(Xmpp.SetServer(server));
        conn.Issue(Xmpp.Login(userId, auth));
      }
    }

    /** Logs in with server settings given field by field; behaves as `Login`
        with a server record built from them. */
    method LoginToServer(userId: string, auth: string, serverAddr: string, domain: string, clientResource: string,
                         created: bool, caps: Xmpp.Capabilities)
      requires Valid()
      requires created && !inited ==> ListenerInterfaces(caps)
      modifies this
      ensures Valid()
      ensures done == old(done) && events == old(events)
      ensures !created ==> conn == null && inited == old(inited) && Handles() == old(Handles())
      ensures created ==>
        && conn != null && fresh(conn) && conn.caps == caps && inited
        && conn.status == Xmpp.LoggedOut && conn.members == map[]
        && conn.presence == Xmpp.UserPresence(false, Xmpp.Offline, "")
      ensures created && old(inited) ==>
        && Handles() == old(Handles()) && conn.live == {} && conn.nextHandle == 1
        && conn.calls == [Xmpp.SetServer(Xmpp.Server(serverAddr, domain, clientResource)), Xmpp.Login(userId, auth)]
      ensures created && !old(inited) ==>
        && Handles() == [1, 2, 3, 5, 4, 6, 7, 8] && conn.nextHandle == 9
        && HandlesDistinct() && conn.live == Listeners()
        && conn.calls == AttachRequests()
                         + [Xmpp.SetServer(Xmpp.Server(serverAddr, domain, clientResource)), Xmpp.Login(userId, auth)]
    {
      var server := Xmpp.Server(serverAddr, domain, clientResource);
      Login(userId, auth, server, created, caps);
    }

    /** Requests a logout exactly when a connection exists and reports itself logged in. */
    method Logout()
      modifies conn
      ensures conn != null ==> conn.Issued(if old(conn.status) == Xmpp.LoggedIn then [Xmpp.Logout] else [])
    {
      if conn != null && conn.status == Xmpp.LoggedIn {
        conn.Issue(Xmpp.Logout);
      }
    }

    /** Ends the session: a logged-in connection is logged out (and `done` is left
        as it was); a connection in any other status marks the session done;
        without a connection nothing happens. */
    method Finish()
      modifies this`done, conn
      ensures conn != null && old(conn.status) == Xmpp.LoggedIn ==> conn.Issued([Xmpp.Logout]) && done == old(done)
      ensures conn != null && old(conn.status) != Xmpp.LoggedIn ==> conn.Issued([]) && done
      ensures conn == null ==> done == old(done)
    {
      if conn != null {
        if conn.status == Xmpp.LoggedIn {
          Logout();
        } else {
          done := true;
        }
      }
    }

    /** Duplicate of `ChatUtil.ToXmppPresence` kept as a member of the session. */
    static function ToXmppPresence(s: ChatUtil.PresenceStatus): (r: Xmpp.PresenceStatus)
      ensures r == ChatUtil.ToXmppPresence(s)
    {
      match s
      case Online => Xmpp.Online
      case Offline => Xmpp.Offline
      case Away => Xmpp.Away
      case ExtendedAway => Xmpp.ExtendedAway
      case DoNotDisturb => Xmpp.DoNotDisturb
      case Chat => Xmpp.Chat
    }

    /** Duplicate of `ChatUtil.ToHostLoginStatus` kept as a member of the session. */
    static function ToHostLoginStatus(s: Xmpp.LoginStatus): (r: ChatUtil.LoginStatus)
      ensures r == ChatUtil.ToHostLoginStatus(s)
    {
      match s
      case LoggedIn => ChatUtil.LoggedIn
      case LoggedOut => ChatUtil.LoggedOut
      case UnnamedLogin(_) => ChatUtil.LoggedOut
    }

    /** Publishes the connection's current presence with availability and status
        replaced. The status text argument is not used: the text sent is the one
        the connection already holds. */
    method Presence(isAvailable: bool, status: ChatUtil.PresenceStatus, statusText: string)
      requires conn != null
      modifies conn
      ensures conn.Issued(if conn.caps.presence
                          then [Xmpp.UpdatePresence(Xmpp.UserPresence(isAvailable, ToXmppPresence(status),
                                                                      conn.presence.statusText))]
                          else [])
    {
      if conn.caps.presence {
        var presence := conn.presence;
        presence := presence.(isAvailable := isAvailable, status := ToXmppPresence(status));
        conn.Issue(Xmpp.UpdatePresence(presence));
      }
    }

    /** Asks for the presence of `user`. */
    method PresenceQuery(user: string)
      requires conn != null
      modifies conn
      ensures conn.Issued(if conn.caps.presence then [Xmpp.QueryPresence(user)] else [])
    {
      if conn.caps.presence {
        conn.Issue(Xmpp.QueryPresence(user));
      }
    }

    /** Sends a direct message of type "test" from `userName` to `recipient`. */
    method Message(userName: string, recipient: string, payload: string)
      requires conn != null
      modifies conn
      ensures conn.Issued(if conn.caps.messages
                          then [Xmpp.SendMessage(recipient, Xmpp.Message(userName, recipient, "test", payload))]
                          else [])
    {
      if conn.caps.messages {
        var message := Xmpp.Message(userName, recipient, "test", payload);
        conn.Issue(Xmpp.SendMessage(recipient, message));
      }
    }

    /** Sends a private chat message from `userName` to `recipient`. */
    method PrivateChat(userName: string, recipient: string, body: string)
      requires conn != null
      modifies conn
      ensures conn.Issued(if conn.caps.privateChat
                          then [Xmpp.SendChat(recipient, Xmpp.ChatMessage(userName, recipient, body))]
                          else [])
    {
      if conn.caps.privateChat {
        var chat := Xmpp.ChatMessage(userName, recipient, body);
        conn.Issue(Xmpp.SendChat(recipient, chat));
      }
    }

    /** Creates a non-persistent room named after its id. */
    method MucCreate(userName: string, roomId: string, isPrivate: bool, password: string)
      modifies conn
      ensures conn != null ==>
        conn.Issued(if conn.caps.muc
                    then [Xmpp.CreateRoom(roomId, userName,
                                          Xmpp.RoomConfig(roomId, Xmpp.Set(false), Xmpp.Set(isPrivate), password))]
                    else [])
    {
      if conn != null && conn.caps.muc {
        var config := Xmpp.DefaultRoomConfig;
        config := config.(roomName := roomId, persistent := Xmpp.Set(false));
        config := config.(isPrivate := Xmpp.Set(isPrivate), password := password);
        conn.Issue(Xmpp.CreateRoom(roomId, userName, config));
      }
    }

    /** Joins a room: the public join when no password is given, the private join otherwise. */
    method MucJoin(roomId: string, nickname: string, password: string)
      modifies conn
      ensures conn != null ==>
        conn.Issued(if !conn.caps.muc then []
                    else if password == "" then [Xmpp.JoinPublicRoom(roomId, nickname)]
                    else [Xmpp.JoinPrivateRoom(roomId, nickname, password)])
    {
      if conn != null && conn.caps.muc {
        if password == "" {
          conn.Issue(Xmpp.JoinPublicRoom(roomId, nickname));
        } else {
          conn.Issue(Xmpp.JoinPrivateRoom(roomId, nickname, password));
        }
      }
    }

    /** Leaves a room. */
    method MucExit(roomId: string)
      modifies conn
      ensures conn != null ==> conn.Issued(if conn.caps.muc then [Xmpp.ExitRoom(roomId)] else [])
    {
      if conn != null && conn.caps.muc {
        conn.Issue(Xmpp.ExitRoom(roomId));
      }
    }

    /** Sends `body` to a room. */
    method MucChat(roomId: string, body: string)
      modifies conn
      ensures conn != null ==> conn.Issued(if conn.caps.muc then [Xmpp.SendRoomChat(roomId, body)] else [])
    {
      if conn != null && conn.caps.muc {
        conn.Issue(Xmpp.SendRoomChat(roomId, body));
      }
    }

    /** Reconfigures a room: only privacy and password are set; `userName` is not used. */
    method MucConfig(userName: string, roomId: string, isPrivate: bool, password: string)
      modifies conn
      ensures conn != null ==>
        conn.Issued(if conn.caps.muc
                    then [Xmpp.ConfigureRoom(roomId, Xmpp.RoomConfig("", Xmpp.Unset, Xmpp.Set(isPrivate), password))]
                    else [])
    {
      if conn != null && conn.caps.muc {
        var config := Xmpp.DefaultRoomConfig;
        config := config.(isPrivate := Xmpp.Set(isPrivate), password := password);
        conn.Issue(Xmpp.ConfigureRoom(roomId, config));
      }
    }

    /** Asks for fresh room information. */
    method MucRefresh(roomId: string)
      modifies conn
      ensures conn != null ==> conn.Issued(if conn.caps.muc then [Xmpp.RefreshRoomInfo(roomId)] else [])
    {
      if conn != null && conn.caps.muc {
        conn.Issue(Xmpp.RefreshRoomInfo(roomId));
      }
    }

    /** Creates a pub/sub node with a default configuration. */
    method PubSubCreate(nodeId: string)
      modifies conn
      ensures conn != null ==>
        conn.Issued(if conn.caps.pubSub then [Xmpp.CreateNode(nodeId, Xmpp.DefaultPubSubConfig)] else [])
    {
      if conn != null && conn.caps.pubSub {
        conn.Issue(Xmpp.CreateNode(nodeId, Xmpp.DefaultPubSubConfig));
      }
    }

    /** Destroys a pub/sub node. */
    method PubSubDestroy(nodeId: string)
      modifies conn
      ensures conn != null ==> conn.Issued(if conn.caps.pubSub then [Xmpp.DestroyNode(nodeId)] else [])
    {
      if conn != null && conn.caps.pubSub {
        conn.Issue(Xmpp.DestroyNode(nodeId));
      }
    }

    /** Subscribes to a pub/sub node. */
    method PubSubSubscribe(nodeId: string)
      modifies conn
      ensures conn != null ==> conn.Issued(if conn.caps.pubSub then [Xmpp.Subscribe(nodeId)] else [])
    {
      if conn != null && conn.caps.pubSub {
        conn.Issue(Xmpp.Subscribe(nodeId));
      }
    }

    /** Unsubscribes from a pub/sub node. */
    method PubSubUnsubscribe(nodeId: string)
      modifies conn
      ensures conn != null ==> conn.Issued(if conn.caps.pubSub then [Xmpp.Unsubscribe(nodeId)] else [])
    {
      if conn != null && conn.caps.pubSub {
        conn.Issue(Xmpp.Unsubscribe(nodeId));
      }
    }

    /** Publishes `payload` to a pub/sub node. */
    method PubSubPublish(nodeId: string, payload: string)
      modifies conn
      ensures conn != null ==>
        conn.Issued(if conn.caps.pubSub then [Xmpp.PublishMessage(nodeId, Xmpp.PubSubMessage(payload))] else [])
    {
      if conn != null && conn.caps.pubSub {
        var message := Xmpp.PubSubMessage(payload);
        conn.Issue(Xmpp.PublishMessage(nodeId, message));
      }
    }

    /** Login finished: re-broadcast with the jid's full path. */
    method OnLoginComplete(userJid: string, success: bool, error: string)
      modifies this`events
      ensures events == old(events) + [ChatLoginComplete(userJid, success, error)]
    {
      events := events + [ChatLoginComplete(userJid, success, error)];
    }

    /** Logout finished: re-broadcast with the jid's full path. */
    method OnLogoutComplete(userJid: string, success: bool, error: string)
      modifies this`events
      ensures events == old(events) + [ChatLogoutComplete(userJid, success, error)]
    {
      events := events + [ChatLogoutComplete(userJid, success, error)];
    }

    /** Login status changed: re-broadcast with the status mapped to the host enum. */
    method OnLoginChanged(userJid: string, status: Xmpp.LoginStatus)
      modifies this`events
      ensures events == old(events) + [ChatLoginChanged(userJid, ToHostLoginStatus(status))]
      ensures events[|events| - 1].status == ChatUtil.LoggedIn <==> status == Xmpp.LoggedIn
    {
      events := events + [ChatLoginChanged(userJid, ToHostLoginStatus(status))];
    }

    /** A direct message arrived: re-broadcast sender and payload. */
    method OnChatReceiveMessage(connection: Xmpp.Connection, fromJid: string, message: Xmpp.Message)
      modifies this`events
      ensures events == old(events) + [ChatMessageReceived(fromJid, message.payload)]
    {
      events := events + [ChatMessageReceived(fromJid, message.payload)];
    }

    /** A private chat message arrived: re-broadcast sender and body. */
    method OnPrivateChatReceiveMessage(connection: Xmpp.Connection, fromJid: string, chat: Xmpp.ChatMessage)
      modifies this`events
      ensures events == old(events) + [PrivateChatReceived(fromJid, chat.body)]
    {
      events := events + [PrivateChatReceived(fromJid, chat.body)];
    }

    /** A room message arrived on `connection`: re-broadcast the room id and body
        unchanged, under the sender's nickname when the connection knows the
        member and under `UnknownUser` otherwise. */
    method OnMucReceiveMessage(connection: Xmpp.Connection, roomId: string, userJid: string, chat: Xmpp.ChatMessage)
      requires connection.caps.muc
      modifies this`events
      ensures events == old(events) + [RoomMessageReceived(roomId, SenderName(connection.members, roomId, userJid), chat.body)]
    {
      var displayName := UnknownUser;
      if (roomId, userJid) in connection.members {
        displayName := connection.members[(roomId, userJid)].nickname;
      }
      events := events + [RoomMessageReceived(roomId, displayName, chat.body)];
    }

    /** A public room join finished: re-broadcast. */
    method OnMucRoomJoinPublicComplete(connection: Xmpp.Connection, success: bool, roomId: string, error: string)
      modifies this`events
      ensures events == old(events) + [RoomJoinPublicComplete(success, roomId, error)]
    {
      events := events + [RoomJoinPublicComplete(success, roomId, error)];
    }

    /** A private room join finished: re-broadcast. */
    method OnMucRoomJoinPrivateComplete(connection: Xmpp.Connection, success: bool, roomId: string, error: string)
      modifies this`events
      ensures events == old(events) + [RoomJoinPrivateComplete(success, roomId, error)]
    {
      events := events + [RoomJoinPrivateComplete(success, roomId, error)];
    }
  }

  /** Two logins as different users with no teardown between them: the listeners
      stay bound on the first connection and none is attached to the second. */
  method ReloginAttachesNothing(caps: Xmpp.Capabilities) returns (onFirst: bool, onSecond: bool)
    requires ListenerInterfaces(caps)
    ensures onFirst && !onSecond
  {
    var chat := new UChat();
    var server := Xmpp.Server("host", "domain", "resource");
    chat.Login("alice", "auth", server, true, caps);
    var first := chat.conn;
    chat.Login("bob", "auth", server, true, caps);
    var second := chat.conn;
    onFirst := (Xmpp.OnLoginComplete, chat.loginCompleteHandle) in first.live;
    onSecond := exists b :: b in second.live;
  }

  /** Login followed by teardown: the login-complete listener is gone, but both
      room-join listeners are still bound to their delegates. */
  method DeInitLeavesJoinListeners(caps: Xmpp.Capabilities)
    returns (loginListener: bool, joinPublicListener: bool, joinPrivateListener: bool)
    requires ListenerInterfaces(caps)
    ensures !loginListener && joinPublicListener && joinPrivateListener
  {
    var chat := new UChat();
    chat.Login("user", "auth", Xmpp.Server("host", "domain", "resource"), true, caps);
    chat.DeInit();
    var c := chat.conn;
    loginListener := (Xmpp.OnLoginComplete, chat.loginCompleteHandle) in c.live;
    joinPublicListener := (Xmpp.OnJoinPublicRoom, chat.joinPublicHandle) in c.live;
    joinPrivateListener := (Xmpp.OnJoinPrivateRoom, chat.joinPrivateHandle) in c.live;
  }

  /** A second `Init` after a login attaches nothing and requests nothing. */
  method InitTwiceAttachesOnce(caps: Xmpp.Capabilities) returns (sameListeners: bool, sameRequests: bool)
    requires ListenerInterfaces(caps)
    ensures sameListeners && sameRequests
  {
    var chat := new UChat();
    chat.Login("user", "auth", Xmpp.Server("host", "domain", "resource"), true, caps);
    var c := chat.conn;
    var live, calls := c.live, c.calls;
    chat.Init();
    sameListeners := c.live == live;
    sameRequests := c.calls == calls;
  }

  /** Joining without and then with a password, on a connection with a
      multi-user-chat interface. */
  method MucJoinRoutes(caps: Xmpp.Capabilities) returns (requests: seq<Xmpp.Request>)
    requires ListenerInterfaces(caps)
    ensures requests == [Xmpp.JoinPublicRoom("room1", "alice"), Xmpp.JoinPrivateRoom("room1", "alice", "secret")]
  {
    var chat := new UChat();
    chat.Login("user", "auth", Xmpp.Server("host", "domain", "resource"), true, caps);
    var c := chat.conn;
    var before := |c.calls|;
    chat.MucJoin("room1", "alice", "");
    chat.MucJoin("room1", "alice", "secret");
    requests := c.calls[before..];
  }
}
