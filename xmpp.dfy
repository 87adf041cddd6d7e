/** The engine's XMPP connection, seen from the chat wrapper.
    Only what the wrapper touches is modelled: the protocol enums, the records
    it builds, the sub-interfaces a connection may or may not provide, the
    listener bindings on the connection's delegates, the member lookup of the
    multi-user-chat interface and a log of the requests the wrapper issues.
    Nothing here sends anything: a request is an entry appended to `calls`. */
module Xmpp {

  /** Protocol presence status. `UnnamedPresence` stands for any value of the
      C++ enum that is none of the named enumerators (the `default:` branches). */
  datatype PresenceStatus =
    | Online | Offline | Away | ExtendedAway | DoNotDisturb | Chat
    | UnnamedPresence(code: int)

  /** Protocol login status; every value other than the two named ones is `UnnamedLogin`. */
  datatype LoginStatus = LoggedIn | LoggedOut | UnnamedLogin(code: int)

  /** Protocol role of a room member. */
  datatype ChatMemberRole = Owner | Moderator | Member | None | Outcast | UnnamedRole(code: int)

  /** A room member as the multi-user-chat interface reports it. */
  datatype ChatMember = ChatMember(nickname: string, memberJid: string, affiliation: ChatMemberRole)

  /** The part of an own-presence record the wrapper reads or writes. */
  datatype UserPresence = UserPresence(isAvailable: bool, status: PresenceStatus, statusText: string)

  /** Server settings; the fields the wrapper does not set keep their defaults and are not modelled. */
  datatype Server = Server(serverAddr: string, domain: string, clientResource: string)

  /** A direct message; `fromId` and `toId` are the `Id` parts of the sender and recipient jids. */
  datatype Message = Message(fromId: string, toId: string, kind: string, payload: string)

  /** A private chat message. */
  datatype ChatMessage = ChatMessage(fromId: string, toId: string, body: string)

  /** A room-configuration field the wrapper either sets or leaves at the record's default. */
  datatype Flag = Unset | Set(value: bool)

  /** Room configuration: a fresh record has an empty name and unset flags. */
  datatype RoomConfig = RoomConfig(roomName: string, persistent: Flag, isPrivate: Flag, password: string)

  const DefaultRoomConfig := RoomConfig("", Unset, Unset, "")

  /** Pub/sub node configuration; the wrapper only ever passes a default-constructed one. */
  datatype PubSubConfig = DefaultPubSubConfig

  datatype PubSubMessage = PubSubMessage(payload: string)

  /** The eight delegates the wrapper listens on. */
  datatype Delegate =
    | OnLoginComplete | OnLogoutComplete | OnLoginChanged
    | OnReceiveMessage | OnReceiveChat
    | OnRoomChatReceived | OnJoinPublicRoom | OnJoinPrivateRoom

  /** The connection itself and its optional sub-interfaces. */
  datatype Interface = Core | PresenceApi | MessagesApi | PrivateChatApi | MucApi | PubSubApi

  /** Which optional sub-interfaces a connection provides (each getter may return a null pointer). */
  datatype Capabilities = Capabilities(presence: bool, messages: bool, privateChat: bool, muc: bool, pubSub: bool)
  {
    predicate Provides(i: Interface) {
      match i
      case Core => true
      case PresenceApi => presence
      case MessagesApi => messages
      case PrivateChatApi => privateChat
      case MucApi => muc
      case PubSubApi => pubSub
    }
  }

  /** The interface a delegate is reached through. */
  function DelegateInterface(d: Delegate): (i: Interface) {
    match d
    case OnLoginComplete | OnLogoutComplete | OnLoginChanged => Core
    case OnReceiveMessage => MessagesApi
    case OnReceiveChat => PrivateChatApi
    case OnRoomChatReceived | OnJoinPublicRoom | OnJoinPrivateRoom => MucApi
  }

  /** One request made to a connection or to one of its sub-interfaces. */
  datatype Request =
    | AddListener(target: Delegate, handle: nat)
    | RemoveListener(target: Delegate, handle: nat)
    | SetServer(server: Server)
    | Login(userId: string, auth: string)
    | Logout
    | UpdatePresence(presence: UserPresence)
    | QueryPresence(user: string)
    | SendMessage(recipient: string, message: Message)
    | SendChat(recipient: string, chat: ChatMessage)
    | CreateRoom(roomId: string, nickname: string, config: RoomConfig)
    | JoinPublicRoom(roomId: string, nickname: string)
    | JoinPrivateRoom(roomId: string, nickname: string, password: string)
    | ExitRoom(roomId: string)
    | SendRoomChat(roomId: string, body: string)
    | ConfigureRoom(roomId: string, config: RoomConfig)
    | RefreshRoomInfo(roomId: string)
    | CreateNode(nodeId: string, nodeConfig: PubSubConfig)
    | DestroyNode(nodeId: string)
    | Subscribe(nodeId: string)
    | Unsubscribe(nodeId: string)
    | PublishMessage(nodeId: string, item: PubSubMessage)

  /** The interface a request goes through. */
  function RequestInterface(r: Request): (i: Interface) {
    match r
    case AddListener(d, _) => DelegateInterface(d)
    case RemoveListener(d, _) => DelegateInterface(d)
    case SetServer(_) | Login(_, _) | Logout => Core
    case UpdatePresence(_) | QueryPresence(_) => PresenceApi
    case SendMessage(_, _) => MessagesApi
    case SendChat(_, _) => PrivateChatApi
    case CreateRoom(_, _, _) | JoinPublicRoom(_, _) | JoinPrivateRoom(_, _, _) | ExitRoom(_)
      | SendRoomChat(_, _) | ConfigureRoom(_, _) | RefreshRoomInfo(_) => MucApi
    case CreateNode(_, _) | DestroyNode(_) | Subscribe(_) | Unsubscribe(_) | PublishMessage(_, _) => PubSubApi
  }

  /** A connection. `status`, `presence` and `members` are maintained by the
      engine (asynchronously, from server traffic); the wrapper only reads them. */
  class Connection {
    const caps: Capabilities
    var status: LoginStatus
    var presence: UserPresence
    /** The multi-user-chat member lookup, keyed by (room id, member jid). */
    var members: map<(string, string), ChatMember>
    /** Live listener bindings: (delegate, handle). */
    var live: set<(Delegate, nat)>
    /** Next handle to issue; handle 0 is never issued and stands for an unset handle. */
    var nextHandle: nat
    /** Every request made to this connection, oldest first. */
    var calls: seq<Request>

    ghost predicate Valid()
      reads this
    {
      && 1 <= nextHandle
      && forall b :: b in live ==> 1 <= b.1 < nextHandle
    }

    /** A connection as the module creates it: logged out, no listeners, no requests yet. */
    constructor (caps: Capabilities)
      ensures Valid()
      ensures this.caps == caps && status == LoggedOut && members == map[]
      ensures presence == UserPresence(false, Offline, "")
      ensures live == {} && nextHandle == 1 && calls == []
    {
      this.caps := caps;
      status := LoggedOut;
      presence := UserPresence(false, Offline, "");
      members := map[];
      live := {};
      nextHandle := 1;
      calls := [];
    }

    /** The delegate bindings and the engine-maintained state are as before;
        the request log grew by exactly `rs`. */
    twostate predicate Issued(rs: seq<Request>)
      reads this
    {
      && calls == old(calls) + rs
      && live == old(live) && nextHandle == old(nextHandle)
      && status == old(status) && presence == old(presence) && members == old(members)
    }

    /** Binds a listener to `d`; the handle returned was never issued before. */
    method AddListener(d: Delegate) returns (h: nat)
      requires Valid() && caps.Provides(DelegateInterface(d))
      modifies this
      ensures Valid()
      ensures h == old(nextHandle) && nextHandle == h + 1
      ensures live == old(live) + {(d, h)}
      ensures calls == old(calls) + [Request.AddListener(d, h)]
      ensures status == old(status) && presence == old(presence) && members == old(members)
    {
      h := nextHandle;
      nextHandle := nextHandle + 1;
      live := live + {(d, h)};
      calls := calls + [Request.AddListener(d, h)];
    }

    /** Unbinds the listener with handle `h` from `d`; nothing happens to `live` when it is not bound there. */
    method RemoveListener(d: Delegate, h: nat)
      requires Valid() && caps.Provides(DelegateInterface(d))
      modifies this
      ensures Valid()
      ensures live == old(live) - {(d, h)} && nextHandle == old(nextHandle)
      ensures calls == old(calls) + [Request.RemoveListener(d, h)]
      ensures status == old(status) && presence == old(presence) && members == old(members)
    {
      live := live - {(d, h)};
      calls := calls + [Request.RemoveListener(d, h)];
    }

    /** Makes request `r` through the interface it belongs to. */
    method Issue(r: Request)
      requires caps.Provides(RequestInterface(r))
      requires !r.AddListener? && !r.RemoveListener?
      modifies this
      ensures Issued([r])
    {
      calls := calls + [r];
    }
  }
}
