/** The host-facing (Blueprint) enums of the chat wrapper and the stateless
    mappings between them and the engine's protocol enums. Each mapping is a
    total switch whose `default:` branch shares its result with one named case. */
module ChatUtil {
  import Xmpp

  /** Host presence status: exactly the six named values. */
  datatype PresenceStatus = Online | Offline | Away | ExtendedAway | DoNotDisturb | Chat

  /** Host login status. */
  datatype LoginStatus = LoggedIn | LoggedOut

  /** Host role of a room member. */
  datatype ChatMemberRole = Owner | Moderator | Member | None | Outcast

  /** The host presence whose enumerator has the same name as a named protocol presence. */
  function SameNamePresence(p: Xmpp.PresenceStatus): (r: PresenceStatus)
    requires !p.UnnamedPresence?
  {
    match p
    case Online => Online
    case Offline => Offline
    case Away => Away
    case ExtendedAway => ExtendedAway
    case DoNotDisturb => DoNotDisturb
    case Chat => Chat
  }

  /** Host presence to protocol presence: each host status goes to the protocol
      status of the same name, so never to an unnamed protocol value. */
  function ToXmppPresence(s: PresenceStatus): (r: Xmpp.PresenceStatus)
    ensures !r.UnnamedPresence? && SameNamePresence(r) == s
  {
    match s
    case Online => Xmpp.Online
    case Offline => Xmpp.Offline
    case Away => Xmpp.Away
    case ExtendedAway => Xmpp.ExtendedAway
    case DoNotDisturb => Xmpp.DoNotDisturb
    case Chat => Xmpp.Chat
  }

  /** Protocol presence to host presence: a named value comes back as the host
      value that maps onto it; anything else falls to `Chat`. */
  function ToHostPresence(s: Xmpp.PresenceStatus): (r: PresenceStatus)
    ensures !s.UnnamedPresence? ==> ToXmppPresence(r) == s
    ensures s.UnnamedPresence? ==> r == Chat
  {
    match s
    case Online => Online
    case Offline => Offline
    case Away => Away
    case ExtendedAway => ExtendedAway
    case DoNotDisturb => DoNotDisturb
    case Chat => Chat
    case UnnamedPresence(_) => Chat
  }

  /** Protocol login status to host login status: logged in exactly when the protocol says so. */
  function ToHostLoginStatus(s: Xmpp.LoginStatus): (r: LoginStatus)
    ensures r == LoggedIn <==> s == Xmpp.LoggedIn
  {
    match s
    case LoggedIn => LoggedIn
    case LoggedOut => LoggedOut
    case UnnamedLogin(_) => LoggedOut
  }

  /** The protocol role whose enumerator has the same name as a host role. */
  function SameNameRole(r: ChatMemberRole): (s: Xmpp.ChatMemberRole) {
    match r
    case Owner => Xmpp.Owner
    case Moderator => Xmpp.Moderator
    case Member => Xmpp.Member
    case None => Xmpp.None
    case Outcast => Xmpp.Outcast
  }

  /** Protocol role to host role: a named role keeps its name; any other becomes `Outcast`. */
  function ToHostMemberRole(s: Xmpp.ChatMemberRole): (r: ChatMemberRole)
    ensures !s.UnnamedRole? ==> SameNameRole(r) == s
    ensures s.UnnamedRole? ==> r == Outcast
  {
    match s
    case Owner => Owner
    case Moderator => Moderator
    case Member => Member
    case None => None
    case Outcast => Outcast
    case UnnamedRole(_) => Outcast
  }

  /** Host presence survives the trip to the protocol enum and back. */
  lemma HostPresenceRoundTrip(s: PresenceStatus)
    ensures ToHostPresence(ToXmppPresence(s)) == s
  {
  }

  /** A named protocol presence survives the trip to the host enum and back. */
  lemma ProtocolPresenceRoundTrip(s: Xmpp.PresenceStatus)
    requires !s.UnnamedPresence?
    ensures ToXmppPresence(ToHostPresence(s)) == s
  {
  }

  /** Distinct host statuses map to distinct protocol statuses. */
  lemma ToXmppPresenceInjective(a: PresenceStatus, b: PresenceStatus)
    ensures ToXmppPresence(a) == ToXmppPresence(b) ==> a == b
  {
    HostPresenceRoundTrip(a);
    HostPresenceRoundTrip(b);
  }

  /** The protocol values reached from the host enum are exactly the six named ones. */
  lemma ToXmppPresenceImage(p: Xmpp.PresenceStatus)
    ensures (exists s :: ToXmppPresence(s) == p) <==> !p.UnnamedPresence?
  {
    if !p.UnnamedPresence? {
      var s := ToHostPresence(p);
      assert ToXmppPresence(s) == p;
    }
  }

  /** Every host presence is the image of some protocol presence. */
  lemma ToHostPresenceOnto(s: PresenceStatus)
    ensures exists p :: ToHostPresence(p) == s
  {
    HostPresenceRoundTrip(s);
  }

  /** Every host role is reached from some protocol role (the one of the same name). */
  lemma ToHostMemberRoleOnto(r: ChatMemberRole)
    ensures exists s :: ToHostMemberRole(s) == r
  {
    assert ToHostMemberRole(SameNameRole(r)) == r;
  }

  /** Two protocol roles map to the same host role only when both are named and
      equal, or the host role is `Outcast`. */
  lemma ToHostMemberRoleCollisions(a: Xmpp.ChatMemberRole, b: Xmpp.ChatMemberRole)
    requires ToHostMemberRole(a) == ToHostMemberRole(b)
    ensures a == b || ToHostMemberRole(a) == Outcast
  {
  }

  /** Two protocol presences map to the same host presence only when equal, or the
      host presence is `Chat`. */
  lemma ToHostPresenceCollisions(a: Xmpp.PresenceStatus, b: Xmpp.PresenceStatus)
    requires ToHostPresence(a) == ToHostPresence(b)
    ensures a == b || ToHostPresence(a) == Chat
  {
  }
}
