/**
 The relay's behaviour as one atomic transition per inbound event, over the
 session registry, the room registry, the store's lists and preference hash,
 producing the events emitted in order. Both server copies (the handler
 classes wired by the socket manager, and the single-file server) are proved
 to perform exactly these transitions.
 */
module Relay {
  import opened Protocol
  import opened KeyValueStore
  import opened Rooms
  import opened Users
  import opened MessageService

  datatype World = World(users: Sessions, rooms: Registry, lists: Lists, prefs: Preferences)

  /** The world after one handler and the events it emitted, in order. */
  datatype Step = Step(world: World, out: seq<Emit>)

  function Welcome(room: RoomId): string
  {
    "Welcome to " + room + "!"
  }

  function JoinedNotice(username: Username): string
  {
    username + " has joined the room"
  }

  function LeftNotice(username: Username): string
  {
    username + " has left the room"
  }

  /** `{ id, username: users.get(id)?.username }`. */
  function RosterEntryOf(users: Sessions, id: SocketId): RosterEntry
  {
    RosterEntry(id, if id in users then Some(users[id].username) else None)
  }

  /** The roster of a member list: one entry per member, in member order. */
  function Roster(users: Sessions, members: seq<SocketId>): (roster: seq<RosterEntry>)
    ensures |roster| == |members|
    ensures forall i :: 0 <= i < |members| ==> roster[i].id == members[i]
    ensures forall i :: 0 <= i < |members| ==>
      (roster[i].username.Some? <==> members[i] in users)
    ensures forall i :: 0 <= i < |members| && members[i] in users ==>
      roster[i].username == Some(users[members[i]].username)
  {
    if |members| == 0 then []
    else Roster(users, members[..|members| - 1]) + [RosterEntryOf(users, members[|members| - 1])]
  }

  /** `join { username, room }`. */
  function JoinStep(w: World, self: SocketId, username: Username, room: RoomId, now: Time): (r: Step)
    ensures room in r.world.rooms && self in r.world.rooms[room]
    ensures r.world.lists == w.lists && r.world.prefs == w.prefs
    ensures |r.out| == 4
  {
    var users := w.users[self := UserData(username, room)];
    var rooms := Added(w.rooms, room, self);
    Step(World(users, rooms, w.lists, w.prefs),
      [ Emit(ToSocket(self), MessageEvent(Info(Welcome(room), now))),
        Emit(ToSocket(self), MessageHistory(GetMessageHistory(w.lists, room))),
        Emit(ToRoomExcept(room, self), MessageEvent(Info(JoinedNotice(username), now))),
        Emit(ToRoom(room), RoomUsers(Roster(users, MembersOf(rooms, room)))) ])
  }

  /** `disconnect`. */
  function DisconnectStep(w: World, self: SocketId, now: Time): (r: Step)
    ensures self !in r.world.users
    ensures r.world.lists == w.lists && r.world.prefs == w.prefs
    ensures self !in w.users ==> r == Step(w, [])
  {
    if self !in w.users then Step(w, [])
    else
      var user := w.users[self];
      var rooms := Removed(w.rooms, user.room, self);
      var users := w.users - {self};
      Step(World(users, rooms, w.lists, w.prefs),
        [ Emit(ToRoom(user.room), MessageEvent(Info(LeftNotice(user.username), now))),
          Emit(ToRoom(user.room), RoomUsers(Roster(users, MembersOf(rooms, user.room)))) ])
  }

  /** `chatMessage text`. */
  function ChatMessageStep(w: World, self: SocketId, text: string, now: Time): (r: Step)
    ensures r.world.users == w.users && r.world.rooms == w.rooms && r.world.prefs == w.prefs
    ensures self !in w.users ==> r == Step(w, [])
  {
    if self !in w.users then Step(w, [])
    else
      var user := w.users[self];
      var m := ChatMessage(user.username, text, now);
      Step(w.(lists := Pushed(w.lists, RoomKey(user.room), m)), [Emit(ToRoom(user.room), MessageEvent(m))])
  }

  /** The list a private message from `self` to `to` goes to: chosen by the sender's flag. */
  function PrivateKeyFor(w: World, self: SocketId, to: SocketId): string
    requires self in w.users && to in w.users
  {
    var sender, receiver := w.users[self], w.users[to];
    PrivateKey(IsPermanent(w.prefs, sender.username), Party(self, sender.username), Party(to, receiver.username))
  }

  /** `private-message { to, content }`. */
  function PrivateMessageStep(w: World, self: SocketId, to: SocketId, content: string, now: Time): (r: Step)
    ensures r.world.users == w.users && r.world.rooms == w.rooms && r.world.prefs == w.prefs
    ensures self !in w.users || to !in w.users ==> r == Step(w, [])
  {
    if self !in w.users || to !in w.users then Step(w, [])
    else
      var m := PrivateMessage(w.users[self].username, w.users[to].username, content, now);
      Step(w.(lists := Pushed(w.lists, PrivateKeyFor(w, self, to), m)),
        [ Emit(ToSocket(to), PrivateMessageEvent(m)),
          Emit(ToSocket(self), PrivateMessageEvent(m)) ])
  }

  /** `get-private-history { otherUserId }`: read with the requester's flag. */
  function PrivateHistoryStep(w: World, self: SocketId, otherUserId: SocketId): (r: Step)
    ensures r.world == w
    ensures |r.out| <= 1 && (self !in w.users ==> r.out == [])
    ensures otherUserId !in w.users ==> r.out == []
  {
    if self !in w.users || otherUserId !in w.users then Step(w, [])
    else
      var history := GetPrivateMessageHistory(w.lists, Party(self, w.users[self].username),
        Party(otherUserId, w.users[otherUserId].username), IsPermanent(w.prefs, w.users[self].username));
      Step(w, [Emit(ToSocket(self), PrivateMessageHistory(history))])
  }

  /** `typing isTyping`: to the sender's room, the sender excluded. */
  function TypingStep(w: World, self: SocketId, isTyping: bool): (r: Step)
    ensures r.world == w
    ensures |r.out| <= 1 && (self !in w.users ==> r.out == [])
  {
    if self !in w.users then Step(w, [])
    else
      var user := w.users[self];
      Step(w, [Emit(ToRoomExcept(user.room, self), UserTyping(user.username, isTyping))])
  }

  /** `private-typing { to, isTyping }`. */
  function PrivateTypingStep(w: World, self: SocketId, to: SocketId, isTyping: bool): (r: Step)
    ensures r.world == w
    ensures |r.out| <= 1 && (self !in w.users ==> r.out == [])
  {
    if self !in w.users then Step(w, [])
    else Step(w, [Emit(ToSocket(to), PrivateTyping(w.users[self].username, isTyping))])
  }

  /** `call-user { userToCall, signalData }`: the target is not looked up. */
  function CallUserStep(w: World, self: SocketId, userToCall: SocketId, signalData: Signal): (r: Step)
    ensures r.world == w
    ensures |r.out| <= 1 && (self !in w.users ==> r.out == [])
  {
    if self !in w.users then Step(w, [])
    else Step(w, [Emit(ToSocket(userToCall), IncomingCall(signalData, self, w.users[self].username))])
  }

  /** `answer-call`, `end-call`, `reject-call`: one event to `to` when the sender is bound. */
  function RelayToPeer(w: World, self: SocketId, to: SocketId, event: Outbound): (r: Step)
    ensures r.world == w
    ensures |r.out| <= 1 && (self !in w.users ==> r.out == [])
  {
    if self !in w.users then Step(w, []) else Step(w, [Emit(ToSocket(to), event)])
  }

  /** `set-storage-preference { isPermanent }`: written under the session's username. */
  function SetPreferenceStep(w: World, self: SocketId, isPermanent: bool): (r: Step)
    ensures r.world.users == w.users && r.world.rooms == w.rooms && r.world.lists == w.lists
    ensures r.out == []
  {
    if self !in w.users then Step(w, [])
    else Step(w.(prefs := w.prefs[w.users[self].username := PrefFlag(isPermanent)]), [])
  }

  /** `get-storage-preference`. */
  function GetPreferenceStep(w: World, self: SocketId): (r: Step)
    ensures r.world == w
    ensures |r.out| <= 1 && (self !in w.users ==> r.out == [])
  {
    if self !in w.users then Step(w, [])
    else Step(w, [Emit(ToSocket(self), StoragePreference(IsPermanent(w.prefs, w.users[self].username)))])
  }

  /** The handler registered for each inbound event, run on socket `self` at time `now`. */
  function Handle(w: World, self: SocketId, ev: Inbound, now: Time): (r: Step)
    ensures r.world.users == w.users || ev.Join? || ev.Disconnect?
    ensures r.world.rooms == w.rooms || ev.Join? || ev.Disconnect?
    ensures r.world.lists == w.lists || ev.SendChatMessage? || ev.SendPrivateMessage?
    ensures r.world.prefs == w.prefs || ev.SetStoragePreference?
  {
    match ev
    case Join(username, room) => JoinStep(w, self, username, room, now)
    case Disconnect => DisconnectStep(w, self, now)
    case SendChatMessage(text) => ChatMessageStep(w, self, text, now)
    case SendPrivateMessage(to, content) => PrivateMessageStep(w, self, to, content, now)
    case GetPrivateHistory(otherUserId) => PrivateHistoryStep(w, self, otherUserId)
    case Typing(isTyping) => TypingStep(w, self, isTyping)
    case SendPrivateTyping(to, isTyping) => PrivateTypingStep(w, self, to, isTyping)
    case CallUser(userToCall, signalData) => CallUserStep(w, self, userToCall, signalData)
    case AnswerCall(to, signal) => RelayToPeer(w, self, to, CallAccepted(signal))
    case EndCall(to) => RelayToPeer(w, self, to, CallEnded)
    case RejectCall(to) => RelayToPeer(w, self, to, CallRejected)
    case SetStoragePreference(isPermanent) => SetPreferenceStep(w, self, isPermanent)
    case GetStoragePreference => GetPreferenceStep(w, self)
  }
}
