/**
 What the relay's transitions guarantee: the state invariant every handler
 keeps, the silent drop of events from unbound sockets, the signaling relay,
 and how the handlers combine (history after a message, the private list
 chosen by the sender's flag, the shared per-username flag, and the stale
 membership a second join leaves behind).
 */
module RelayProperties {
  import opened Protocol
  import opened KeyValueStore
  import opened Rooms
  import opened Users
  import opened MessageService
  import opened Relay

  /**
   No room is empty and none lists a member twice, every stored list holds
   at most 100 messages, and every bound socket is a member of its room.
   */
  ghost predicate Inv(w: World)
  {
    RoomsValid(w.rooms)
    && (forall k :: k in w.lists ==> |w.lists[k]| <= MaxStored)
    && (forall s :: s in w.users ==> s in MembersOf(w.rooms, w.users[s].room))
  }

  lemma EmptyWorldInv()
    ensures Inv(World(map[], map[], map[], map[]))
  {
  }

  lemma PushedKeepsCap(lists: Lists, key: string, m: Message)
    requires forall k :: k in lists ==> |lists[k]| <= MaxStored
    ensures forall k :: k in Pushed(lists, key, m) ==> |Pushed(lists, key, m)[k]| <= MaxStored
  {
  }

  lemma JoinKeepsInv(w: World, self: SocketId, username: Username, room: RoomId, now: Time)
    requires Inv(w)
    ensures Inv(JoinStep(w, self, username, room, now).world)
  {
    var w' := JoinStep(w, self, username, room, now).world;
    assert w'.users == w.users[self := UserData(username, room)];
    assert w'.rooms == Added(w.rooms, room, self);
    forall s | s in w'.users
      ensures s in MembersOf(w'.rooms, w'.users[s].room)
    {
      if s != self && w.users[s].room != room {
        assert w'.rooms[w.users[s].room] == w.rooms[w.users[s].room];
      }
    }
  }

  lemma DisconnectKeepsInv(w: World, self: SocketId, now: Time)
    requires Inv(w)
    ensures Inv(DisconnectStep(w, self, now).world)
  {
    if self in w.users {
      var w' := DisconnectStep(w, self, now).world;
      var room := w.users[self].room;
      forall s | s in w'.users
        ensures s in MembersOf(w'.rooms, w'.users[s].room)
      {
        var r := w.users[s].room;
        if r == room {
          assert s in MembersOf(w.rooms, room) && s != self;
        } else {
          assert r in w.rooms;
          assert w'.rooms[r] == w.rooms[r];
        }
      }
    }
  }

  lemma ChatMessageKeepsInv(w: World, self: SocketId, text: string, now: Time)
    requires Inv(w)
    ensures Inv(ChatMessageStep(w, self, text, now).world)
  {
    if self in w.users {
      PushedKeepsCap(w.lists, RoomKey(w.users[self].room), ChatMessage(w.users[self].username, text, now));
    }
  }

  lemma PrivateMessageKeepsInv(w: World, self: SocketId, to: SocketId, content: string, now: Time)
    requires Inv(w)
    ensures Inv(PrivateMessageStep(w, self, to, content, now).world)
  {
    if self in w.users && to in w.users {
      var m := PrivateMessage(w.users[self].username, w.users[to].username, content, now);
      PushedKeepsCap(w.lists, PrivateKeyFor(w, self, to), m);
    }
  }

  /** Every handler keeps the invariant. */
  lemma HandleKeepsInv(w: World, self: SocketId, ev: Inbound, now: Time)
    requires Inv(w)
    ensures Inv(Handle(w, self, ev, now).world)
  {
    match ev
    case Join(username, room) => JoinKeepsInv(w, self, username, room, now);
    case Disconnect => DisconnectKeepsInv(w, self, now);
    case SendChatMessage(text) => ChatMessageKeepsInv(w, self, text, now);
    case SendPrivateMessage(to, content) => PrivateMessageKeepsInv(w, self, to, content, now);
    case _ =>
  }

  /** Every event but `join` from a socket with no session changes nothing and emits nothing. */
  lemma UnboundSocketIgnored(w: World, self: SocketId, ev: Inbound, now: Time)
    requires self !in w.users && !ev.Join?
    ensures Handle(w, self, ev, now) == Step(w, [])
  {
  }

  /** A private message is dropped when its recipient has no session either. */
  lemma UnboundRecipientIgnored(w: World, self: SocketId, to: SocketId, content: string, now: Time)
    requires to !in w.users
    ensures Handle(w, self, SendPrivateMessage(to, content), now) == Step(w, [])
  {
  }

  /** A history request about a socket that has no session is dropped too. */
  lemma UnboundHistoryPartnerIgnored(w: World, self: SocketId, otherUserId: SocketId, now: Time)
    requires otherUserId !in w.users
    ensures Handle(w, self, GetPrivateHistory(otherUserId), now) == Step(w, [])
  {
  }

  /** The socket a signaling event is addressed to. */
  function Target(ev: Inbound): SocketId
    requires ev.CallUser? || ev.AnswerCall? || ev.EndCall? || ev.RejectCall?
  {
    match ev
    case CallUser(userToCall, _) => userToCall
    case AnswerCall(to, _) => to
    case EndCall(to) => to
    case RejectCall(to) => to
  }

  /**
   Signaling writes no registry and no store; from a bound sender it emits
   exactly one event, to the target only, whether or not the target is bound,
   carrying the signal unchanged.
   */
  lemma SignalingRelay(w: World, self: SocketId, ev: Inbound, now: Time)
    requires ev.CallUser? || ev.AnswerCall? || ev.EndCall? || ev.RejectCall?
    requires self in w.users
    ensures Handle(w, self, ev, now).world == w
    ensures Handle(w, self, ev, now).out == [Emit(ToSocket(Target(ev)),
      match ev
      case CallUser(_, signalData) => IncomingCall(signalData, self, w.users[self].username)
      case AnswerCall(_, signal) => CallAccepted(signal)
      case EndCall(_) => CallEnded
      case RejectCall(_) => CallRejected)]
  {
  }

  /**
   A join binds the socket (replacing any earlier binding), makes it a member
   of the room, creating the room if needed, and leaves every other room as it
   was.
   */
  lemma JoinBindsAndAdds(w: World, self: SocketId, username: Username, room: RoomId, now: Time)
    ensures var w' := Handle(w, self, Join(username, room), now).world;
      w'.users == w.users[self := UserData(username, room)]
      && self in MembersOf(w'.rooms, room)
      && (forall r :: r != room ==> MembersOf(w'.rooms, r) == MembersOf(w.rooms, r))
      && w'.lists == w.lists && w'.prefs == w.prefs
  {
  }

  /**
   A join sends the welcome and the room's history to the joiner only, the
   notice to the room without the joiner, then the roster of the room after
   the join to the whole room, which lists the joiner under its new name.
   */
  lemma JoinEmits(w: World, self: SocketId, username: Username, room: RoomId, now: Time)
    ensures var out := Handle(w, self, Join(username, room), now).out;
      |out| == 4
      && out[0] == Emit(ToSocket(self), MessageEvent(Info(Welcome(room), now)))
      && out[1] == Emit(ToSocket(self), MessageHistory(GetMessageHistory(w.lists, room)))
      && out[2] == Emit(ToRoomExcept(room, self), MessageEvent(Info(JoinedNotice(username), now)))
      && out[3] == Emit(ToRoom(room), RoomUsers(Roster(w.users[self := UserData(username, room)], MembersOf(Added(w.rooms, room, self), room))))
      && RosterEntry(self, Some(username)) in out[3].event.roster
  {
    var step := JoinStep(w, self, username, room, now);
    var members := MembersOf(step.world.rooms, room);
    var roster := Roster(step.world.users, members);
    assert step.out[3].event.roster == roster;
    var i :| 0 <= i < |members| && members[i] == self;
    assert roster[i] == RosterEntry(self, Some(username));
  }

  /**
   A second join into another room does not leave the first: the socket stays
   in the old room's member set, and the disconnect that follows removes it
   only from the room it joined last.
   */
  lemma RejoinLeavesStaleMembership(w: World, self: SocketId, username: Username, first: RoomId, second: RoomId, now: Time)
    requires self in MembersOf(w.rooms, first) && first != second
    ensures var w1 := Handle(w, self, Join(username, second), now).world;
      var w2 := Handle(w1, self, Disconnect, now).world;
      self in MembersOf(w1.rooms, first) && w1.users[self].room == second
      && self !in w2.users && self !in MembersOf(w2.rooms, second)
      && self in MembersOf(w2.rooms, first)
  {
  }

  /**
   A disconnect removes the socket from its recorded room and from the
   session registry, tells the room, and sends the room the roster of the
   members that remain; a room it leaves empty is deleted and its roster goes
   out empty.
   */
  lemma DisconnectRemoves(w: World, self: SocketId, now: Time)
    requires self in w.users
    ensures var room := w.users[self].room;
      var step := Handle(w, self, Disconnect, now);
      self !in step.world.users
      && (forall s :: s != self ==> (s in step.world.users <==> s in w.users))
      && (forall m :: m in MembersOf(step.world.rooms, room) <==> m in MembersOf(w.rooms, room) && m != self)
      && (MembersOf(w.rooms, room) == [self] ==> room !in step.world.rooms && step.out[1] == Emit(ToRoom(room), RoomUsers([])))
      && |step.out| == 2
      && step.out[0] == Emit(ToRoom(room), MessageEvent(Info(LeftNotice(w.users[self].username), now)))
      && step.out[1] == Emit(ToRoom(room), RoomUsers(Roster(step.world.users, MembersOf(step.world.rooms, room))))
  {
    var room := w.users[self].room;
    if MembersOf(w.rooms, room) == [self] {
      RemoveLastDeletesRoom(w.rooms, room, self);
    }
  }

  /**
   A chat message from a bound socket goes to the head of its room's list,
   which stays capped, and is broadcast to the whole room, sender included.
   */
  lemma ChatMessageStoredAndBroadcast(w: World, self: SocketId, text: string, now: Time)
    requires self in w.users
    ensures var user := w.users[self];
      var m := ChatMessage(user.username, text, now);
      var step := Handle(w, self, SendChatMessage(text), now);
      ListAt(step.world.lists, RoomKey(user.room))[0] == m
      && |ListAt(step.world.lists, RoomKey(user.room))| <= MaxStored
      && step.out == [Emit(ToRoom(user.room), MessageEvent(m))]
  {
  }

  /**
   After a chat message, the room's history (what the next join sends) ends
   with that message.
   */
  lemma HistoryEndsWithLatestMessage(w: World, sender: SocketId, text: string, now: Time)
    requires sender in w.users
    ensures var w1 := Handle(w, sender, SendChatMessage(text), now).world;
      var h := GetMessageHistory(w1.lists, w.users[sender].room);
      |h| > 0 && h[|h| - 1] == ChatMessage(w.users[sender].username, text, now)
  {
  }

  /**
   A private message between bound sockets is emitted, unchanged, to the
   recipient and to the sender, and stored at the head of the list chosen by
   the sender's flag.
   */
  lemma PrivateMessageDelivered(w: World, self: SocketId, to: SocketId, content: string, now: Time)
    requires self in w.users && to in w.users
    ensures var m := PrivateMessage(w.users[self].username, w.users[to].username, content, now);
      var step := Handle(w, self, SendPrivateMessage(to, content), now);
      var key := PrivateKey(IsPermanent(w.prefs, w.users[self].username),
        Party(self, w.users[self].username), Party(to, w.users[to].username));
      step.out == [Emit(ToSocket(to), PrivateMessageEvent(m)), Emit(ToSocket(self), PrivateMessageEvent(m))]
      && ListAt(step.world.lists, key)[0] == m
  {
  }

  /**
   A history request between bound sockets changes nothing and sends the
   requester alone one history, read from the list its own flag chooses.
   */
  lemma PrivateHistoryDelivered(w: World, self: SocketId, other: SocketId, now: Time)
    requires self in w.users && other in w.users
    ensures var step := Handle(w, self, GetPrivateHistory(other), now);
      var history := GetPrivateMessageHistory(w.lists, Party(self, w.users[self].username),
        Party(other, w.users[other].username), IsPermanent(w.prefs, w.users[self].username));
      step.world == w && step.out == [Emit(ToSocket(self), PrivateMessageHistory(history))]
  {
  }

  /**
   A typing notice from a bound socket goes to its room without it; a private
   one goes to `to` alone. Both carry the sender's username and the flag unchanged.
   */
  lemma TypingNotices(w: World, self: SocketId, to: SocketId, isTyping: bool, now: Time)
    requires self in w.users
    ensures var user := w.users[self];
      Handle(w, self, Typing(isTyping), now)
        == Step(w, [Emit(ToRoomExcept(user.room, self), UserTyping(user.username, isTyping))])
      && Handle(w, self, SendPrivateTyping(to, isTyping), now)
        == Step(w, [Emit(ToSocket(to), PrivateTyping(user.username, isTyping))])
  {
  }

  /**
   With both parties on the ephemeral list, the recipient reads the message
   back as the newest entry of its history with the sender: the key is symmetric.
   */
  lemma EphemeralExchangeVisibleToBoth(w: World, a: SocketId, b: SocketId, content: string, now: Time)
    requires a in w.users && b in w.users
    requires !IsPermanent(w.prefs, w.users[a].username) && !IsPermanent(w.prefs, w.users[b].username)
    ensures var w1 := Handle(w, a, SendPrivateMessage(b, content), now).world;
      var out := Handle(w1, b, GetPrivateHistory(a), now).out;
      var h := out[0].event.messages;
      out[0].to == ToSocket(b) && |h| > 0
      && h[|h| - 1] == PrivateMessage(w.users[a].username, w.users[b].username, content, now)
  {
    var pa, pb := Party(a, w.users[a].username), Party(b, w.users[b].username);
    PrivateKeySymmetric(false, pa, pb);
  }

  /**
   The list is chosen by the sender's flag alone: a message from a permanent
   sender to an ephemeral recipient does not change what the recipient's
   history request returns.
   */
  lemma PermanentSenderHiddenFromEphemeralReader(w: World, a: SocketId, b: SocketId, content: string, now: Time)
    requires a in w.users && b in w.users
    requires IsPermanent(w.prefs, w.users[a].username) && !IsPermanent(w.prefs, w.users[b].username)
    ensures var w1 := Handle(w, a, SendPrivateMessage(b, content), now).world;
      Handle(w1, b, GetPrivateHistory(a), now).out == Handle(w, b, GetPrivateHistory(a), now).out
  {
    var pa, pb := Party(a, w.users[a].username), Party(b, w.users[b].username);
    var m := PrivateMessage(w.users[a].username, w.users[b].username, content, now);
    StoreUnderOneFlagKeepsOthers(w.lists, true, pa, pb, pb, pa, "", m);
  }

  /**
   The flag is keyed by username: set from one session, it is what every
   session with the same username reads back.
   */
  lemma PreferenceSharedByUsername(w: World, a: SocketId, b: SocketId, isPermanent: bool, now: Time)
    requires a in w.users && b in w.users && w.users[a].username == w.users[b].username
    ensures var w1 := Handle(w, a, SetStoragePreference(isPermanent), now).world;
      Handle(w1, b, GetStoragePreference, now).out == [Emit(ToSocket(b), StoragePreference(isPermanent))]
      && w1.users == w.users && w1.rooms == w.rooms && w1.lists == w.lists
  {
  }

  /** A preference request from a username that never set one reads false. */
  lemma PreferenceDefaultsToEphemeral(w: World, self: SocketId, now: Time)
    requires self in w.users && w.users[self].username !in w.prefs
    ensures Handle(w, self, GetStoragePreference, now).out == [Emit(ToSocket(self), StoragePreference(false))]
  {
  }
}
