/**
 The single-file server (server/src/index.js): the same relay with the session
 and room registries as two module-level maps, the pair-key helpers and the
 store commands written inline in each handler.
 */
module IndexServer {
  import opened Protocol
  import opened KeyValueStore
  import opened Rooms
  import ChatUtils
  import MessageService
  import Relay

  /** The inline `getPrivateChatId`, the same pair id as the shared helper's. */
  function GetPrivateChatId(user1Id: string, user2Id: string): string
  {
    ChatUtils.PrivateChatId(user1Id, user2Id)
  }

  /** The inline helper computes `[user1Id, user2Id].sort().join(':')`. */
  lemma GetPrivateChatIdIsSortJoin(user1Id: string, user2Id: string)
    ensures GetPrivateChatId(user1Id, user2Id) == ChatUtils.Join(ChatUtils.Sort([user1Id, user2Id]), ":")
  {
    ChatUtils.PrivateChatIdIsSortJoin(user1Id, user2Id);
  }

  /** The inline `getPermanentChatId`, the same id as the shared helper's. */
  function GetPermanentChatId(username1: string, username2: string): string
  {
    ChatUtils.PermanentChatId(username1, username2)
  }

  /** The inline helper computes `['permanent', username1, username2].sort().slice(1).join(':')`. */
  lemma GetPermanentChatIdIsSortSliceJoin(username1: string, username2: string)
    ensures GetPermanentChatId(username1, username2) == ChatUtils.Join(ChatUtils.Sort(["permanent", username1, username2])[1..], ":")
  {
    ChatUtils.PermanentChatIdIsSortJoin(username1, username2);
  }

  /** The inline room update of `join` (create the room if absent, then add the member) is `Added`. */
  lemma InlineJoinIsAdded(before: Registry, created: Registry, room: RoomId, socket: SocketId)
    requires created == if room in before then before else before[room := []]
    ensures room in created
    ensures created[room := AddMember(created[room], socket)] == Added(before, room, socket)
  {
    assert created[room] == MembersOf(before, room);
  }

  /**
   The join transition, spelled out with the values the inline handler
   computes: the new registry and the first ten entries of `messages:<room>`.
   */
  lemma JoinStepIs(w: Relay.World, socket: SocketId, username: Username, room: RoomId, now: Time,
                   rooms: Registry, messages: seq<Message>)
    requires rooms == Added(w.rooms, room, socket)
    requires messages == Range(ListAt(w.lists, "messages:" + room), 0, 9)
    ensures var users := w.users[socket := UserData(username, room)];
      Relay.JoinStep(w, socket, username, room, now) == Relay.Step(Relay.World(users, rooms, w.lists, w.prefs),
        [ Emit(ToSocket(socket), MessageEvent(Info("Welcome to " + room + "!", now))),
          Emit(ToSocket(socket), MessageHistory(MessageService.Reverse(messages))),
          Emit(ToRoomExcept(room, socket), MessageEvent(Info(username + " has joined the room", now))),
          Emit(ToRoom(room), RoomUsers(Relay.Roster(users, rooms[room]))) ])
  {
  }

  class Server {
    var users: map<SocketId, UserData>
    var rooms: Registry
    const io: Io
    const redis: Store

    ghost function World(): Relay.World
      reads this, redis
    {
      Relay.World(users, rooms, redis.lists, redis.prefs)
    }

    constructor (io: Io, redis: Store)
      ensures this.io == io && this.redis == redis && users == map[] && rooms == map[]
    {
      this.io := io;
      this.redis := redis;
      users := map[];
      rooms := map[];
    }

    method OnSetStoragePreference(socket: SocketId, isPermanent: bool)
      modifies redis
      ensures World() == Relay.SetPreferenceStep(old(World()), socket, isPermanent).world
      ensures io.sent == old(io.sent) + Relay.SetPreferenceStep(old(World()), socket, isPermanent).out
    {
      if socket !in users {
        return;
      }
      var user := users[socket];
      redis.HSet(user.username, if isPermanent then "1" else "0");
    }

    method OnGetStoragePreference(socket: SocketId)
      modifies io
      ensures World() == Relay.GetPreferenceStep(old(World()), socket).world
      ensures io.sent == old(io.sent) + Relay.GetPreferenceStep(old(World()), socket).out
    {
      if socket !in users {
        return;
      }
      var user := users[socket];
      var preference := redis.HGet(user.username);
      io.Send(ToSocket(socket), StoragePreference(preference == Some("1")));
    }

    /** The registry part of `join`: bind the session, create the room if absent, add the member. */
    method BindAndAdd(socket: SocketId, username: Username, room: RoomId)
      modifies this
      ensures users == old(users)[socket := UserData(username, room)]
      ensures rooms == Added(old(rooms), room, socket)
    {
      users := users[socket := UserData(username, room)];
      if room !in rooms {
        rooms := rooms[room := []];
      }
      InlineJoinIsAdded(old(rooms), rooms, room, socket);
      rooms := rooms[room := AddMember(rooms[room], socket)];
    }

    method OnJoin(socket: SocketId, username: Username, room: RoomId, now: Time)
      modifies this, io
      ensures World() == Relay.JoinStep(old(World()), socket, username, room, now).world
      ensures io.sent == old(io.sent) + Relay.JoinStep(old(World()), socket, username, room, now).out
    {
      BindAndAdd(socket, username, room);
      var messages := redis.LRange("messages:" + room, 0, 9);
      var welcome := Emit(ToSocket(socket), MessageEvent(Info("Welcome to " + room + "!", now)));
      var history := Emit(ToSocket(socket), MessageHistory(MessageService.Reverse(messages)));
      var joined := Emit(ToRoomExcept(room, socket), MessageEvent(Info(username + " has joined the room", now)));
      var roster := Emit(ToRoom(room), RoomUsers(Relay.Roster(users, rooms[room])));
      io.Send(welcome.to, welcome.event);
      io.Send(history.to, history.event);
      io.Send(joined.to, joined.event);
      io.Send(roster.to, roster.event);
      SentFour(old(io.sent), welcome, history, joined, roster);
      JoinStepIs(old(World()), socket, username, room, now, rooms, messages);
    }

    method OnChatMessage(socket: SocketId, message: string, now: Time)
      modifies redis, io
      ensures World() == Relay.ChatMessageStep(old(World()), socket, message, now).world
      ensures io.sent == old(io.sent) + Relay.ChatMessageStep(old(World()), socket, message, now).out
    {
      if socket !in users {
        return;
      }
      var user := users[socket];
      var messageData := ChatMessage(user.username, message, now);
      redis.LPush("messages:" + user.room, messageData);
      redis.LTrim("messages:" + user.room, 0, 99);
      io.Send(ToRoom(user.room), MessageEvent(messageData));
    }

    method OnTyping(socket: SocketId, isTyping: bool)
      modifies io
      ensures World() == Relay.TypingStep(old(World()), socket, isTyping).world
      ensures io.sent == old(io.sent) + Relay.TypingStep(old(World()), socket, isTyping).out
    {
      if socket !in users {
        return;
      }
      var user := users[socket];
      io.Send(ToRoomExcept(user.room, socket), UserTyping(user.username, isTyping));
    }

    method OnCallUser(socket: SocketId, userToCall: SocketId, signalData: Signal)
      modifies io
      ensures World() == Relay.CallUserStep(old(World()), socket, userToCall, signalData).world
      ensures io.sent == old(io.sent) + Relay.CallUserStep(old(World()), socket, userToCall, signalData).out
    {
      if socket !in users {
        return;
      }
      var caller := users[socket];
      io.Send(ToSocket(userToCall), IncomingCall(signalData, socket, caller.username));
    }

    method OnAnswerCall(socket: SocketId, to: SocketId, signal: Signal)
      modifies io
      ensures World() == Relay.RelayToPeer(old(World()), socket, to, CallAccepted(signal)).world
      ensures io.sent == old(io.sent) + Relay.RelayToPeer(old(World()), socket, to, CallAccepted(signal)).out
    {
      if socket !in users {
        return;
      }
      io.Send(ToSocket(to), CallAccepted(signal));
    }

    method OnEndCall(socket: SocketId, to: SocketId)
      modifies io
      ensures World() == Relay.RelayToPeer(old(World()), socket, to, CallEnded).world
      ensures io.sent == old(io.sent) + Relay.RelayToPeer(old(World()), socket, to, CallEnded).out
    {
      if socket !in users {
        return;
      }
      io.Send(ToSocket(to), CallEnded);
    }

    method OnRejectCall(socket: SocketId, to: SocketId)
      modifies io
      ensures World() == Relay.RelayToPeer(old(World()), socket, to, CallRejected).world
      ensures io.sent == old(io.sent) + Relay.RelayToPeer(old(World()), socket, to, CallRejected).out
    {
      if socket !in users {
        return;
      }
      io.Send(ToSocket(to), CallRejected);
    }

    method OnPrivateMessage(socket: SocketId, to: SocketId, content: string, now: Time)
      modifies redis, io
      ensures World() == Relay.PrivateMessageStep(old(World()), socket, to, content, now).world
      ensures io.sent == old(io.sent) + Relay.PrivateMessageStep(old(World()), socket, to, content, now).out
    {
      if socket !in users {
        return;
      }
      var sender := users[socket];
      if to !in users {
        return;
      }
      var receiver := users[to];
      var messageData := PrivateMessage(sender.username, receiver.username, content, now);
      var toReceiver := Emit(ToSocket(to), PrivateMessageEvent(messageData));
      var toSender := Emit(ToSocket(socket), PrivateMessageEvent(messageData));
      ghost var step := Relay.PrivateMessageStep(World(), socket, to, content, now);
      assert step.out == [toReceiver, toSender];
      var senderPreference := redis.HGet(sender.username);
      var isPermanent := senderPreference == Some("1");
      ghost var key := Relay.PrivateKeyFor(old(World()), socket, to);
      if isPermanent {
        var permanentChatId := GetPermanentChatId(sender.username, receiver.username);
        assert "permanent_chat:" + permanentChatId == key;
        redis.LPush("permanent_chat:" + permanentChatId, messageData);
        redis.LTrim("permanent_chat:" + permanentChatId, 0, 99);
        assert redis.lists == MessageService.Pushed(old(redis.lists), key, messageData);
      } else {
        var tempChatId := GetPrivateChatId(socket, to);
        assert "temp_chat:" + tempChatId == key;
        redis.LPush("temp_chat:" + tempChatId, messageData);
        redis.LTrim("temp_chat:" + tempChatId, 0, 99);
        assert redis.lists == MessageService.Pushed(old(redis.lists), key, messageData);
      }
      assert World() == step.world;
      io.Send(toReceiver.to, toReceiver.event);
      io.Send(toSender.to, toSender.event);
      SentTwo(old(io.sent), toReceiver, toSender);
    }

    method OnGetPrivateHistory(socket: SocketId, otherUserId: SocketId)
      modifies io
      ensures World() == Relay.PrivateHistoryStep(old(World()), socket, otherUserId).world
      ensures io.sent == old(io.sent) + Relay.PrivateHistoryStep(old(World()), socket, otherUserId).out
    {
      if socket !in users {
        return;
      }
      var user := users[socket];
      if otherUserId !in users {
        return;
      }
      var otherUser := users[otherUserId];
      var preference := redis.HGet(user.username);
      var isPermanent := preference == Some("1");
      var messages: seq<Message>;
      if isPermanent {
        var permanentChatId := GetPermanentChatId(user.username, otherUser.username);
        messages := redis.LRange("permanent_chat:" + permanentChatId, 0, 49);
      } else {
        var tempChatId := GetPrivateChatId(socket, otherUserId);
        messages := redis.LRange("temp_chat:" + tempChatId, 0, 49);
      }
      io.Send(ToSocket(socket), PrivateMessageHistory(MessageService.Reverse(messages)));
    }

    method OnPrivateTyping(socket: SocketId, to: SocketId, isTyping: bool)
      modifies io
      ensures World() == Relay.PrivateTypingStep(old(World()), socket, to, isTyping).world
      ensures io.sent == old(io.sent) + Relay.PrivateTypingStep(old(World()), socket, to, isTyping).out
    {
      if socket !in users {
        return;
      }
      var user := users[socket];
      io.Send(ToSocket(to), PrivateTyping(user.username, isTyping));
    }

    method OnDisconnect(socket: SocketId, now: Time)
      modifies this, io
      ensures World() == Relay.DisconnectStep(old(World()), socket, now).world
      ensures io.sent == old(io.sent) + Relay.DisconnectStep(old(World()), socket, now).out
    {
      if socket !in users {
        return;
      }
      var user := users[socket];
      if user.room in rooms {
        rooms := rooms[user.room := Without(rooms[user.room], socket)];
      }
      if user.room in rooms && |rooms[user.room]| == 0 {
        rooms := rooms - {user.room};
      }
      users := users - {socket};
      var left := Emit(ToRoom(user.room), MessageEvent(Info(user.username + " has left the room", now)));
      var roster := Emit(ToRoom(user.room), RoomUsers(Relay.Roster(users, MembersOf(rooms, user.room))));
      io.Send(left.to, left.event);
      io.Send(roster.to, roster.event);
      SentTwo(old(io.sent), left, roster);
    }

    /** The `socket.on` registrations of one connection: each inbound event runs its handler. */
    method OnEvent(socket: SocketId, ev: Inbound, now: Time)
      modifies this, redis, io
      ensures World() == Relay.Handle(old(World()), socket, ev, now).world
      ensures io.sent == old(io.sent) + Relay.Handle(old(World()), socket, ev, now).out
    {
      match ev
      case Join(username, room) => OnJoin(socket, username, room, now);
      case Disconnect => OnDisconnect(socket, now);
      case SendChatMessage(text) => OnChatMessage(socket, text, now);
      case SendPrivateMessage(to, content) => OnPrivateMessage(socket, to, content, now);
      case GetPrivateHistory(otherUserId) => OnGetPrivateHistory(socket, otherUserId);
      case Typing(isTyping) => OnTyping(socket, isTyping);
      case SendPrivateTyping(to, isTyping) => OnPrivateTyping(socket, to, isTyping);
      case CallUser(userToCall, signalData) => OnCallUser(socket, userToCall, signalData);
      case AnswerCall(to, signal) => OnAnswerCall(socket, to, signal);
      case EndCall(to) => OnEndCall(socket, to);
      case RejectCall(to) => OnRejectCall(socket, to);
      case SetStoragePreference(isPermanent) => OnSetStoragePreference(socket, isPermanent);
      case GetStoragePreference => OnGetStoragePreference(socket);
    }
  }
}
