/**
 Join and leave (src/sockets/handlers/roomHandler.js), one handler object per
 connection over the shared registries and the store behind the message
 service.
 */
module RoomHandlers {
  import opened Protocol
  import opened KeyValueStore
  import opened Rooms
  import opened Users
  import MessageService
  import Relay

  class RoomHandler {
    const io: Io
    const socket: SocketId
    const userService: UserService
    const roomService: RoomService
    const store: Store

    ghost function World(): Relay.World
      reads userService, roomService, store
    {
      Relay.World(userService.users, roomService.rooms, store.lists, store.prefs)
    }

    ghost predicate Valid()
      reads roomService
    {
      roomService.Valid()
    }

    constructor (io: Io, socket: SocketId, userService: UserService, roomService: RoomService, store: Store)
      ensures this.io == io && this.socket == socket && this.userService == userService
      ensures this.roomService == roomService && this.store == store
    {
      this.io := io;
      this.socket := socket;
      this.userService := userService;
      this.roomService := roomService;
      this.store := store;
    }

    method HandleJoin(username: Username, room: RoomId, now: Time)
      requires Valid()
      modifies userService, roomService, io
      ensures Valid()
      ensures World() == Relay.JoinStep(old(World()), socket, username, room, now).world
      ensures io.sent == old(io.sent) + Relay.JoinStep(old(World()), socket, username, room, now).out
      ensures roomService.order == if room in old(roomService.rooms) then old(roomService.order) else old(roomService.order) + [room]
    {
      userService.AddUser(socket, UserData(username, room));
      roomService.AddUserToRoom(room, socket);
      var messages := MessageService.GetMessageHistory(store.lists, room);
      var welcome := Emit(ToSocket(socket), MessageEvent(Info(Relay.Welcome(room), now)));
      var history := Emit(ToSocket(socket), MessageHistory(messages));
      var joined := Emit(ToRoomExcept(room, socket), MessageEvent(Info(Relay.JoinedNotice(username), now)));
      io.Send(welcome.to, welcome.event);
      io.Send(history.to, history.event);
      io.Send(joined.to, joined.event);
      UpdateRoomUsers(room);
      SentFour(old(io.sent), welcome, history, joined, io.sent[|io.sent| - 1]);
    }

    method HandleDisconnect(now: Time)
      requires Valid()
      modifies userService, roomService, io
      ensures Valid()
      ensures World() == Relay.DisconnectStep(old(World()), socket, now).world
      ensures io.sent == old(io.sent) + Relay.DisconnectStep(old(World()), socket, now).out
      ensures roomService.order ==
        if socket in old(userService.users) && old(userService.users)[socket].room !in roomService.rooms
        then Without(old(roomService.order), old(userService.users)[socket].room)
        else old(roomService.order)
    {
      var user := userService.GetUser(socket);
      if user.None? {
        return;
      }
      var u := user.value;
      roomService.RemoveUserFromRoom(u.room, socket);
      userService.RemoveUser(socket);
      var left := Emit(ToRoom(u.room), MessageEvent(Info(Relay.LeftNotice(u.username), now)));
      io.Send(left.to, left.event);
      UpdateRoomUsers(u.room);
      SentTwo(old(io.sent), left, io.sent[|io.sent| - 1]);
    }

    /** Sends the room's roster, one `{ id, username }` per member in member order, to the whole room. */
    method UpdateRoomUsers(room: RoomId)
      modifies io
      ensures io.sent == old(io.sent) + [Emit(ToRoom(room), RoomUsers(Relay.Roster(userService.users, MembersOf(roomService.rooms, room))))]
    {
      var users := Relay.Roster(userService.users, roomService.GetRoomUsers(room));
      io.Send(ToRoom(room), RoomUsers(users));
    }
  }
}
