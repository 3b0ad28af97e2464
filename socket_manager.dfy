/**
 Connection wiring (src/sockets/socketManager.js): one session registry and one
 room registry shared by every connection, a fresh set of handlers per
 connection, the two inline storage-preference handlers, and the table that
 routes each inbound event to its handler.
 */
module SocketManager {
  import opened Protocol
  import opened KeyValueStore
  import opened Rooms
  import opened Users
  import Relay
  import RoomHandlers
  import ChatHandlers
  import CallHandlers

  /** What `setupSocket` creates once: the transport and the shared registries. */
  class Server {
    const io: Io
    const userService: UserService
    const roomService: RoomService
    const store: Store

    constructor (io: Io, store: Store)
      ensures this.io == io && this.store == store
      ensures fresh(userService) && fresh(roomService)
      ensures userService.users == map[] && roomService.rooms == map[] && roomService.Valid()
    {
      this.io := io;
      this.store := store;
      userService := new UserService();
      roomService := new RoomService();
    }

    ghost function World(): Relay.World
      reads userService, roomService, store
    {
      Relay.World(userService.users, roomService.rooms, store.lists, store.prefs)
    }
  }

  /** One connection: its socket id and its handlers, all over the server's shared registries. */
  class Connection {
    const server: Server
    const socket: SocketId
    const chatHandler: ChatHandlers.ChatHandler
    const callHandler: CallHandlers.CallHandler
    const roomHandler: RoomHandlers.RoomHandler

    /** Every handler of this connection sees this socket and the server's transport and registries. */
    ghost predicate Wired()
    {
      && chatHandler.io == server.io && chatHandler.socket == socket
      && chatHandler.userService == server.userService && chatHandler.roomService == server.roomService
      && chatHandler.store == server.store
      && callHandler.io == server.io && callHandler.socket == socket
      && callHandler.userService == server.userService
      && roomHandler.io == server.io && roomHandler.socket == socket
      && roomHandler.userService == server.userService && roomHandler.roomService == server.roomService
      && roomHandler.store == server.store
    }

    ghost predicate Valid()
      reads server.roomService
    {
      Wired() && server.roomService.Valid()
    }

    constructor (server: Server, socket: SocketId)
      ensures this.server == server && this.socket == socket && Wired()
      ensures fresh(chatHandler) && fresh(callHandler) && fresh(roomHandler)
    {
      this.server := server;
      this.socket := socket;
      chatHandler := new ChatHandlers.ChatHandler(server.io, socket, server.userService, server.roomService, server.store);
      callHandler := new CallHandlers.CallHandler(server.io, socket, server.userService);
      roomHandler := new RoomHandlers.RoomHandler(server.io, socket, server.userService, server.roomService, server.store);
    }

    method OnSetStoragePreference(isPermanent: bool)
      modifies server.store
      ensures server.World() == Relay.SetPreferenceStep(old(server.World()), socket, isPermanent).world
      ensures server.io.sent == old(server.io.sent) + Relay.SetPreferenceStep(old(server.World()), socket, isPermanent).out
    {
      var user := server.userService.GetUser(socket);
      if user.None? {
        return;
      }
      server.userService.SetStoragePreference(server.store, user.value.username, isPermanent);
    }

    method OnGetStoragePreference()
      modifies server.io
      ensures server.World() == Relay.GetPreferenceStep(old(server.World()), socket).world
      ensures server.io.sent == old(server.io.sent) + Relay.GetPreferenceStep(old(server.World()), socket).out
    {
      var user := server.userService.GetUser(socket);
      if user.None? {
        return;
      }
      var isPermanent := server.userService.GetStoragePreference(server.store, user.value.username);
      server.io.Send(ToSocket(socket), StoragePreference(isPermanent));
    }

    /** The `socket.on` table: each inbound event runs its handler. */
    method Dispatch(ev: Inbound, now: Time)
      requires Valid()
      modifies server.io, server.userService, server.roomService, server.store
      ensures Valid()
      ensures server.World() == Relay.Handle(old(server.World()), socket, ev, now).world
      ensures server.io.sent == old(server.io.sent) + Relay.Handle(old(server.World()), socket, ev, now).out
      ensures server.roomService.order ==
        match ev
        case Join(_, room) =>
          if room in old(server.roomService.rooms) then old(server.roomService.order)
          else old(server.roomService.order) + [room]
        case Disconnect =>
          if socket in old(server.userService.users) && old(server.userService.users)[socket].room !in server.roomService.rooms
          then Without(old(server.roomService.order), old(server.userService.users)[socket].room)
          else old(server.roomService.order)
        case _ => old(server.roomService.order)
    {
      match ev
      case Join(username, room) => roomHandler.HandleJoin(username, room, now);
      case Disconnect => roomHandler.HandleDisconnect(now);
      case SendChatMessage(text) => chatHandler.HandleChatMessage(text, now);
      case SendPrivateMessage(to, content) => chatHandler.HandlePrivateMessage(to, content, now);
      case GetPrivateHistory(otherUserId) => chatHandler.HandlePrivateHistory(otherUserId);
      case Typing(isTyping) => chatHandler.HandleTyping(isTyping);
      case SendPrivateTyping(to, isTyping) => chatHandler.HandlePrivateTyping(to, isTyping);
      case CallUser(userToCall, signalData) => callHandler.HandleCallUser(userToCall, signalData);
      case AnswerCall(to, signal) => callHandler.HandleAnswerCall(to, signal);
      case EndCall(to) => callHandler.HandleEndCall(to);
      case RejectCall(to) => callHandler.HandleRejectCall(to);
      case SetStoragePreference(isPermanent) => OnSetStoragePreference(isPermanent);
      case GetStoragePreference => OnGetStoragePreference();
    }
  }
}
