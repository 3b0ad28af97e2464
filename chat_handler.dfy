/**
 Room messages, private messages, private history and typing notices
 (src/sockets/handlers/chatHandler.js), one handler object per connection.
 */
module ChatHandlers {
  import opened Protocol
  import opened KeyValueStore
  import opened Rooms
  import opened Users
  import MessageService
  import Relay

  class ChatHandler {
    const io: Io
    const socket: SocketId
    const userService: UserService
    const roomService: RoomService
    const store: Store

    ghost function World(): Relay.World
      reads userService, roomService, store
    {
      Relay.World(userService.users, roomService.rooms, store.lists, store.prefs)
    }

    constructor (io: Io, socket: SocketId, userService: UserService, roomService: RoomService, store: Store)
      ensures this.io == io && this.socket == socket && this.userService == userService
      ensures this.roomService == roomService && this.store == store
    {
      this.io := io;
      this.socket := socket;
      this.userService := userService;
      this.roomService := roomService;
      this.store := store;
    }

    method HandleChatMessage(message: string, now: Time)
      modifies store, io
      ensures World() == Relay.ChatMessageStep(old(World()), socket, message, now).world
      ensures io.sent == old(io.sent) + Relay.ChatMessageStep(old(World()), socket, message, now).out
    {
      var user := userService.GetUser(socket);
      if user.None? {
        return;
      }
      var messageData := ChatMessage(user.value.username, message, now);
      MessageService.StoreMessage(store, user.value.room, messageData);
      io.Send(ToRoom(user.value.room), MessageEvent(messageData));
    }

    method HandlePrivateMessage(to: SocketId, content: string, now: Time)
      modifies store, io
      ensures World() == Relay.PrivateMessageStep(old(World()), socket, to, content, now).world
      ensures io.sent == old(io.sent) + Relay.PrivateMessageStep(old(World()), socket, to, content, now).out
    {
      var sender := userService.GetUser(socket);
      if sender.None? {
        return;
      }
      var receiver := userService.GetUser(to);
      if receiver.None? {
        return;
      }
      var messageData := PrivateMessage(sender.value.username, receiver.value.username, content, now);
      var isPermanent := userService.GetStoragePreference(store, sender.value.username);
      MessageService.StorePrivateMessage(store, MessageService.Party(socket, sender.value.username),
        MessageService.Party(to, receiver.value.username), messageData, isPermanent);
      var toReceiver := Emit(ToSocket(to), PrivateMessageEvent(messageData));
      io.Send(toReceiver.to, toReceiver.event);
      io.Send(ToSocket(socket), PrivateMessageEvent(messageData));
      SentTwo(old(io.sent), toReceiver, io.sent[|io.sent| - 1]);
    }

    method HandlePrivateHistory(otherUserId: SocketId)
      modifies io
      ensures World() == Relay.PrivateHistoryStep(old(World()), socket, otherUserId).world
      ensures io.sent == old(io.sent) + Relay.PrivateHistoryStep(old(World()), socket, otherUserId).out
    {
      var user := userService.GetUser(socket);
      if user.None? {
        return;
      }
      var otherUser := userService.GetUser(otherUserId);
      if otherUser.None? {
        return;
      }
      var isPermanent := userService.GetStoragePreference(store, user.value.username);
      var messages := MessageService.GetPrivateMessageHistory(store.lists, MessageService.Party(socket, user.value.username),
        MessageService.Party(otherUserId, otherUser.value.username), isPermanent);
      io.Send(ToSocket(socket), PrivateMessageHistory(messages));
    }

    method HandleTyping(isTyping: bool)
      modifies io
      ensures World() == Relay.TypingStep(old(World()), socket, isTyping).world
      ensures io.sent == old(io.sent) + Relay.TypingStep(old(World()), socket, isTyping).out
    {
      var user := userService.GetUser(socket);
      if user.None? {
        return;
      }
      io.Send(ToRoomExcept(user.value.room, socket), UserTyping(user.value.username, isTyping));
    }

    method HandlePrivateTyping(to: SocketId, isTyping: bool)
      modifies io
      ensures World() == Relay.PrivateTypingStep(old(World()), socket, to, isTyping).world
      ensures io.sent == old(io.sent) + Relay.PrivateTypingStep(old(World()), socket, to, isTyping).out
    {
      var user := userService.GetUser(socket);
      if user.None? {
        return;
      }
      io.Send(ToSocket(to), PrivateTyping(user.value.username, isTyping));
    }
  }
}
