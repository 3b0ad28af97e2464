/**
 Call signaling (src/sockets/handlers/callHandler.js): each handler checks that
 the sending socket has a session and forwards one event to the target socket,
 which is not looked up. No registry is written.
 */
module CallHandlers {
  import opened Protocol
  import opened Users

  class CallHandler {
    const io: Io
    const socket: SocketId
    const userService: UserService

    constructor (io: Io, socket: SocketId, userService: UserService)
      ensures this.io == io && this.socket == socket && this.userService == userService
    {
      this.io := io;
      this.socket := socket;
      this.userService := userService;
    }

    method HandleCallUser(userToCall: SocketId, signalData: Signal)
      modifies io
      ensures io.sent == old(io.sent) +
        if socket in userService.users
        then [Emit(ToSocket(userToCall), IncomingCall(signalData, socket, userService.users[socket].username))]
        else []
    {
      var caller := userService.GetUser(socket);
      if caller.None? {
        return;
      }
      io.Send(ToSocket(userToCall), IncomingCall(signalData, socket, caller.value.username));
    }

    method HandleAnswerCall(to: SocketId, signal: Signal)
      modifies io
      ensures io.sent == old(io.sent) + if socket in userService.users then [Emit(ToSocket(to), CallAccepted(signal))] else []
    {
      var answerer := userService.GetUser(socket);
      if answerer.None? {
        return;
      }
      io.Send(ToSocket(to), CallAccepted(signal));
    }

    method HandleEndCall(to: SocketId)
      modifies io
      ensures io.sent == old(io.sent) + if socket in userService.users then [Emit(ToSocket(to), CallEnded)] else []
    {
      var caller := userService.GetUser(socket);
      if caller.None? {
        return;
      }
      io.Send(ToSocket(to), CallEnded);
    }

    method HandleRejectCall(to: SocketId)
      modifies io
      ensures io.sent == old(io.sent) + if socket in userService.users then [Emit(ToSocket(to), CallRejected)] else []
    {
      var rejector := userService.GetUser(socket);
      if rejector.None? {
        return;
      }
      io.Send(ToSocket(to), CallRejected);
    }
  }
}
