/**
 Values exchanged by the relay: identifiers, session records, stored messages,
 inbound events and the symbolic outbox of emitted events.

 Emits are recorded with a symbolic audience and are never resolved to
 recipients: the transport keeps its own room membership.
 */
module Protocol {

  datatype Option<+T> = None | Some(value: T)

  /** Connection identifier assigned by the transport. */
  type SocketId = string
  type RoomId = string
  type Username = string
  /** The value of `new Date()` at the time a handler runs. */
  type Time = int
  /** An opaque peer-connection signaling payload, relayed unchanged. */
  type Signal = string

  /** What the session registry binds to a connection: `{ username, room }`. */
  datatype UserData = UserData(username: Username, room: RoomId)

  /**
   A message as stored in a list and emitted:
   a room message `{ user, content, timestamp, type: 'message' }`,
   a system notice `{ type: 'info', content, timestamp }`,
   a private message `{ from, to, content, timestamp }`.
   */
  datatype Message =
    | ChatMessage(user: Username, content: string, timestamp: Time)
    | Info(content: string, timestamp: Time)
    | PrivateMessage(from: Username, to: Username, content: string, timestamp: Time)

  /** One roster entry `{ id, username }`; the username is absent for an unbound member. */
  datatype RosterEntry = RosterEntry(id: SocketId, username: Option<Username>)

  /** `socket.emit` / `io.to(id)`, `io.to(room)`, `socket.to(room)`. */
  datatype Audience =
    | ToSocket(id: SocketId)
    | ToRoom(room: RoomId)
    | ToRoomExcept(room: RoomId, except: SocketId)

  /** Outbound events, one constructor per event name. */
  datatype Outbound =
    | MessageEvent(message: Message)                      // 'message'
    | MessageHistory(messages: seq<Message>)              // 'messageHistory'
    | RoomUsers(roster: seq<RosterEntry>)                 // 'roomUsers'
    | UserTyping(username: Username, isTyping: bool)      // 'userTyping'
    | PrivateMessageEvent(message: Message)               // 'private-message'
    | PrivateMessageHistory(messages: seq<Message>)       // 'private-message-history'
    | PrivateTyping(username: Username, isTyping: bool)   // 'private-typing'
    | IncomingCall(signal: Signal, from: SocketId, callerName: Username) // 'incoming-call'
    | CallAccepted(signal: Signal)                        // 'call-accepted'
    | CallEnded                                           // 'call-ended'
    | CallRejected                                        // 'call-rejected'
    | StoragePreference(isPermanent: bool)                // 'storage-preference'

  datatype Emit = Emit(to: Audience, event: Outbound)

  /** Inbound events, one constructor per `socket.on` registration. */
  datatype Inbound =
    | Join(username: Username, room: RoomId)
    | Disconnect
    | SendChatMessage(text: string)
    | SendPrivateMessage(to: SocketId, content: string)
    | GetPrivateHistory(otherUserId: SocketId)
    | Typing(isTyping: bool)
    | SendPrivateTyping(to: SocketId, isTyping: bool)
    | CallUser(userToCall: SocketId, signalData: Signal)
    | AnswerCall(to: SocketId, signal: Signal)
    | EndCall(to: SocketId)
    | RejectCall(to: SocketId)
    | SetStoragePreference(isPermanent: bool)
    | GetStoragePreference

  /** Emits appended one at a time are the emits appended as one block. */
  lemma SentTwo(s: seq<Emit>, a: Emit, b: Emit)
    ensures s + [a] + [b] == s + [a, b]
  {
  }

  lemma SentFour(s: seq<Emit>, a: Emit, b: Emit, c: Emit, d: Emit)
    ensures s + [a] + [b] + [c] + [d] == s + [a, b, c, d]
  {
  }

  /** The transport's send side: every emit is appended to `sent`. */
  class Io {
    var sent: seq<Emit>

    constructor ()
      ensures sent == []
    {
      sent := [];
    }

    method Send(to: Audience, event: Outbound)
      modifies this
      ensures sent == old(sent) + [Emit(to, event)]
    {
      sent := sent + [Emit(to, event)];
    }
  }
}
