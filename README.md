# Chat relay server, modelled in Dafny

This project models the server side of a real-time chat relay (AltinGruda/Real-Time-Chat-App).
Clients connect over a socket, join a room, chat in it, exchange private messages, see typing
notices and relay call-signaling messages to one another. The server keeps:

- a session registry from socket id to `{ username, room }`;
- a room registry from room name to its member sockets, in insertion order;
- capped message lists in an external key-value store: `messages:<room>`, `temp_chat:<pair id>` and
  `permanent_chat:<pair id>`;
- a per-username storage flag, `'1'` or `'0'`, in the hash `storage_preferences`.

The repository holds two copies of the server. The modular server under `src/` has services
(`UserService`, `RoomService`, `MessageService`), per-connection handler objects and a socket
manager that wires them. The single-file server `server/src/index.js` writes the same logic
inline. Both are modelled:

- `Relay` defines each handler once, as a pure transition from a `World` (sessions, rooms,
  lists, preferences) to a `Step` (the new world and the events emitted, in order). Every emit
  goes to a symbolic audience: one socket (`ToSocket`), a whole room (`ToRoom`), or a room
  without the sender (`ToRoomExcept`).
- The handler classes (`RoomHandlers`, `ChatHandlers`, `CallHandlers`), the connection wiring
  (`SocketManager`) and the single-file server (`IndexServer`) are imperative classes. Their
  methods update the registries in place, call the store commands and append to the transport's
  outbox (`Protocol.Io`). Each method is proved to perform exactly its `Relay` transition. So the
  two server copies are proved to behave the same, event for event.
- `RelayProperties` proves what the relay promises about those transitions. It covers an
  invariant kept by every event, dropped events, join, leave, history, private messages,
  storage preferences and the signaling relay.
- `ChatUtils` models the pair-key helpers. It uses JavaScript's default `sort()` order, proves
  the literal sort/slice/join expressions equal closed forms, and proves the quirks of the
  permanent key.

## Model

| member | source | states |
|---|---|---|
| ChatUtils.Leq | src/utils/chatUtils.js:2 | the comparison behind the default `sort()`: character by character, a proper prefix first; it has no contract of its own, and LeqReflexive, LeqAntisymmetric, LeqTransitive and LeqTotal make it a total order |
| ChatUtils.Sort | src/utils/chatUtils.js:2 | the default `sort()` of a string array: the result is in ascending string order and is a permutation of the input |
| ChatUtils.SortIs | src/utils/chatUtils.js:2 | any sorted permutation of the input is the result of `sort()`, so the sorted order is unique |
| ChatUtils.Join | src/utils/chatUtils.js:2 | `join(sep)`: the parts in order with `sep` between neighbours; it has no contract of its own, and PrivateChatIdIsSortJoin and PermanentChatIdIsSortJoin state what it gives on the two ids |
| ChatUtils.PrivateChatId | src/utils/chatUtils.js:1-3 | the private pair id in closed form; it has no contract of its own, and PrivateChatIdIsSortJoin and PrivateChatIdSymmetric state its properties |
| ChatUtils.PrivateChatIdIsSortJoin | src/utils/chatUtils.js:1-3 | `[a, b].sort().join(':')` is the smaller id, `:`, then the larger id |
| ChatUtils.PrivateChatIdSymmetric | src/utils/chatUtils.js:1-3 | the private pair id does not depend on the argument order |
| ChatUtils.PermanentChatId | src/utils/chatUtils.js:5-7 | the permanent id in closed form; it has no contract of its own, and the PermanentChatId lemmas below state its properties |
| ChatUtils.DropSmallestJoin | src/utils/chatUtils.js:6 | the literal `[token, u1, u2].sort().slice(1).join(':')`; it has no contract of its own, and DropSmallestJoinTopTwo gives it as the two largest of the three joined by `:` |
| ChatUtils.PermanentChatIdIsSortJoin | src/utils/chatUtils.js:5-7 | the closed form equals `['permanent', u1, u2].sort().slice(1).join(':')` |
| ChatUtils.PermanentChatIdTopTwo | src/utils/chatUtils.js:6 | for every sorted arrangement x ≤ y ≤ z of "permanent", u1 and u2, the permanent id is `y:z`: the two largest, in order |
| ChatUtils.PermanentChatIdSymmetric | src/utils/chatUtils.js:5-7 | the permanent id does not depend on the argument order |
| ChatUtils.PermanentChatIdBothAfter | src/utils/chatUtils.js:1-7 | when both usernames sort after "permanent", the permanent id is the plain private id of the usernames, with no namespace token |
| ChatUtils.PermanentChatIdDropsSmallest | src/utils/chatUtils.js:6 | when u1 is the smallest of the three, u1 is dropped and the id is the sorted pair of "permanent" and u2 |
| ChatUtils.PermanentChatIdIgnoresSmallest | src/utils/chatUtils.js:6 | two first usernames that both sort first give the same id, so distinct pairs share a conversation |
| ChatUtils.PermanentChatIdCollision | src/utils/chatUtils.js:6 | ("alice", "zoe") and ("bob", "zoe") both give "permanent:zoe" |
| KeyValueStore.Range | src/services/messageService.js:11 | LRANGE with non-negative indices: the entries from `start` through `stop`, clipped to the list's length |
| KeyValueStore.Trimmed | src/services/messageService.js:7 | LTRIM keeps that range, deletes a key left empty and touches no other key |
| KeyValueStore.Store.LPush | src/services/messageService.js:6 | LPUSH puts the value at the front of the key's list, creating the list if absent |
| KeyValueStore.Store.LTrim | src/services/messageService.js:7 | the store's lists become `Trimmed` of the old lists; the hash is unchanged |
| KeyValueStore.Store.HSet | src/services/userService.js:21 | HSET writes one field of the preference hash and no list |
| KeyValueStore.Store.HGet | src/services/userService.js:25 | HGET gives the field's value, or nothing when the field is absent |
| KeyValueStore.Store.LRange | src/services/messageService.js:11 | LRANGE on the store's lists, read without changing them; it has no contract of its own, and `Range` states the entries it gives |
| MessageService.RoomKey | src/services/messageService.js:6-11 | the list key of a room, `messages:` and the room name; it has no contract of its own, and KeyspacesDisjoint states that it never meets a private key |
| MessageService.PrivateKey | src/services/messageService.js:16-30 | the private list key: `permanent_chat:` and the permanent id when the flag is set, `temp_chat:` and the private id otherwise; it has no contract of its own, and PrivateKeySymmetric and KeyspacesDisjoint state its properties |
| MessageService.Reverse | src/services/messageService.js:12 | `.reverse()`: same length, entry i is entry n-1-i of the input |
| MessageService.PushCapped | src/services/messageService.js:6-7 | LPUSH then `LTRIM 0 99`: the new message first, then the old list's first 99 entries; the oldest are evicted, never rejected |
| MessageService.Pushed | src/services/messageService.js:6-7 | after push-and-trim, the key holds that capped list and every other key is unchanged |
| MessageService.StoreMessage | src/services/messageService.js:5-8 | the store's lists become `Pushed` under `messages:<room>`; preferences are unchanged |
| MessageService.GetMessageHistory | src/services/messageService.js:10-13 | min(length, 10) entries: the list's first 10, reversed so the oldest comes first |
| MessageService.StorePrivateMessage | src/services/messageService.js:15-23 | pushes and trims under `permanent_chat:<permanent id of the usernames>` when the flag is set, else under `temp_chat:<private id of the socket ids>` |
| MessageService.GetPrivateMessageHistory | src/services/messageService.js:25-33 | at most 50 entries of the flag's list, oldest first |
| MessageService.PrivateKeySymmetric | src/services/messageService.js:16-20 | swapping the two parties gives the same private key, under either flag |
| MessageService.PrivateHistorySymmetric | src/services/messageService.js:25-33 | swapping `user1` and `user2` reads the same history |
| MessageService.KeyspacesDisjoint | src/services/messageService.js:6-30 | a room key, an ephemeral pair key and a permanent pair key never coincide |
| MessageService.StoreUnderOneFlagKeepsOthers | src/services/messageService.js:15-22 | storing under one flag changes no list under the other flag and no room list |
| MessageService.StoreAllAt | src/services/messageService.js:5-8 | after a series of stores to one key, that key's list is the stores folded over its old list |
| MessageService.PushAllList | src/services/messageService.js:6-7 | a series of capped pushes leaves the new messages, newest first, followed by the old list, cut to 100 |
| MessageService.HistoryAfterStores | src/services/messageService.js:5-13 | after N stores to an empty room, its history is the last min(N, 10) messages in the order they were stored |
| Rooms.AddMember | src/services/roomService.js:10 | `Set.add`: members are the old ones plus the new one, still without duplicates; re-adding a member changes nothing |
| Rooms.Without | src/services/roomService.js:16 | `Set.delete`: members are the old ones minus the given one, still without duplicates; removing a non-member changes nothing |
| Rooms.MembersOf | src/services/roomService.js:23-25 | the room's members in insertion order, or none for an unknown room; it has no contract of its own, and Added, Removed and ContainingIff state what it gives after each update |
| Rooms.Added | src/services/roomService.js:6-11 | the room exists afterwards and holds the socket; other rooms are unchanged; no room is left empty |
| Rooms.Removed | src/services/roomService.js:13-21 | the socket leaves the room; a room left empty is deleted; other rooms are unchanged; no room is left empty |
| Rooms.ContainingIff | src/services/roomService.js:27-35 | the filtered room list holds exactly the rooms that contain the socket, without duplicates |
| Rooms.AddIdempotent | src/services/roomService.js:10 | adding an existing member leaves the registry unchanged |
| Rooms.RemoveLastDeletesRoom | src/services/roomService.js:13-24 | removing a room's only member deletes the room, and its member list is then empty |
| Rooms.RemoveFromUnknownRoom | src/services/roomService.js:14-15 | removing from a room that does not exist changes nothing |
| Rooms.RoomService.constructor | src/services/roomService.js:2-4 | a new room registry is empty, with an empty key order, and valid |
| Rooms.RoomService.AddUserToRoom | src/services/roomService.js:6-11 | the registry becomes `Added`; a new room is appended to the key order; the registry stays valid |
| Rooms.RoomService.RemoveUserFromRoom | src/services/roomService.js:13-21 | the registry becomes `Removed`; a deleted room leaves the key order; the registry stays valid |
| Rooms.RoomService.GetRoomUsers | src/services/roomService.js:23-25 | the room's members, or `[]` for an unknown room |
| Rooms.RoomService.GetUserRooms | src/services/roomService.js:27-35 | the loop returns exactly the rooms containing the socket, in the registry's key order, without duplicates |
| Users.PrefFlag | src/services/userService.js:21 | the stored flag is "1" exactly when permanent and "0" exactly when not |
| Users.IsPermanent | src/services/userService.js:24-27 | the flag read, true only for a stored "1"; it has no contract of its own, and PreferenceRoundTrip and AbsentIsEphemeral state what it reads back |
| Users.PreferenceRoundTrip | src/services/userService.js:20-27 | setting a username's flag and reading it back gives the flag set; other usernames read as before |
| Users.AbsentIsEphemeral | src/services/userService.js:24-27 | a username with no stored flag reads as not permanent |
| Users.UserService.constructor | src/services/userService.js:4-6 | a new session registry is empty |
| Users.UserService.AddUser | src/services/userService.js:8-10 | binds the socket to its session record, overwriting any earlier binding |
| Users.UserService.RemoveUser | src/services/userService.js:12-14 | deletes the socket's binding and no other |
| Users.UserService.GetUser | src/services/userService.js:16-18 | the socket's session record, present exactly when the socket is bound |
| Users.UserService.SetStoragePreference | src/services/userService.js:20-22 | writes "1" or "0" under the username in the hash; lists are unchanged |
| Users.UserService.GetStoragePreference | src/services/userService.js:24-27 | true exactly when the username's stored value is "1" |
| Protocol.Io.Send | src/sockets/handlers/roomHandler.js:69 | one emit appends one event, with its audience, to the outbox |
| Relay.Roster | src/sockets/handlers/roomHandler.js:63-68 | one entry per member, in member order; each carries the member's username when the member is bound and nothing otherwise |
| Relay.JoinStep | src/sockets/handlers/roomHandler.js:12-42 | afterwards the joiner is a member of the room; the lists and the flags are unchanged; exactly four events go out, whose contents JoinEmits states |
| Relay.DisconnectStep | src/sockets/handlers/roomHandler.js:44-61 | afterwards the socket has no session; the lists and the flags are unchanged; a socket with no session changes nothing and emits nothing |
| Relay.ChatMessageStep | src/sockets/handlers/chatHandler.js:12-25 | a room message changes only the lists: sessions, rooms and flags are unchanged; from an unbound socket nothing happens |
| Relay.PrivateMessageStep | src/sockets/handlers/chatHandler.js:27-51 | a private message changes only the lists; when the sender or the recipient is unbound nothing happens |
| Relay.PrivateKeyFor | src/sockets/handlers/chatHandler.js:41-47 | the list a private message goes to, chosen by the sender's stored flag alone; it has no contract of its own, and PrivateMessageDelivered states which list receives the message |
| Relay.PrivateHistoryStep | src/sockets/handlers/chatHandler.js:52-79 | a history request changes no state and emits at most one event, none when the requester or the other party is unbound |
| Relay.TypingStep | src/sockets/handlers/chatHandler.js:80-88 | a typing notice changes no state and emits at most one event, none for an unbound sender |
| Relay.PrivateTypingStep | src/sockets/handlers/chatHandler.js:90-98 | a private typing notice changes no state and emits at most one event, none for an unbound sender |
| Relay.CallUserStep | src/sockets/handlers/callHandler.js:8-17 | a call request changes no state and emits at most one event, none for an unbound caller |
| Relay.RelayToPeer | src/sockets/handlers/callHandler.js:19-38 | answer, end and reject change no state and emit at most one event, none for an unbound sender |
| Relay.SetPreferenceStep | src/sockets/socketManager.js:46-50 | setting the preference changes only the flags: sessions, rooms and lists are unchanged, and nothing is emitted |
| Relay.GetPreferenceStep | src/sockets/socketManager.js:52-57 | reading the preference changes no state and emits at most one event, none for an unbound requester |
| Relay.Handle | src/sockets/socketManager.js:28-57 | only join and disconnect change sessions and rooms; only the room and private messages change the lists; only set-storage-preference changes the flags |
| RelayProperties.EmptyWorldInv | src/sockets/socketManager.js:17-18 | the empty registries and store satisfy the relay invariant |
| RelayProperties.PushedKeepsCap | src/services/messageService.js:6-7 | a push-and-trim keeps every list at 100 entries or fewer |
| RelayProperties.JoinKeepsInv | src/sockets/handlers/roomHandler.js:12-42 | join keeps the invariant: no empty room, no duplicate member, every list capped, every bound socket in its recorded room |
| RelayProperties.DisconnectKeepsInv | src/sockets/handlers/roomHandler.js:44-61 | disconnect keeps the invariant |
| RelayProperties.ChatMessageKeepsInv | src/sockets/handlers/chatHandler.js:12-25 | a room message keeps the invariant |
| RelayProperties.PrivateMessageKeepsInv | src/sockets/handlers/chatHandler.js:27-51 | a private message keeps the invariant |
| RelayProperties.HandleKeepsInv | src/sockets/socketManager.js:28-57 | every inbound event keeps the invariant |
| RelayProperties.UnboundSocketIgnored | src/sockets/handlers/chatHandler.js:13-14 | any event except join from a socket with no session changes nothing and emits nothing |
| RelayProperties.UnboundRecipientIgnored | src/sockets/handlers/chatHandler.js:31-32 | a private message to an unbound recipient is dropped: no store, no emit |
| RelayProperties.UnboundHistoryPartnerIgnored | src/sockets/handlers/chatHandler.js:61-65 | a history request about a socket with no session changes nothing and emits nothing |
| RelayProperties.SignalingRelay | src/sockets/handlers/callHandler.js:8-38 | each signaling event from a bound socket changes no state and emits exactly one event to the target id, carrying the signal unchanged, even if the target is unbound |
| RelayProperties.TypingNotices | src/sockets/handlers/chatHandler.js:80-98 | from a bound socket, `typing` sends the username and flag to the room without the sender, and `private-typing` sends them to `to` alone; no state changes |
| RelayProperties.JoinBindsAndAdds | src/sockets/handlers/roomHandler.js:14-19 | join rebinds the socket, puts it in the room and leaves other rooms and the store unchanged |
| RelayProperties.JoinEmits | src/sockets/handlers/roomHandler.js:25-41 | join emits, in order: the welcome and the history to the joiner, the joined notice to the room without the joiner, and then the roster of the room after the join, which lists the joiner under its username, to the whole room |
| RelayProperties.RejoinLeavesStaleMembership | src/sockets/handlers/roomHandler.js:12-50 | a socket that rejoins another room stays a member of the first room, even after it disconnects |
| RelayProperties.DisconnectRemoves | src/sockets/handlers/roomHandler.js:44-61 | disconnect removes the session and the room membership, deletes an emptied room, and emits the left notice and then the roster of the members that remain (empty when the room is gone) |
| RelayProperties.ChatMessageStoredAndBroadcast | src/sockets/handlers/chatHandler.js:12-25 | the message is stored first in the sender's room list, which stays capped, and is broadcast to the whole room |
| RelayProperties.HistoryEndsWithLatestMessage | src/sockets/handlers/chatHandler.js:23 | after a room message, the room's history ends with that message |
| RelayProperties.PrivateMessageDelivered | src/sockets/handlers/chatHandler.js:41-50 | the message goes to the list chosen by the sender's flag alone, and is emitted unchanged to the recipient and then to the sender |
| RelayProperties.PrivateHistoryDelivered | src/sockets/handlers/chatHandler.js:67-78 | between bound sockets, the request changes nothing and sends the requester alone one `private-message-history`, read from the list chosen by the requester's flag |
| RelayProperties.EphemeralExchangeVisibleToBoth | src/sockets/handlers/chatHandler.js:67-78 | with both parties ephemeral, the recipient's history request returns the message just sent, last |
| RelayProperties.PermanentSenderHiddenFromEphemeralReader | src/sockets/handlers/chatHandler.js:41-74 | a message from a permanent sender does not change what an ephemeral reader's history returns |
| RelayProperties.PreferenceSharedByUsername | src/sockets/socketManager.js:46-57 | two sessions with the same username share one flag: what one sets, the other reads |
| RelayProperties.PreferenceDefaultsToEphemeral | src/sockets/socketManager.js:52-56 | with no stored flag, the preference read is false |
| RoomHandlers.RoomHandler.constructor | src/sockets/handlers/roomHandler.js:4-10 | the handler keeps the transport, its socket and the shared registries it is given; in place of the `MessageService` instance it keeps the shared store |
| RoomHandlers.RoomHandler.HandleJoin | src/sockets/handlers/roomHandler.js:12-42 | updates both registries and emits exactly as the join transition; a new room is appended to the key order; the room registry stays valid |
| RoomHandlers.RoomHandler.HandleDisconnect | src/sockets/handlers/roomHandler.js:44-61 | updates both registries and emits exactly as the disconnect transition; a room deleted by the leave leaves the key order, which otherwise keeps its order |
| RoomHandlers.RoomHandler.UpdateRoomUsers | src/sockets/handlers/roomHandler.js:63-70 | emits the room's roster to the whole room |
| ChatHandlers.ChatHandler.constructor | src/sockets/handlers/chatHandler.js:4-10 | the handler keeps the transport, its socket and the shared registries it is given; in place of the `MessageService` instance it keeps the shared store |
| ChatHandlers.ChatHandler.HandleChatMessage | src/sockets/handlers/chatHandler.js:12-25 | stores and emits exactly as the room-message transition |
| ChatHandlers.ChatHandler.HandlePrivateMessage | src/sockets/handlers/chatHandler.js:27-51 | stores and emits exactly as the private-message transition |
| ChatHandlers.ChatHandler.HandlePrivateHistory | src/sockets/handlers/chatHandler.js:52-79 | emits exactly as the private-history transition and changes no state |
| ChatHandlers.ChatHandler.HandleTyping | src/sockets/handlers/chatHandler.js:80-88 | emits the typing notice to the sender's room without the sender, or nothing when unbound |
| ChatHandlers.ChatHandler.HandlePrivateTyping | src/sockets/handlers/chatHandler.js:90-98 | emits the typing notice to `to` only, or nothing when unbound |
| CallHandlers.CallHandler.constructor | src/sockets/handlers/callHandler.js:2-6 | the handler keeps the transport, its socket and the shared session registry it is given |
| CallHandlers.CallHandler.HandleCallUser | src/sockets/handlers/callHandler.js:8-17 | emits one `incoming-call` to `userToCall`, from this socket with the caller's username, when the caller is bound |
| CallHandlers.CallHandler.HandleAnswerCall | src/sockets/handlers/callHandler.js:19-24 | forwards the signal as `call-accepted` to `to` only, when the answerer is bound |
| CallHandlers.CallHandler.HandleEndCall | src/sockets/handlers/callHandler.js:26-31 | emits `call-ended` to `to` only, when the caller is bound |
| CallHandlers.CallHandler.HandleRejectCall | src/sockets/handlers/callHandler.js:33-38 | emits `call-rejected` to `to` only, when the rejector is bound |
| SocketManager.Server.constructor | src/sockets/socketManager.js:17-18 | one session registry and one room registry, both empty and fresh, created once for all connections |
| SocketManager.Connection.constructor | src/sockets/socketManager.js:24-26 | the connection's handlers share the server's transport, registries and store, and this socket |
| SocketManager.Connection.OnSetStoragePreference | src/sockets/socketManager.js:46-50 | writes the flag under the session's username, or nothing when unbound |
| SocketManager.Connection.OnGetStoragePreference | src/sockets/socketManager.js:52-57 | emits the stored flag for the session's username to the requester only, or nothing when unbound |
| SocketManager.Connection.Dispatch | src/sockets/socketManager.js:28-57 | every inbound event runs its handler, with the effect of that event's transition; only join and disconnect change the room key order, as the room registry methods do; the registry stays valid |
| IndexServer.GetPrivateChatId | server/src/index.js:39-41 | the inline private pair id, defined by the shared helper; it has no contract of its own, and GetPrivateChatIdIsSortJoin states that it is the inline expression |
| IndexServer.GetPrivateChatIdIsSortJoin | server/src/index.js:39-41 | the inline private pair id is `[a, b].sort().join(':')`, the same as the shared helper's |
| IndexServer.GetPermanentChatId | server/src/index.js:44-46 | the inline permanent id, defined by the shared helper; it has no contract of its own, and GetPermanentChatIdIsSortSliceJoin states that it is the inline expression |
| IndexServer.GetPermanentChatIdIsSortSliceJoin | server/src/index.js:44-46 | the inline permanent id is `['permanent', u1, u2].sort().slice(1).join(':')`, the same as the shared helper's |
| IndexServer.InlineJoinIsAdded | server/src/index.js:79-82 | creating the room when absent and then adding the socket is the registry's `Added` |
| IndexServer.JoinStepIs | server/src/index.js:71-108 | given the registry after the inline add and the ten messages read, the join transition has exactly the inline handler's new state and four emits |
| IndexServer.Server.BindAndAdd | server/src/index.js:73-82 | binds the session to the username and room, and leaves the room registry as `Added`, so the room is created when absent |
| IndexServer.Server.constructor | server/src/index.js:35-36 | the module-level `users` and `rooms` maps start empty, beside the transport and the store |
| IndexServer.Server.OnSetStoragePreference | server/src/index.js:53-59 | the set-storage-preference transition |
| IndexServer.Server.OnGetStoragePreference | server/src/index.js:61-68 | the get-storage-preference transition |
| IndexServer.Server.OnJoin | server/src/index.js:71-108 | the join transition, with the history read inline as `LRANGE messages:<room> 0 9` reversed |
| IndexServer.Server.OnChatMessage | server/src/index.js:111-131 | the room-message transition, with the store written inline as LPUSH and `LTRIM 0 99` |
| IndexServer.Server.OnTyping | server/src/index.js:134-142 | the typing transition |
| IndexServer.Server.OnCallUser | server/src/index.js:145-157 | the call-user transition |
| IndexServer.Server.OnAnswerCall | server/src/index.js:159-165 | the answer-call transition |
| IndexServer.Server.OnEndCall | server/src/index.js:167-173 | the end-call transition |
| IndexServer.Server.OnRejectCall | server/src/index.js:175-181 | the reject-call transition |
| IndexServer.Server.OnPrivateMessage | server/src/index.js:184-224 | the private-message transition: the list is chosen by the sender's `'1'` flag and capped at 100 |
| IndexServer.Server.OnGetPrivateHistory | server/src/index.js:227-251 | the private-history transition: the requester's flag chooses the list, and at most 50 entries come back oldest first |
| IndexServer.Server.OnPrivateTyping | server/src/index.js:254-262 | the private-typing transition |
| IndexServer.Server.OnDisconnect | server/src/index.js:265-287 | the disconnect transition, with the room deleted inline when it empties |
| IndexServer.Server.OnEvent | server/src/index.js:49-288 | every inbound event has the same effect as in the modular server |

## Left out

- Transport and web server setup are not modelled: Socket.IO server construction, CORS, Express, the HTTP listener, environment variables and the store's client construction (`src/server.js`, `src/config/`). The transport's own room membership behind `socket.join` and `io.to` is left out too. Every emit is an outbox entry with a symbolic audience and is not resolved to recipients, so `socket.join(room)` has no counterpart in the model.
- The React client, including the audio-call component and its media APIs, is not part of this model.
- The external store is a map of lists plus one hash, with atomic commands. The model does not cover connection failures, rejected promises, or other handlers' commands interleaving between the awaits of one handler. Each handler is one atomic transition.
- `JSON.stringify` and `JSON.parse` are not modelled: messages are stored and returned as values. In JavaScript a stored timestamp comes back as a string, not a `Date`.
- `new Date()` is the `now` parameter. One value serves a whole handler, even where the source calls `new Date()` twice (the welcome and joined notices of join).
- `console.log` and `console.error` output is not modelled.
- RoomHandlers.RoomHandler.HandleJoin: models the intended call to the message history. As written, `RoomHandler` and `ChatHandler` call `MessageService` methods through an instance (src/sockets/handlers/roomHandler.js:9,22; src/sockets/handlers/chatHandler.js:9,23,42,70), but those methods are `static` (src/services/messageService.js:5,10,15,25). In JavaScript such a call throws a TypeError, so those handlers stop at the store call. The single-file server makes these calls inline and does not have the defect. The model follows it, for both copies.
- ChatHandlers.ChatHandler.HandleChatMessage, ChatHandlers.ChatHandler.HandlePrivateMessage and ChatHandlers.ChatHandler.HandlePrivateHistory: the same static-call defect; the model gives them the intended call.
- ChatUtils.Sort: orders strings by Unicode code point. JavaScript's default `sort()` compares UTF-16 code units. The two orders agree except when characters outside the Basic Multilingual Plane are compared with characters from U+E000 to U+FFFF.
- Room member sets are sequences without duplicates, which keeps JavaScript's `Set` insertion order. The key order of the room map is kept only in `Rooms.RoomService`, where `getUserRooms` iterates it. No handler iterates the other registries.
- The LRANGE and LTRIM models cover only non-negative indices, the only ones the source uses.
- Inbound payloads are assumed to have the shapes the handlers expect: every field is present and has its intended type (`Inbound` has fixed string, socket-id and boolean fields). The source does not check them, so the model loses three effects. A non-boolean `isPermanent` is stored by truthiness, so `{ isPermanent: "no" }` writes "1" (src/services/userService.js:21, server/src/index.js:58). A `join` without `room` binds the session to `undefined` and reads the list `messages:undefined` (src/sockets/handlers/roomHandler.js:12-22). A `chatMessage` stores and broadcasts any JSON value as its content, not only a string.
