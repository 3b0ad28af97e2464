/**
 Message persistence (src/services/messageService.js): capped lists in the
 key-value store, newest first, read back oldest first.
 */
module MessageService {
  import opened Protocol
  import opened KeyValueStore
  import ChatUtils

  /** `LTRIM key 0 99` keeps this many entries. */
  const MaxStored: nat := 100
  /** `LRANGE messages:<room> 0 9`. */
  const RoomHistoryLength: nat := 10
  /** `LRANGE <private key> 0 49`. */
  const PrivateHistoryLength: nat := 50

  /** One side of a private conversation: `{ id, username }`. */
  datatype Party = Party(id: SocketId, username: Username)

  function RoomKey(room: RoomId): string
  {
    "messages:" + room
  }

  /**
   The list a private message goes to: `permanent_chat:` and the permanent id
   of the two usernames, or `temp_chat:` and the private id of the two socket ids.
   */
  function PrivateKey(isPermanent: bool, a: Party, b: Party): string
  {
    if isPermanent then "permanent_chat:" + ChatUtils.PermanentChatId(a.username, b.username)
    else "temp_chat:" + ChatUtils.PrivateChatId(a.id, b.id)
  }

  function Reverse(s: seq<Message>): (r: seq<Message>)
    ensures |r| == |s|
    ensures forall i :: 0 <= i < |s| ==> r[i] == s[|s| - 1 - i]
  {
    if |s| == 0 then [] else [s[|s| - 1]] + Reverse(s[..|s| - 1])
  }

  /** A list after `LPUSH key m` then `LTRIM key 0 99`: `m` in front, the oldest entries beyond 100 evicted. */
  function PushCapped(l: seq<Message>, m: Message): (r: seq<Message>)
    ensures |r| == Min(|l| + 1, MaxStored)
    ensures r[0] == m
    ensures r[1..] == l[..|r| - 1]
  {
    var r := [m] + l[..Min(|l|, MaxStored - 1)];
    assert r[1..] == l[..Min(|l|, MaxStored - 1)];
    r
  }

  /** The lists after `LPUSH key m` then `LTRIM key 0 99`. */
  function Pushed(lists: Lists, key: string, m: Message): (r: Lists)
    ensures key in r && r[key] == PushCapped(ListAt(lists, key), m)
    ensures forall k :: k != key ==> (k in r <==> k in lists)
    ensures forall k :: k != key && k in r ==> r[k] == lists[k]
  {
    var old_ := ListAt(lists, key);
    var r := Trimmed(lists[key := [m] + old_], key, 0, MaxStored - 1);
    assert ListAt(r, key) == ([m] + old_)[..Min(|old_| + 1, MaxStored)];
    r
  }

  /** `storeMessage(room, messageData)`. */
  method StoreMessage(store: Store, room: RoomId, messageData: Message)
    modifies store
    ensures store.lists == Pushed(old(store.lists), RoomKey(room), messageData)
    ensures store.prefs == old(store.prefs)
  {
    store.LPush(RoomKey(room), messageData);
    store.LTrim(RoomKey(room), 0, MaxStored - 1);
  }

  /** `getMessageHistory(room)`: the newest ten entries, oldest first. */
  function GetMessageHistory(lists: Lists, room: RoomId): (h: seq<Message>)
    ensures |h| == Min(|ListAt(lists, RoomKey(room))|, RoomHistoryLength)
    ensures forall i :: 0 <= i < |h| ==> h[i] == ListAt(lists, RoomKey(room))[|h| - 1 - i]
  {
    Reverse(Range(ListAt(lists, RoomKey(room)), 0, RoomHistoryLength - 1))
  }

  /** `storePrivateMessage(sender, receiver, messageData, isPermanent)`. */
  method StorePrivateMessage(store: Store, sender: Party, receiver: Party, messageData: Message, isPermanent: bool)
    modifies store
    ensures store.lists == Pushed(old(store.lists), PrivateKey(isPermanent, sender, receiver), messageData)
    ensures store.prefs == old(store.prefs)
  {
    var chatId := if isPermanent then ChatUtils.PermanentChatId(sender.username, receiver.username)
                  else ChatUtils.PrivateChatId(sender.id, receiver.id);
    var prefix := if isPermanent then "permanent_chat" else "temp_chat";
    assert prefix + ":" + chatId == PrivateKey(isPermanent, sender, receiver);
    store.LPush(prefix + ":" + chatId, messageData);
    store.LTrim(prefix + ":" + chatId, 0, MaxStored - 1);
  }

  /** `getPrivateMessageHistory(user1, user2, isPermanent)`: the newest fifty entries, oldest first. */
  function GetPrivateMessageHistory(lists: Lists, user1: Party, user2: Party, isPermanent: bool): (h: seq<Message>)
    ensures |h| == Min(|ListAt(lists, PrivateKey(isPermanent, user1, user2))|, PrivateHistoryLength)
    ensures forall i :: 0 <= i < |h| ==> h[i] == ListAt(lists, PrivateKey(isPermanent, user1, user2))[|h| - 1 - i]
  {
    Reverse(Range(ListAt(lists, PrivateKey(isPermanent, user1, user2)), 0, PrivateHistoryLength - 1))
  }

  /** Either party can name the conversation: the key does not depend on argument order. */
  lemma PrivateKeySymmetric(isPermanent: bool, a: Party, b: Party)
    ensures PrivateKey(isPermanent, a, b) == PrivateKey(isPermanent, b, a)
  {
    ChatUtils.PrivateChatIdSymmetric(a.id, b.id);
    ChatUtils.PermanentChatIdSymmetric(a.username, b.username);
  }

  lemma PrivateHistorySymmetric(lists: Lists, a: Party, b: Party, isPermanent: bool)
    ensures GetPrivateMessageHistory(lists, a, b, isPermanent) == GetPrivateMessageHistory(lists, b, a, isPermanent)
  {
    PrivateKeySymmetric(isPermanent, a, b);
  }

  /** The three keyspaces `messages:`, `temp_chat:` and `permanent_chat:` never share a key. */
  lemma KeyspacesDisjoint(room: RoomId, a: Party, b: Party, c: Party, d: Party)
    ensures RoomKey(room) != PrivateKey(false, a, b)
    ensures RoomKey(room) != PrivateKey(true, a, b)
    ensures PrivateKey(false, a, b) != PrivateKey(true, c, d)
  {
    assert RoomKey(room)[0] == 'm';
    assert PrivateKey(false, a, b)[0] == 't';
    assert PrivateKey(true, c, d)[0] == 'p';
    assert PrivateKey(true, a, b)[0] == 'p';
  }

  /** A private message stored under one flag leaves every list of the other flag, and every room list, as it was. */
  lemma StoreUnderOneFlagKeepsOthers(lists: Lists, isPermanent: bool, a: Party, b: Party, c: Party, d: Party, room: RoomId, m: Message)
    ensures ListAt(Pushed(lists, PrivateKey(isPermanent, a, b), m), PrivateKey(!isPermanent, c, d))
         == ListAt(lists, PrivateKey(!isPermanent, c, d))
    ensures ListAt(Pushed(lists, PrivateKey(isPermanent, a, b), m), RoomKey(room)) == ListAt(lists, RoomKey(room))
  {
    KeyspacesDisjoint(room, a, b, c, d);
    KeyspacesDisjoint(room, c, d, a, b);
  }

  /** A list after pushing `ms`, in order. */
  function PushAll(l: seq<Message>, ms: seq<Message>): seq<Message>
  {
    if |ms| == 0 then l else PushCapped(PushAll(l, ms[..|ms| - 1]), ms[|ms| - 1])
  }

  /** The lists after storing `ms`, in order, under one key. */
  function StoreAll(lists: Lists, key: string, ms: seq<Message>): Lists
  {
    if |ms| == 0 then lists
    else Pushed(StoreAll(lists, key, ms[..|ms| - 1]), key, ms[|ms| - 1])
  }

  lemma {:induction false} StoreAllAt(lists: Lists, key: string, ms: seq<Message>)
    ensures ListAt(StoreAll(lists, key, ms), key) == PushAll(ListAt(lists, key), ms)
  {
    if |ms| > 0 { StoreAllAt(lists, key, ms[..|ms| - 1]); }
  }

  /** Pushing onto a prefix of `x` is taking a prefix of `[m] + x`. */
  lemma PushPrefix(m: Message, x: seq<Message>, n: nat)
    requires n <= |x|
    ensures PushCapped(x[..n], m) == ([m] + x)[..Min(n + 1, MaxStored)]
  {
  }

  /** After N pushes the list holds the newest entries first, capped at 100: older entries are evicted. */
  lemma {:induction false} PushAllList(l: seq<Message>, ms: seq<Message>)
    requires |l| <= MaxStored
    ensures PushAll(l, ms) == (Reverse(ms) + l)[..Min(MaxStored, |ms| + |l|)]
  {
    if |ms| == 0 {
      assert Reverse(ms) + l == l;
    } else {
      var front := ms[..|ms| - 1];
      var m := ms[|ms| - 1];
      PushAllList(l, front);
      var x := Reverse(front) + l;
      PushPrefix(m, x, Min(MaxStored, |front| + |l|));
      assert Reverse(ms) + l == [m] + x by {
        assert Reverse(ms) == [m] + Reverse(front);
      }
    }
  }

  /** After N stores into an empty room, its history is the last min(N, 10) messages in the order they were stored. */
  lemma HistoryAfterStores(lists: Lists, room: RoomId, ms: seq<Message>)
    requires RoomKey(room) !in lists
    ensures GetMessageHistory(StoreAll(lists, RoomKey(room), ms), room) == ms[|ms| - Min(|ms|, RoomHistoryLength)..]
  {
    var key := RoomKey(room);
    StoreAllAt(lists, key, ms);
    PushAllList([], ms);
    var l := ListAt(StoreAll(lists, key, ms), key);
    assert ListAt(lists, key) == [];
    assert Reverse(ms) + [] == Reverse(ms);
    var h := GetMessageHistory(StoreAll(lists, key, ms), room);
    var want := ms[|ms| - Min(|ms|, RoomHistoryLength)..];
    assert |h| == |want|;
    forall i | 0 <= i < |h| ensures h[i] == want[i] {
      assert h[i] == l[|h| - 1 - i];
      assert l[|h| - 1 - i] == Reverse(ms)[|h| - 1 - i];
    }
  }
}
