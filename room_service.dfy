/**
 The room registry (src/services/roomService.js): a map from room id to the
 set of member socket ids. JavaScript `Map` and `Set` iterate in insertion
 order, so a member set is a sequence without duplicates and the registry
 keeps the order in which its room keys were inserted.
 */
module Rooms {
  import opened Protocol

  type Registry = map<RoomId, seq<SocketId>>

  predicate NoDups<T(==)>(s: seq<T>)
  {
    forall i, j :: 0 <= i < j < |s| ==> s[i] != s[j]
  }

  /** No room maps to an empty member set, and no member is listed twice. */
  ghost predicate RoomsValid(rooms: Registry)
  {
    forall r :: r in rooms ==> |rooms[r]| > 0 && NoDups(rooms[r])
  }

  /** `Array.from(rooms.get(r) || [])`. */
  function MembersOf(rooms: Registry, r: RoomId): seq<SocketId>
  {
    if r in rooms then rooms[r] else []
  }

  /** `Set.add`: a new element goes to the end, an existing one stays where it is. */
  function AddMember<T(==, !new)>(s: seq<T>, x: T): (r: seq<T>)
    ensures forall y :: y in r <==> y in s || y == x
    ensures NoDups(s) ==> NoDups(r)
    ensures x in s ==> r == s
    ensures |r| > 0
  {
    if x in s then s else s + [x]
  }

  /** `Set.delete`: the remaining elements keep their order. */
  function Without<T(==, !new)>(s: seq<T>, x: T): (r: seq<T>)
    ensures forall y :: y in r <==> y in s && y != x
    ensures NoDups(s) ==> NoDups(r)
    ensures x !in s ==> r == s
    ensures |r| <= |s|
  {
    if |s| == 0 then []
    else
      var init, last := s[..|s| - 1], s[|s| - 1];
      assert NoDups(s) ==> NoDups(init) && last !in init;
      if last == x then Without(init, x) else Without(init, x) + [last]
  }

  /** The registry after `addUserToRoom(r, id)`. */
  function Added(rooms: Registry, r: RoomId, id: SocketId): (result: Registry)
    ensures r in result && id in result[r]
    ensures forall m :: m in result[r] <==> m in MembersOf(rooms, r) || m == id
    ensures forall q :: q != r ==> (q in result <==> q in rooms)
    ensures forall q :: q != r && q in result ==> result[q] == rooms[q]
    ensures RoomsValid(rooms) ==> RoomsValid(result)
  {
    rooms[r := AddMember(MembersOf(rooms, r), id)]
  }

  /** The registry after `removeUserFromRoom(r, id)`: a room left empty is deleted. */
  function Removed(rooms: Registry, r: RoomId, id: SocketId): (result: Registry)
    ensures forall m :: m in MembersOf(result, r) <==> m in MembersOf(rooms, r) && m != id
    ensures r in result ==> |result[r]| > 0
    ensures forall q :: q != r ==> (q in result <==> q in rooms)
    ensures forall q :: q != r && q in result ==> result[q] == rooms[q]
    ensures RoomsValid(rooms) ==> RoomsValid(result)
  {
    if r !in rooms then rooms
    else
      var left := Without(rooms[r], id);
      if |left| == 0 then rooms - {r} else rooms[r := left]
  }

  /** The rooms among `keys` whose member set holds `id`, in the order of `keys`. */
  function Containing(keys: seq<RoomId>, rooms: Registry, id: SocketId): seq<RoomId>
  {
    if |keys| == 0 then []
    else
      var front := Containing(keys[..|keys| - 1], rooms, id);
      var last := keys[|keys| - 1];
      if last in rooms && id in rooms[last] then front + [last] else front
  }

  lemma {:induction false} ContainingIff(keys: seq<RoomId>, rooms: Registry, id: SocketId)
    ensures forall r :: r in Containing(keys, rooms, id) <==> r in keys && r in rooms && id in rooms[r]
    ensures NoDups(keys) ==> NoDups(Containing(keys, rooms, id))
  {
    if |keys| > 0 {
      var front := keys[..|keys| - 1];
      ContainingIff(front, rooms, id);
      assert keys == front + [keys[|keys| - 1]];
    }
  }

  /** Adding a socket that is already a member changes nothing. */
  lemma AddIdempotent(rooms: Registry, r: RoomId, id: SocketId)
    requires id in MembersOf(rooms, r)
    ensures Added(rooms, r, id) == rooms
  {
  }

  /** Removing the last member deletes the room, which then reads as empty. */
  lemma RemoveLastDeletesRoom(rooms: Registry, r: RoomId, id: SocketId)
    requires MembersOf(rooms, r) == [id]
    ensures r !in Removed(rooms, r, id)
    ensures MembersOf(Removed(rooms, r, id), r) == []
  {
  }

  /** Removing from a room that does not exist changes nothing. */
  lemma RemoveFromUnknownRoom(rooms: Registry, r: RoomId, id: SocketId)
    requires r !in rooms
    ensures Removed(rooms, r, id) == rooms
  {
  }

  class RoomService {
    var rooms: Registry
    /** The room keys in the order the map iterates them. */
    var order: seq<RoomId>

    ghost predicate Valid()
      reads this
    {
      RoomsValid(rooms) && NoDups(order) && (forall r :: r in order <==> r in rooms)
    }

    constructor ()
      ensures Valid() && rooms == map[] && order == []
    {
      rooms := map[];
      order := [];
    }

    method AddUserToRoom(roomId: RoomId, socketId: SocketId)
      requires Valid()
      modifies this
      ensures Valid()
      ensures rooms == Added(old(rooms), roomId, socketId)
      ensures order == if roomId in old(rooms) then old(order) else old(order) + [roomId]
    {
      if roomId !in rooms {
        rooms := rooms[roomId := []];
        order := order + [roomId];
      }
      rooms := rooms[roomId := AddMember(rooms[roomId], socketId)];
    }

    method RemoveUserFromRoom(roomId: RoomId, socketId: SocketId)
      requires Valid()
      modifies this
      ensures Valid()
      ensures rooms == Removed(old(rooms), roomId, socketId)
      ensures order == if roomId in rooms then old(order) else Without(old(order), roomId)
    {
      if roomId in rooms {
        var room := Without(rooms[roomId], socketId);
        rooms := rooms[roomId := room];
        if |room| == 0 {
          rooms := rooms - {roomId};
          order := Without(order, roomId);
        }
      }
    }

    function GetRoomUsers(roomId: RoomId): (users: seq<SocketId>)
      reads this
      ensures roomId !in rooms ==> users == []
      ensures forall id :: id in users <==> roomId in rooms && id in rooms[roomId]
    {
      MembersOf(rooms, roomId)
    }

    /** The rooms whose member set holds `socketId`, in map iteration order. */
    method GetUserRooms(socketId: SocketId) returns (userRooms: seq<RoomId>)
      requires Valid()
      ensures forall r :: r in userRooms <==> r in rooms && socketId in rooms[r]
      ensures NoDups(userRooms)
      ensures userRooms == Containing(order, rooms, socketId)
    {
      userRooms := [];
      var i := 0;
      while i < |order|
        invariant 0 <= i <= |order|
        invariant userRooms == Containing(order[..i], rooms, socketId)
      {
        var roomId := order[i];
        assert order[..i + 1][..i] == order[..i];
        if socketId in rooms[roomId] {
          userRooms := userRooms + [roomId];
        }
        i := i + 1;
      }
      assert order[..i] == order;
      ContainingIff(order, rooms, socketId);
    }
  }
}
