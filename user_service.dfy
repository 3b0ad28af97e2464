/**
 The session registry and the storage preference (src/services/userService.js):
 a map from socket id to `{ username, room }`, and a per-username flag kept
 as "1" or "0" in the store's hash `storage_preferences`.
 */
module Users {
  import opened Protocol
  import opened KeyValueStore

  type Sessions = map<SocketId, UserData>
  type Preferences = map<Username, string>

  /** The value written for a flag: `isPermanent ? '1' : '0'`. */
  function PrefFlag(isPermanent: bool): (v: string)
    ensures v == "1" <==> isPermanent
    ensures v == "0" <==> !isPermanent
  {
    if isPermanent then "1" else "0"
  }

  /** `preference === '1'`: an absent or any other value reads as false. */
  predicate IsPermanent(prefs: Preferences, username: Username)
  {
    username in prefs && prefs[username] == "1"
  }

  /** A flag written for a username reads back unchanged, and no other username's flag moves. */
  lemma PreferenceRoundTrip(prefs: Preferences, username: Username, isPermanent: bool, other: Username)
    ensures IsPermanent(prefs[username := PrefFlag(isPermanent)], username) == isPermanent
    ensures other != username ==>
      IsPermanent(prefs[username := PrefFlag(isPermanent)], other) == IsPermanent(prefs, other)
  {
  }

  /** A username that never set a preference is on the ephemeral list. */
  lemma AbsentIsEphemeral(prefs: Preferences, username: Username)
    requires username !in prefs
    ensures !IsPermanent(prefs, username)
  {
  }

  class UserService {
    var users: Sessions

    constructor ()
      ensures users == map[]
    {
      users := map[];
    }

    /** Binds the socket, replacing any earlier binding. */
    method AddUser(socketId: SocketId, userData: UserData)
      modifies this
      ensures users == old(users)[socketId := userData]
    {
      users := users[socketId := userData];
    }

    method RemoveUser(socketId: SocketId)
      modifies this
      ensures users == old(users) - {socketId}
    {
      users := users - {socketId};
    }

    function GetUser(socketId: SocketId): (user: Option<UserData>)
      reads this
      ensures user.Some? <==> socketId in users
      ensures user.Some? ==> user.value == users[socketId]
    {
      if socketId in users then Some(users[socketId]) else None
    }

    method SetStoragePreference(store: Store, username: Username, isPermanent: bool)
      modifies store
      ensures store.prefs == old(store.prefs)[username := PrefFlag(isPermanent)]
      ensures store.lists == old(store.lists)
    {
      store.HSet(username, if isPermanent then "1" else "0");
    }

    method GetStoragePreference(store: Store, username: Username) returns (isPermanent: bool)
      ensures isPermanent <==> username in store.prefs && store.prefs[username] == "1"
    {
      var preference := store.HGet(username);
      isPermanent := preference == Some("1");
    }
  }
}
