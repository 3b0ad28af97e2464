/**
 The external key-value store, reduced to the commands the relay uses:
 LPUSH, LTRIM and LRANGE on lists of messages, HSET and HGET on the one
 hash `storage_preferences`. Each command is atomic; connection failures
 and the interleaving of commands from concurrent handlers are not modelled.
 */
module KeyValueStore {
  import opened Protocol

  type Lists = map<string, seq<Message>>

  function Min(a: int, b: int): int
  {
    if a <= b then a else b
  }

  /** A missing key reads as the empty list. */
  function ListAt(lists: Lists, key: string): seq<Message>
  {
    if key in lists then lists[key] else []
  }

  /** LRANGE for non-negative indices: `stop` is inclusive and clamped to the list. */
  function Range(l: seq<Message>, start: nat, stop: nat): (r: seq<Message>)
    ensures |r| == if start <= stop && start < |l| then Min(stop + 1, |l|) - start else 0
    ensures forall i :: 0 <= i < |r| ==> r[i] == l[start + i]
  {
    if start <= stop && start < |l| then l[start..Min(stop + 1, |l|)] else []
  }

  /** LTRIM for non-negative indices: keeps the range, and deletes the key when it is left empty. */
  function Trimmed(lists: Lists, key: string, start: nat, stop: nat): (r: Lists)
    ensures ListAt(r, key) == Range(ListAt(lists, key), start, stop)
    ensures key in r ==> |r[key]| > 0
    ensures forall k :: k != key ==> (k in r <==> k in lists)
    ensures forall k :: k != key && k in r ==> r[k] == lists[k]
  {
    if key !in lists then lists
    else
      var kept := Range(lists[key], start, stop);
      if |kept| == 0 then lists - {key} else lists[key := kept]
  }

  class Store {
    var lists: Lists
    /** The hash `storage_preferences`: username to "1" or "0". */
    var prefs: map<Username, string>

    constructor ()
      ensures lists == map[] && prefs == map[]
    {
      lists := map[];
      prefs := map[];
    }

    /** LPUSH key value: the value becomes the head of the list. */
    method LPush(key: string, value: Message)
      modifies this
      ensures lists == old(lists)[key := [value] + ListAt(old(lists), key)]
      ensures prefs == old(prefs)
    {
      lists := lists[key := [value] + ListAt(lists, key)];
    }

    /** LTRIM key start stop. */
    method LTrim(key: string, start: nat, stop: nat)
      modifies this
      ensures lists == Trimmed(old(lists), key, start, stop)
      ensures prefs == old(prefs)
    {
      lists := Trimmed(lists, key, start, stop);
    }

    /** LRANGE key start stop. */
    function LRange(key: string, start: nat, stop: nat): seq<Message>
      reads this
    {
      Range(ListAt(lists, key), start, stop)
    }

    /** HSET storage_preferences field value. */
    method HSet(field: Username, value: string)
      modifies this
      ensures prefs == old(prefs)[field := value]
      ensures lists == old(lists)
    {
      prefs := prefs[field := value];
    }

    /** HGET storage_preferences field: absent when the field was never set. */
    function HGet(field: Username): (r: Option<string>)
      reads this
      ensures r.Some? <==> field in prefs
      ensures r.Some? ==> r.value == prefs[field]
    {
      if field in prefs then Some(prefs[field]) else None
    }
  }
}
