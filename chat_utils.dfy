/**
 Pair keys that name a private conversation (src/utils/chatUtils.js).

 Both keys are built with JavaScript's default `Array.prototype.sort`, which
 orders strings lexicographically by character, a proper prefix first, and
 `Array.prototype.join(':')`.
 */
module ChatUtils {

  /** JavaScript's default string order: `a` sorts before or equal to `b`. */
  predicate Leq(a: string, b: string)
    decreases |a|
  {
    |a| == 0 || (|b| > 0 && (a[0] < b[0] || (a[0] == b[0] && Leq(a[1..], b[1..]))))
  }

  lemma {:induction false} LeqReflexive(a: string)
    ensures Leq(a, a)
    decreases |a|
  {
    if |a| > 0 { LeqReflexive(a[1..]); }
  }

  lemma {:induction false} LeqAntisymmetric(a: string, b: string)
    requires Leq(a, b) && Leq(b, a)
    ensures a == b
    decreases |a|
  {
    if |a| > 0 {
      LeqAntisymmetric(a[1..], b[1..]);
      assert a == [a[0]] + a[1..] && b == [b[0]] + b[1..];
    }
  }

  lemma {:induction false} LeqTransitive(a: string, b: string, c: string)
    requires Leq(a, b) && Leq(b, c)
    ensures Leq(a, c)
    decreases |a|
  {
    if |a| > 0 && a[0] == b[0] && b[0] == c[0] {
      LeqTransitive(a[1..], b[1..], c[1..]);
    }
  }

  lemma {:induction false} LeqTotal(a: string, b: string)
    ensures Leq(a, b) || Leq(b, a)
    decreases |a|
  {
    if |a| > 0 && |b| > 0 && a[0] == b[0] {
      LeqTotal(a[1..], b[1..]);
    }
  }

  ghost predicate Sorted(s: seq<string>)
  {
    forall i, j :: 0 <= i < j < |s| ==> Leq(s[i], s[j])
  }

  /** An element no greater than the head of a sorted sequence may go in front of it. */
  lemma InsertFront(x: string, s: seq<string>)
    requires Sorted(s) && |s| > 0 && Leq(x, s[0])
    ensures Sorted([x] + s)
  {
    forall j | 0 < j < |s| ensures Leq(x, s[j]) { LeqTransitive(x, s[0], s[j]); }
  }

  /** The head of a sorted sequence stays in front of the tail with a larger element inserted. */
  lemma InsertAfterHead(x: string, s: seq<string>, rest: seq<string>)
    requires Sorted(s) && |s| > 0 && !Leq(x, s[0])
    requires Sorted(rest) && multiset(rest) == multiset(s[1..]) + multiset{x}
    ensures Sorted([s[0]] + rest)
    ensures multiset([s[0]] + rest) == multiset(s) + multiset{x}
  {
    assert s == [s[0]] + s[1..];
    LeqTotal(x, s[0]);
    forall j | 0 <= j < |rest| ensures Leq(s[0], rest[j]) {
      assert rest[j] in multiset(rest);
      if rest[j] != x {
        assert rest[j] in multiset(s[1..]);
        var k :| 0 <= k < |s[1..]| && s[1..][k] == rest[j];
        assert s[k + 1] == rest[j];
      }
    }
  }

  /** Inserts `x` into the sorted `s` before the first element it does not follow. */
  function Insert(x: string, s: seq<string>): (r: seq<string>)
    requires Sorted(s)
    ensures Sorted(r)
    ensures multiset(r) == multiset(s) + multiset{x}
  {
    if |s| == 0 then [x]
    else if Leq(x, s[0]) then
      InsertFront(x, s);
      [x] + s
    else
      var rest := Insert(x, s[1..]);
      InsertAfterHead(x, s, rest);
      [s[0]] + rest
  }

  /** The sorted arrangement of `s` that `Array.prototype.sort()` produces. */
  function Sort(s: seq<string>): (r: seq<string>)
    ensures Sorted(r)
    ensures multiset(r) == multiset(s)
  {
    if |s| == 0 then []
    else
      assert s == [s[0]] + s[1..];
      Insert(s[0], Sort(s[1..]))
  }

  /** The head of a sorted sequence sorts before every element of it. */
  lemma HeadIsLeast(s: seq<string>, x: string)
    requires Sorted(s) && x in s
    ensures Leq(s[0], x)
  {
    var k :| 0 <= k < |s| && s[k] == x;
    if k == 0 { LeqReflexive(x); }
  }

  /** A sorted sequence is determined by its elements: any sort gives this result. */
  lemma {:induction false} SortedUnique(a: seq<string>, b: seq<string>)
    requires Sorted(a) && Sorted(b)
    requires multiset(a) == multiset(b)
    ensures a == b
    decreases |a|
  {
    assert |a| == |multiset(a)| == |multiset(b)| == |b|;
    if |a| > 0 {
      assert b[0] in multiset(a) && a[0] in multiset(b);
      HeadIsLeast(a, b[0]);
      HeadIsLeast(b, a[0]);
      LeqAntisymmetric(a[0], b[0]);
      assert a == [a[0]] + a[1..] && b == [b[0]] + b[1..];
      assert multiset(a[1..]) == multiset(b[1..]) by {
        assert multiset(a) == multiset{a[0]} + multiset(a[1..]);
        assert multiset(b) == multiset{a[0]} + multiset(b[1..]);
        forall x ensures multiset(a[1..])[x] == multiset(b[1..])[x] {
          assert multiset(a)[x] == multiset{a[0]}[x] + multiset(a[1..])[x];
          assert multiset(b)[x] == multiset{a[0]}[x] + multiset(b[1..])[x];
        }
      }
      SortedUnique(a[1..], b[1..]);
    }
  }

  /** Any sorted arrangement of the elements of `s` is what `Sort(s)` returns. */
  lemma SortIs(s: seq<string>, t: seq<string>)
    requires Sorted(t) && multiset(t) == multiset(s)
    ensures Sort(s) == t
  {
    SortedUnique(Sort(s), t);
  }

  /** `Array.prototype.join(sep)`. */
  function Join(parts: seq<string>, sep: string): string
  {
    if |parts| == 0 then ""
    else if |parts| == 1 then parts[0]
    else parts[0] + sep + Join(parts[1..], sep)
  }

  /**
   `getPrivateChatId`: the smaller id, then ':', then the larger id.
   PrivateChatIdIsSortJoin shows this is `[user1Id, user2Id].sort().join(':')`.
   */
  function PrivateChatId(user1Id: string, user2Id: string): string
  {
    if Leq(user1Id, user2Id) then user1Id + ":" + user2Id else user2Id + ":" + user1Id
  }

  lemma PrivateChatIdIsSortJoin(user1Id: string, user2Id: string)
    ensures PrivateChatId(user1Id, user2Id) == Join(Sort([user1Id, user2Id]), ":")
  {
  }

  lemma PrivateChatIdSymmetric(a: string, b: string)
    ensures PrivateChatId(a, b) == PrivateChatId(b, a)
  {
    LeqTotal(a, b);
    if Leq(a, b) && Leq(b, a) { LeqAntisymmetric(a, b); }
  }

  /** The namespace token sorted together with the two usernames. */
  const Permanent := "permanent"

  /** `[token, u1, u2].sort().slice(1).join(':')`. */
  function DropSmallestJoin(token: string, u1: string, u2: string): string
  {
    Join(Sort([token, u1, u2])[1..], ":")
  }

  lemma SortedTriple(x: string, y: string, z: string)
    requires Leq(x, y) && Leq(y, z)
    ensures Sorted([x, y, z])
  {
    LeqTransitive(x, y, z);
  }

  lemma JoinTail(t: seq<string>)
    requires |t| == 3
    ensures Join(t[1..], ":") == t[1] + ":" + t[2]
  {
  }

  /** For every sorted arrangement `x <= y <= z` of the three strings, the result is `y:z`. */
  lemma DropSmallestJoinTopTwo(token: string, u1: string, u2: string, x: string, y: string, z: string)
    requires multiset{x, y, z} == multiset{token, u1, u2}
    requires Leq(x, y) && Leq(y, z)
    ensures DropSmallestJoin(token, u1, u2) == y + ":" + z
  {
    SortedTriple(x, y, z);
    assert multiset([x, y, z]) == multiset([token, u1, u2]);
    SortIs([token, u1, u2], [x, y, z]);
    JoinTail([x, y, z]);
  }

  /**
   `getPermanentChatId`: of "permanent", `username1` and `username2`, the
   smallest is dropped and the other two are joined in order.
   PermanentChatIdIsSortJoin shows this is
   `['permanent', username1, username2].sort().slice(1).join(':')`.
   */
  function PermanentChatId(username1: string, username2: string): string
  {
    if Leq(Permanent, username1) && Leq(Permanent, username2) then PrivateChatId(username1, username2)
    else if Leq(username1, username2) then PrivateChatId(Permanent, username2)
    else PrivateChatId(Permanent, username1)
  }

  lemma PermanentChatIdIsSortJoin(u1: string, u2: string)
    ensures PermanentChatId(u1, u2) == DropSmallestJoin(Permanent, u1, u2)
  {
    var p := Permanent;
    LeqTotal(p, u1);
    LeqTotal(p, u2);
    LeqTotal(u1, u2);
    if Leq(p, u1) && Leq(p, u2) {
      if Leq(u1, u2) {
        DropSmallestJoinTopTwo(p, u1, u2, p, u1, u2);
      } else {
        DropSmallestJoinTopTwo(p, u1, u2, p, u2, u1);
      }
    } else if Leq(u1, u2) {
      if !Leq(u1, p) { LeqTransitive(p, u1, u2); }
      if Leq(p, u2) {
        DropSmallestJoinTopTwo(p, u1, u2, u1, p, u2);
      } else {
        DropSmallestJoinTopTwo(p, u1, u2, u1, u2, p);
      }
    } else {
      if !Leq(u2, p) { LeqTransitive(p, u2, u1); }
      if Leq(p, u1) {
        DropSmallestJoinTopTwo(p, u1, u2, u2, p, u1);
      } else {
        DropSmallestJoinTopTwo(p, u1, u2, u2, u1, p);
      }
    }
  }

  /**
   The permanent key is the two largest of {"permanent", u1, u2}, in order:
   for every sorted arrangement `x <= y <= z` of the three, the key is `y:z`.
   */
  lemma PermanentChatIdTopTwo(u1: string, u2: string, x: string, y: string, z: string)
    requires multiset{x, y, z} == multiset{Permanent, u1, u2}
    requires Leq(x, y) && Leq(y, z)
    ensures PermanentChatId(u1, u2) == y + ":" + z
  {
    PermanentChatIdIsSortJoin(u1, u2);
    DropSmallestJoinTopTwo(Permanent, u1, u2, x, y, z);
  }

  lemma PermanentChatIdSymmetric(u1: string, u2: string)
    ensures PermanentChatId(u1, u2) == PermanentChatId(u2, u1)
  {
    var p := Permanent;
    LeqTotal(u1, u2);
    if Leq(u1, u2) && Leq(u2, u1) { LeqAntisymmetric(u1, u2); }
    if Leq(p, u1) && Leq(p, u2) {
      PrivateChatIdSymmetric(u1, u2);
    } else if Leq(u1, u2) {
      if Leq(p, u1) { LeqTransitive(p, u1, u2); }
    } else {
      if Leq(p, u2) { LeqTransitive(p, u2, u1); }
    }
  }

  /** When both usernames sort after "permanent", no namespace token appears in the key. */
  lemma PermanentChatIdBothAfter(u1: string, u2: string)
    requires Leq(Permanent, u1) && Leq(Permanent, u2)
    ensures PermanentChatId(u1, u2) == PrivateChatId(u1, u2)
  {
  }

  /** When `u1` is the smallest of the three, it is the one dropped. */
  lemma PermanentChatIdDropsSmallest(u1: string, u2: string)
    requires Leq(u1, Permanent) && Leq(u1, u2)
    ensures PermanentChatId(u1, u2) == PrivateChatId(Permanent, u2)
  {
    if Leq(Permanent, u1) { LeqAntisymmetric(u1, Permanent); }
  }

  /** The smallest argument does not influence the key. */
  lemma PermanentChatIdIgnoresSmallest(a: string, b: string, u2: string)
    requires Leq(a, Permanent) && Leq(a, u2)
    requires Leq(b, Permanent) && Leq(b, u2)
    ensures PermanentChatId(a, u2) == PermanentChatId(b, u2)
  {
    PermanentChatIdDropsSmallest(a, u2);
    PermanentChatIdDropsSmallest(b, u2);
  }

  /** Two different username pairs share one permanent key: ("alice", "zoe") and ("bob", "zoe"). */
  lemma PermanentChatIdCollision()
    ensures PermanentChatId("alice", "zoe") == PermanentChatId("bob", "zoe") == "permanent:zoe"
  {
    PermanentChatIdIgnoresSmallest("alice", "bob", "zoe");
  }
}
