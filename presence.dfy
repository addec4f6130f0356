/**
 * Who is online: the `onlineUsers` Map from socket id to username, kept as a
 * sequence of connections in the Map's insertion order, and the list of
 * distinct usernames built from its values with `Array.from(new Set(...))`.
 */
module Presence {
  import opened Wrappers

  type SocketId = string

  datatype Connection = Connection(socket: SocketId, username: string)

  /** No socket id occurs twice: the sequence is a Map. */
  predicate KeysUnique(c: seq<Connection>) {
    forall i, j :: 0 <= i < j < |c| ==> c[i].socket != c[j].socket
  }

  /** The position of `socket` in the Map, or None when it has no entry. */
  function SocketIndex(c: seq<Connection>, socket: SocketId): (r: Option<nat>)
    ensures r.Some? ==> r.value < |c| && c[r.value].socket == socket
    ensures r.Some? ==> forall j :: 0 <= j < r.value ==> c[j].socket != socket
    ensures r.None? <==> forall j :: 0 <= j < |c| ==> c[j].socket != socket
  {
    if c == [] then None
    else if c[0].socket == socket then Some(0)
    else match SocketIndex(c[1..], socket)
      case Some(k) => Some(k + 1)
      case None => None
  }

  /** `onlineUsers.get(socket)`. */
  function Lookup(c: seq<Connection>, socket: SocketId): (r: Option<string>)
    ensures r.None? <==> forall i :: 0 <= i < |c| ==> c[i].socket != socket
    ensures r.Some? ==> exists i :: 0 <= i < |c| && c[i] == Connection(socket, r.value)
  {
    match SocketIndex(c, socket)
    case Some(i) => Some(c[i].username)
    case None => None
  }

  /**
   * `onlineUsers.set(socket, username)`: a known socket keeps its place and
   * takes the new username, an unknown one is added at the end.
   */
  function Set(c: seq<Connection>, socket: SocketId, username: string): (r: seq<Connection>)
    ensures Lookup(c, socket).Some? ==> |r| == |c| && forall i :: 0 <= i < |c| ==> r[i].socket == c[i].socket
    ensures Lookup(c, socket).None? ==> r == c + [Connection(socket, username)]
  {
    match SocketIndex(c, socket)
    case Some(i) => c[i := Connection(socket, username)]
    case None => c + [Connection(socket, username)]
  }

  /** Two tables with the same sockets in the same places find every socket at the same place. */
  lemma SameSocketsSameIndex(c: seq<Connection>, r: seq<Connection>, socket: SocketId)
    requires |r| == |c| && forall i :: 0 <= i < |c| ==> r[i].socket == c[i].socket
    ensures SocketIndex(r, socket) == SocketIndex(c, socket)
  {
    match SocketIndex(c, socket)
    case Some(i) =>
      assert r[i].socket == socket;
      assert SocketIndex(r, socket).Some?;
      var k := SocketIndex(r, socket).value;
      assert c[k].socket == socket;
      assert k == i;
    case None =>
      assert forall j :: 0 <= j < |r| ==> r[j].socket != socket;
      assert SocketIndex(r, socket).None?;
  }

  /** After a set, the socket maps to the new username and every other socket to what it did. */
  lemma SetThenLookup(c: seq<Connection>, socket: SocketId, username: string)
    ensures Lookup(Set(c, socket, username), socket) == Some(username)
    ensures forall other :: other != socket ==> Lookup(Set(c, socket, username), other) == Lookup(c, other)
  {
    var r := Set(c, socket, username);
    match SocketIndex(c, socket)
    case Some(i) =>
      SameSocketsSameIndex(c, r, socket);
      forall other | other != socket ensures Lookup(r, other) == Lookup(c, other) {
        SameSocketsSameIndex(c, r, other);
      }
    case None =>
      assert r[|c|] == Connection(socket, username);
      forall other | other != socket ensures Lookup(r, other) == Lookup(c, other) {
        assert forall j :: 0 <= j < |c| ==> r[j] == c[j];
      }
  }

  /** Setting a socket's username keeps the socket ids unique. */
  lemma SetKeepsKeysUnique(c: seq<Connection>, socket: SocketId, username: string)
    ensures KeysUnique(c) ==> KeysUnique(Set(c, socket, username))
  {
  }

  /** `onlineUsers.delete(socket)`. */
  function Delete(c: seq<Connection>, socket: SocketId): (r: seq<Connection>)
    ensures forall i :: 0 <= i < |r| ==> r[i].socket != socket && r[i] in c
    ensures KeysUnique(c) ==> KeysUnique(r)
  {
    if c == [] then []
    else if c[0].socket == socket then Delete(c[1..], socket)
    else [c[0]] + Delete(c[1..], socket)
  }

  /** `Delete` on a table with first entry `x`. */
  lemma DeleteCons(x: Connection, t: seq<Connection>, socket: SocketId)
    ensures Delete([x] + t, socket) == if x.socket == socket then Delete(t, socket) else [x] + Delete(t, socket)
  {
    assert ([x] + t)[1..] == t;
  }

  /** Deleting a socket that has no entry leaves the Map as it is. */
  lemma {:induction false} DeleteAbsent(c: seq<Connection>, socket: SocketId)
    requires SocketIndex(c, socket).None?
    ensures Delete(c, socket) == c
  {
    if c != [] {
      var x, t := c[0], c[1..];
      assert c == [x] + t;
      DeleteCons(x, t, socket);
      DeleteAbsent(t, socket);
    }
  }

  /** Putting `x` back in front of a sequence with position `k` cut out. */
  lemma SpliceCons(x: Connection, t: seq<Connection>, k: nat)
    requires k < |t|
    ensures [x] + (t[..k] + t[k + 1..]) == ([x] + t)[..k + 1] + ([x] + t)[k + 2..]
  {
    assert ([x] + t)[..k + 1] == [x] + t[..k];
    assert ([x] + t)[k + 2..] == t[k + 1..];
  }

  /** A delete past a first entry of another socket keeps that entry in front. */
  lemma DeleteBehindHead(c: seq<Connection>, socket: SocketId, k: nat)
    requires c != [] && c[0].socket != socket && k < |c| - 1
    requires Delete(c[1..], socket) == c[1..][..k] + c[1..][k + 1..]
    ensures Delete(c, socket) == c[..k + 1] + c[k + 2..]
  {
    assert c == [c[0]] + c[1..];
    DeleteCons(c[0], c[1..], socket);
    SpliceCons(c[0], c[1..], k);
  }

  /** A delete of the first entry, when no other entry has its socket, leaves the rest. */
  lemma DeleteOnlyHead(c: seq<Connection>, socket: SocketId)
    requires c != [] && c[0].socket == socket
    requires forall j :: 1 <= j < |c| ==> c[j].socket != socket
    ensures Delete(c, socket) == c[1..]
  {
    assert forall j :: 0 <= j < |c[1..]| ==> c[1..][j].socket == c[j + 1].socket;
    DeleteAbsent(c[1..], socket);
  }

  /**
   * A delete takes out the socket's entry and nothing else: when position `i`
   * is the socket's only entry, the other entries stay, in their Map order.
   */
  lemma {:induction false} DeleteKeepsOrder(c: seq<Connection>, socket: SocketId, i: nat)
    requires i < |c| && c[i].socket == socket
    requires forall j :: 0 <= j < |c| && j != i ==> c[j].socket != socket
    ensures Delete(c, socket) == c[..i] + c[i + 1..]
  {
    if i == 0 {
      DeleteOnlyHead(c, socket);
    } else {
      var t := c[1..];
      assert forall j :: 0 <= j < |t| ==> t[j].socket == c[j + 1].socket;
      DeleteKeepsOrder(t, socket, i - 1);
      DeleteBehindHead(c, socket, i - 1);
    }
  }

  /** Looking a socket up past a first entry that belongs to another socket. */
  lemma LookupSkipsHead(c: seq<Connection>, socket: SocketId)
    requires c != [] && c[0].socket != socket
    ensures Lookup(c, socket) == Lookup(c[1..], socket)
  {
    assert SocketIndex(c, socket) == (match SocketIndex(c[1..], socket) case Some(k) => Some(k + 1) case None => None);
  }

  /** After a delete, every other socket maps to what it did. */
  lemma {:induction false} DeleteThenLookup(c: seq<Connection>, socket: SocketId, other: SocketId)
    requires other != socket
    ensures Lookup(Delete(c, socket), other) == Lookup(c, other)
  {
    if c != [] {
      var r := Delete(c, socket);
      DeleteThenLookup(c[1..], socket, other);
      if c[0].socket == socket {
        LookupSkipsHead(c, other);
      } else if c[0].socket != other {
        assert r == [c[0]] + Delete(c[1..], socket);
        assert r[1..] == Delete(c[1..], socket);
        LookupSkipsHead(c, other);
        LookupSkipsHead(r, other);
      } else {
        assert r[0] == c[0];
      }
    }
  }

  /** `onlineUsers.values()`, in insertion order. */
  function Names(c: seq<Connection>): (r: seq<string>)
    ensures |r| == |c|
    ensures forall i :: 0 <= i < |c| ==> r[i] == c[i].username
  {
    if c == [] then [] else [c[0].username] + Names(c[1..])
  }

  /** The set of usernames with at least one live connection. */
  function OnlineNames(c: seq<Connection>): set<string> {
    set u | u in Names(c)
  }

  /** `Array.from(new Set(s))`: each element once, in order of first occurrence. */
  function Distinct(s: seq<string>): seq<string> {
    if s == [] then []
    else
      var d := Distinct(s[..|s| - 1]);
      if s[|s| - 1] in d then d else d + [s[|s| - 1]]
  }

  predicate NoDuplicates(s: seq<string>) {
    forall i, j :: 0 <= i < j < |s| ==> s[i] != s[j]
  }

  lemma {:induction false} DistinctElements(s: seq<string>)
    ensures NoDuplicates(Distinct(s))
    ensures forall x :: x in Distinct(s) <==> x in s
  {
    if s != [] {
      DistinctElements(s[..|s| - 1]);
      assert s == s[..|s| - 1] + [s[|s| - 1]];
    }
  }

  lemma {:induction false} NoDuplicatesCard(s: seq<string>)
    requires NoDuplicates(s)
    ensures |set x | x in s| == |s|
  {
    if s != [] {
      var init := s[..|s| - 1];
      NoDuplicatesCard(init);
      assert (set x | x in s) == (set x | x in init) + {s[|s| - 1]};
      assert s[|s| - 1] !in init;
    }
  }

  /**
   * The length of the distinct-usernames list, the `needed` of every skip
   * status, is the number of usernames online.
   */
  lemma DistinctCount(c: seq<Connection>)
    ensures |Distinct(Names(c))| == |OnlineNames(c)|
  {
    var d := Distinct(Names(c));
    DistinctElements(Names(c));
    NoDuplicatesCard(d);
    assert (set x | x in d) == OnlineNames(c);
  }

  /** The distinct usernames as one pass over the connections. */
  method DistinctUsernames(c: seq<Connection>) returns (users: seq<string>)
    ensures users == Distinct(Names(c))
  {
    ghost var names := Names(c);
    users := [];
    var i := 0;
    while i < |c|
      invariant 0 <= i <= |c|
      invariant users == Distinct(names[..i])
    {
      DistinctStep(names, i);
      if c[i].username !in users {
        users := users + [c[i].username];
      }
      i := i + 1;
    }
    assert names[..|c|] == names;
  }

  /** One more value: `Distinct` keeps it when it is new. */
  lemma DistinctStep(s: seq<string>, k: nat)
    requires k < |s|
    ensures Distinct(s[..k + 1]) == if s[k] in Distinct(s[..k]) then Distinct(s[..k]) else Distinct(s[..k]) + [s[k]]
  {
    assert s[..k + 1][..k] == s[..k];
  }

  /** `users.length` for the distinct usernames `users`: the number of usernames online. */
  method CountUsernames(c: seq<Connection>) returns (n: nat)
    ensures n == |OnlineNames(c)|
  {
    var users := DistinctUsernames(c);
    DistinctCount(c);
    n := |users|;
  }

}
