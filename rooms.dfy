/** The socket.io room table that both socket servers rely on: a room name maps to
    the sockets subscribed to it, in join order and without repetition. socket.io
    deletes a room when its last socket leaves, so a stored room is never empty.
    An emission records the set of sockets an event was delivered to, computed from
    the table at the moment of the emit. */
module Rooms {
  import opened Common

  type Room = string
  type RoomTable = map<Room, seq<SocketId>>

  datatype Emission<E> = Emission(to: set<SocketId>, event: E)

  /** Every stored room is non-empty and lists each socket once. */
  ghost predicate WellFormed(rooms: RoomTable) {
    forall r :: r in rooms ==> rooms[r] != [] && NoDup(rooms[r])
  }

  /** The sockets subscribed to `r`; an unknown room has none. */
  function Members(rooms: RoomTable, r: Room): set<SocketId> {
    if r in rooms then set s | s in rooms[r] else {}
  }

  /** `s` with every occurrence of `x` removed, order kept. */
  function Without(s: seq<SocketId>, x: SocketId): (r: seq<SocketId>)
    ensures forall y :: y in r <==> y in s && y != x
    ensures |r| <= |s|
    ensures NoDup(s) ==> NoDup(r)
  {
    if s == [] then []
    else if s[0] == x then Without(s[1..], x)
    else
      var rest := Without(s[1..], x);
      assert NoDup(s) ==> s[0] !in s[1..];
      [s[0]] + rest
  }

  /** The member list of `r` after `s` joins it: appended at the end unless present. */
  function Joined(rooms: RoomTable, r: Room, s: SocketId): (m: seq<SocketId>)
    ensures forall x :: x in m <==> x in Members(rooms, r) || x == s
    ensures r in rooms ==> |rooms[r]| <= |m| && m[..|rooms[r]|] == rooms[r]
    ensures m != []
    ensures WellFormed(rooms) ==> NoDup(m)
  {
    if r !in rooms then [s]
    else if s in rooms[r] then rooms[r]
    else rooms[r] + [s]
  }

  /** `socket.join(r)`. */
  function Join(rooms: RoomTable, r: Room, s: SocketId): (rooms': RoomTable)
    ensures Members(rooms', r) == Members(rooms, r) + {s}
    ensures rooms' - {r} == rooms - {r}
    ensures rooms'.Keys == rooms.Keys + {r}
    ensures forall q, x :: q in rooms' && x in rooms'[q] ==> x == s || (q in rooms && x in rooms[q])
    ensures WellFormed(rooms) ==> WellFormed(rooms')
  {
    rooms[r := Joined(rooms, r, s)]
  }

  /** `socket.join(r)` for every room of `rs`; the order of the joins does not
      matter because each room receives `s` at most once. */
  function JoinAll(rooms: RoomTable, rs: set<Room>, s: SocketId): (rooms': RoomTable)
    ensures forall q :: Members(rooms', q) == if q in rs then Members(rooms, q) + {s} else Members(rooms, q)
    ensures rooms'.Keys == rooms.Keys + rs
    ensures forall q, x :: q in rooms' && x in rooms'[q] ==> x == s || (q in rooms && x in rooms[q])
    ensures WellFormed(rooms) ==> WellFormed(rooms')
  {
    map q | q in rooms.Keys + rs :: if q in rs then Joined(rooms, q, s) else rooms[q]
  }

  /** `socket.leave(r)`: the room disappears when its last socket leaves. */
  function Leave(rooms: RoomTable, r: Room, s: SocketId): (rooms': RoomTable)
    ensures Members(rooms', r) == Members(rooms, r) - {s}
    ensures rooms' - {r} == rooms - {r}
    ensures WellFormed(rooms) ==> WellFormed(rooms')
  {
    if r !in rooms then rooms
    else
      var rest := Without(rooms[r], s);
      if rest == [] then rooms - {r} else rooms[r := rest]
  }

  /** What socket.io does on disconnect: `s` leaves every room it was in. */
  function LeaveAll(rooms: RoomTable, s: SocketId): (rooms': RoomTable)
    ensures forall q :: Members(rooms', q) == Members(rooms, q) - {s}
    ensures rooms'.Keys <= rooms.Keys
    ensures WellFormed(rooms) ==> WellFormed(rooms')
  {
    map q | q in rooms && Without(rooms[q], s) != [] :: Without(rooms[q], s)
  }
}
