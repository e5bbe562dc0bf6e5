/**
 * The real-time battle gateway (backend/src/sockets/multiplayerSocket.ts):
 * a module-level map of rooms keyed by code, each holding its players keyed
 * by socket id, changed by the socket event handlers.
 *
 * The rooms map iterates in insertion order, so the hub keeps the order of
 * its keys beside the map; players are kept in their insertion order as a
 * sequence. Each handler returns its outcome (the error the client is sent,
 * or what it did) instead of emitting events. The random picks of the code
 * and of the judge, and the clock, are parameters.
 */
module MultiplayerSocket {
  import opened Text
  import opened Ranking
  import opened RoomCodes
  import RoastJudge

  /** Twenty-four hours, in milliseconds. */
  const MaxAgeMs: int := 24 * 60 * 60 * 1000

  datatype Player = Player(socketId: string, userId: string, username: string, score: int, isReady: bool)

  datatype GameState = Waiting | Playing | Finished

  datatype RoastEntry = RoastEntry(username: string, message: string, score: int, timestamp: int)

  datatype Room = Room(roomCode: string, players: seq<Player>, gameState: GameState,
                       createdAt: int, roasts: seq<RoastEntry>)

  /** The errors the handlers report to the client. */
  datatype SocketError = AlreadyInRoom | InvalidCode | RoomNotFound | UsernameTaken | EmptyRoast | NotInRoom

  datatype Standing = Standing(rank: int, username: string, score: int)

  // ---------------------------------------------------------------------
  // Players of a room

  predicate HasSocket(ps: seq<Player>, sid: string)
  {
    exists p :: p in ps && p.socketId == sid
  }

  predicate DistinctSockets(ps: seq<Player>)
  {
    forall i, j :: 0 <= i < j < |ps| ==> ps[i].socketId != ps[j].socketId
  }

  function NewPlayer(sid: string, userId: string, username: string): Player
  {
    Player(sid, userId, username, 0, false)
  }

  /** `players.get(sid)`, as the position of that socket's player. */
  function FindSocket(ps: seq<Player>, sid: string): (r: Option<nat>)
    ensures r.None? <==> !HasSocket(ps, sid)
    ensures r.Some? ==> r.value < |ps| && ps[r.value].socketId == sid
  {
    if ps == [] then None
    else if ps[0].socketId == sid then Some(0)
    else
      assert ps == [ps[0]] + ps[1..];
      match FindSocket(ps[1..], sid)
      case None => None
      case Some(k) => Some(k + 1)
  }

  /** `players.delete(sid)`. */
  function WithoutSocket(ps: seq<Player>, sid: string): (r: seq<Player>)
    ensures forall p :: p in r <==> p in ps && p.socketId != sid
    ensures !HasSocket(r, sid)
    ensures DistinctSockets(ps) ==> DistinctSockets(r)
  {
    if ps == [] then []
    else
      assert ps == [ps[0]] + ps[1..];
      var rest := WithoutSocket(ps[1..], sid);
      var r := (if ps[0].socketId == sid then [] else [ps[0]]) + rest;
      assert DistinctSockets(ps) ==> DistinctSockets(r) by {
        if DistinctSockets(ps) && ps[0].socketId != sid {
          forall j | 0 < j < |r| ensures r[j].socketId != ps[0].socketId {
            assert r[j] == rest[j - 1];
            assert rest[j - 1] in ps[1..];
            var m :| 0 <= m < |ps[1..]| && ps[1..][m] == rest[j - 1];
            assert ps[m + 1] == rest[j - 1];
          }
        }
      }
      r
  }

  /** Some player's name equals `username` when both are lower-cased. */
  predicate NameTaken(ps: seq<Player>, username: string)
  {
    exists p :: p in ps && Lower(p.username) == Lower(username)
  }

  /** Replacing a player by one with the same socket id keeps the sockets a
   *  room holds, and keeps them distinct. */
  lemma ReplaceKeepsSockets(ps: seq<Player>, i: nat, q: Player)
    requires i < |ps| && q.socketId == ps[i].socketId
    ensures forall s :: HasSocket(ps[i := q], s) <==> HasSocket(ps, s)
    ensures DistinctSockets(ps) ==> DistinctSockets(ps[i := q])
  {
    var after := ps[i := q];
    forall s ensures HasSocket(after, s) <==> HasSocket(ps, s) {
      if HasSocket(after, s) {
        var p :| p in after && p.socketId == s;
        var j :| 0 <= j < |after| && after[j] == p;
        assert ps[j] in ps;
      }
      if HasSocket(ps, s) {
        var p :| p in ps && p.socketId == s;
        var j :| 0 <= j < |ps| && ps[j] == p;
        assert after[j] in after;
      }
    }
  }

  // ---------------------------------------------------------------------
  // The hub's state as values

  /** The codes of `s` that are not in `drop`, in order. */
  function FilterOut(s: seq<string>, drop: set<string>): (r: seq<string>)
    ensures forall x :: x in r <==> x in s && x !in drop
  {
    if s == [] then []
    else
      assert s == [s[0]] + s[1..];
      (if s[0] in drop then [] else [s[0]]) + FilterOut(s[1..], drop)
  }

  predicate NoDupCodes(s: seq<string>)
  {
    forall i, j :: 0 <= i < j < |s| ==> s[i] != s[j]
  }

  lemma {:induction false} FilterOutKeepsNoDup(s: seq<string>, drop: set<string>)
    requires NoDupCodes(s)
    ensures NoDupCodes(FilterOut(s, drop))
  {
    if s != [] {
      FilterOutKeepsNoDup(s[1..], drop);
      var rest := FilterOut(s[1..], drop);
      if s[0] !in drop {
        assert s[0] !in s[1..];
        var r := [s[0]] + rest;
        forall i, j | 0 <= i < j < |r| ensures r[i] != r[j] {
          if i == 0 {
            assert r[j] == rest[j - 1] && rest[j - 1] in rest;
          } else {
            assert r[i] == rest[i - 1] && r[j] == rest[j - 1];
          }
        }
      }
    }
  }

  lemma {:induction false} FilterOutTwice(s: seq<string>, a: set<string>, b: set<string>)
    ensures FilterOut(FilterOut(s, a), b) == FilterOut(s, a + b)
  {
    if s != [] {
      FilterOutTwice(s[1..], a, b);
      var r := FilterOut(s[1..], a);
      assert FilterOut(s, a + b) == (if s[0] in a + b then [] else [s[0]]) + FilterOut(s[1..], a + b);
      if s[0] !in a {
        var x := [s[0]] + r;
        assert FilterOut(s, a) == x;
        assert x[0] == s[0] && x[1..] == r;
        assert FilterOut(x, b) == (if s[0] in b then [] else [s[0]]) + FilterOut(r, b);
      } else {
        assert FilterOut(s, a) == r;
      }
    }
  }

  /** The map's keys are `order`, each once. */
  ghost predicate OrderOk(order: seq<string>, rooms: map<string, Room>)
  {
    NoDupCodes(order) && (forall c :: c in rooms <==> c in order)
  }

  /** The hub's invariant: keys in order, every room stored under its own
   *  well-formed code and non-empty, sockets distinct within a room, and
   *  no socket in two rooms. */
  ghost predicate HubOk(order: seq<string>, rooms: map<string, Room>)
  {
    OrderOk(order, rooms) && RoomsOk(rooms) && SocketsApart(rooms)
  }

  ghost predicate RoomsOk(rooms: map<string, Room>)
  {
    forall c :: c in rooms ==>
      && rooms[c].roomCode == c && IsCode(SocketAlphabet, c)
      && |rooms[c].players| > 0 && DistinctSockets(rooms[c].players)
  }

  ghost predicate SocketsApart(rooms: map<string, Room>)
  {
    forall c1, c2, sid :: c1 in rooms && c2 in rooms
      && HasSocket(rooms[c1].players, sid) && HasSocket(rooms[c2].players, sid)
      ==> c1 == c2
  }

  /** `getRoomBySocketId(sid)`: the first room, in key order, holding the
   *  socket. */
  function FirstRoomWith(order: seq<string>, rooms: map<string, Room>, sid: string): (r: Option<string>)
    ensures r.Some? ==> r.value in order && r.value in rooms && HasSocket(rooms[r.value].players, sid)
    ensures r.None? ==> forall c :: c in order && c in rooms ==> !HasSocket(rooms[c].players, sid)
  {
    if order == [] then None
    else if order[0] in rooms && HasSocket(rooms[order[0]].players, sid) then Some(order[0])
    else
      assert order == [order[0]] + order[1..];
      FirstRoomWith(order[1..], rooms, sid)
  }

  /** Under the hub's invariant the lookup finds the one room holding the
   *  socket, and finds nothing exactly when no room holds it. */
  lemma FirstRoomIsTheRoom(order: seq<string>, rooms: map<string, Room>, sid: string)
    requires HubOk(order, rooms)
    ensures FirstRoomWith(order, rooms, sid).None? <==> forall c :: c in rooms ==> !HasSocket(rooms[c].players, sid)
    ensures forall c :: c in rooms && HasSocket(rooms[c].players, sid) ==> FirstRoomWith(order, rooms, sid) == Some(c)
  {
  }

  /** The state after socket `sid` leaves room `code`: its player is
   *  removed, and the room is deleted when that leaves it empty. */
  function AfterRemove(order: seq<string>, rooms: map<string, Room>, code: string, sid: string)
    : (seq<string>, map<string, Room>)
    requires code in rooms
  {
    var rest := WithoutSocket(rooms[code].players, sid);
    if |rest| == 0 then (FilterOut(order, {code}), rooms - {code})
    else (order, rooms[code := rooms[code].(players := rest)])
  }

  /** Leaving keeps the hub's invariant and leaves the socket in no room. */
  lemma RemoveKeepsHub(order: seq<string>, rooms: map<string, Room>, code: string, sid: string)
    requires HubOk(order, rooms) && code in rooms && HasSocket(rooms[code].players, sid)
    ensures var (o, rs) := AfterRemove(order, rooms, code, sid);
            && HubOk(o, rs)
            && (forall c :: c in rs ==> !HasSocket(rs[c].players, sid))
            && FirstRoomWith(o, rs, sid).None?
  {
    var (o, rs) := AfterRemove(order, rooms, code, sid);
    FilterOutKeepsNoDup(order, {code});
    forall c, s | c in rs && HasSocket(rs[c].players, s)
      ensures HasSocket(rooms[c].players, s) && (c == code ==> s != sid)
    {
      var p :| p in rs[c].players && p.socketId == s;
      assert p in rooms[c].players;
    }
  }

  /** Whether `joinRoom` turns the socket away, and why; the checks run in
   *  this order: code length, unknown code (upper-cased), socket already in
   *  a room, name taken regardless of case. Neither the room's size nor its
   *  game state is looked at. */
  function JoinRejection(order: seq<string>, rooms: map<string, Room>, sid: string,
                         roomCode: string, username: string): Option<SocketError>
  {
    if |roomCode| != 6 then Some(InvalidCode)
    else if Upper(roomCode) !in rooms then Some(RoomNotFound)
    else if FirstRoomWith(order, rooms, sid).Some? then Some(AlreadyInRoom)
    else if NameTaken(rooms[Upper(roomCode)].players, username) then Some(UsernameTaken)
    else None
  }

  /** The game state of the room being joined does not affect the outcome. */
  lemma JoinIgnoresGameState(order: seq<string>, rooms: map<string, Room>, sid: string,
                             roomCode: string, username: string, g: GameState)
    requires Upper(roomCode) in rooms
    ensures var key := Upper(roomCode);
            JoinRejection(order, rooms[key := rooms[key].(gameState := g)], sid, roomCode, username)
            == JoinRejection(order, rooms, sid, roomCode, username)
  {
    var key := Upper(roomCode);
    var rooms' := rooms[key := rooms[key].(gameState := g)];
    SameSocketsSameLookup(order, rooms, rooms', sid);
  }

  /** A full room does not turn a join away: with a valid code, a socket
   *  in no room and a free name, the join is accepted however many players
   *  the room already holds. */
  lemma JoinAcceptsAnySize(order: seq<string>, rooms: map<string, Room>, sid: string,
                           roomCode: string, username: string)
    requires |roomCode| == 6 && Upper(roomCode) in rooms
    requires FirstRoomWith(order, rooms, sid).None?
    requires !NameTaken(rooms[Upper(roomCode)].players, username)
    ensures JoinRejection(order, rooms, sid, roomCode, username).None?
  {
  }

  lemma {:induction false} SameSocketsSameLookup(order: seq<string>, a: map<string, Room>, b: map<string, Room>, sid: string)
    requires a.Keys == b.Keys
    requires forall c :: c in a ==> a[c].players == b[c].players
    ensures FirstRoomWith(order, a, sid) == FirstRoomWith(order, b, sid)
  {
    if order != [] {
      SameSocketsSameLookup(order[1..], a, b, sid);
    }
  }

  /** A successful join keeps the hub's invariant. */
  lemma JoinKeepsHub(order: seq<string>, rooms: map<string, Room>, sid: string, key: string, p: Player)
    requires HubOk(order, rooms) && key in rooms && p.socketId == sid
    requires FirstRoomWith(order, rooms, sid).None?
    ensures HubOk(order, rooms[key := rooms[key].(players := rooms[key].players + [p])])
  {
    var rs := rooms[key := rooms[key].(players := rooms[key].players + [p])];
    assert OrderOk(order, rs) by { assert rs.Keys == rooms.Keys; }
    JoinKeepsRooms(rooms, key, p);
    JoinKeepsApart(rooms, key, p);
  }

  lemma JoinKeepsRooms(rooms: map<string, Room>, key: string, p: Player)
    requires RoomsOk(rooms) && key in rooms && !HasSocket(rooms[key].players, p.socketId)
    ensures RoomsOk(rooms[key := rooms[key].(players := rooms[key].players + [p])])
  {
    AppendSocket(rooms[key].players, p);
  }

  lemma JoinKeepsApart(rooms: map<string, Room>, key: string, p: Player)
    requires SocketsApart(rooms) && key in rooms
    requires forall c :: c in rooms ==> !HasSocket(rooms[c].players, p.socketId)
    ensures SocketsApart(rooms[key := rooms[key].(players := rooms[key].players + [p])])
  {
    var rs := rooms[key := rooms[key].(players := rooms[key].players + [p])];
    AppendSocket(rooms[key].players, p);
    forall c, s | c in rs && HasSocket(rs[c].players, s)
      ensures HasSocket(rooms[c].players, s) || (c == key && s == p.socketId)
    {
      if c != key { assert rs[c] == rooms[c]; }
    }
  }

  lemma AppendSocket(ps: seq<Player>, p: Player)
    ensures forall s :: HasSocket(ps + [p], s) <==> HasSocket(ps, s) || s == p.socketId
    ensures DistinctSockets(ps) && !HasSocket(ps, p.socketId) ==> DistinctSockets(ps + [p])
  {
    var after := ps + [p];
    forall s | HasSocket(after, s) ensures HasSocket(ps, s) || s == p.socketId {
      var q :| q in after && q.socketId == s;
    }
    assert p in after;
    forall s | HasSocket(ps, s) ensures HasSocket(after, s) {
      var q :| q in ps && q.socketId == s;
      assert q in after;
    }
    if DistinctSockets(ps) && !HasSocket(ps, p.socketId) {
      forall i, j | 0 <= i < j < |after| ensures after[i].socketId != after[j].socketId {
        if j == |ps| {
          assert ps[i] in ps;
        }
      }
    }
  }

  /** A new room for a socket in no room keeps the hub's invariant, even
   *  when it replaces a room under the same code. */
  lemma CreateKeepsHub(order: seq<string>, rooms: map<string, Room>, code: string, room: Room)
    requires HubOk(order, rooms) && IsCode(SocketAlphabet, code)
    requires room.roomCode == code && |room.players| == 1
    requires forall c :: c in rooms ==> !HasSocket(rooms[c].players, room.players[0].socketId)
    ensures HubOk(if code in rooms then order else order + [code], rooms[code := room])
  {
    assert DistinctSockets(room.players);
    CreateKeepsApart(rooms, code, room);
    if code !in rooms {
      assert code !in order;
    }
  }

  lemma CreateKeepsApart(rooms: map<string, Room>, code: string, room: Room)
    requires SocketsApart(rooms) && |room.players| == 1
    requires forall c :: c in rooms ==> !HasSocket(rooms[c].players, room.players[0].socketId)
    ensures SocketsApart(rooms[code := room])
  {
    var rs := rooms[code := room];
    forall c1, c2, s | c1 in rs && c2 in rs && HasSocket(rs[c1].players, s) && HasSocket(rs[c2].players, s)
      ensures c1 == c2
    {
      if c1 == code || c2 == code {
        assert room.players == [room.players[0]];
      }
    }
  }

  /** The room after the player of socket `sid` scores `s` with the roast
   *  `text` at time `now`: that player's score grows by `s`, and the roast
   *  is logged under its name. */
  function Credited(room: Room, sid: string, s: int, text: string, now: int): Room
    requires HasSocket(room.players, sid)
  {
    var i := FindSocket(room.players, sid).value;
    var p := room.players[i];
    room.(players := room.players[i := p.(score := p.score + s)],
          roasts := room.roasts + [RoastEntry(p.username, text, s, now)])
  }

  /** The room after the player of socket `sid` sets its ready flag. */
  function Readied(room: Room, sid: string, ready: bool): Room
    requires HasSocket(room.players, sid)
  {
    var i := FindSocket(room.players, sid).value;
    room.(players := room.players[i := room.players[i].(isReady := ready)])
  }

  /** Changing one player of a room, but not its socket id, keeps the hub's
   *  invariant; so does any change to the roast log. */
  lemma UpdateKeepsHub(order: seq<string>, rooms: map<string, Room>, code: string, i: nat, q: Player,
                       roasts: seq<RoastEntry>)
    requires HubOk(order, rooms) && code in rooms
    requires i < |rooms[code].players| && q.socketId == rooms[code].players[i].socketId
    ensures HubOk(order, rooms[code := rooms[code].(players := rooms[code].players[i := q], roasts := roasts)])
  {
    ReplaceKeepsSockets(rooms[code].players, i, q);
  }

  lemma CreditKeepsHub(order: seq<string>, rooms: map<string, Room>, code: string, sid: string,
                       s: int, text: string, now: int)
    requires HubOk(order, rooms) && code in rooms && HasSocket(rooms[code].players, sid)
    ensures HubOk(order, rooms[code := Credited(rooms[code], sid, s, text, now)])
  {
    var room := rooms[code];
    var i := FindSocket(room.players, sid).value;
    var p := room.players[i];
    var roasts := room.roasts + [RoastEntry(p.username, text, s, now)];
    assert Credited(room, sid, s, text, now) == room.(players := room.players[i := p.(score := p.score + s)], roasts := roasts);
    UpdateKeepsHub(order, rooms, code, i, p.(score := p.score + s), roasts);
  }

  /** The standings message: players by score, highest first, ranked from 1. */
  function PlayerScore(p: Player): int { p.score }

  function Standings(ps: seq<Player>): (lb: seq<Standing>)
    ensures |lb| == |ps|
    ensures forall i :: 0 <= i < |lb| ==> lb[i].rank == i + 1
  {
    var sorted := SortDesc(ps, PlayerScore);
    seq(|sorted|, i requires 0 <= i < |sorted| => Standing(i + 1, sorted[i].username, sorted[i].score))
  }

  /** The standings are ordered by score, highest first, and list every
   *  player once, equal scores in join order. */
  lemma StandingsAreRanked(ps: seq<Player>)
    ensures forall i, j :: 0 <= i < j < |ps| ==> Standings(ps)[i].score >= Standings(ps)[j].score
    ensures var sorted := SortDesc(ps, PlayerScore);
            && multiset(sorted) == multiset(ps)
            && (forall k :: WithKey(sorted, PlayerScore, k) == WithKey(ps, PlayerScore, k))
  {
    var sorted := SortDesc(ps, PlayerScore);
    var lb := Standings(ps);
    SortDescIsStableSort(ps, PlayerScore);
    forall i, j | 0 <= i < j < |ps| ensures lb[i].score >= lb[j].score {
      assert lb[i].score == PlayerScore(sorted[i]) && lb[j].score == PlayerScore(sorted[j]);
    }
  }

  // ---------------------------------------------------------------------
  // The sweep

  /** A room the hourly sweep deletes: older than a day and empty. */
  predicate Abandoned(room: Room, now: int)
  {
    now - room.createdAt > MaxAgeMs && |room.players| == 0
  }

  function AbandonedCodes(order: seq<string>, rooms: map<string, Room>, now: int): set<string>
  {
    set c | c in order && c in rooms && Abandoned(rooms[c], now)
  }

  /** Rooms are never empty while the hub's invariant holds, so the sweep
   *  never finds anything to delete. */
  lemma SweepFindsNothing(order: seq<string>, rooms: map<string, Room>, now: int)
    requires HubOk(order, rooms)
    ensures AbandonedCodes(order, rooms, now) == {}
    ensures FilterOut(order, {}) == order
  {
    FilterOutNothing(order);
  }

  /** Visiting one more code adds it to the abandoned codes seen so far
   *  exactly when its room is abandoned. */
  /** The rooms of `rooms0` whose codes are not in `dead`. */
  function Surviving(rooms0: map<string, Room>, dead: set<string>): map<string, Room>
  {
    map c | c in rooms0 && c !in dead :: rooms0[c]
  }

  lemma SurvivingMinus(rooms0: map<string, Room>, dead: set<string>, code: string)
    ensures Surviving(rooms0, dead) - {code} == Surviving(rooms0, dead + {code})
  {
  }

  lemma SweepStep(order: seq<string>, rooms: map<string, Room>, now: int, i: nat)
    requires i < |order|
    ensures AbandonedCodes(order[..i + 1], rooms, now)
            == AbandonedCodes(order[..i], rooms, now)
               + (if order[i] in rooms && Abandoned(rooms[order[i]], now) then {order[i]} else {})
  {
    assert order[..i + 1] == order[..i] + [order[i]];
  }

  lemma {:induction false} FilterOutNothing(s: seq<string>)
    ensures FilterOut(s, {}) == s
  {
    if s != [] {
      FilterOutNothing(s[1..]);
      assert s == [s[0]] + s[1..];
    }
  }

  // ---------------------------------------------------------------------
  // The hub

  class RoomHub {
    /** The keys of `rooms`, in insertion order. */
    var order: seq<string>
    var rooms: map<string, Room>

    ghost predicate Valid()
      reads this
    {
      HubOk(order, rooms)
    }

    constructor()
      ensures order == [] && rooms == map[]
      ensures Valid()
    {
      order := [];
      rooms := map[];
    }

    /** `getRoomBySocketId(sid)`, returning the room's code. */
    method GetRoomBySocketId(sid: string) returns (r: Option<string>)
      ensures r == FirstRoomWith(order, rooms, sid)
    {
      var i := 0;
      while i < |order|
        invariant 0 <= i <= |order|
        invariant FirstRoomWith(order[i..], rooms, sid) == FirstRoomWith(order, rooms, sid)
      {
        assert order[i..] == [order[i]] + order[i + 1..];
        var code := order[i];
        if code in rooms && FindSocket(rooms[code].players, sid).Some? {
          return Some(code);
        }
        i := i + 1;
      }
      return None;
    }

    /** The `createRoom` handler: refused for a socket already in a room;
     *  otherwise the code spelled by `picks` gets a new waiting room holding
     *  only this socket's player, replacing any room under that code. */
    method CreateRoom(sid: string, userId: string, username: string, picks: seq<nat>, now: int)
      returns (res: Result<string, SocketError>)
      requires ValidPicks(SocketAlphabet, picks)
      modifies this
      ensures FirstRoomWith(old(order), old(rooms), sid).Some? ==>
                res == Err(AlreadyInRoom) && order == old(order) && rooms == old(rooms)
      ensures FirstRoomWith(old(order), old(rooms), sid).None? ==>
                var code := CodeOf(SocketAlphabet, picks);
                && res == Ok(code)
                && rooms == old(rooms)[code := Room(code, [NewPlayer(sid, userId, username)], Waiting, now, [])]
                && order == (if code in old(rooms) then old(order) else old(order) + [code])
      ensures old(Valid()) ==> Valid()
    {
      var existing := GetRoomBySocketId(sid);
      if existing.Some? {
        return Err(AlreadyInRoom);
      }
      var code := BuildCode(SocketAlphabet, picks);
      var room := Room(code, [NewPlayer(sid, userId, username)], Waiting, now, []);
      if HubOk(order, rooms) {
        CreateKeepsHub(order, rooms, code, room);
      }
      if code !in rooms {
        order := order + [code];
      }
      rooms := rooms[code := room];
      res := Ok(code);
    }

    /** The `joinRoom` handler: on success the socket's player is added at
     *  the end of the room's players, under the upper-cased code. */
    method JoinRoom(sid: string, roomCode: string, userId: string, username: string)
      returns (res: Result<string, SocketError>)
      modifies this
      ensures var why := JoinRejection(old(order), old(rooms), sid, roomCode, username);
              && (why.Some? ==> res == Err(why.value) && order == old(order) && rooms == old(rooms))
              && (why.None? ==>
                    var key := Upper(roomCode);
                    && res == Ok(key) && order == old(order)
                    && rooms == old(rooms)[key := old(rooms)[key].(players :=
                                 old(rooms)[key].players + [NewPlayer(sid, userId, username)])])
      ensures old(Valid()) ==> Valid()
    {
      if |roomCode| != 6 {
        return Err(InvalidCode);
      }
      var key := Upper(roomCode);
      if key !in rooms {
        return Err(RoomNotFound);
      }
      var room := rooms[key];
      var existing := GetRoomBySocketId(sid);
      if existing.Some? {
        return Err(AlreadyInRoom);
      }
      if exists p :: p in room.players && Lower(p.username) == Lower(username) {
        return Err(UsernameTaken);
      }
      var player := NewPlayer(sid, userId, username);
      if HubOk(order, rooms) {
        JoinKeepsHub(order, rooms, sid, key, player);
      }
      rooms := rooms[key := room.(players := room.players + [player])];
      res := Ok(key);
    }

    /** The `leaveRoom` handler: returns the code of the room left, or None
     *  (and changes nothing) for a socket in no room. */
    method LeaveRoom(sid: string) returns (left: Option<string>)
      modifies this
      ensures left == FirstRoomWith(old(order), old(rooms), sid)
      ensures left.None? ==> order == old(order) && rooms == old(rooms)
      ensures left.Some? ==> (order, rooms) == AfterRemove(old(order), old(rooms), left.value, sid)
      ensures old(Valid()) ==> Valid() && FirstRoomWith(order, rooms, sid).None?
    {
      left := GetRoomBySocketId(sid);
      if left.None? {
        return;
      }
      var code := left.value;
      ghost var after := AfterRemove(order, rooms, code, sid);
      if HubOk(order, rooms) {
        RemoveKeepsHub(order, rooms, code, sid);
      }
      var room := rooms[code];
      var rest := WithoutSocket(room.players, sid);
      if |rest| == 0 {
        rooms := rooms - {code};
        order := FilterOut(order, {code});
      } else {
        rooms := rooms[code := room.(players := rest)];
      }
      assert (order, rooms) == after;
    }

    /** The `disconnect` handler: the same removal as leaving. */
    method Disconnect(sid: string) returns (left: Option<string>)
      modifies this
      ensures left == FirstRoomWith(old(order), old(rooms), sid)
      ensures left.None? ==> order == old(order) && rooms == old(rooms)
      ensures left.Some? ==> (order, rooms) == AfterRemove(old(order), old(rooms), left.value, sid)
      ensures old(Valid()) ==> Valid() && FirstRoomWith(order, rooms, sid).None?
    {
      left := LeaveRoom(sid);
    }

    /** The `sendRoast` handler: the judged score of the message (as sent)
     *  is added to the sender's score, and the trimmed message is logged. */
    method SendRoast(sid: string, message: string, jitter: int, now: int)
      returns (res: Result<int, SocketError>)
      requires RoastJudge.IsJitter(jitter)
      modifies this
      ensures Trim(message) == "" ==> res == Err(EmptyRoast)
      ensures Trim(message) != "" && FirstRoomWith(old(order), old(rooms), sid).None? ==> res == Err(NotInRoom)
      ensures res.Err? ==> order == old(order) && rooms == old(rooms)
      ensures Trim(message) != "" && FirstRoomWith(old(order), old(rooms), sid).Some? ==>
                var code := FirstRoomWith(old(order), old(rooms), sid).value;
                var s := RoastJudge.Judge(message, jitter);
                && res == Ok(s) && order == old(order)
                && rooms == old(rooms)[code := Credited(old(rooms)[code], sid, s, Trim(message), now)]
      ensures old(Valid()) ==> Valid()
    {
      if message == "" || Trim(message) == "" {
        return Err(EmptyRoast);
      }
      var found := GetRoomBySocketId(sid);
      if found.None? {
        return Err(NotInRoom);
      }
      var code := found.value;
      var score := RoastJudge.JudgeRoast(message, jitter);
      CreditPlayer(code, sid, score, Trim(message), now);
      res := Ok(score);
    }

    /** Adds the judged score `s` to the player of socket `sid` in room
     *  `code` and logs the roast `text`. */
    method CreditPlayer(code: string, sid: string, s: int, text: string, now: int)
      requires code in rooms && HasSocket(rooms[code].players, sid)
      modifies this
      ensures order == old(order)
      ensures rooms == old(rooms)[code := Credited(old(rooms)[code], sid, s, text, now)]
      ensures old(Valid()) ==> Valid()
    {
      if HubOk(order, rooms) {
        CreditKeepsHub(order, rooms, code, sid, s, text, now);
      }
      rooms := rooms[code := Credited(rooms[code], sid, s, text, now)];
    }

    /** The `setReady` handler: only that socket's player changes, and only
     *  its ready flag. */
    method SetReady(sid: string, ready: bool) returns (changed: bool)
      modifies this
      ensures changed <==> FirstRoomWith(old(order), old(rooms), sid).Some?
      ensures order == old(order)
      ensures !changed ==> rooms == old(rooms)
      ensures changed ==>
                var code := FirstRoomWith(old(order), old(rooms), sid).value;
                rooms == old(rooms)[code := Readied(old(rooms)[code], sid, ready)]
      ensures old(Valid()) ==> Valid()
    {
      var found := GetRoomBySocketId(sid);
      if found.None? {
        return false;
      }
      var code := found.value;
      var room := rooms[code];
      var i := FindSocket(room.players, sid).value;
      var player := room.players[i].(isReady := ready);
      if HubOk(order, rooms) {
        UpdateKeepsHub(order, rooms, code, i, player, room.roasts);
      }
      rooms := rooms[code := room.(players := room.players[i := player])];
      changed := true;
    }

    /** The `getLeaderboard` handler: the standings of the socket's room. */
    method GetLeaderboard(sid: string) returns (lb: Option<seq<Standing>>)
      ensures lb.None? <==> FirstRoomWith(order, rooms, sid).None?
      ensures lb.Some? ==> lb.value == Standings(rooms[FirstRoomWith(order, rooms, sid).value].players)
    {
      var found := GetRoomBySocketId(sid);
      if found.None? {
        return None;
      }
      lb := Some(Standings(rooms[found.value].players));
    }

    /** The hourly sweep at time `now`: deletes every room that is older
     *  than a day and empty, visiting the rooms in key order. */
    method CleanupSweep(now: int)
      modifies this
      ensures rooms == map c | c in old(rooms) && c !in AbandonedCodes(old(order), old(rooms), now) :: old(rooms)[c]
      ensures order == FilterOut(old(order), AbandonedCodes(old(order), old(rooms), now))
      ensures old(Valid()) ==> Valid()
    {
      var order0 := order;
      ghost var rooms0 := rooms;
      ghost var dead: set<string> := {};
      FilterOutNothing(order0);
      assert AbandonedCodes(order0[..0], rooms0, now) == {};
      assert rooms == Surviving(rooms0, dead);
      var i := 0;
      while i < |order0|
        invariant 0 <= i <= |order0|
        invariant dead == AbandonedCodes(order0[..i], rooms0, now)
        invariant rooms == Surviving(rooms0, dead)
        invariant order == FilterOut(order0, dead)
      {
        var code := order0[i];
        SweepStep(order0, rooms0, now, i);
        ghost var dead' := AbandonedCodes(order0[..i + 1], rooms0, now);
        if code in rooms && Abandoned(rooms[code], now) {
          assert dead' == dead + {code};
          FilterOutTwice(order0, dead, {code});
          SurvivingMinus(rooms0, dead, code);
          rooms := rooms - {code};
          order := FilterOut(order, {code});
        } else {
          assert dead' == dead;
        }
        dead := dead';
        i := i + 1;
      }
      assert order0[..i] == order0;
      if HubOk(order0, rooms0) {
        SweepFindsNothing(order0, rooms0, now);
        assert rooms == rooms0;
      }
    }
  }
}
