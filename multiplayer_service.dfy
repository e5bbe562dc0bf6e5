/**
 * The battle-room service (backend/src/services/multiplayer/multiplayerService.ts):
 * a registry of rooms keyed by their code, and a reverse index from each
 * user to the code of the room they were last put in.
 *
 * Rooms are values stored in the `rooms` map; an operation that changes a
 * room writes the new value back under its code. The random draws of the
 * code generator and the clock are parameters.
 */
module MultiplayerService {
  import opened Text
  import opened Types
  import opened Ranking
  import opened RoomCodes
  import RoastGenerator

  const MaxPlayers: nat := 6
  const MaxRounds: int := 5
  /** Two hours, in milliseconds. */
  const MaxAgeMs: int := 2 * 60 * 60 * 1000

  // ---------------------------------------------------------------------
  // Players

  /** Some player of `ps` has user id `u`. */
  predicate HasUser(ps: seq<RoomPlayer>, u: string)
  {
    exists p :: p in ps && p.userId == u
  }

  predicate DistinctUsers(ps: seq<RoomPlayer>)
  {
    forall i, j :: 0 <= i < j < |ps| ==> ps[i].userId != ps[j].userId
  }

  /** A player as it enters a room: no score, no roasts, not ready. */
  function NewPlayer(userId: string, username: string): RoomPlayer
  {
    RoomPlayer(userId, username, 0, [], false)
  }

  /** `players.find(p => p.userId === u)`, as the index of the first match. */
  function FindPlayer(ps: seq<RoomPlayer>, u: string): (r: Option<nat>)
    ensures r.None? <==> !HasUser(ps, u)
    ensures r.Some? ==> r.value < |ps| && ps[r.value].userId == u
    ensures r.Some? ==> forall j :: 0 <= j < r.value ==> ps[j].userId != u
  {
    if ps == [] then None
    else if ps[0].userId == u then Some(0)
    else
      assert ps == [ps[0]] + ps[1..];
      match FindPlayer(ps[1..], u)
      case None => None
      case Some(k) => Some(k + 1)
  }

  /** `players.filter(p => p.userId !== u)`. */
  function WithoutUser(ps: seq<RoomPlayer>, u: string): (r: seq<RoomPlayer>)
    ensures |r| <= |ps|
    ensures forall p :: p in r <==> p in ps && p.userId != u
    ensures !HasUser(r, u)
    ensures forall v :: v != u ==> (HasUser(r, v) <==> HasUser(ps, v))
    ensures DistinctUsers(ps) ==> DistinctUsers(r)
  {
    if ps == [] then []
    else
      assert ps == [ps[0]] + ps[1..];
      var rest := WithoutUser(ps[1..], u);
      var r := (if ps[0].userId == u then [] else [ps[0]]) + rest;
      assert DistinctUsers(ps) ==> DistinctUsers(r) by {
        if DistinctUsers(ps) && ps[0].userId != u {
          forall j | 0 < j < |r| ensures r[j].userId != ps[0].userId {
            assert r[j] == rest[j - 1];
            assert rest[j - 1] in ps[1..];
            var m :| 0 <= m < |ps[1..]| && ps[1..][m] == rest[j - 1];
            assert ps[m + 1] == rest[j - 1];
          }
        }
      }
      r
  }

  /** The leaderboard sort key. */
  function PlayerScore(p: RoomPlayer): int { p.score }

  /** The player `p` after scoring `points` with roast `text`. */
  function Credited(p: RoomPlayer, text: string, points: int): RoomPlayer
  {
    p.(score := p.score + points, roasts := p.roasts + [text])
  }

  // ---------------------------------------------------------------------
  // Rooms

  /** A room can take a new player: it is waiting and not full. */
  predicate Admits(room: RoastBattleRoom)
  {
    room.status == Waiting && |room.players| < MaxPlayers
  }

  function Joined(room: RoastBattleRoom, userId: string, username: string): (r: RoastBattleRoom)
    ensures r.players == room.players + [NewPlayer(userId, username)]
    ensures r.(players := room.players) == room
  {
    room.(players := room.players + [NewPlayer(userId, username)])
  }

  /** The room after `player.isReady = ready` on the first player with
   *  user id `u`, if there is one. */
  function WithReady(room: RoastBattleRoom, u: string, ready: bool): RoastBattleRoom
  {
    match FindPlayer(room.players, u)
    case None => room
    case Some(i) => room.(players := room.players[i := room.players[i].(isReady := ready)])
  }

  /** In a room of distinct users, marking a player ready changes that
   *  player's flag and nothing else. */
  lemma WithReadyChangesOnlyThatPlayer(room: RoastBattleRoom, u: string, ready: bool)
    requires DistinctUsers(room.players)
    ensures var after := WithReady(room, u, ready);
            && after.(players := room.players) == room
            && |after.players| == |room.players|
            && forall i :: 0 <= i < |room.players| ==>
                 after.players[i] == if room.players[i].userId == u
                                     then room.players[i].(isReady := ready) else room.players[i]
  {
    if FindPlayer(room.players, u).Some? {
      var k := FindPlayer(room.players, u).value;
      forall i | 0 <= i < |room.players| && room.players[i].userId == u
        ensures i == k
      {
      }
    }
  }

  /** Replacing a player by one with the same user id keeps the user ids a
   *  room lists, and keeps them distinct. */
  lemma ReplacePlayerKeepsMembers(ps: seq<RoomPlayer>, i: nat, q: RoomPlayer)
    requires i < |ps| && q.userId == ps[i].userId
    ensures forall v :: HasUser(ps[i := q], v) <==> HasUser(ps, v)
    ensures DistinctUsers(ps) ==> DistinctUsers(ps[i := q])
  {
    var after := ps[i := q];
    forall v ensures HasUser(after, v) <==> HasUser(ps, v) {
      if HasUser(after, v) {
        var p :| p in after && p.userId == v;
        var j :| 0 <= j < |after| && after[j] == p;
        assert ps[j] in ps;
      }
      if HasUser(ps, v) {
        var p :| p in ps && p.userId == v;
        var j :| 0 <= j < |ps| && ps[j] == p;
        assert after[j] in after;
      }
    }
  }

  /** At least two players, every one of them ready. */
  predicate CanStart(room: RoastBattleRoom)
  {
    |room.players| >= 2 && forall i :: 0 <= i < |room.players| ==> room.players[i].isReady
  }

  /** `nextRound` on an active room: the round advances, and the game is
   *  finished once it passes the last round. */
  function AdvanceRound(room: RoastBattleRoom): (r: RoastBattleRoom)
    requires room.status == Active
    ensures r.currentRound == room.currentRound + 1
    ensures r.status == Finished <==> room.currentRound + 1 > room.maxRounds
    ensures r.status != Finished ==> r.status == Active
    ensures r.(status := room.status, currentRound := room.currentRound) == room
  {
    var round := room.currentRound + 1;
    room.(currentRound := round, status := if round > room.maxRounds then Finished else Active)
  }

  /** `n` successive `nextRound` calls on a room that stays active between
   *  them. */
  function AdvanceRounds(room: RoastBattleRoom, n: nat): RoastBattleRoom
    decreases n
  {
    if n == 0 || room.status != Active then room
    else AdvanceRounds(AdvanceRound(room), n - 1)
  }

  /** From round `r` of an active game, the game stays active for the
   *  remaining `maxRounds - r` calls and the next one finishes it. */
  lemma {:induction false} RoundsRunOut(room: RoastBattleRoom, n: nat)
    requires room.status == Active && 1 <= room.currentRound <= room.maxRounds
    ensures n <= room.maxRounds - room.currentRound ==> AdvanceRounds(room, n).status == Active
    ensures n <= room.maxRounds - room.currentRound ==>
              AdvanceRounds(room, n).currentRound == room.currentRound + n
    ensures n == room.maxRounds - room.currentRound + 1 ==> AdvanceRounds(room, n).status == Finished
    decreases n
  {
    if n > 0 {
      var next := AdvanceRound(room);
      if next.status == Active {
        RoundsRunOut(next, n - 1);
      }
    }
  }

  /** A freshly started game (round 1 of 5) is still active after four
   *  `nextRound` calls and finished after the fifth. */
  lemma FiveRoundsFinish(room: RoastBattleRoom)
    requires room.status == Active && room.currentRound == 1 && room.maxRounds == MaxRounds
    ensures AdvanceRounds(room, 4).status == Active
    ensures AdvanceRounds(room, 5).status == Finished
  {
    RoundsRunOut(room, 4);
    RoundsRunOut(room, 5);
  }

  function Entry(p: RoomPlayer, rank: int): LeaderboardEntry
  {
    LeaderboardEntry(p.userId, p.username, p.score, rank)
  }

  /** The players sorted by score, highest first, ranked 1, 2, 3, ... */
  function Leaderboard(ps: seq<RoomPlayer>): (lb: seq<LeaderboardEntry>)
    ensures |lb| == |ps|
    ensures forall i :: 0 <= i < |lb| ==> lb[i].rank == i + 1
  {
    var sorted := SortDesc(ps, PlayerScore);
    seq(|sorted|, i requires 0 <= i < |sorted| => Entry(sorted[i], i + 1))
  }

  /** The leaderboard is ordered by score, highest first. */
  lemma LeaderboardIsSorted(ps: seq<RoomPlayer>)
    ensures forall i, j :: 0 <= i < j < |ps| ==> Leaderboard(ps)[i].score >= Leaderboard(ps)[j].score
  {
    var sorted := SortDesc(ps, PlayerScore);
    var lb := Leaderboard(ps);
    SortDescIsStableSort(ps, PlayerScore);
    forall i, j | 0 <= i < j < |ps| ensures lb[i].score >= lb[j].score {
      assert lb[i].score == PlayerScore(sorted[i]) && lb[j].score == PlayerScore(sorted[j]);
    }
  }

  /** The leaderboard lists every player exactly once, in a stable order:
   *  players with equal scores appear in the order they joined. */
  lemma LeaderboardIsStableRanking(ps: seq<RoomPlayer>)
    ensures var sorted := SortDesc(ps, PlayerScore);
            && multiset(sorted) == multiset(ps)
            && (forall k :: WithKey(sorted, PlayerScore, k) == WithKey(ps, PlayerScore, k))
            && (forall i :: 0 <= i < |ps| ==> Leaderboard(ps)[i] == Entry(sorted[i], i + 1))
  {
    SortDescIsStableSort(ps, PlayerScore);
  }

  // ---------------------------------------------------------------------
  // The registry's invariants

  /** Every indexed user points at an existing room that lists them. */
  predicate IndexOk(rooms: map<string, RoastBattleRoom>, index: map<string, string>)
  {
    forall u :: u in index ==> index[u] in rooms && HasUser(rooms[index[u]].players, u)
  }

  predicate WellFormedRoom(code: string, room: RoastBattleRoom)
  {
    && room.roomCode == code && IsCode(ServiceAlphabet, code)
    && 1 <= |room.players| <= MaxPlayers && DistinctUsers(room.players)
    && room.maxRounds == MaxRounds
    && (room.status == Waiting ==> room.currentRound == 0)
    && (room.status == Active ==> 1 <= room.currentRound <= room.maxRounds)
    && (room.status == Finished ==> room.currentRound == room.maxRounds + 1)
  }

  predicate RoomsOk(rooms: map<string, RoastBattleRoom>)
  {
    forall c :: c in rooms ==> WellFormedRoom(c, rooms[c])
  }

  /** `playerRooms.get(u)`, when it holds a (truthy) code. */
  function IndexedCode(index: map<string, string>, u: string): Option<string>
  {
    if u in index && index[u] != "" then Some(index[u]) else None
  }

  /** The code of the existing room the index gives for `u`, if any. */
  function RoomOf(rooms: map<string, RoastBattleRoom>, index: map<string, string>, u: string): (r: Option<string>)
    ensures r.Some? ==> r.value in rooms && u in index && index[u] == r.value
  {
    match IndexedCode(index, u)
    case None => None
    case Some(c) => if c in rooms then Some(c) else None
  }

  /** Creating a room under a fresh code and indexing its creator keeps the
   *  index consistent. */
  lemma CreateKeepsIndex(rooms: map<string, RoastBattleRoom>, index: map<string, string>,
                         code: string, room: RoastBattleRoom, u: string)
    requires IndexOk(rooms, index) && code !in rooms && HasUser(room.players, u)
    ensures IndexOk(rooms[code := room], index[u := code])
  {
  }

  /** Appending a player to a room and indexing them keeps the index
   *  consistent: the players already there stay listed. */
  lemma JoinKeepsIndex(rooms: map<string, RoastBattleRoom>, index: map<string, string>,
                       code: string, u: string, name: string)
    requires IndexOk(rooms, index) && code in rooms
    ensures IndexOk(rooms[code := Joined(rooms[code], u, name)], index[u := code])
  {
    var after := rooms[code := Joined(rooms[code], u, name)];
    assert NewPlayer(u, name) in after[code].players;
    forall v | v in index && v != u
      ensures HasUser(after[index[v]].players, v)
    {
      if index[v] == code {
        var p :| p in rooms[code].players && p.userId == v;
        assert p in after[code].players;
      }
    }
  }

  /** The rooms after user `u` leaves room `code`: their player is removed,
   *  and the room is deleted when nobody is left. */
  function AfterLeave(rooms: map<string, RoastBattleRoom>, code: string, u: string): map<string, RoastBattleRoom>
    requires code in rooms
  {
    var rest := WithoutUser(rooms[code].players, u);
    if |rest| == 0 then rooms - {code} else rooms[code := rooms[code].(players := rest)]
  }

  /** Leaving removes exactly the leaver's index entry and keeps the index
   *  consistent: everyone else in the room is still listed, so the room
   *  survives whenever someone else is indexed to it. */
  lemma LeaveKeepsIndex(rooms: map<string, RoastBattleRoom>, index: map<string, string>, u: string)
    requires IndexOk(rooms, index) && u in index
    ensures IndexOk(AfterLeave(rooms, index[u], u), index - {u})
  {
    var code := index[u];
    var rest := WithoutUser(rooms[code].players, u);
    var after := AfterLeave(rooms, code, u);
    forall v | v in index - {u}
      ensures index[v] in after && HasUser(after[index[v]].players, v)
    {
      if index[v] == code {
        assert HasUser(rest, v);
        var p :| p in rest && p.userId == v;
      }
    }
  }

  // ---------------------------------------------------------------------
  // The expiry sweep

  predicate Expired(room: RoastBattleRoom, now: int)
  {
    now - room.createdAt > MaxAgeMs
  }

  /** The rooms left by the sweep: those not older than two hours. */
  function CleanedRooms(rooms: map<string, RoastBattleRoom>, now: int): map<string, RoastBattleRoom>
  {
    map c | c in rooms && !Expired(rooms[c], now) :: rooms[c]
  }

  /** The index after the sweep as written: every user listed in any
   *  expired room loses their entry, wherever it points. */
  function CleanedIndexAsWritten(rooms: map<string, RoastBattleRoom>, index: map<string, string>, now: int)
    : map<string, string>
  {
    UnlistedIndex(rooms, index, rooms.Keys, now)
  }

  /** Some expired room among `codes` lists user `u`. */
  predicate ListedInExpired(rooms: map<string, RoastBattleRoom>, codes: set<string>, now: int, u: string)
  {
    exists c :: c in codes && c in rooms && Expired(rooms[c], now) && HasUser(rooms[c].players, u)
  }

  /** The rooms while the sweep still has `pending` to look at: those
   *  already looked at survive only when not expired. */
  function Unswept(rooms: map<string, RoastBattleRoom>, pending: set<string>, now: int): map<string, RoastBattleRoom>
  {
    map c | c in rooms && (c in pending || !Expired(rooms[c], now)) :: rooms[c]
  }

  /** The index once the expired rooms among `swept` have unlisted their
   *  players. */
  function UnlistedIndex(rooms: map<string, RoastBattleRoom>, index: map<string, string>, swept: set<string>, now: int)
    : map<string, string>
  {
    map u | u in index && !ListedInExpired(rooms, swept, now, u) :: index[u]
  }

  /** One step of the sweep over room `code`: an expired room is deleted
   *  and its players unlisted, a live one is kept. */
  lemma SweepOneRoom(rooms: map<string, RoastBattleRoom>, index: map<string, string>,
                     pending: set<string>, code: string, now: int)
    requires pending <= rooms.Keys && code in pending
    ensures var before := Unswept(rooms, pending, now);
            && code in before && before[code] == rooms[code]
            && Unswept(rooms, pending - {code}, now)
               == (if Expired(rooms[code], now) then before - {code} else before)
    ensures var idx := UnlistedIndex(rooms, index, rooms.Keys - pending, now);
            UnlistedIndex(rooms, index, rooms.Keys - (pending - {code}), now)
            == (if Expired(rooms[code], now)
                then map u | u in idx && !HasUser(rooms[code].players, u) :: idx[u]
                else idx)
  {
    assert rooms.Keys - (pending - {code}) == (rooms.Keys - pending) + {code};
    ListedOneMore(rooms, rooms.Keys - pending, code, now);
  }

  /** Taking one more code into the sweep adds exactly the users its room
   *  lists, when that room has expired. */
  lemma ListedOneMore(rooms: map<string, RoastBattleRoom>, codes: set<string>, code: string, now: int)
    requires code in rooms
    ensures forall u :: ListedInExpired(rooms, codes + {code}, now, u) <==>
              ListedInExpired(rooms, codes, now, u) || (Expired(rooms[code], now) && HasUser(rooms[code].players, u))
  {
    forall u | ListedInExpired(rooms, codes + {code}, now, u)
      ensures ListedInExpired(rooms, codes, now, u) || (Expired(rooms[code], now) && HasUser(rooms[code].players, u))
    {
      var c :| c in codes + {code} && c in rooms && Expired(rooms[c], now) && HasUser(rooms[c].players, u);
      if c != code {
        assert c in codes;
      }
    }
  }

  /** The sweep as written still leaves a consistent index, one that keeps
   *  no entry the corrected sweep would drop: it only ever forgets more. */
  lemma CleanupAsWrittenKeepsIndex(rooms: map<string, RoastBattleRoom>, index: map<string, string>, now: int)
    requires IndexOk(rooms, index)
    ensures IndexOk(CleanedRooms(rooms, now), CleanedIndexAsWritten(rooms, index, now))
    ensures CleanedIndexAsWritten(rooms, index, now).Keys <= CleanedIndex(rooms, index, now).Keys
    ensures forall u :: u in index ==>
              (u in CleanedIndexAsWritten(rooms, index, now) <==> !ListedInExpired(rooms, rooms.Keys, now, u))
  {
    forall u | u in CleanedIndexAsWritten(rooms, index, now)
      ensures u in CleanedIndex(rooms, index, now)
    {
      if Evicted(rooms, index, rooms.Keys, now, u) {
        assert ListedInExpired(rooms, rooms.Keys, now, u);
      }
    }
  }

  /** User `u` is indexed to an expired room among `codes` that lists them. */
  predicate Evicted(rooms: map<string, RoastBattleRoom>, index: map<string, string>,
                    codes: set<string>, now: int, u: string)
  {
    u in index && index[u] in codes && index[u] in rooms
    && Expired(rooms[index[u]], now) && HasUser(rooms[index[u]].players, u)
  }

  /** The index after the corrected sweep: an entry is dropped only when it
   *  points at the expired room that lists the user. */
  function CleanedIndex(rooms: map<string, RoastBattleRoom>, index: map<string, string>, now: int)
    : map<string, string>
  {
    map u | u in index && !Evicted(rooms, index, rooms.Keys, now, u) :: index[u]
  }

  /** The sweep as written can erase the entry of a user who has moved on to
   *  a live room: `u` created room "AAAAAA" at time 0 and room "BBBBBB" at
   *  time 7200000; one millisecond later the first room expires, and with
   *  it `u`'s entry, although "BBBBBB" still lists `u`. */
  lemma CleanupAsWrittenForgetsLiveMember()
    ensures var u := "u";
            var a := RoastBattleRoom("AAAAAA", [NewPlayer(u, "x")], Waiting, 0, MaxRounds, 0);
            var b := RoastBattleRoom("BBBBBB", [NewPlayer(u, "x")], Waiting, 0, MaxRounds, MaxAgeMs);
            var rooms := map["AAAAAA" := a, "BBBBBB" := b];
            var index := map[u := "BBBBBB"];
            var now := MaxAgeMs + 1;
            && IndexOk(rooms, index)
            && "BBBBBB" in CleanedRooms(rooms, now)
            && HasUser(CleanedRooms(rooms, now)["BBBBBB"].players, u)
            && u !in CleanedIndexAsWritten(rooms, index, now)
            && u in CleanedIndex(rooms, index, now)
  {
    var u := "u";
    var a := RoastBattleRoom("AAAAAA", [NewPlayer(u, "x")], Waiting, 0, MaxRounds, 0);
    var b := RoastBattleRoom("BBBBBB", [NewPlayer(u, "x")], Waiting, 0, MaxRounds, MaxAgeMs);
    var rooms := map["AAAAAA" := a, "BBBBBB" := b];
    var now := MaxAgeMs + 1;
    assert NewPlayer(u, "x") in a.players && NewPlayer(u, "x") in b.players;
    assert "AAAAAA" in rooms && Expired(rooms["AAAAAA"], now);
    assert "AAAAAA" != "BBBBBB";
  }

  /** The corrected sweep keeps the index consistent, and a user keeps their
   *  entry exactly when the room it points at survives. */
  lemma CleanupKeepsIndex(rooms: map<string, RoastBattleRoom>, index: map<string, string>, now: int)
    requires IndexOk(rooms, index)
    ensures IndexOk(CleanedRooms(rooms, now), CleanedIndex(rooms, index, now))
    ensures forall u :: u in index ==>
              (u in CleanedIndex(rooms, index, now) <==> index[u] in CleanedRooms(rooms, now))
  {
  }

  // ---------------------------------------------------------------------
  // Code generation

  /** The position of the first draw whose code is not taken. */
  ghost function FirstFreshDraw(draws: seq<seq<nat>>, taken: set<string>): (k: nat)
    requires forall i :: 0 <= i < |draws| ==> ValidPicks(ServiceAlphabet, draws[i])
    requires exists i :: 0 <= i < |draws| && CodeOf(ServiceAlphabet, draws[i]) !in taken
    ensures k < |draws| && CodeOf(ServiceAlphabet, draws[k]) !in taken
    ensures forall j :: 0 <= j < k ==> CodeOf(ServiceAlphabet, draws[j]) in taken
  {
    if CodeOf(ServiceAlphabet, draws[0]) !in taken then 0
    else
      var i :| 0 <= i < |draws| && CodeOf(ServiceAlphabet, draws[i]) !in taken;
      assert draws[1..][i - 1] == draws[i];
      1 + FirstFreshDraw(draws[1..], taken)
  }

  // ---------------------------------------------------------------------
  // The service

  class MultiplayerService {
    var rooms: map<string, RoastBattleRoom>
    var playerRooms: map<string, string>

    ghost predicate Valid()
      reads this
    {
      IndexOk(rooms, playerRooms) && RoomsOk(rooms)
    }

    constructor()
      ensures rooms == map[] && playerRooms == map[]
      ensures Valid()
    {
      rooms := map[];
      playerRooms := map[];
    }

    /** `generateRoomCode()`: builds codes from successive draws until one
     *  is not taken. The draws are the random picks of each attempt; some
     *  attempt must succeed for the source's recursion to end. */
    method GenerateRoomCode(draws: seq<seq<nat>>) returns (code: string)
      requires forall i :: 0 <= i < |draws| ==> ValidPicks(ServiceAlphabet, draws[i])
      requires exists i :: 0 <= i < |draws| && CodeOf(ServiceAlphabet, draws[i]) !in rooms
      ensures IsCode(ServiceAlphabet, code) && code !in rooms
      ensures code == CodeOf(ServiceAlphabet, draws[FirstFreshDraw(draws, rooms.Keys)])
    {
      ghost var k := FirstFreshDraw(draws, rooms.Keys);
      var i := 0;
      code := BuildCode(ServiceAlphabet, draws[0]);
      while code in rooms
        invariant 0 <= i <= k < |draws|
        invariant code == CodeOf(ServiceAlphabet, draws[i])
        decreases k - i
      {
        assert i != k;
        i := i + 1;
        code := BuildCode(ServiceAlphabet, draws[i]);
      }
    }

    /** `createRoom(userId, username)`: a waiting room under a fresh code
     *  with its creator as the only player, and the creator indexed to it. */
    method CreateRoom(userId: string, username: string, draws: seq<seq<nat>>, now: int)
      returns (room: RoastBattleRoom)
      requires forall i :: 0 <= i < |draws| ==> ValidPicks(ServiceAlphabet, draws[i])
      requires exists i :: 0 <= i < |draws| && CodeOf(ServiceAlphabet, draws[i]) !in rooms
      modifies this
      ensures IsCode(ServiceAlphabet, room.roomCode) && room.roomCode !in old(rooms)
      ensures room.roomCode == CodeOf(ServiceAlphabet, draws[FirstFreshDraw(draws, old(rooms).Keys)])
      ensures room == RoastBattleRoom(room.roomCode, [NewPlayer(userId, username)], Waiting, 0, MaxRounds, now)
      ensures rooms == old(rooms)[room.roomCode := room]
      ensures playerRooms == old(playerRooms)[userId := room.roomCode]
      ensures old(Valid()) ==> Valid()
    {
      var code := GenerateRoomCode(draws);
      room := RoastBattleRoom(code, [NewPlayer(userId, username)], Waiting, 0, MaxRounds, now);
      ghost var oldRooms, oldIndex := rooms, playerRooms;
      rooms := rooms[code := room];
      playerRooms := playerRooms[userId := code];
      assert NewPlayer(userId, username) in room.players;
      if IndexOk(oldRooms, oldIndex) {
        CreateKeepsIndex(oldRooms, oldIndex, code, room, userId);
      }
    }

    /** `joinRoom(roomCode, userId, username)`. */
    method JoinRoom(roomCode: string, userId: string, username: string) returns (r: Option<RoastBattleRoom>)
      modifies this
      ensures r.None? <==> !(roomCode in old(rooms) && Admits(old(rooms)[roomCode]))
      ensures r.None? ==> rooms == old(rooms) && playerRooms == old(playerRooms)
      ensures r.Some? && HasUser(old(rooms)[roomCode].players, userId) ==>
                r.value == old(rooms)[roomCode] && rooms == old(rooms) && playerRooms == old(playerRooms)
      ensures r.Some? && !HasUser(old(rooms)[roomCode].players, userId) ==>
                && rooms == old(rooms)[roomCode := Joined(old(rooms)[roomCode], userId, username)]
                && playerRooms == old(playerRooms)[userId := roomCode]
                && r.value == rooms[roomCode]
      ensures old(Valid()) ==> Valid()
    {
      if roomCode !in rooms {
        return None;
      }
      var room := rooms[roomCode];
      if room.status != Waiting {
        return None;
      }
      if |room.players| >= MaxPlayers {
        return None;
      }
      if FindPlayer(room.players, userId).Some? {
        return Some(room);
      }
      ghost var oldRooms, oldIndex := rooms, playerRooms;
      var joined := room.(players := room.players + [NewPlayer(userId, username)]);
      rooms := rooms[roomCode := joined];
      playerRooms := playerRooms[userId := roomCode];
      r := Some(joined);
      if IndexOk(oldRooms, oldIndex) {
        JoinKeepsIndex(oldRooms, oldIndex, roomCode, userId, username);
      }
      if RoomsOk(oldRooms) {
        assert WellFormedRoom(roomCode, joined) by {
          forall i, j | 0 <= i < j < |joined.players|
            ensures joined.players[i].userId != joined.players[j].userId
          {
            if j == |room.players| {
              assert room.players[i] in room.players;
            }
          }
        }
      }
    }

    /** `leaveRoom(userId)`. */
    method LeaveRoom(userId: string) returns (left: bool)
      modifies this
      ensures left <==> RoomOf(old(rooms), old(playerRooms), userId).Some?
      ensures !left ==> rooms == old(rooms) && playerRooms == old(playerRooms)
      ensures left ==> rooms == AfterLeave(old(rooms), old(playerRooms)[userId], userId)
                       && playerRooms == old(playerRooms) - {userId}
      ensures old(Valid()) ==> Valid()
    {
      if userId !in playerRooms || playerRooms[userId] == "" {
        return false;
      }
      var code := playerRooms[userId];
      if code !in rooms {
        return false;
      }
      ghost var oldRooms, oldIndex := rooms, playerRooms;
      var room := rooms[code];
      var rest := WithoutUser(room.players, userId);
      rooms := rooms[code := room.(players := rest)];
      playerRooms := playerRooms - {userId};
      if |rest| == 0 {
        rooms := rooms - {code};
      }
      assert rooms == AfterLeave(oldRooms, code, userId);
      left := true;
      if IndexOk(oldRooms, oldIndex) {
        LeaveKeepsIndex(oldRooms, oldIndex, userId);
      }
    }

    /** `setPlayerReady(userId, ready)`: the room is returned even when it
     *  does not list the user, and is then unchanged. */
    method SetPlayerReady(userId: string, ready: bool) returns (r: Option<RoastBattleRoom>)
      modifies this
      ensures r.None? <==> RoomOf(old(rooms), old(playerRooms), userId).None?
      ensures playerRooms == old(playerRooms)
      ensures r.None? ==> rooms == old(rooms)
      ensures r.Some? ==>
                var code := old(playerRooms)[userId];
                && rooms == old(rooms)[code := WithReady(old(rooms)[code], userId, ready)]
                && r.value == rooms[code]
      ensures old(Valid()) ==> Valid()
    {
      if userId !in playerRooms || playerRooms[userId] == "" {
        return None;
      }
      var code := playerRooms[userId];
      if code !in rooms {
        return None;
      }
      var room := rooms[code];
      var found := FindPlayer(room.players, userId);
      if found.Some? {
        var i := found.value;
        room := room.(players := room.players[i := room.players[i].(isReady := ready)]);
        ghost var oldRooms := rooms;
        rooms := rooms[code := room];
        ReplacePlayerKeepsMembers(oldRooms[code].players, i, room.players[i]);
      }
      r := Some(room);
    }

    /** `canStartGame(roomCode)`. */
    predicate CanStartGame(roomCode: string)
      reads this
    {
      roomCode in rooms && CanStart(rooms[roomCode])
    }

    /** `startGame(roomCode)`: succeeds exactly when the game can start, in
     *  whatever status the room is, and puts it in round 1. */
    method StartGame(roomCode: string) returns (r: Option<RoastBattleRoom>)
      modifies this
      ensures r.Some? <==> old(CanStartGame(roomCode))
      ensures r.Some? ==> rooms == old(rooms)[roomCode := old(rooms)[roomCode].(status := Active, currentRound := 1)]
                          && r.value == rooms[roomCode]
      ensures r.None? ==> rooms == old(rooms)
      ensures playerRooms == old(playerRooms)
      ensures old(Valid()) ==> Valid()
    {
      if roomCode !in rooms || !CanStartGame(roomCode) {
        return None;
      }
      var room := rooms[roomCode].(status := Active, currentRound := 1);
      rooms := rooms[roomCode := room];
      r := Some(room);
    }

    /** `submitRoast(userId, roastText, targetId)` at time `now`. */
    method SubmitRoast(userId: string, roastText: string, targetId: string, now: int)
      returns (r: Option<RoastSubmission>)
      modifies this
      ensures r.Some? <==> && RoomOf(old(rooms), old(playerRooms), userId).Some?
                           && old(rooms)[old(playerRooms)[userId]].status == Active
                           && HasUser(old(rooms)[old(playerRooms)[userId]].players, userId)
      ensures r.None? ==> rooms == old(rooms)
      ensures playerRooms == old(playerRooms)
      ensures r.Some? ==>
                var code := old(playerRooms)[userId];
                var room := old(rooms)[code];
                var i := FindPlayer(room.players, userId).value;
                && r.value == RoastSubmission(userId, roastText, targetId, RoastGenerator.RoastScore(roastText), now)
                && 50 <= r.value.score <= 100
                && rooms == old(rooms)[code := room.(players := room.players[i := Credited(room.players[i], roastText, r.value.score)])]
      ensures old(Valid()) ==> Valid()
    {
      if userId !in playerRooms || playerRooms[userId] == "" {
        return None;
      }
      var code := playerRooms[userId];
      if code !in rooms || rooms[code].status != Active {
        return None;
      }
      var room := rooms[code];
      var found := FindPlayer(room.players, userId);
      if found.None? {
        return None;
      }
      var i := found.value;
      var score := RoastGenerator.ScoreRoast(roastText);
      var players := room.players[i := Credited(room.players[i], roastText, score)];
      ghost var oldRooms := rooms;
      rooms := rooms[code := room.(players := players)];
      ReplacePlayerKeepsMembers(oldRooms[code].players, i, players[i]);
      r := Some(RoastSubmission(userId, roastText, targetId, score, now));
    }

    /** `nextRound(roomCode)`. */
    method NextRound(roomCode: string) returns (r: Option<RoastBattleRoom>)
      modifies this
      ensures r.None? <==> !(roomCode in old(rooms) && old(rooms)[roomCode].status == Active)
      ensures r.None? ==> rooms == old(rooms)
      ensures r.Some? ==> rooms == old(rooms)[roomCode := AdvanceRound(old(rooms)[roomCode])]
                          && r.value == rooms[roomCode]
      ensures playerRooms == old(playerRooms)
      ensures old(Valid()) ==> Valid()
    {
      if roomCode !in rooms || rooms[roomCode].status != Active {
        return None;
      }
      var room := rooms[roomCode];
      room := room.(currentRound := room.currentRound + 1);
      if room.currentRound > room.maxRounds {
        room := room.(status := Finished);
      }
      rooms := rooms[roomCode := room];
      r := Some(room);
    }

    /** `getLeaderboard(roomCode)`. */
    function GetLeaderboard(roomCode: string): (lb: seq<LeaderboardEntry>)
      reads this
      ensures roomCode !in rooms ==> lb == []
      ensures roomCode in rooms ==> |lb| == |rooms[roomCode].players|
      ensures forall i :: 0 <= i < |lb| ==> lb[i].rank == i + 1
    {
      if roomCode !in rooms then [] else Leaderboard(rooms[roomCode].players)
    }

    /** `getRoom(roomCode)`: null rather than an error for an unknown code. */
    function GetRoom(roomCode: string): (r: Option<RoastBattleRoom>)
      reads this
      ensures r.Some? <==> roomCode in rooms
      ensures r.Some? ==> r.value == rooms[roomCode]
    {
      if roomCode in rooms then Some(rooms[roomCode]) else None
    }

    /** `getRoomByUserId(userId)`. */
    function GetRoomByUserId(userId: string): (r: Option<RoastBattleRoom>)
      reads this
      ensures r.Some? <==> RoomOf(rooms, playerRooms, userId).Some?
      ensures Valid() && r.Some? ==> HasUser(r.value.players, userId)
    {
      match RoomOf(rooms, playerRooms, userId)
      case None => None
      case Some(c) => Some(rooms[c])
    }

    /** `getAllRooms()`, as the set of stored rooms. */
    function AllRooms(): (rs: set<RoastBattleRoom>)
      reads this
      ensures forall c :: c in rooms ==> rooms[c] in rs
      ensures forall room :: room in rs ==> exists c :: c in rooms && rooms[c] == room
    {
      set c | c in rooms :: rooms[c]
    }

    /** The inner loop of `cleanupExpiredRooms`: every listed player's entry
     *  is dropped, wherever it points. */
    method UnindexRoom(players: seq<RoomPlayer>)
      modifies this
      ensures rooms == old(rooms)
      ensures playerRooms == map u | u in old(playerRooms) && !HasUser(players, u) :: old(playerRooms)[u]
    {
      ghost var index1 := playerRooms;
      var j := 0;
      while j < |players|
        invariant 0 <= j <= |players|
        invariant rooms == old(rooms)
        invariant playerRooms == map u | u in index1 && !HasUser(players[..j], u) :: index1[u]
      {
        var id := players[j].userId;
        assert players[..j + 1] == players[..j] + [players[j]];
        playerRooms := playerRooms - {id};
        j := j + 1;
      }
      assert players[..j] == players;
    }

    /** `cleanupExpiredRooms()` at time `now`, as written: every player of
     *  an expired room loses their index entry. */
    method CleanupExpiredRooms(now: int)
      modifies this
      ensures rooms == CleanedRooms(old(rooms), now)
      ensures playerRooms == CleanedIndexAsWritten(old(rooms), old(playerRooms), now)
      ensures old(Valid()) ==> Valid()
    {
      ghost var rooms0, index0 := rooms, playerRooms;
      var pending := rooms.Keys;
      while pending != {}
        invariant pending <= rooms0.Keys
        invariant rooms == Unswept(rooms0, pending, now)
        invariant playerRooms == UnlistedIndex(rooms0, index0, rooms0.Keys - pending, now)
        decreases pending
      {
        var code :| code in pending;
        var room := rooms[code];
        SweepOneRoom(rooms0, index0, pending, code, now);
        if now - room.createdAt > MaxAgeMs {
          UnindexRoom(room.players);
          rooms := rooms - {code};
        }
        pending := pending - {code};
      }
      assert rooms0.Keys - pending == rooms0.Keys;
      if IndexOk(rooms0, index0) {
        CleanupAsWrittenKeepsIndex(rooms0, index0, now);
      }
    }
  }
}
