/**
 * The client's battle store (frontend/store/multiplayerStore.ts): the room
 * the client shows, its leaderboard, and whether the client is in a room.
 */
module MultiplayerStore {
  import opened Text
  import opened Types

  /** The store's fields as a value. */
  datatype StoreState = StoreState(
    currentRoom: Option<RoastBattleRoom>, leaderboard: seq<LeaderboardEntry>, isInRoom: bool)

  /** The flag agrees with the room. */
  predicate Consistent(s: StoreState)
  {
    s.isInRoom <==> s.currentRoom.Some?
  }

  const Empty := StoreState(None, [], false)

  /** `setCurrentRoom(room)` on the fields. */
  function WithRoom(s: StoreState, room: Option<RoastBattleRoom>): StoreState
  {
    s.(currentRoom := room, isInRoom := room.Some?)
  }

  /** `updateRoom(room)` on the fields. */
  function Updated(s: StoreState, room: RoastBattleRoom): StoreState
  {
    s.(currentRoom := Some(room))
  }

  /** `setCurrentRoom` and `leaveRoom` always leave the flag agreeing with
   *  the room, and `updateRoom` keeps it agreeing while a room is shown;
   *  but `updateRoom` keeps the flag even when there was no room, so a room
   *  pushed after `leaveRoom` is shown while the flag says the client is
   *  not in a room. */
  lemma Consistency(s: StoreState, room: RoastBattleRoom, next: Option<RoastBattleRoom>)
    ensures Consistent(WithRoom(s, next)) && Consistent(Empty)
    ensures Consistent(s) && s.currentRoom.Some? ==> Consistent(Updated(s, room))
    ensures !Consistent(Updated(Empty, room))
  {
  }

  class MultiplayerStore {
    var currentRoom: Option<RoastBattleRoom>
    var leaderboard: seq<LeaderboardEntry>
    var isInRoom: bool

    function State(): StoreState
      reads this
    {
      StoreState(currentRoom, leaderboard, isInRoom)
    }

    constructor()
      ensures State() == Empty
    {
      currentRoom := None;
      leaderboard := [];
      isInRoom := false;
    }

    /** `setCurrentRoom(room)`: the flag follows whether there is a room. */
    method SetCurrentRoom(room: Option<RoastBattleRoom>)
      modifies this
      ensures State() == WithRoom(old(State()), room)
    {
      currentRoom := room;
      isInRoom := room.Some?;
    }

    /** `updateRoom(room)`: replaces the room only. */
    method UpdateRoom(room: RoastBattleRoom)
      modifies this
      ensures State() == Updated(old(State()), room)
    {
      currentRoom := Some(room);
    }

    method SetLeaderboard(entries: seq<LeaderboardEntry>)
      modifies this
      ensures State() == old(State()).(leaderboard := entries)
    {
      leaderboard := entries;
    }

    method SetInRoom(inRoom: bool)
      modifies this
      ensures State() == old(State()).(isInRoom := inRoom)
    {
      isInRoom := inRoom;
    }

    /** `leaveRoom()`: back to the initial state. */
    method LeaveRoom()
      modifies this
      ensures State() == Empty
    {
      currentRoom := None;
      leaderboard := [];
      isInRoom := false;
    }
  }
}
