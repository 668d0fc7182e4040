/** The room service: a keyed store of room documents and the six
    operations that load a room, check their guards in a fixed order,
    change the loaded copy and write it back. */
module RoomServices {
  import opened RoomModels

  /** Seconds a room document lives after its last write (48 hours). */
  const RoomTtl: nat := 172800

  /** The failures the service raises, each with a fixed message. */
  datatype ServiceError =
    | InvalidVote
    | RoomNotFound
    | UserNotInRoom
    | CannotVoteInComplete
    | AlreadyComplete
      /** Rejected by the user or room model when the service builds one. */
    | ValidationFailed(model: string)

  function Message(e: ServiceError): string {
    match e
    case InvalidVote => "Invalid vote value. Must be Fibonacci: " + ValidFibonacciText
    case RoomNotFound => "Room not found"
    case UserNotInRoom => "User not in room"
    case CannotVoteInComplete => "Cannot vote in complete state"
    case AlreadyComplete => "Room already in complete state"
    case ValidationFailed(model) => "1 validation error for " + model
  }

  /** Store key of a room document. */
  function Key(roomId: RoomId): string {
    "room:" + roomId
  }

  /** Distinct rooms never share a key. */
  lemma KeyInjective(a: RoomId, b: RoomId)
    ensures Key(a) == Key(b) <==> a == b
  {
    if Key(a) == Key(b) {
      assert a == Key(a)[5..];
      assert b == Key(b)[5..];
    }
  }

  /** A stored document together with the expiry it was written with. */
  datatype Entry = Entry(room: Room, ttl: nat)

  /** Every document sits under its own room's key, was written with the
      full retention time and is admitted by the room model. */
  predicate StoreWellFormed(docs: map<string, Entry>) {
    forall k | k in docs :: k == Key(docs[k].room.id) && docs[k].ttl == RoomTtl && RoomValid(docs[k].room)
  }

  /** The projection while voting: who has voted, never what. */
  function ToVotingState(room: Room): RoomVotingState {
    RoomVotingState(room.id, room.name, room.state, room.createdAt,
      map u | u in room.users :: UserWithVoteStatus(room.users[u].name, room.users[u].vote.Some?))
  }

  /** The projection once revealed: every stored vote, absent ones included. */
  function ToCompleteState(room: Room): RoomCompleteState {
    RoomCompleteState(room.id, room.name, room.state, room.createdAt,
      map u | u in room.users :: UserWithVote(room.users[u].name, room.users[u].vote))
  }

  /** The projection that matches the room's current state. */
  function ToCurrentView(room: Room): RoomView {
    if room.state == Voting then VotingView(ToVotingState(room)) else CompleteView(ToCompleteState(room))
  }

  /** The caller is a member of a room that exists. */
  predicate IsMember(stored: Option<Room>, userId: UserId) {
    stored.Some? && userId in stored.value.users
  }

  /** The room after a new member with no vote is added. */
  function WithUser(room: Room, userId: UserId, name: string): Room {
    room.(users := room.users[userId := User(name, None)])
  }

  /** The room after a member's vote is set. */
  function WithVote(room: Room, userId: UserId, vote: int): Room
    requires userId in room.users
  {
    room.(users := room.users[userId := room.users[userId].(vote := Some(vote))])
  }

  /** The room after its votes are revealed. */
  function Revealed(room: Room): Room {
    room.(state := Complete)
  }

  /** The room after a reset: voting again, every vote cleared. */
  function ResetRound(room: Room): Room {
    room.(state := Voting, users := map u | u in room.users :: room.users[u].(vote := None))
  }

  /** Clears every user's vote, one user at a time. */
  method ClearVotes(users: map<UserId, User>) returns (cleared: map<UserId, User>)
    ensures cleared.Keys == users.Keys
    ensures forall u | u in cleared :: cleared[u] == User(users[u].name, None)
  {
    cleared := users;
    var pending := users.Keys;
    while pending != {}
      invariant pending <= users.Keys
      invariant cleared.Keys == users.Keys
      invariant forall u | u in cleared && u !in pending :: cleared[u] == User(users[u].name, None)
      invariant forall u | u in pending :: cleared[u] == users[u]
      decreases pending
    {
      var u :| u in pending;
      cleared := cleared[u := cleared[u].(vote := None)];
      pending := pending - {u};
    }
  }

  /** The service, holding the keyed document store it reads and writes. */
  class RoomService {
    var store: map<string, Entry>

    predicate Valid()
      reads this
    {
      StoreWellFormed(store)
    }

    /** The room stored for an id, if any. */
    function Lookup(roomId: RoomId): Option<Room>
      reads this
    {
      if Key(roomId) in store then Some(store[Key(roomId)].room) else None
    }

    constructor (docs: map<string, Entry>)
      requires StoreWellFormed(docs)
      ensures Valid() && store == docs
    {
      store := docs;
    }

    /** Loads a room document; the loaded room carries the requested id and
        is one the room model admits. */
    method GetRoomFromStore(roomId: RoomId) returns (room: Option<Room>)
      requires Valid()
      ensures room == Lookup(roomId)
      ensures room.Some? ==> room.value.id == roomId && RoomValid(room.value)
    {
      var key := Key(roomId);
      if key in store {
        room := Some(store[key].room);
        KeyInjective(roomId, room.value.id);
      } else {
        room := None;
      }
    }

    /** Writes a room under its key with the full retention time. */
    method SaveRoom(room: Room)
      requires Valid() && RoomValid(room)
      modifies this
      ensures Valid()
      ensures store == old(store)[Key(room.id) := Entry(room, RoomTtl)]
      ensures Lookup(room.id) == Some(room)
    {
      store := store[Key(room.id) := Entry(room, RoomTtl)];
    }

    method CreateRoom(roomName: string, creatorName: string, roomId: RoomId, userId: UserId, now: Timestamp)
      returns (r: Result<(RoomId, UserId, RoomVotingState), ServiceError>)
      requires Valid()
      modifies this
      ensures Valid()
      ensures |creatorName| > MaxUserName ==> r == Failure(ValidationFailed("User"))
      ensures |creatorName| <= MaxUserName && |roomName| > MaxRoomName ==> r == Failure(ValidationFailed("Room"))
      ensures r.Failure? ==> store == old(store)
      ensures |creatorName| <= MaxUserName && |roomName| <= MaxRoomName ==>
        var room := Room(roomId, roomName, Voting, now, map[userId := User(creatorName, None)]);
        && store == old(store)[Key(roomId) := Entry(room, RoomTtl)]
        && r == Success((roomId, userId, ToVotingState(room)))
      ensures r.Success? ==>
        && r.value.2.id == roomId && r.value.2.name == roomName && r.value.2.state == Voting
        && r.value.2.users == map[userId := UserWithVoteStatus(creatorName, false)]
    {
      if |creatorName| > MaxUserName {
        return Failure(ValidationFailed("User"));
      }
      if |roomName| > MaxRoomName {
        return Failure(ValidationFailed("Room"));
      }
      var room := Room(roomId, roomName, Voting, now, map[userId := User(creatorName, None)]);
      SaveRoom(room);
      r := Success((roomId, userId, ToVotingState(room)));
    }

    method JoinRoom(roomId: RoomId, userName: string, userId: UserId)
      returns (r: Result<(UserId, RoomView), ServiceError>)
      requires Valid()
      requires Lookup(roomId).Some? ==> userId !in Lookup(roomId).value.users
      modifies this
      ensures Valid()
      ensures old(Lookup(roomId)).None? ==> r == Failure(RoomNotFound)
      ensures old(Lookup(roomId)).Some? && |userName| > MaxUserName ==> r == Failure(ValidationFailed("User"))
      ensures r.Failure? ==> store == old(store)
      ensures old(Lookup(roomId)).Some? && |userName| <= MaxUserName ==>
        var joined := WithUser(old(Lookup(roomId)).value, userId, userName);
        && store == old(store)[Key(roomId) := Entry(joined, RoomTtl)]
        && r == Success((userId, ToCurrentView(joined)))
    {
      var loaded := GetRoomFromStore(roomId);
      if loaded.None? {
        return Failure(RoomNotFound);
      }
      if |userName| > MaxUserName {
        return Failure(ValidationFailed("User"));
      }
      var room := loaded.value;
      room := room.(users := room.users[userId := User(userName, None)]);
      SaveRoom(room);
      if room.state == Voting {
        r := Success((userId, VotingView(ToVotingState(room))));
      } else {
        r := Success((userId, CompleteView(ToCompleteState(room))));
      }
    }

    /** Reads a room for one of its members; changes nothing. */
    method GetRoom(roomId: RoomId, userId: UserId) returns (r: Result<RoomView, ServiceError>)
      requires Valid()
      ensures Lookup(roomId).None? ==> r == Failure(RoomNotFound)
      ensures Lookup(roomId).Some? && userId !in Lookup(roomId).value.users ==> r == Failure(UserNotInRoom)
      ensures IsMember(Lookup(roomId), userId) ==> r == Success(ToCurrentView(Lookup(roomId).value))
      ensures r.Success? ==> (r.value.VotingView? <==> Lookup(roomId).value.state == Voting)
    {
      var loaded := GetRoomFromStore(roomId);
      if loaded.None? {
        return Failure(RoomNotFound);
      }
      var room := loaded.value;
      if userId !in room.users {
        return Failure(UserNotInRoom);
      }
      if room.state == Voting {
        r := Success(VotingView(ToVotingState(room)));
      } else {
        r := Success(CompleteView(ToCompleteState(room)));
      }
    }

    method Vote(roomId: RoomId, userId: UserId, vote: int) returns (r: Result<RoomVotingState, ServiceError>)
      requires Valid()
      modifies this
      ensures Valid()
      ensures !IsValidVote(vote) ==> r == Failure(InvalidVote)
      ensures IsValidVote(vote) && old(Lookup(roomId)).None? ==> r == Failure(RoomNotFound)
      ensures IsValidVote(vote) && old(Lookup(roomId)).Some? && userId !in old(Lookup(roomId)).value.users ==>
        r == Failure(UserNotInRoom)
      ensures IsValidVote(vote) && IsMember(old(Lookup(roomId)), userId) && old(Lookup(roomId)).value.state == Complete ==>
        r == Failure(CannotVoteInComplete)
      ensures r.Failure? ==> store == old(store)
      ensures IsValidVote(vote) && IsMember(old(Lookup(roomId)), userId) && old(Lookup(roomId)).value.state == Voting ==>
        var voted := WithVote(old(Lookup(roomId)).value, userId, vote);
        && store == old(store)[Key(roomId) := Entry(voted, RoomTtl)]
        && r == Success(ToVotingState(voted))
    {
      if vote !in ValidFibonacci {
        return Failure(InvalidVote);
      }
      var loaded := GetRoomFromStore(roomId);
      if loaded.None? {
        return Failure(RoomNotFound);
      }
      var room := loaded.value;
      if userId !in room.users {
        return Failure(UserNotInRoom);
      }
      if room.state == Complete {
        return Failure(CannotVoteInComplete);
      }
      room := room.(users := room.users[userId := room.users[userId].(vote := Some(vote))]);
      SaveRoom(room);
      r := Success(ToVotingState(room));
    }

    method Reveal(roomId: RoomId, userId: UserId) returns (r: Result<RoomCompleteState, ServiceError>)
      requires Valid()
      modifies this
      ensures Valid()
      ensures old(Lookup(roomId)).None? ==> r == Failure(RoomNotFound)
      ensures old(Lookup(roomId)).Some? && userId !in old(Lookup(roomId)).value.users ==> r == Failure(UserNotInRoom)
      ensures IsMember(old(Lookup(roomId)), userId) && old(Lookup(roomId)).value.state == Complete ==>
        r == Failure(AlreadyComplete)
      ensures r.Failure? ==> store == old(store)
      ensures IsMember(old(Lookup(roomId)), userId) && old(Lookup(roomId)).value.state == Voting ==>
        var revealed := Revealed(old(Lookup(roomId)).value);
        && store == old(store)[Key(roomId) := Entry(revealed, RoomTtl)]
        && r == Success(ToCompleteState(revealed))
    {
      var loaded := GetRoomFromStore(roomId);
      if loaded.None? {
        return Failure(RoomNotFound);
      }
      var room := loaded.value;
      if userId !in room.users {
        return Failure(UserNotInRoom);
      }
      if room.state == Complete {
        return Failure(AlreadyComplete);
      }
      room := room.(state := Complete);
      SaveRoom(room);
      r := Success(ToCompleteState(room));
    }

    method Reset(roomId: RoomId, userId: UserId) returns (r: Result<RoomVotingState, ServiceError>)
      requires Valid()
      modifies this
      ensures Valid()
      ensures old(Lookup(roomId)).None? ==> r == Failure(RoomNotFound)
      ensures old(Lookup(roomId)).Some? && userId !in old(Lookup(roomId)).value.users ==> r == Failure(UserNotInRoom)
      ensures r.Failure? ==> store == old(store)
      ensures IsMember(old(Lookup(roomId)), userId) ==>
        var reset := ResetRound(old(Lookup(roomId)).value);
        && store == old(store)[Key(roomId) := Entry(reset, RoomTtl)]
        && r == Success(ToVotingState(reset))
    {
      var loaded := GetRoomFromStore(roomId);
      if loaded.None? {
        return Failure(RoomNotFound);
      }
      var room := loaded.value;
      if userId !in room.users {
        return Failure(UserNotInRoom);
      }
      room := room.(state := Voting);
      var users := ClearVotes(room.users);
      room := room.(users := users);
      assert room == ResetRound(loaded.value);
      SaveRoom(room);
      r := Success(ToVotingState(room));
    }
  }
}
