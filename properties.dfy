/** Properties of the room service: what each transition changes and keeps,
    how the two views relate to the stored room, and client runs of the
    service that replay its documented scenarios. */
module ServiceProperties {
  import opened RoomModels
  import opened RoomServices

  /** The room a complete view describes, read back from the view. */
  function RoomOfCompleteView(v: RoomCompleteState): Room {
    Room(v.id, v.name, v.state, v.createdAt, map u | u in v.users :: User(v.users[u].name, v.users[u].vote))
  }

  /** The voting view has the room's user ids and room fields, and for each
      user only the name and whether a vote is present. */
  lemma VotingViewFaithful(room: Room)
    ensures var v := ToVotingState(room);
      && v.id == room.id && v.name == room.name && v.state == room.state && v.createdAt == room.createdAt
      && v.users.Keys == room.users.Keys
      && forall u | u in v.users :: v.users[u].name == room.users[u].name && (v.users[u].hasVoted <==> room.users[u].vote != None)
  {
  }

  /** Confidentiality: two rooms that differ only in which values were voted
      (not in who voted) give the same voting view. */
  lemma VotingViewHidesVotes(a: Room, b: Room)
    requires a.id == b.id && a.name == b.name && a.state == b.state && a.createdAt == b.createdAt
    requires a.users.Keys == b.users.Keys
    requires forall u | u in a.users :: a.users[u].name == b.users[u].name && a.users[u].vote.Some? == b.users[u].vote.Some?
    ensures ToVotingState(a) == ToVotingState(b)
  {
  }

  /** The complete view loses nothing: the room is recovered from it
      exactly, every vote included (absent ones as absent). */
  lemma CompleteViewRoundTrip(room: Room)
    ensures RoomOfCompleteView(ToCompleteState(room)) == room
  {
  }

  /** The current view is the voting view exactly while voting. */
  lemma CurrentViewFollowsState(room: Room)
    ensures ToCurrentView(room).VotingView? <==> room.state == Voting
    ensures room.state == Voting ==> ToCurrentView(room) == VotingView(ToVotingState(room))
    ensures room.state == Complete ==> ToCurrentView(room) == CompleteView(ToCompleteState(room))
  {
  }

  /** Joining adds exactly the new member, with no vote, and leaves every
      existing member, the state and the room fields as they were. */
  lemma JoinAddsOneUser(room: Room, userId: UserId, name: string)
    requires userId !in room.users
    ensures var joined := WithUser(room, userId, name);
      && joined.users.Keys == room.users.Keys + {userId}
      && |joined.users| == |room.users| + 1
      && joined.users[userId] == User(name, None)
      && (forall u | u in room.users :: joined.users[u] == room.users[u])
      && joined.id == room.id && joined.name == room.name && joined.state == room.state
      && joined.createdAt == room.createdAt
    ensures RoomValid(room) && |name| <= MaxUserName ==> RoomValid(WithUser(room, userId, name))
  {
  }

  /** A vote changes only the voter's vote: same members, same names, same
      state, every other member untouched; a later vote overwrites it. */
  lemma VoteChangesOnlyTheVoter(room: Room, userId: UserId, vote: int)
    requires userId in room.users
    ensures var voted := WithVote(room, userId, vote);
      && voted.users.Keys == room.users.Keys
      && voted.users[userId] == User(room.users[userId].name, Some(vote))
      && (forall u | u in room.users && u != userId :: voted.users[u] == room.users[u])
      && voted.id == room.id && voted.name == room.name && voted.state == room.state
      && voted.createdAt == room.createdAt
    ensures RoomValid(room) && IsValidVote(vote) ==> RoomValid(WithVote(room, userId, vote))
    ensures forall later: int :: WithVote(WithVote(room, userId, vote), userId, later) == WithVote(room, userId, later)
  {
  }

  /** Revealing changes the state to complete and nothing else. */
  lemma RevealKeepsVotes(room: Room)
    ensures Revealed(room).state == Complete
    ensures Revealed(room).users == room.users
    ensures Revealed(room).(state := room.state) == room
    ensures RoomValid(room) ==> RoomValid(Revealed(room))
  {
  }

  /** After a reset the room is voting, every vote is cleared, and the
      member ids and names are those from before. */
  lemma ResetClearsVotes(room: Room)
    ensures var reset := ResetRound(room);
      && reset.state == Voting
      && reset.users.Keys == room.users.Keys
      && (forall u | u in reset.users :: reset.users[u].vote == None && reset.users[u].name == room.users[u].name)
      && reset.id == room.id && reset.name == room.name && reset.createdAt == room.createdAt
    ensures RoomValid(room) ==> RoomValid(ResetRound(room))
    ensures forall u | u in ToVotingState(ResetRound(room)).users :: !ToVotingState(ResetRound(room)).users[u].hasVoted
  {
  }

  /** A reset forgets the round: resetting twice is resetting once, and
      neither a reveal nor a vote before it changes what it yields. */
  lemma ResetForgetsTheRound(room: Room, userId: UserId, vote: int)
    requires userId in room.users
    ensures ResetRound(ResetRound(room)) == ResetRound(room)
    ensures ResetRound(Revealed(room)) == ResetRound(room)
    ensures ResetRound(WithVote(room, userId, vote)) == ResetRound(room)
  {
  }

  /** A new service in which "Alice" created a room and "Bob" joined it,
      and only Alice has voted (5). */
  method AliceVotedBobJoined(roomId: RoomId, aliceId: UserId, bobId: UserId, now: Timestamp) returns (svc: RoomService)
    requires aliceId != bobId
    ensures fresh(svc) && svc.Valid()
    ensures svc.Lookup(roomId) ==
      Some(WithVote(WithUser(Room(roomId, "Test Room", Voting, now, map[aliceId := User("Alice", None)]), bobId, "Bob"), aliceId, 5))
  {
    svc := new RoomService(map[]);
    var created := svc.CreateRoom("Test Room", "Alice", roomId, aliceId, now);
    ghost var room := Room(roomId, "Test Room", Voting, now, map[aliceId := User("Alice", None)]);
    assert svc.Lookup(roomId) == Some(room);
    var joined := svc.JoinRoom(roomId, "Bob", bobId);
    room := WithUser(room, bobId, "Bob");
    assert svc.Lookup(roomId) == Some(room);
    assert IsValidVote(5);
    var first := svc.Vote(roomId, aliceId, 5);
    room := WithVote(room, aliceId, 5);
    assert svc.Lookup(roomId) == Some(room);
  }

  /** A new service in which "Alice" created a room and voted 5. */
  method AliceVoted(roomId: RoomId, userId: UserId, now: Timestamp) returns (svc: RoomService)
    ensures fresh(svc) && svc.Valid()
    ensures svc.Lookup(roomId) == Some(WithVote(Room(roomId, "Test Room", Voting, now, map[userId := User("Alice", None)]), userId, 5))
  {
    svc := new RoomService(map[]);
    var created := svc.CreateRoom("Test Room", "Alice", roomId, userId, now);
    ghost var room := Room(roomId, "Test Room", Voting, now, map[userId := User("Alice", None)]);
    assert svc.Lookup(roomId) == Some(room);
    assert IsValidVote(5);
    var first := svc.Vote(roomId, userId, 5);
    room := WithVote(room, userId, 5);
    assert svc.Lookup(roomId) == Some(room);
  }

  /** Create, join, one vote, read by the second member: the read shows
      who has voted and no vote value. */
  method VotingRoundHidesVotes(roomId: RoomId, aliceId: UserId, bobId: UserId, now: Timestamp)
    returns (view: Result<RoomView, ServiceError>)
    requires aliceId != bobId
    ensures view.Success? && view.value.VotingView? && view.value.voting.state == Voting
    ensures view.value.voting.users.Keys == {aliceId, bobId}
    ensures view.value.voting.users[aliceId] == UserWithVoteStatus("Alice", true)
    ensures view.value.voting.users[bobId] == UserWithVoteStatus("Bob", false)
  {
    var svc := AliceVotedBobJoined(roomId, aliceId, bobId, now);
    view := svc.GetRoom(roomId, bobId);
  }

  /** Create, vote 5, reveal: the revealed view shows the vote; revealing
      again fails, and so does a later vote. */
  method RevealShowsVoteThenFreezes(roomId: RoomId, userId: UserId, now: Timestamp)
    returns (revealed: Result<RoomCompleteState, ServiceError>, again: Result<RoomCompleteState, ServiceError>,
             late: Result<RoomVotingState, ServiceError>)
    ensures revealed.Success? && revealed.value.state == Complete
    ensures revealed.value.users.Keys == {userId} && revealed.value.users[userId] == UserWithVote("Alice", Some(5))
    ensures again == Failure(AlreadyComplete)
    ensures late == Failure(CannotVoteInComplete)
  {
    var svc := AliceVoted(roomId, userId, now);
    revealed := svc.Reveal(roomId, userId);
    again := svc.Reveal(roomId, userId);
    assert IsValidVote(8);
    late := svc.Vote(roomId, userId, 8);
  }

  /** A reset after a revealed round reopens voting with nobody voted. */
  method ResetReopensVoting(roomId: RoomId, userId: UserId, now: Timestamp)
    returns (reset: Result<RoomVotingState, ServiceError>)
    ensures reset.Success? && reset.value.state == Voting
    ensures reset.value.users.Keys == {userId} && reset.value.users[userId] == UserWithVoteStatus("Alice", false)
  {
    var svc := AliceVoted(roomId, userId, now);
    var revealed := svc.Reveal(roomId, userId);
    reset := svc.Reset(roomId, userId);
  }

  /** The vote value is checked before the store is read: 7 is refused as
      an invalid vote even when the room does not exist. */
  method VoteValueCheckedFirst(roomId: RoomId, userId: UserId) returns (r: Result<RoomVotingState, ServiceError>)
    ensures r == Failure(InvalidVote)
  {
    var svc := new RoomService(map[]);
    r := svc.Vote(roomId, userId, 7);
  }
}
