/** The HTTP endpoints over the room service: each validates its request
    body, delegates once to the service, and turns a service error into a
    status code by looking for fixed phrases in the error's message. */
module RoomRoutes {
  import opened RoomModels
  import opened RoomServices

  const StatusOk := 200
  const StatusCreated := 201
  const StatusBadRequest := 400
  const StatusForbidden := 403
  const StatusNotFound := 404

  /** What an endpoint does with a service error's message. */
  datatype ErrorHandling = Respond(status: int) | Reraise

  /** What an endpoint answers. */
  datatype Reply<T> =
    | Ok(status: int, body: T)
    | HttpError(status: int, detail: string)
      /** The request body failed validation (422) before the handler ran. */
    | RequestRejected
      /** A service error the endpoint does not handle, raised again. */
    | Unhandled(message: string)

  /** `needle` occurs in `s` starting at position i. */
  predicate OccursAt(s: string, needle: string, i: int) {
    0 <= i && i + |needle| <= |s| && s[i..i + |needle|] == needle
  }

  /** Substring test: whether `needle` occurs anywhere in `s`. */
  predicate Contains(s: string, needle: string) {
    exists i | 0 <= i <= |s| - |needle| :: OccursAt(s, needle, i)
  }

  /** A needle with a character that `s` lacks does not occur in `s`. */
  lemma MissingCharNotContained(s: string, needle: string, j: nat)
    requires j < |needle| && needle[j] !in s
    ensures !Contains(s, needle)
  {
  }

  /** Join: a message naming something "not found" is 404; anything else is raised again. */
  function JoinErrorStatus(message: string): ErrorHandling {
    if Contains(message, "not found") then Respond(StatusNotFound) else Reraise
  }

  /** Read: every service error is 404. */
  function GetErrorStatus(message: string): ErrorHandling {
    Respond(StatusNotFound)
  }

  /** Vote: invalid vote 400, vote after reveal 403, missing room or member 404. */
  function VoteErrorStatus(message: string): ErrorHandling {
    if Contains(message, "Invalid vote") then Respond(StatusBadRequest)
    else if Contains(message, "Cannot vote in complete state") then Respond(StatusForbidden)
    else if Contains(message, "not found") || Contains(message, "not in room") then Respond(StatusNotFound)
    else Reraise
  }

  /** Reveal: second reveal 403, missing room or member 404. */
  function RevealErrorStatus(message: string): ErrorHandling {
    if Contains(message, "already in complete state") then Respond(StatusForbidden)
    else if Contains(message, "not found") || Contains(message, "not in room") then Respond(StatusNotFound)
    else Reraise
  }

  /** Reset: every service error is 404. */
  function ResetErrorStatus(message: string): ErrorHandling {
    Respond(StatusNotFound)
  }

  /** "Invalid vote" is the first phrase the vote endpoint looks for. */
  lemma InvalidVoteIsBadRequest()
    ensures VoteErrorStatus(Message(InvalidVote)) == Respond(StatusBadRequest)
  {
    assert OccursAt(Message(InvalidVote), "Invalid vote", 0);
  }

  // One lemma per absent phrase. "Invalid vote" starts with an 'I' that the
  // message lacks; the two state phrases are longer than the message.

  lemma RoomNotFoundLacksInvalidVote()
    ensures !Contains("Room not found", "Invalid vote")
  {
    MissingCharNotContained("Room not found", "Invalid vote", 0);
  }

  lemma RoomNotFoundLacksCannotVote()
    ensures !Contains("Room not found", "Cannot vote in complete state")
  {
  }

  lemma RoomNotFoundLacksAlreadyComplete()
    ensures !Contains("Room not found", "already in complete state")
  {
  }

  lemma UserNotInRoomLacksInvalidVote()
    ensures !Contains("User not in room", "Invalid vote")
  {
    MissingCharNotContained("User not in room", "Invalid vote", 0);
  }

  lemma UserNotInRoomLacksCannotVote()
    ensures !Contains("User not in room", "Cannot vote in complete state")
  {
  }

  lemma UserNotInRoomLacksAlreadyComplete()
    ensures !Contains("User not in room", "already in complete state")
  {
  }

  /** "Room not found" holds none of the 400 and 403 phrases, and "not found". */
  lemma RoomNotFoundPhrases()
    ensures !Contains(Message(RoomNotFound), "Invalid vote")
    ensures !Contains(Message(RoomNotFound), "Cannot vote in complete state")
    ensures !Contains(Message(RoomNotFound), "already in complete state")
    ensures Contains(Message(RoomNotFound), "not found")
  {
    RoomNotFoundLacksInvalidVote();
    RoomNotFoundLacksCannotVote();
    RoomNotFoundLacksAlreadyComplete();
    assert OccursAt(Message(RoomNotFound), "not found", 5);
  }

  /** "User not in room" holds none of the 400 and 403 phrases, and "not in room". */
  lemma UserNotInRoomPhrases()
    ensures !Contains(Message(UserNotInRoom), "Invalid vote")
    ensures !Contains(Message(UserNotInRoom), "Cannot vote in complete state")
    ensures !Contains(Message(UserNotInRoom), "already in complete state")
    ensures Contains(Message(UserNotInRoom), "not in room")
  {
    UserNotInRoomLacksInvalidVote();
    UserNotInRoomLacksCannotVote();
    UserNotInRoomLacksAlreadyComplete();
    assert OccursAt(Message(UserNotInRoom), "not in room", 5);
  }

  /** "Cannot vote in complete state" lacks "Invalid vote" and holds itself. */
  lemma CannotVotePhrases()
    ensures !Contains(Message(CannotVoteInComplete), "Invalid vote")
    ensures Contains(Message(CannotVoteInComplete), "Cannot vote in complete state")
  {
    MissingCharNotContained("Cannot vote in complete state", "Invalid vote", 0);
    assert OccursAt(Message(CannotVoteInComplete), "Cannot vote in complete state", 0);
  }

  /** The vote endpoint's answer to each error the vote operation raises. */
  lemma VoteErrorsClassified()
    ensures VoteErrorStatus(Message(InvalidVote)) == Respond(StatusBadRequest)
    ensures VoteErrorStatus(Message(CannotVoteInComplete)) == Respond(StatusForbidden)
    ensures VoteErrorStatus(Message(RoomNotFound)) == Respond(StatusNotFound)
    ensures VoteErrorStatus(Message(UserNotInRoom)) == Respond(StatusNotFound)
  {
    InvalidVoteIsBadRequest();
    CannotVotePhrases();
    RoomNotFoundPhrases();
    UserNotInRoomPhrases();
  }

  /** "Room already in complete state" holds the reveal endpoint's 403 phrase. */
  lemma AlreadyCompletePhrase()
    ensures Contains(Message(AlreadyComplete), "already in complete state")
  {
    assert Message(AlreadyComplete)[5..] == "already in complete state";
    assert OccursAt(Message(AlreadyComplete), "already in complete state", 5);
  }

  /** A rejected user name ("1 validation error for User") lacks "not found":
      it has no lower-case 'u'. */
  lemma UserValidationLacksNotFound()
    ensures !Contains(Message(ValidationFailed("User")), "not found")
  {
    assert Message(ValidationFailed("User")) == "1 validation error for User";
    MissingCharNotContained("1 validation error for User", "not found", 6);
  }

  /** The reveal endpoint's answer to each error the reveal operation raises. */
  lemma RevealErrorsClassified()
    ensures RevealErrorStatus(Message(AlreadyComplete)) == Respond(StatusForbidden)
    ensures RevealErrorStatus(Message(RoomNotFound)) == Respond(StatusNotFound)
    ensures RevealErrorStatus(Message(UserNotInRoom)) == Respond(StatusNotFound)
  {
    AlreadyCompletePhrase();
    RoomNotFoundPhrases();
    UserNotInRoomPhrases();
  }

  /** The join endpoint answers 404 to a missing room and raises a rejected
      user name again. */
  lemma JoinErrorsClassified()
    ensures JoinErrorStatus(Message(RoomNotFound)) == Respond(StatusNotFound)
    ensures JoinErrorStatus(Message(ValidationFailed("User"))) == Reraise
  {
    assert OccursAt(Message(RoomNotFound), "not found", 5);
    UserValidationLacksNotFound();
  }

  /** The reply for a service error, as the endpoint's classification says. */
  function ErrorReply<T>(handling: ErrorHandling, message: string): Reply<T> {
    match handling
    case Respond(status) => HttpError(status, message)
    case Reraise => Unhandled(message)
  }

  method CreateRoomEndpoint(svc: RoomService, name: string, creatorName: string, roomId: RoomId, userId: UserId,
                            now: Timestamp) returns (reply: Reply<CreateRoomResponse>)
    requires svc.Valid()
    modifies svc
    ensures svc.Valid()
    ensures ParseCreateRoomRequest(name, creatorName).None? ==> reply == RequestRejected && svc.store == old(svc.store)
    ensures ParseCreateRoomRequest(name, creatorName).Some? ==>
      var room := Room(roomId, name, Voting, now, map[userId := User(creatorName, None)]);
      && svc.store == old(svc.store)[Key(roomId) := Entry(room, RoomTtl)]
      && reply == Ok(StatusCreated, CreateRoomResponse(roomId, userId, ToVotingState(room)))
    ensures !reply.Unhandled?
  {
    var request := ParseCreateRoomRequest(name, creatorName);
    if request.None? {
      return RequestRejected;
    }
    var result := svc.CreateRoom(request.value.name, request.value.creatorName, roomId, userId, now);
    match result
    case Success((rid, uid, view)) =>
      reply := Ok(StatusCreated, CreateRoomResponse(rid, uid, view));
    case Failure(e) =>
      reply := Unhandled(Message(e));
  }

  method JoinRoomEndpoint(svc: RoomService, roomId: RoomId, name: string, userId: UserId)
    returns (reply: Reply<JoinRoomResponse>)
    requires svc.Valid()
    requires svc.Lookup(roomId).Some? ==> userId !in svc.Lookup(roomId).value.users
    modifies svc
    ensures svc.Valid()
    ensures ParseJoinRoomRequest(name).None? ==> reply == RequestRejected && svc.store == old(svc.store)
    ensures ParseJoinRoomRequest(name).Some? && old(svc.Lookup(roomId)).None? ==>
      reply == HttpError(StatusNotFound, "Room not found") && svc.store == old(svc.store)
    ensures ParseJoinRoomRequest(name).Some? && old(svc.Lookup(roomId)).Some? ==>
      var joined := WithUser(old(svc.Lookup(roomId)).value, userId, name);
      && svc.store == old(svc.store)[Key(roomId) := Entry(joined, RoomTtl)]
      && reply == Ok(StatusOk, JoinRoomResponse(userId, ToCurrentView(joined)))
    ensures !reply.Unhandled?
  {
    var request := ParseJoinRoomRequest(name);
    if request.None? {
      return RequestRejected;
    }
    var result := svc.JoinRoom(roomId, request.value.name, userId);
    JoinErrorsClassified();
    match result
    case Success((uid, view)) =>
      reply := Ok(StatusOk, JoinRoomResponse(uid, view));
    case Failure(e) =>
      reply := ErrorReply(JoinErrorStatus(Message(e)), Message(e));
  }

  /** Reads a room; changes nothing. */
  method GetRoomEndpoint(svc: RoomService, roomId: RoomId, userId: UserId) returns (reply: Reply<RoomView>)
    requires svc.Valid()
    ensures svc.Lookup(roomId).None? ==> reply == HttpError(StatusNotFound, "Room not found")
    ensures svc.Lookup(roomId).Some? && userId !in svc.Lookup(roomId).value.users ==>
      reply == HttpError(StatusNotFound, "User not in room")
    ensures IsMember(svc.Lookup(roomId), userId) ==> reply == Ok(StatusOk, ToCurrentView(svc.Lookup(roomId).value))
  {
    var result := svc.GetRoom(roomId, userId);
    match result
    case Success(view) =>
      reply := Ok(StatusOk, view);
    case Failure(e) =>
      reply := ErrorReply(GetErrorStatus(Message(e)), Message(e));
  }

  method SubmitVoteEndpoint(svc: RoomService, roomId: RoomId, userId: UserId, vote: int)
    returns (reply: Reply<VoteResponse>)
    requires svc.Valid()
    modifies svc
    ensures svc.Valid()
    ensures !reply.Ok? ==> svc.store == old(svc.store)
    ensures !IsValidVote(vote) ==> reply == RequestRejected
    ensures IsValidVote(vote) && old(svc.Lookup(roomId)).None? ==> reply == HttpError(StatusNotFound, "Room not found")
    ensures IsValidVote(vote) && old(svc.Lookup(roomId)).Some? && userId !in old(svc.Lookup(roomId)).value.users ==>
      reply == HttpError(StatusNotFound, "User not in room")
    ensures IsValidVote(vote) && IsMember(old(svc.Lookup(roomId)), userId) && old(svc.Lookup(roomId)).value.state == Complete ==>
      reply == HttpError(StatusForbidden, "Cannot vote in complete state")
    ensures IsValidVote(vote) && IsMember(old(svc.Lookup(roomId)), userId) && old(svc.Lookup(roomId)).value.state == Voting ==>
      var voted := WithVote(old(svc.Lookup(roomId)).value, userId, vote);
      && svc.store == old(svc.store)[Key(roomId) := Entry(voted, RoomTtl)]
      && reply == Ok(StatusOk, VoteResponse(true, ToVotingState(voted)))
    ensures reply.HttpError? ==> reply.status != StatusBadRequest
  {
    var request := ParseVoteRequest(userId, vote);
    if request.Failure? {
      return RequestRejected;
    }
    var result := svc.Vote(roomId, request.value.userId, request.value.vote);
    VoteErrorsClassified();
    match result
    case Success(view) =>
      reply := Ok(StatusOk, VoteResponse(true, view));
    case Failure(e) =>
      reply := ErrorReply(VoteErrorStatus(Message(e)), Message(e));
  }

  method RevealEndpoint(svc: RoomService, roomId: RoomId, userId: UserId) returns (reply: Reply<RevealResponse>)
    requires svc.Valid()
    modifies svc
    ensures svc.Valid()
    ensures !reply.Ok? ==> svc.store == old(svc.store)
    ensures old(svc.Lookup(roomId)).None? ==> reply == HttpError(StatusNotFound, "Room not found")
    ensures old(svc.Lookup(roomId)).Some? && userId !in old(svc.Lookup(roomId)).value.users ==>
      reply == HttpError(StatusNotFound, "User not in room")
    ensures IsMember(old(svc.Lookup(roomId)), userId) && old(svc.Lookup(roomId)).value.state == Complete ==>
      reply == HttpError(StatusForbidden, "Room already in complete state")
    ensures IsMember(old(svc.Lookup(roomId)), userId) && old(svc.Lookup(roomId)).value.state == Voting ==>
      var revealed := Revealed(old(svc.Lookup(roomId)).value);
      && svc.store == old(svc.store)[Key(roomId) := Entry(revealed, RoomTtl)]
      && reply == Ok(StatusOk, RevealResponse(true, ToCompleteState(revealed)))
  {
    var result := svc.Reveal(roomId, userId);
    RevealErrorsClassified();
    match result
    case Success(view) =>
      reply := Ok(StatusOk, RevealResponse(true, view));
    case Failure(e) =>
      reply := ErrorReply(RevealErrorStatus(Message(e)), Message(e));
  }

  method ResetEndpoint(svc: RoomService, roomId: RoomId, userId: UserId) returns (reply: Reply<ResetResponse>)
    requires svc.Valid()
    modifies svc
    ensures svc.Valid()
    ensures !reply.Ok? ==> svc.store == old(svc.store)
    ensures old(svc.Lookup(roomId)).None? ==> reply == HttpError(StatusNotFound, "Room not found")
    ensures old(svc.Lookup(roomId)).Some? && userId !in old(svc.Lookup(roomId)).value.users ==>
      reply == HttpError(StatusNotFound, "User not in room")
    ensures IsMember(old(svc.Lookup(roomId)), userId) ==>
      var reset := ResetRound(old(svc.Lookup(roomId)).value);
      && svc.store == old(svc.store)[Key(roomId) := Entry(reset, RoomTtl)]
      && reply == Ok(StatusOk, ResetResponse(true, ToVotingState(reset)))
  {
    var result := svc.Reset(roomId, userId);
    match result
    case Success(view) =>
      reply := Ok(StatusOk, ResetResponse(true, view));
    case Failure(e) =>
      reply := ErrorReply(ResetErrorStatus(Message(e)), Message(e));
  }
}
