# Planning-poker rooms in Dafny

This project models the core of a planning-poker backend. A **room** holds a
name, a state (`voting` or `complete`), a creation time, and a map from user
id to **user** (a display name and an optional vote). Votes must come from the
single Fibonacci deck `[0, 1, 2, 3, 5, 8, 13, 21, 34, 55, 89]`. The model has
four modules:

- `RoomModels` (`models.dfy`): the data model.
  - The deck, the user and room records, and the two filtered views: the
    voting view shows only whether each user voted, the complete view shows
    the votes.
  - The request bodies and their validators: name length bounds, and the vote
    validator.
- `RoomServices` (`service.dfy`): the room service.
  - The service is a class whose one field is the key-value store, a map from
    key `"room:" + id` to the stored room document and its expiry time
    (always 172800 seconds).
  - Each operation (create, join, get, vote, reveal, reset) is a method.
    It checks its guards in the source's order. When a guard fails, the
    method returns the source's error message and leaves the store unchanged.
  - Join, get, vote, reveal and reset read the room before their later guards.
  - Create, join, vote, reveal and reset end by writing the room and
    returning its view. Get writes nothing.
  - The class invariant (`Valid`) holds after every operation:
    - every stored document sits under its own room's key;
    - every document carries the full TTL;
    - every document satisfies the room model's constraints.
- `ServiceProperties` (`properties.dfy`):
  - Lemmas about the transitions and views: confidentiality of the voting
    view, the complete view's round trip, and what join, vote, reveal and
    reset change and keep.
  - Client runs of the service that replay the documented scenarios.
- `RoomRoutes` (`routes.dfy`): the HTTP endpoints.
  - The create, join and vote endpoints validate their request body first.
    A body that fails validation is answered with 422.
  - Each endpoint calls the service once. The endpoints differ in what
    they do with a service error:
    - join, vote and reveal look for fixed phrases in the error's message,
      as Python's `in` on strings does, and pick a status from the phrase
      found;
    - get and reset answer 404 to every service error without reading the
      message;
    - create catches no service error.
  - The classification lemmas prove which status each error that the join,
    vote and reveal operations raise receives. Two results of note:
    - The vote endpoint never answers 400: the request validator refuses a
      vote outside the deck before the service's own check runs.
    - The create and join endpoints never re-raise a service error. The body
      validator refuses an overlong name with 422 before the service runs.

Facts about the code that the model keeps:

- There is one deck (Fibonacci). There is no per-room deck and no ordinal deck.
- There are no vote statistics.
- Names have upper length bounds only; the empty name is accepted.
- `get_room`, `reveal` and `reset` all refuse a user who is not a member of the room.
- `vote` checks the vote value first, before it looks up the room. Then it
  checks that the room exists, that the user is a member, and that the room
  is still voting.

## Model

| member | source | states |
|---|---|---|
| RoomModels.ValidFibonacciIsFibonacci | api/models/room.py:16 | the deck is Fib(0) followed by Fib(2)..Fib(11), checked against an independent Fibonacci definition |
| RoomModels.ValidFibonacciShape | api/models/room.py:16 | eleven strictly ascending values; 4 and 7 are not votes, 0, 5, 8 and 89 are |
| RoomModels.ValidateUserVote | api/models/room.py:25-30 | a stored vote is accepted iff absent or in the deck, unchanged when accepted, refused with "Vote must be one of [...]" otherwise |
| RoomModels.ParseCreateRoomRequest | api/models/room.py:77-81 | a create body is accepted iff the room name has at most 100 characters and the creator name at most 50, and keeps both names |
| RoomModels.ParseJoinRoomRequest | api/models/room.py:92-95 | a join body is accepted iff the name has at most 50 characters |
| RoomModels.ParseVoteRequest | api/models/room.py:105-116 | a vote body is accepted iff the vote is in the deck, and is refused with the deck in the message otherwise |
| RoomModels.RoomNameBound | api/models/room.py:80 | a 101-character room name is refused and a 100-character one accepted |
| RoomServices.KeyInjective | api/services/room_service.py:211 | distinct room ids have distinct store keys |
| RoomServices.ClearVotes | api/services/room_service.py:195-196 | the loop keeps every user and name and clears every vote |
| RoomServices.RoomService.constructor | api/services/room_service.py:25-27 | a service over a well-formed store holds exactly that store |
| RoomServices.RoomService.GetRoomFromStore | api/services/room_service.py:202-218 | the stored room under "room:"+id or none; a found room has that id and satisfies the room model |
| RoomServices.RoomService.SaveRoom | api/services/room_service.py:220-228 | the room is written under its own key with the 48-hour TTL, nothing else changes, and a lookup then yields it |
| RoomServices.RoomService.CreateRoom | api/services/room_service.py:29-56 | the creator name is checked first, then the room name; on success a voting room with only the creator (no vote) is stored and its voting view returned |
| RoomServices.RoomService.JoinRoom | api/services/room_service.py:58-83 | a missing room gives "Room not found" before the name is checked; on success the new user (no vote) is added and the view for the room's current state is returned |
| RoomServices.RoomService.GetRoom | api/services/room_service.py:85-110 | a missing room or non-member fails with its message; a member gets the voting view while voting and the complete view once complete; the store is untouched |
| RoomServices.RoomService.Vote | api/services/room_service.py:112-144 | the guards are checked in order: value, room, member, state; a failure leaves the store unchanged; success sets only the voter's vote and returns the voting view |
| RoomServices.RoomService.Reveal | api/services/room_service.py:146-172 | the room must exist, the caller must be a member and the room must not be complete; success stores the room as complete and returns the complete view |
| RoomServices.RoomService.Reset | api/services/room_service.py:174-200 | the room must exist and the caller must be a member; from either state, success stores a voting room with every vote cleared |
| ServiceProperties.VotingViewFaithful | api/services/room_service.py:230-253 | the voting view keeps the room fields and user ids; a user shows as voted iff the user has a vote |
| ServiceProperties.VotingViewHidesVotes | api/services/room_service.py:239-245 | two rooms that differ only in the vote values give the same voting view |
| ServiceProperties.CompleteViewRoundTrip | api/services/room_service.py:255-278 | the room is recovered exactly from its complete view |
| ServiceProperties.CurrentViewFollowsState | api/services/room_service.py:107-110 | the view is the voting view exactly while the room is voting |
| ServiceProperties.JoinAddsOneUser | api/services/room_service.py:75-76 | joining adds one user with no vote, keeps every other user and room field, and keeps the room valid |
| ServiceProperties.VoteChangesOnlyTheVoter | api/services/room_service.py:141 | a vote changes only the voter's vote and keeps the room valid; a later vote replaces it |
| ServiceProperties.RevealKeepsVotes | api/services/room_service.py:169 | revealing sets the state to complete and changes nothing else |
| ServiceProperties.ResetClearsVotes | api/services/room_service.py:194-196 | after a reset the room is voting, it has the same users and names, no one has a vote, and the voting view shows no one as voted |
| ServiceProperties.ResetForgetsTheRound | api/services/room_service.py:194-196 | reset is idempotent, and neither a reveal nor a vote before it changes its result |
| ServiceProperties.VotingRoundHidesVotes | api/services/room_service.py:85-110 | after create, join and one vote, the joiner's read shows who voted and no value |
| ServiceProperties.RevealShowsVoteThenFreezes | api/services/room_service.py:146-172 | after a vote and a reveal the vote is visible; a second reveal and a late vote both fail |
| ServiceProperties.ResetReopensVoting | api/services/room_service.py:174-200 | a reset after a reveal reopens voting with no one voted |
| ServiceProperties.VoteValueCheckedFirst | api/services/room_service.py:126-133 | an invalid vote is refused as invalid even when the room does not exist |
| RoomRoutes.VoteErrorsClassified | api/routes/rooms.py:120-137 | invalid vote 400, vote after reveal 403, missing room or member 404 |
| RoomRoutes.RevealErrorsClassified | api/routes/rooms.py:159-171 | second reveal 403, missing room or member 404 |
| RoomRoutes.JoinErrorsClassified | api/routes/rooms.py:69-75 | a missing room is 404; the first line of a rejected user name's message matches no phrase and is raised again |
| RoomRoutes.CreateRoomEndpoint | api/routes/rooms.py:27-48 | a body that fails validation is rejected before the service runs; otherwise 201 with the new room's ids and voting view; no service error is re-raised |
| RoomRoutes.JoinRoomEndpoint | api/routes/rooms.py:51-75 | body rejection, 404 "Room not found", or 200 with the new user id and the current view; no service error is re-raised |
| RoomRoutes.GetRoomEndpoint | api/routes/rooms.py:78-97 | every service error becomes 404 with its message; a member gets 200 and the current view |
| RoomRoutes.SubmitVoteEndpoint | api/routes/rooms.py:100-137 | a vote outside the deck is rejected as a body error, so the 400 branch is never taken; 404, 403 or 200 with the voting view otherwise |
| RoomRoutes.RevealEndpoint | api/routes/rooms.py:140-171 | 404 for a missing room or member, 403 once complete, 200 with the complete view otherwise |
| RoomRoutes.ResetEndpoint | api/routes/rooms.py:174-194 | 404 for a missing room or member, 200 with the cleared voting view otherwise |

## Left out

- The Redis client, its network I/O and the actual expiry of keys are not modelled. The store is a map, and every write records the TTL it would set.
- JSON serialisation (`model_dump_json`, `json.loads`) is not modelled. The store holds room values.
  - The order of entries in a JSON object is not modelled. Maps are unordered here.
- `uuid4()` and `datetime.now` are parameters of the operations. The caller supplies the new room id, the new user id and the creation time.
  - `RoomServices.RoomService.JoinRoom` requires the new user id not to be a member already. This stands for the uniqueness of a random UUID.
- Concurrency is not modelled: `async`, and interleaved read-modify-write cycles on the same room. Each operation runs to completion.
- RoomRoutes.JoinErrorsClassified: the re-raise of a rejected user name is proved for the first line of pydantic's message only. The full message repeats the input, so a name containing "not found" would get 404. The join endpoint never reaches that path, because its body validator refuses the name first.
- The store is assumed to hold only documents the service itself wrote (`RoomServices.RoomService.constructor` requires a well-formed store). The source would raise a validation error when it loads a stored document that fails the room model. That path is not modelled.
- Pydantic's validation errors are modelled by their first line only, "1 validation error for User" or "1 validation error for Room".
  - The field details are left out. So is the rejected input value, which the real message repeats.
- The 422 answer to a body that fails validation is one reply, `RequestRejected`. Its detail text is not modelled.
- The join endpoint's 404 detail is the object `{"error": message}`. The model keeps only the message.
- HTTP path parsing of the room id as a UUID is not modelled. Room ids are strings.
- `RevealRequest`, `ResetRequest` and `ErrorResponse` are not modelled. They have no validation beyond field presence.
- The Redis connection module and the application entry point are not part of this model.
