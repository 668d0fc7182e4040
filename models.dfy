/** Data model of a planning-poker room: the stored room document, the two
    filtered views handed to callers, the single Fibonacci deck and the
    request validators that run before any service call. */
module RoomModels {

  datatype Option<T> = None | Some(value: T)

  datatype Result<T, E> = Success(value: T) | Failure(error: E)

  /** Textual form of a room's UUID. */
  type RoomId = string
  type UserId = string
  /** Creation time of a room; the model never inspects it. */
  type Timestamp = int

  /** The two phases of a room. */
  datatype RoomState = Voting | Complete

  const MaxUserName: nat := 50
  const MaxRoomName: nat := 100

  /** The one deck: the legal vote values. */
  const ValidFibonacci: seq<int> := [0, 1, 2, 3, 5, 8, 13, 21, 34, 55, 89]

  /** The deck as it appears in error messages. */
  const ValidFibonacciText: string := "[0, 1, 2, 3, 5, 8, 13, 21, 34, 55, 89]"

  /** Text of the error both vote validators raise. */
  const VoteMustBeOneOf: string := "Vote must be one of " + ValidFibonacciText

  predicate IsValidVote(v: int) {
    v in ValidFibonacci
  }

  /** The Fibonacci numbers, as an independent reference for the deck. */
  function Fib(n: nat): nat {
    if n < 2 then n else Fib(n - 1) + Fib(n - 2)
  }

  /** The deck is Fib(0) followed by Fib(2) .. Fib(11): the distinct
      Fibonacci numbers up to 89, each once, in ascending order. */
  lemma ValidFibonacciIsFibonacci()
    ensures |ValidFibonacci| == 11
    ensures ValidFibonacci[0] == Fib(0)
    ensures forall i | 1 <= i < |ValidFibonacci| :: ValidFibonacci[i] == Fib(i + 1)
  {
  }

  /** Eleven distinct ascending values; 4 and 7 are not among them. */
  lemma ValidFibonacciShape()
    ensures |ValidFibonacci| == 11
    ensures forall i, j | 0 <= i < j < |ValidFibonacci| :: ValidFibonacci[i] < ValidFibonacci[j]
    ensures !IsValidVote(4) && !IsValidVote(7)
    ensures IsValidVote(0) && IsValidVote(5) && IsValidVote(8) && IsValidVote(89)
  {
  }

  /** A participant stored in a room. */
  datatype User = User(name: string, vote: Option<int>)

  /** The field validator on a stored user's vote. */
  function ValidateUserVote(v: Option<int>): (r: Result<Option<int>, string>)
    ensures r.Success? <==> (v.None? || IsValidVote(v.value))
    ensures r.Success? ==> r.value == v
    ensures r.Failure? ==> r.error == VoteMustBeOneOf
  {
    if v.Some? && v.value !in ValidFibonacci then Failure(VoteMustBeOneOf) else Success(v)
  }

  /** What the user model admits: a name of at most 50 characters and a
      vote its validator accepts. */
  predicate UserValid(u: User) {
    |u.name| <= MaxUserName && ValidateUserVote(u.vote).Success?
  }

  /** The full room document, as kept in the store. */
  datatype Room = Room(id: RoomId, name: string, state: RoomState, createdAt: Timestamp, users: map<UserId, User>)

  /** What the room model admits: a name of at most 100 characters and
      only admissible users. */
  predicate RoomValid(r: Room) {
    |r.name| <= MaxRoomName && forall u | u in r.users :: UserValid(r.users[u])
  }

  /** A user as shown while voting: whether they voted, never the value. */
  datatype UserWithVoteStatus = UserWithVoteStatus(name: string, hasVoted: bool)

  /** A user as shown once votes are revealed. */
  datatype UserWithVote = UserWithVote(name: string, vote: Option<int>)

  datatype RoomVotingState =
    RoomVotingState(id: RoomId, name: string, state: RoomState, createdAt: Timestamp, users: map<UserId, UserWithVoteStatus>)

  datatype RoomCompleteState =
    RoomCompleteState(id: RoomId, name: string, state: RoomState, createdAt: Timestamp, users: map<UserId, UserWithVote>)

  /** Either of the two projections, for operations that return the one
      matching the room's current state. */
  datatype RoomView = VotingView(voting: RoomVotingState) | CompleteView(complete: RoomCompleteState)

  datatype CreateRoomRequest = CreateRoomRequest(name: string, creatorName: string)
  datatype JoinRoomRequest = JoinRoomRequest(name: string)
  datatype VoteRequest = VoteRequest(userId: UserId, vote: int)

  /** Body validation of a create request. */
  function ParseCreateRoomRequest(name: string, creatorName: string): (r: Option<CreateRoomRequest>)
    ensures r.Some? <==> |name| <= MaxRoomName && |creatorName| <= MaxUserName
    ensures r.Some? ==> r.value.name == name && r.value.creatorName == creatorName
  {
    if |name| <= MaxRoomName && |creatorName| <= MaxUserName then Some(CreateRoomRequest(name, creatorName)) else None
  }

  /** Body validation of a join request. */
  function ParseJoinRoomRequest(name: string): (r: Option<JoinRoomRequest>)
    ensures r.Some? <==> |name| <= MaxUserName
    ensures r.Some? ==> r.value.name == name
  {
    if |name| <= MaxUserName then Some(JoinRoomRequest(name)) else None
  }

  /** Body validation of a vote request, including the vote validator. */
  function ParseVoteRequest(userId: UserId, vote: int): (r: Result<VoteRequest, string>)
    ensures r.Success? <==> IsValidVote(vote)
    ensures r.Success? ==> r.value == VoteRequest(userId, vote)
    ensures r.Failure? ==> r.error == VoteMustBeOneOf
  {
    if vote !in ValidFibonacci then Failure(VoteMustBeOneOf) else Success(VoteRequest(userId, vote))
  }

  /** A room name of 101 characters is refused, one of 100 accepted. */
  lemma RoomNameBound()
    ensures ParseCreateRoomRequest(seq(101, _ => 'a'), "Alice").None?
    ensures ParseCreateRoomRequest(seq(100, _ => 'a'), "Alice").Some?
  {
  }

  datatype CreateRoomResponse = CreateRoomResponse(roomId: RoomId, userId: UserId, room: RoomVotingState)
  datatype JoinRoomResponse = JoinRoomResponse(userId: UserId, room: RoomView)
  datatype VoteResponse = VoteResponse(success: bool, room: RoomVotingState)
  datatype RevealResponse = RevealResponse(success: bool, room: RoomCompleteState)
  datatype ResetResponse = ResetResponse(success: bool, room: RoomVotingState)
}
