/** The domain error taxonomy of room operations and the messages the errors
    carry, plus the wider set of failures a Kotlin `Result` can hold. */
module RoomErrors {
  import opened Wrappers

  /** A `Throwable` given as a cause; only its nullable message is observable. */
  datatype Cause = Cause(message: Option<string>)

  datatype RoomError =
    | RoomNotFound(roomId: string)
    | RoomIdGenerationFailed(cause: Option<Cause>)
    | NetworkError(cause: Option<Cause>)
    | InvalidRoomId(roomId: string)
    | PermissionDenied

  /** A string template `"${cause?.message}"`: a missing cause or a missing
      message both render as "null". */
  function CauseText(c: Option<Cause>): string {
    match c
    case Some(Cause(Some(m))) => m
    case _ => "null"
  }

  /** The `message` getter of each error kind. */
  function Message(e: RoomError): (m: string)
    ensures |m| > 0
  {
    match e
    case RoomNotFound(id) => "Room " + id + " does not exist"
    case RoomIdGenerationFailed(_) => "Failed to generate unique room ID"
    case NetworkError(c) => "Network error: " + CauseText(c)
    case InvalidRoomId(_) => "Invalid room ID: must be 6 digits"
    case PermissionDenied => "Camera permission required for QR scanning"
  }

  /** Which variant an error is, forgetting its payload. */
  function Kind(e: RoomError): nat {
    match e
    case RoomNotFound(_) => 0
    case RoomIdGenerationFailed(_) => 1
    case NetworkError(_) => 2
    case InvalidRoomId(_) => 3
    case PermissionDenied => 4
  }

  /** The message of an error pins down its variant, the missing room's id
      and the rendered network cause: no two kinds share a message. */
  lemma MessageDeterminesError(a: RoomError, b: RoomError)
    requires Message(a) == Message(b)
    ensures Kind(a) == Kind(b)
    ensures a.RoomNotFound? ==> b.RoomNotFound? && a.roomId == b.roomId
    ensures a.NetworkError? ==> b.NetworkError? && CauseText(a.cause) == CauseText(b.cause)
  {
    assert Message(a)[0] == Message(b)[0];
    if a.RoomNotFound? && b.RoomNotFound? {
      var ma := Message(a);
      assert a.roomId == ma[5..|ma| - 15];
      assert b.roomId == ma[5..|ma| - 15];
    }
    if a.NetworkError? && b.NetworkError? {
      var ma := Message(a);
      assert CauseText(a.cause) == ma[15..];
      assert CauseText(b.cause) == ma[15..];
    }
  }

  /** The generation-failure, invalid-id and permission messages are fixed:
      they mention neither the cause nor the rejected id. */
  lemma FixedMessages(c1: Option<Cause>, c2: Option<Cause>, id1: string, id2: string)
    ensures Message(RoomIdGenerationFailed(c1)) == Message(RoomIdGenerationFailed(c2))
    ensures Message(InvalidRoomId(id1)) == Message(InvalidRoomId(id2))
  {
  }

  /** Anything a failed Kotlin `Result` carries in this app: a room error, the
      use cases' `IllegalArgumentException`, or another exception. */
  datatype Failure =
    | Domain(error: RoomError)
    | IllegalArgument(text: string)
    | Unexpected(detail: Option<string>)

  /** `Throwable.message`, which is nullable. */
  function FailureMessage(f: Failure): (m: Option<string>)
    ensures f.Domain? ==> m == Some(Message(f.error))
  {
    match f
    case Domain(e) => Some(Message(e))
    case IllegalArgument(t) => Some(t)
    case Unexpected(t) => t
  }

  /** How the room and game screens word a failure to read the room: fixed
      texts for a missing room and for network trouble, otherwise the
      failure's own message or, lacking one, the screen's `fallback`. */
  function LoadFailureText(f: Failure, fallback: string): string {
    match f
    case Domain(RoomNotFound(_)) => "Room not found"
    case Domain(NetworkError(_)) => "Connection error. Please check your internet."
    case _ => FailureMessage(f).GetOr(fallback)
  }

  /** Missing rooms and network failures read the same whatever their
      payload; every other failure shows its own message when it has one. */
  lemma LoadFailureTexts(f: Failure, fallback: string, id: string, c: Option<Cause>)
    ensures LoadFailureText(Domain(RoomNotFound(id)), fallback) == "Room not found"
    ensures LoadFailureText(Domain(NetworkError(c)), fallback) == "Connection error. Please check your internet."
    ensures !(f.Domain? && (f.error.RoomNotFound? || f.error.NetworkError?)) ==>
              LoadFailureText(f, fallback) == FailureMessage(f).GetOr(fallback)
    ensures f.Unexpected? && f.detail.None? ==> LoadFailureText(f, fallback) == fallback
  {
  }

  /** The use cases' rejection of a blank nickname. */
  const BlankNickname: Failure := IllegalArgument("Nickname cannot be empty")
}
