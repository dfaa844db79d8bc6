/** Joining a room: check the id's format, then the nickname, then that the
    room exists, and append a new player to it. The clock readings, the
    random player-id suffix and any store failures are supplied as a
    `JoinEnv`. */
module JoinRoom {
  import opened Wrappers
  import opened Text
  import opened RoomErrors
  import opened Dto
  import opened Firestore
  import opened CreateRoom

  datatype JoinEnv = JoinEnv(
    existsFault: Option<Cause>,
    idClock: Instant,
    suffix: nat,
    now: Instant,
    addFault: Option<Cause>)

  /** `Random.nextInt(1000, 10000)`. */
  predicate ValidJoinEnv(env: JoinEnv) {
    1000 <= env.suffix <= 9999
  }

  /** The pattern `^\d{6}$`: exactly six ASCII digits. */
  predicate IsRoomIdFormat(roomId: string) {
    |roomId| == 6 && AllDigits(roomId)
  }

  /** The player the use case adds, in stored form. */
  function NewPlayer(nickname: string, env: JoinEnv): (p: PlayerDto)
    ensures p.nickname == nickname && p.joinedAt == ToEpochMilliseconds(env.now)
  {
    PlayerFromDomain(Player(PlayerIdFrom(ToEpochMilliseconds(env.idClock), env.suffix), nickname, env.now))
  }

  /** `JoinRoomUseCase.invoke`. */
  function JoinRoomRun(rooms: map<string, RoomDocument>, roomId: string, nickname: string, env: JoinEnv): Run<()> {
    if !IsRoomIdFormat(roomId) then Run(Err(Domain(InvalidRoomId(roomId))), [], rooms)
    else if IsBlank(nickname) then Run(Err(BlankNickname), [], rooms)
    else
      match ExistsResult(rooms, roomId, env.existsFault)
      case Err(f) => Run(Err(f), [ExistsCall(roomId)], rooms)
      case Ok(found) =>
        if !found then Run(Err(Domain(RoomNotFound(roomId))), [ExistsCall(roomId)], rooms)
        else
          var p := NewPlayer(nickname, env);
          var s := AddPlayerStep(rooms, roomId, p, env.addFault);
          Run(s.result, [ExistsCall(roomId), AddPlayerCall(roomId, p)], s.rooms)
  }

  /** The checks run in order, each failure stopping the use case with the
      store untouched: a badly formed id first (whatever the nickname), then a
      blank nickname, both before any call; then a failed or negative
      existence check. */
  lemma JoinValidationOrder(rooms: map<string, RoomDocument>, roomId: string, nickname: string, env: JoinEnv)
    ensures !IsRoomIdFormat(roomId) ==>
              JoinRoomRun(rooms, roomId, nickname, env) == Run(Err(Domain(InvalidRoomId(roomId))), [], rooms)
    ensures IsRoomIdFormat(roomId) && IsBlank(nickname) ==>
              JoinRoomRun(rooms, roomId, nickname, env) == Run(Err(BlankNickname), [], rooms)
    ensures IsRoomIdFormat(roomId) && !IsBlank(nickname) && env.existsFault.Some? ==>
              JoinRoomRun(rooms, roomId, nickname, env)
                == Run(Err(NetworkFailure(env.existsFault.value)), [ExistsCall(roomId)], rooms)
    ensures IsRoomIdFormat(roomId) && !IsBlank(nickname) && env.existsFault.None? && roomId !in rooms ==>
              JoinRoomRun(rooms, roomId, nickname, env)
                == Run(Err(Domain(RoomNotFound(roomId))), [ExistsCall(roomId)], rooms)
  {
  }

  /** The use case succeeds exactly when every check passes and neither store
      call fails; it then makes one `addPlayer` call, for the given nickname,
      which puts the new player last in that room and changes nothing else. */
  lemma JoinSucceeds(rooms: map<string, RoomDocument>, roomId: string, nickname: string, env: JoinEnv)
    ensures var r := JoinRoomRun(rooms, roomId, nickname, env);
            r.result.Ok? <==>
              IsRoomIdFormat(roomId) && !IsBlank(nickname) && env.existsFault.None? && env.addFault.None?
              && roomId in rooms
    ensures var r := JoinRoomRun(rooms, roomId, nickname, env);
            var p := NewPlayer(nickname, env);
            r.result.Ok? ==>
              && r.calls == [ExistsCall(roomId), AddPlayerCall(roomId, p)]
              && p.nickname == nickname
              && OnlyRoomChanged(rooms, r.rooms, roomId)
              && r.rooms[roomId] == rooms[roomId].(players := rooms[roomId].players + [p])
    ensures var r := JoinRoomRun(rooms, roomId, nickname, env);
            r.result.Err? ==> r.rooms == rooms
  {
    AddPlayerEffect(rooms, roomId, NewPlayer(nickname, env));
  }

  /** The added player's id is the clock reading, an underscore and the four
      suffix digits. */
  lemma JoinPlayerId(nickname: string, env: JoinEnv)
    requires ValidJoinEnv(env)
    ensures var id := NewPlayer(nickname, env).id;
            && id == PlayerIdFrom(ToEpochMilliseconds(env.idClock), env.suffix)
            && |id| >= 6 && id[|id| - 5] == '_'
            && AllDigits(id[|id| - 4..]) && ParseNat(id[|id| - 4..]) == env.suffix
  {
    PlayerIdForm(ToEpochMilliseconds(env.idClock), env.suffix);
  }

  /** The use case over the store. */
  class JoinRoomUseCase {
    const repository: FirestoreDataSource

    constructor(repository: FirestoreDataSource)
      ensures this.repository == repository
    {
      this.repository := repository;
    }

    method Invoke(roomId: string, nickname: string, env: JoinEnv) returns (r: Result<(), Failure>, calls: seq<RepoCall>)
      modifies repository
      ensures Run(r, calls, repository.rooms) == JoinRoomRun(old(repository.rooms), roomId, nickname, env)
    {
      calls := [];
      if !IsRoomIdFormat(roomId) {
        return Err(Domain(InvalidRoomId(roomId))), calls;
      }
      if IsBlank(nickname) {
        return Err(BlankNickname), calls;
      }
      var found := repository.RoomExists(roomId, env.existsFault);
      calls := calls + [ExistsCall(roomId)];
      if found.Err? {
        return Err(found.error), calls;
      }
      if !found.value {
        return Err(Domain(RoomNotFound(roomId))), calls;
      }
      var player := NewPlayer(nickname, env);
      r := repository.AddPlayer(roomId, player, env.addFault);
      calls := calls + [AddPlayerCall(roomId, player)];
    }
  }
}
