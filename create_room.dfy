/** Creating a room: reject a blank host nickname, then draw up to five
    random six-digit ids, asking the store whether each is taken, and create
    the room under the first free one with the host as its only player. The
    random draws and the clock readings are supplied as a `CreateEnv`; the
    repository layer, which only converts the domain room to its DTO, is
    folded into the calls made on the store. */
module CreateRoom {
  import opened Wrappers
  import opened Text
  import opened RoomErrors
  import opened Dto
  import opened Firestore

  /** A call made on the store, in the order made. */
  datatype RepoCall = ExistsCall(roomId: string) | CreateCall(room: RoomDto) | AddPlayerCall(roomId: string, player: PlayerDto)

  /** The outcome of a use case, the calls it made and the rooms afterwards. */
  datatype Run<T> = Run(result: Result<T, Failure>, calls: seq<RepoCall>, rooms: map<string, RoomDocument>)

  datatype CreateRoomResult = CreateRoomResult(roomId: string, playerId: string)

  /** The outside world of one creation: the five room-id draws, the failure
      (if any) of each existence check, the clock read for the player id, the
      random player-id suffix, the clock read for the join time, and the
      failure (if any) of the final write. */
  datatype CreateEnv = CreateEnv(
    draws: seq<nat>,
    existsFaults: seq<Option<Cause>>,
    idClock: Instant,
    suffix: nat,
    now: Instant,
    createFault: Option<Cause>)

  /** What `Random.nextInt(100000, 1000000)` and `Random.nextInt(1000, 10000)`
      can return. */
  predicate ValidEnv(env: CreateEnv) {
    |env.draws| == 5 && |env.existsFaults| == 5
    && (forall j | 0 <= j < 5 :: 100000 <= env.draws[j] <= 999999)
    && 1000 <= env.suffix <= 9999
  }

  /** `generatePlayerId`: the clock in epoch milliseconds, an underscore and
      the random suffix. */
  function PlayerIdFrom(millis: int, suffix: nat): string {
    IntToString(millis) + "_" + NatToString(suffix)
  }

  /** A player id ends in an underscore and exactly four digits that spell
      the suffix, preceded by the clock reading; so the two parts can be read
      back and different parts give different ids. */
  lemma {:induction false} PlayerIdForm(millis: int, suffix: nat)
    requires 1000 <= suffix <= 9999
    ensures var id := PlayerIdFrom(millis, suffix);
            && |id| >= 6 && id[|id| - 5] == '_'
            && id[..|id| - 5] == IntToString(millis)
            && AllDigits(id[|id| - 4..]) && ParseNat(id[|id| - 4..]) == suffix
  {
    NatToStringLength(suffix, 3);
    ParseNatToString(suffix);
    var id := PlayerIdFrom(millis, suffix);
    assert id[|id| - 4..] == NatToString(suffix);
    assert id[..|id| - 5] == IntToString(millis);
  }

  lemma PlayerIdInjective(m1: int, s1: nat, m2: int, s2: nat)
    requires 1000 <= s1 <= 9999 && 1000 <= s2 <= 9999
    requires PlayerIdFrom(m1, s1) == PlayerIdFrom(m2, s2)
    ensures m1 == m2 && s1 == s2
  {
    PlayerIdForm(m1, s1);
    PlayerIdForm(m2, s2);
    IntToStringInjective(m1, m2);
  }

  /** The host's player and the room around it, as the use case builds them. */
  function NewRoom(roomId: string, nickname: string, env: CreateEnv): Room {
    var playerId := PlayerIdFrom(ToEpochMilliseconds(env.idClock), env.suffix);
    Room(roomId, env.now, playerId, [Player(playerId, nickname, env.now)])
  }

  /** The attempts from number `k` on, with rooms `rooms`. */
  function Attempts(rooms: map<string, RoomDocument>, nickname: string, env: CreateEnv, k: nat): Run<CreateRoomResult>
    requires ValidEnv(env) && k <= 5
    decreases 5 - k
  {
    if k == 5 then Run(Err(Domain(RoomIdGenerationFailed(None))), [], rooms)
    else
      var id := NatToString(env.draws[k]);
      match ExistsResult(rooms, id, env.existsFaults[k])
      case Err(f) => Run(Err(f), [ExistsCall(id)], rooms)
      case Ok(taken) =>
        if taken then
          var rest := Attempts(rooms, nickname, env, k + 1);
          Run(rest.result, [ExistsCall(id)] + rest.calls, rest.rooms)
        else CreateAt(rooms, id, nickname, env)
  }

  /** The last attempt, at a free id: create the room there. */
  function CreateAt(rooms: map<string, RoomDocument>, id: string, nickname: string, env: CreateEnv): Run<CreateRoomResult> {
    var d := RoomFromDomain(NewRoom(id, nickname, env));
    var s := CreateRoomStep(rooms, d, env.createFault);
    Run(if s.result.Ok? then Ok(CreateRoomResult(id, d.hostId)) else Err(s.result.error),
        [ExistsCall(id), CreateCall(d)], s.rooms)
  }

  /** One attempt at a taken id: check it, then go on with the next. */
  lemma AttemptTaken(rooms: map<string, RoomDocument>, nickname: string, env: CreateEnv, k: nat)
    requires ValidEnv(env) && k < 5 && TakenAt(rooms, env, k)
    ensures var rest := Attempts(rooms, nickname, env, k + 1);
            Attempts(rooms, nickname, env, k) == Run(rest.result, [ExistsCall(NatToString(env.draws[k]))] + rest.calls, rest.rooms)
  {
  }

  /** `CreateRoomUseCase.invoke`. */
  function CreateRoomRun(rooms: map<string, RoomDocument>, nickname: string, env: CreateEnv): Run<CreateRoomResult>
    requires ValidEnv(env)
  {
    if IsBlank(nickname) then Run(Err(BlankNickname), [], rooms)
    else Attempts(rooms, nickname, env, 0)
  }

  /** The existence checks for the first `n` draws. */
  function ExistsCalls(env: CreateEnv, n: nat): (r: seq<RepoCall>)
    requires ValidEnv(env) && n <= 5
    ensures |r| == n
  {
    if n == 0 then [] else ExistsCalls(env, n - 1) + [ExistsCall(NatToString(env.draws[n - 1]))]
  }

  /** The id drawn at attempt `j` is taken and was checked without failure. */
  predicate TakenAt(rooms: map<string, RoomDocument>, env: CreateEnv, j: nat)
    requires ValidEnv(env) && j < 5
  {
    env.existsFaults[j].None? && NatToString(env.draws[j]) in rooms
  }

  /** A blank nickname is rejected before the store is asked anything. */
  lemma BlankNicknameNoCalls(rooms: map<string, RoomDocument>, nickname: string, env: CreateEnv)
    requires ValidEnv(env)
    ensures IsBlank(nickname) <==> CreateRoomRun(rooms, nickname, env).calls == []
    ensures IsBlank(nickname) ==> CreateRoomRun(rooms, nickname, env) == Run(Err(BlankNickname), [], rooms)
  {
  }

  /** Attempts from `k` on: each makes one existence check; at most one room
      is created, as the very last call; and nothing is written unless that
      call is made. */
  lemma {:induction false} AttemptsShape(rooms: map<string, RoomDocument>, nickname: string, env: CreateEnv, k: nat)
    requires ValidEnv(env) && k <= 5
    ensures var r := Attempts(rooms, nickname, env, k);
            && |r.calls| <= 6 - k
            && (forall i | 0 <= i < |r.calls| - 1 :: r.calls[i].ExistsCall?)
            && (forall i | 0 <= i < |r.calls| :: !r.calls[i].AddPlayerCall?)
            && (r.calls == [] || r.calls[|r.calls| - 1].CreateCall? || r.rooms == rooms)
            && (|r.calls| == 6 - k ==> r.calls[|r.calls| - 1].CreateCall?)
    decreases 5 - k
  {
    if k < 5 {
      var id := NatToString(env.draws[k]);
      var e := ExistsResult(rooms, id, env.existsFaults[k]);
      if e.Ok? && e.value {
        AttemptsShape(rooms, nickname, env, k + 1);
        var rest := Attempts(rooms, nickname, env, k + 1);
        var r := Attempts(rooms, nickname, env, k);
        assert r.calls == [ExistsCall(id)] + rest.calls;
        assert rest.calls == [] || rest.calls[|rest.calls| - 1] == r.calls[|r.calls| - 1];
      }
    }
  }

  /** At most five existence checks are made, every call except possibly a
      final create is one, and the store changes only through that create. */
  lemma AtMostFiveChecks(rooms: map<string, RoomDocument>, nickname: string, env: CreateEnv)
    requires ValidEnv(env)
    ensures var r := CreateRoomRun(rooms, nickname, env);
            && |r.calls| <= 6
            && (forall i | 0 <= i < |r.calls| - 1 :: r.calls[i].ExistsCall?)
            && (|r.calls| == 6 ==> r.calls[5].CreateCall?)
            && (r.calls == [] || r.calls[|r.calls| - 1].CreateCall? || r.rooms == rooms)
  {
    if !IsBlank(nickname) {
      AttemptsShape(rooms, nickname, env, 0);
    }
  }

  /** If the first `k` drawn ids are all taken, the first `k` calls check
      exactly those ids and the run goes on as the attempts from `k` would. */
  lemma {:induction false} TakenPrefix(rooms: map<string, RoomDocument>, nickname: string, env: CreateEnv, k: nat)
    requires ValidEnv(env) && k <= 5
    requires forall j | 0 <= j < k :: TakenAt(rooms, env, j)
    ensures var rest := Attempts(rooms, nickname, env, k);
            Attempts(rooms, nickname, env, 0) == Run(rest.result, ExistsCalls(env, k) + rest.calls, rest.rooms)
  {
    if k > 0 {
      TakenPrefix(rooms, nickname, env, k - 1);
      var id := NatToString(env.draws[k - 1]);
      var rest := Attempts(rooms, nickname, env, k);
      AttemptTaken(rooms, nickname, env, k - 1);
      AppendAssoc(ExistsCalls(env, k - 1), [ExistsCall(id)], rest.calls);
    } else {
      assert ExistsCalls(env, 0) + Attempts(rooms, nickname, env, 0).calls == Attempts(rooms, nickname, env, 0).calls;
    }
  }

  lemma AppendAssoc<T>(a: seq<T>, b: seq<T>, c: seq<T>)
    ensures a + (b + c) == (a + b) + c
  {
  }

  /** When all five drawn ids are taken, the use case gives up with a
      generation failure after exactly five checks and creates nothing. */
  lemma AllTakenFails(rooms: map<string, RoomDocument>, nickname: string, env: CreateEnv)
    requires ValidEnv(env) && !IsBlank(nickname)
    requires forall j | 0 <= j < 5 :: TakenAt(rooms, env, j)
    ensures CreateRoomRun(rooms, nickname, env) ==
              Run(Err(Domain(RoomIdGenerationFailed(None))), ExistsCalls(env, 5), rooms)
  {
    TakenPrefix(rooms, nickname, env, 5);
  }

  /** A failed existence check ends the use case at once with that failure. */
  lemma CheckFailureStops(rooms: map<string, RoomDocument>, nickname: string, env: CreateEnv, k: nat)
    requires ValidEnv(env) && !IsBlank(nickname) && k < 5
    requires forall j | 0 <= j < k :: TakenAt(rooms, env, j)
    requires env.existsFaults[k].Some?
    ensures CreateRoomRun(rooms, nickname, env) ==
              Run(Err(NetworkFailure(env.existsFaults[k].value)), ExistsCalls(env, k + 1), rooms)
  {
    TakenPrefix(rooms, nickname, env, k);
    assert ExistsCalls(env, k + 1) == ExistsCalls(env, k) + [ExistsCall(NatToString(env.draws[k]))];
  }

  /** At the first free id the room is created with the host as its only
      player, created at the moment the host joined; the ids returned are the
      ones stored; and a failure of the write is passed on unchanged. */
  lemma FirstFreeIdCreates(rooms: map<string, RoomDocument>, nickname: string, env: CreateEnv, k: nat)
    requires ValidEnv(env) && !IsBlank(nickname) && k < 5
    requires forall j | 0 <= j < k :: TakenAt(rooms, env, j)
    requires env.existsFaults[k].None? && NatToString(env.draws[k]) !in rooms
    ensures var id := NatToString(env.draws[k]);
            var playerId := PlayerIdFrom(ToEpochMilliseconds(env.idClock), env.suffix);
            var r := CreateRoomRun(rooms, nickname, env);
            var d := RoomFromDomain(NewRoom(id, nickname, env));
            && r.calls == ExistsCalls(env, k + 1) + [CreateCall(d)]
            && d.id == id && d.hostId == playerId
            && d.players == [PlayerDto(playerId, nickname, d.createdAt)]
            && d.createdAt == ToEpochMilliseconds(env.now)
            && (env.createFault.None? ==>
                  r.result == Ok(CreateRoomResult(id, playerId)) && r.rooms == rooms[id := FromRoomDto(d)])
            && (env.createFault.Some? ==>
                  r.result == Err(NetworkFailure(env.createFault.value)) && r.rooms == rooms)
  {
    TakenPrefix(rooms, nickname, env, k);
    var id := NatToString(env.draws[k]);
    var d := RoomFromDomain(NewRoom(id, nickname, env));
    assert d.players == [PlayerDto(d.hostId, nickname, d.createdAt)];
    assert ExistsCalls(env, k) + [ExistsCall(id), CreateCall(d)] == ExistsCalls(env, k + 1) + [CreateCall(d)];
  }

  /** Every id the use case checks or creates is six decimal digits without a
      leading zero. */
  lemma {:induction false} RoomIdsAreSixDigits(rooms: map<string, RoomDocument>, nickname: string, env: CreateEnv)
    requires ValidEnv(env)
    ensures forall c | c in CreateRoomRun(rooms, nickname, env).calls ::
              var id := if c.CreateCall? then c.room.id else c.roomId;
              |id| == 6 && AllDigits(id) && id[0] != '0'
  {
    forall j | 0 <= j < 5 ensures |NatToString(env.draws[j])| == 6 {
      NatToStringLength(env.draws[j], 5);
    }
    if !IsBlank(nickname) {
      AttemptIds(rooms, nickname, env, 0);
    }
  }

  lemma {:induction false} AttemptIds(rooms: map<string, RoomDocument>, nickname: string, env: CreateEnv, k: nat)
    requires ValidEnv(env) && k <= 5
    ensures forall c | c in Attempts(rooms, nickname, env, k).calls ::
              exists j | k <= j < 5 :: (if c.CreateCall? then c.room.id else c.roomId) == NatToString(env.draws[j])
    decreases 5 - k
  {
    if k < 5 {
      AttemptIds(rooms, nickname, env, k + 1);
    }
  }

  /** A successful run has added exactly one room, under an id that was free
      and six digits long, whose host is the returned player and its only
      player, carrying the given nickname. */
  lemma CreatedRoomIsNew(rooms: map<string, RoomDocument>, nickname: string, env: CreateEnv)
    requires ValidEnv(env)
    ensures var r := CreateRoomRun(rooms, nickname, env);
            r.result.Ok? ==>
              var res := r.result.value;
              && !IsBlank(nickname)
              && res.roomId !in rooms && |res.roomId| == 6 && AllDigits(res.roomId)
              && r.rooms.Keys == rooms.Keys + {res.roomId}
              && (forall id | id in rooms :: r.rooms[id] == rooms[id])
              && r.rooms[res.roomId].hostId == res.playerId
              && r.rooms[res.roomId].players == [PlayerDto(res.playerId, nickname, ToEpochMilliseconds(env.now))]
              && !r.rooms[res.roomId].isGameStarted
  {
    if !IsBlank(nickname) {
      AttemptsCreate(rooms, nickname, env, 0);
      forall j | 0 <= j < 5 ensures |NatToString(env.draws[j])| == 6 {
        NatToStringLength(env.draws[j], 5);
      }
    }
  }

  lemma {:induction false} AttemptsCreate(rooms: map<string, RoomDocument>, nickname: string, env: CreateEnv, k: nat)
    requires ValidEnv(env) && k <= 5
    ensures var r := Attempts(rooms, nickname, env, k);
            r.result.Ok? ==>
              var res := r.result.value;
              && (exists j | k <= j < 5 :: res.roomId == NatToString(env.draws[j]))
              && res.roomId !in rooms
              && res.roomId in r.rooms
              && r.rooms == rooms[res.roomId := r.rooms[res.roomId]]
              && r.rooms[res.roomId].hostId == res.playerId
              && r.rooms[res.roomId].players == [PlayerDto(res.playerId, nickname, ToEpochMilliseconds(env.now))]
              && !r.rooms[res.roomId].isGameStarted
    decreases 5 - k
  {
    if k < 5 {
      var id := NatToString(env.draws[k]);
      var e := ExistsResult(rooms, id, env.existsFaults[k]);
      if e.Ok? && e.value {
        AttemptsCreate(rooms, nickname, env, k + 1);
      } else if e.Ok? {
        var d := RoomFromDomain(NewRoom(id, nickname, env));
        assert d.players == [PlayerDto(d.hostId, nickname, d.createdAt)];
      }
    }
  }

  /** Every failure the use case reports is one of the room errors, except
      the rejection of a blank nickname; so each carries a message. */
  lemma CreateFailures(rooms: map<string, RoomDocument>, nickname: string, env: CreateEnv)
    requires ValidEnv(env)
    ensures var r := CreateRoomRun(rooms, nickname, env);
            r.result.Err? ==> r.result.error.Domain? || (IsBlank(nickname) && r.result.error == BlankNickname)
  {
    if !IsBlank(nickname) {
      AttemptsFailures(rooms, nickname, env, 0);
    }
  }

  lemma {:induction false} AttemptsFailures(rooms: map<string, RoomDocument>, nickname: string, env: CreateEnv, k: nat)
    requires ValidEnv(env) && k <= 5
    ensures var r := Attempts(rooms, nickname, env, k);
            r.result.Err? ==> r.result.error.Domain?
    decreases 5 - k
  {
    if k < 5 {
      AttemptsFailures(rooms, nickname, env, k + 1);
    }
  }

  /** The use case over the store. */
  class CreateRoomUseCase {
    const repository: FirestoreDataSource

    constructor(repository: FirestoreDataSource)
      ensures this.repository == repository
    {
      this.repository := repository;
    }

    method Invoke(hostNickname: string, env: CreateEnv) returns (r: Result<CreateRoomResult, Failure>, calls: seq<RepoCall>)
      requires ValidEnv(env)
      modifies repository
      ensures Run(r, calls, repository.rooms) == CreateRoomRun(old(repository.rooms), hostNickname, env)
    {
      calls := [];
      if IsBlank(hostNickname) {
        return Err(BlankNickname), calls;
      }
      ghost var rooms0 := repository.rooms;
      var k := 0;
      while k < 5
        invariant 0 <= k <= 5
        invariant repository.rooms == rooms0
        invariant forall j | 0 <= j < k :: TakenAt(rooms0, env, j)
        invariant calls == ExistsCalls(env, k)
      {
        var roomId := NatToString(env.draws[k]);
        var taken := repository.RoomExists(roomId, env.existsFaults[k]);
        calls := calls + [ExistsCall(roomId)];
        if taken.Err? {
          CheckFailureStops(rooms0, hostNickname, env, k);
          return Err(taken.error), calls;
        }
        if !taken.value {
          FirstFreeIdCreates(rooms0, hostNickname, env, k);
          var room := RoomFromDomain(NewRoom(roomId, hostNickname, env));
          var created := repository.CreateRoom(room, env.createFault);
          calls := calls + [CreateCall(room)];
          if created.Err? {
            return Err(created.error), calls;
          }
          return Ok(CreateRoomResult(roomId, room.hostId)), calls;
        }
        assert TakenAt(rooms0, env, k);
        k := k + 1;
      }
      AllTakenFails(rooms0, hostNickname, env);
      r := Err(Domain(RoomIdGenerationFailed(None)));
    }
  }
}
