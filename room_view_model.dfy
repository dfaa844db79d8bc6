/** The waiting room: it follows the room's snapshots, lists the players,
    tells the current player whether they are the host, sends everyone to
    the game once it has started, and lets the host start it. The screen is
    a class over the store; each handler is proved against a pure function
    of the screen, and the stream of snapshots is a sequence the screen
    consumes in order. */
module RoomScreen {
  import opened Wrappers
  import opened RoomErrors
  import opened Dto
  import opened Firestore

  datatype RoomUiState =
    | Loading
    | Success(room: RoomDocument, players: seq<PlayerDto>, isCurrentPlayerHost: bool)
    | Error(message: string)

  datatype RoomEvent = NavigateToGame

  /** What the screen shows and the navigation events it has emitted so far. */
  datatype RoomView = RoomView(ui: RoomUiState, events: seq<RoomEvent>)

  const LoadFallback: string := "Failed to load room"
  const StreamFallback: string := "Failed to load room. Please try again."

  /** One snapshot (or failure) of the observed room, as the screen takes it. */
  function Received(v: RoomView, playerId: string, result: Result<RoomDocument, Failure>): RoomView {
    match result
    case Ok(room) =>
      RoomView(Success(room, room.players, room.hostId == playerId),
               if room.isGameStarted then v.events + [NavigateToGame] else v.events)
    case Err(f) => v.(ui := Error(LoadFailureText(f, LoadFallback)))
  }

  /** The snapshots `results`, taken one after the other. */
  function ReceivedAll(v: RoomView, playerId: string, results: seq<Result<RoomDocument, Failure>>): RoomView
    decreases |results|
  {
    if results == [] then v
    else Received(ReceivedAll(v, playerId, results[..|results| - 1]), playerId, results[|results| - 1])
  }

  /** How many of the snapshots show a started game. */
  function StartedCount(results: seq<Result<RoomDocument, Failure>>): nat
    decreases |results|
  {
    if results == [] then 0
    else
      var last := results[|results| - 1];
      StartedCount(results[..|results| - 1]) + if last.Ok? && last.value.isGameStarted then 1 else 0
  }

  /** `NavigateToGame` `n` times. */
  function Navigations(n: nat): (r: seq<RoomEvent>)
    ensures |r| == n
  {
    seq(n, _ => NavigateToGame)
  }

  /** Every snapshot of a started game emits a navigation, not only the
      first: the events are the earlier ones followed by one navigation per
      started snapshot. */
  lemma {:induction false} NavigationPerStartedSnapshot(v: RoomView, playerId: string, results: seq<Result<RoomDocument, Failure>>)
    ensures ReceivedAll(v, playerId, results).events == v.events + Navigations(StartedCount(results))
    decreases |results|
  {
    if results != [] {
      var init := results[..|results| - 1];
      NavigationPerStartedSnapshot(v, playerId, init);
      var n := StartedCount(init);
      if results[|results| - 1].Ok? && results[|results| - 1].value.isGameStarted {
        assert Navigations(n) + [NavigateToGame] == Navigations(n + 1);
      } else {
        assert v.events + Navigations(n) == v.events + Navigations(StartedCount(results));
      }
    }
  }

  /** What is shown depends only on the latest snapshot: a room shows its
      players and whether this player hosts it; a failure shows a missing
      room or network trouble in fixed words and otherwise its own message. */
  lemma LatestSnapshotShown(v: RoomView, w: RoomView, playerId: string, results: seq<Result<RoomDocument, Failure>>)
    requires results != []
    ensures ReceivedAll(v, playerId, results).ui == ReceivedAll(w, playerId, results).ui
    ensures var last := results[|results| - 1];
            var ui := ReceivedAll(v, playerId, results).ui;
            && (last.Ok? ==> ui.Success? && ui.room == last.value && ui.players == last.value.players
                             && (ui.isCurrentPlayerHost <==> last.value.hostId == playerId))
            && (last.Err? ==> ui == Error(LoadFailureText(last.error, LoadFallback)))
  {
  }

  /** No snapshots leave the screen as it was. */
  lemma NothingReceived(v: RoomView, playerId: string)
    ensures ReceivedAll(v, playerId, []) == v && StartedCount([]) == 0
  {
  }

  /** The stream itself failing: its message, or a fixed text without one. */
  function StreamFailed(v: RoomView, message: Option<string>): RoomView {
    v.(ui := Error(message.GetOr(StreamFallback)))
  }

  /** `isHost`. */
  predicate IsHost(player: PlayerDto, room: RoomDocument) {
    player.id == room.hostId
  }

  /** The host flag shown agrees with `isHost` for the current player's
      entry in the list. */
  lemma HostFlagAgrees(v: RoomView, playerId: string, room: RoomDocument, p: PlayerDto)
    ensures var ui := Received(v, playerId, Ok(room)).ui;
            p.id == playerId ==> (ui.isCurrentPlayerHost <==> IsHost(p, room))
  {
  }

  /** `startGame`: only a host looking at a loaded room asks the store. */
  predicate MayStart(v: RoomView) {
    v.ui.Success? && v.ui.isCurrentPlayerHost
  }

  function StartPressed(v: RoomView, rooms: map<string, RoomDocument>, roomId: string, fault: Option<Cause>)
    : map<string, RoomDocument>
  {
    if MayStart(v) then StartGameStep(rooms, roomId, fault).rooms else rooms
  }

  /** Anyone but the host, or a screen not showing a room, leaves the store
      alone; the host marks the room started and touches nothing else, and
      the next snapshot of that room sends everyone to the game. A failed
      start is ignored, leaving the store as it was. */
  lemma StartGameFacts(v: RoomView, rooms: map<string, RoomDocument>, roomId: string, fault: Option<Cause>, playerId: string)
    ensures !MayStart(v) ==> StartPressed(v, rooms, roomId, fault) == rooms
    ensures fault.Some? || roomId !in rooms ==> StartPressed(v, rooms, roomId, fault) == rooms
    ensures MayStart(v) && fault.None? && roomId in rooms ==>
              var after := StartPressed(v, rooms, roomId, fault);
              && after[roomId] == rooms[roomId].(isGameStarted := true)
              && OnlyRoomChanged(rooms, after, roomId)
              && Received(v, playerId, GetResult(after, roomId, None)).events == v.events + [NavigateToGame]
  {
    if MayStart(v) && fault.None? && roomId in rooms {
      StartGameIdempotent(rooms, roomId);
    }
  }

  class RoomViewModel {
    const roomId: string
    const playerId: string
    const store: FirestoreDataSource
    var uiState: RoomUiState
    var events: seq<RoomEvent>

    function View(): RoomView
      reads this
    {
      RoomView(uiState, events)
    }

    constructor(store: FirestoreDataSource, roomId: string, playerId: string)
      ensures this.store == store && this.roomId == roomId && this.playerId == playerId
      ensures View() == RoomView(Loading, [])
    {
      this.store := store;
      this.roomId := roomId;
      this.playerId := playerId;
      uiState := Loading;
      events := [];
    }

    /** One emission of the room stream. */
    method OnRoomResult(result: Result<RoomDocument, Failure>)
      modifies this
      ensures View() == Received(old(View()), playerId, result)
    {
      match result
      case Ok(room) =>
        if room.isGameStarted {
          events := events + [NavigateToGame];
        }
        uiState := Success(room, room.players, room.hostId == playerId);
      case Err(f) =>
        uiState := Error(LoadFailureText(f, LoadFallback));
    }

    /** `collect` over the stream's emissions, in order. */
    method Collect(results: seq<Result<RoomDocument, Failure>>)
      modifies this
      ensures View() == ReceivedAll(old(View()), playerId, results)
      ensures events == old(events) + Navigations(StartedCount(results))
    {
      ghost var v0 := View();
      var i := 0;
      while i < |results|
        invariant 0 <= i <= |results|
        invariant View() == ReceivedAll(v0, playerId, results[..i])
      {
        assert results[..i + 1][..i] == results[..i];
        OnRoomResult(results[i]);
        i := i + 1;
      }
      assert results[..i] == results;
      NavigationPerStartedSnapshot(v0, playerId, results);
    }

    /** The stream failing (`catch`). */
    method OnStreamError(message: Option<string>)
      modifies this
      ensures View() == StreamFailed(old(View()), message)
    {
      uiState := Error(message.GetOr(StreamFallback));
    }

    /** `startGame`; a failure is dropped. */
    method StartGame(fault: Option<Cause>)
      modifies store
      ensures store.rooms == StartPressed(View(), old(store.rooms), roomId, fault)
    {
      if !uiState.Success? || !uiState.isCurrentPlayerHost {
        return;
      }
      var _ := store.StartGame(roomId, fault);
    }

    /** `retry`: back to loading; the new subscription's emissions are then
        taken by `Collect`. */
    method Retry()
      modifies this
      ensures View() == old(View()).(ui := Loading)
    {
      uiState := Loading;
    }
  }
}
