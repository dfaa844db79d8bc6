/** The home screen: the nickname field, creating a room with the player as
    its host, and opening the join dialog. The screen is a class over the
    create-room use case; each of its handlers is proved against a pure
    function of the screen (and, for creation, of the store). */
module Home {
  import opened Wrappers
  import opened Text
  import opened RoomErrors
  import opened Dto
  import opened Firestore
  import opened CreateRoom

  datatype HomeUiState = Idle | Loading | Error(message: string)

  datatype HomeEvent = NavigateToRoom(roomId: string, playerId: string) | ShowJoinDialog

  /** What the screen shows and has emitted: its state, the nickname field
      and the navigation events so far, oldest first. */
  datatype HomeScreen = HomeScreen(ui: HomeUiState, nickname: string, events: seq<HomeEvent>)

  const NicknameRequired: string := "Please enter a nickname"
  const CreateFailedText: string := "Failed to create room. Please try again."

  /** `onCreateRoom`, once the use case has answered: the screen and the
      store afterwards. */
  function CreatePressed(s: HomeScreen, rooms: map<string, RoomDocument>, env: CreateEnv): (HomeScreen, map<string, RoomDocument>)
    requires ValidEnv(env)
  {
    var nickname := Trim(s.nickname);
    if IsBlank(nickname) then (s.(ui := Error(NicknameRequired)), rooms)
    else
      var r := CreateRoomRun(rooms, nickname, env);
      match r.result
      case Ok(res) => (s.(ui := Idle, events := s.events + [NavigateToRoom(res.roomId, res.playerId)]), r.rooms)
      case Err(f) => (s.(ui := Error(FailureMessage(f).GetOr(CreateFailedText))), r.rooms)
  }

  /** `onJoinRoom`: the join dialog opens only for a nickname that is not blank. */
  function JoinPressed(s: HomeScreen): HomeScreen {
    if IsBlank(Trim(s.nickname)) then s.(ui := Error(NicknameRequired))
    else s.(events := s.events + [ShowJoinDialog])
  }

  /** `clearError`. */
  function ErrorCleared(s: HomeScreen): HomeScreen {
    if s.ui.Error? then s.(ui := Idle) else s
  }

  /** A nickname of whitespace only is refused on the screen, which then
      leaves the store alone and emits nothing; any other nickname reaches
      the use case trimmed, so the use case's own blank check never fires. */
  lemma CreateNeedsNickname(s: HomeScreen, rooms: map<string, RoomDocument>, env: CreateEnv)
    requires ValidEnv(env)
    ensures IsBlank(s.nickname) ==> CreatePressed(s, rooms, env) == (s.(ui := Error(NicknameRequired)), rooms)
    ensures !IsBlank(s.nickname) ==>
              && !IsBlank(Trim(s.nickname))
              && CreateRoomRun(rooms, Trim(s.nickname), env).result != Err(BlankNickname)
  {
    BlankTrim(s.nickname);
    CreateFailures(rooms, Trim(s.nickname), env);
  }

  /** Pressing "create" navigates exactly when the use case succeeds. The
      navigation names a room that was free before, is now stored with the
      player as host and only player under the trimmed nickname, and is the
      only room added. A failure shows the error's own message (never the
      fallback text) and emits nothing. */
  lemma CreateOutcome(s: HomeScreen, rooms: map<string, RoomDocument>, env: CreateEnv)
    requires ValidEnv(env)
    ensures var (t, after) := CreatePressed(s, rooms, env);
            var r := CreateRoomRun(rooms, Trim(s.nickname), env);
            && t.nickname == s.nickname
            && (|t.events| > |s.events| <==> !IsBlank(s.nickname) && r.result.Ok?)
            && (|t.events| > |s.events| ==>
                  var id := r.result.value.roomId;
                  var host := r.result.value.playerId;
                  && t.ui == Idle
                  && t.events == s.events + [NavigateToRoom(id, host)]
                  && id !in rooms && after.Keys == rooms.Keys + {id}
                  && (forall k | k in rooms :: after[k] == rooms[k])
                  && after[id].hostId == host
                  && after[id].players == [PlayerDto(host, Trim(s.nickname), ToEpochMilliseconds(env.now))]
                  && !after[id].isGameStarted)
            && (!IsBlank(s.nickname) && r.result.Err? ==>
                  && r.result.error.Domain?
                  && t == s.(ui := Error(Message(r.result.error.error))))
  {
    BlankTrim(s.nickname);
    CreatedRoomIsNew(rooms, Trim(s.nickname), env);
    CreateFailures(rooms, Trim(s.nickname), env);
  }

  /** The join dialog opens, as the one new event, exactly when the nickname
      is not blank; the nickname field is never changed by it. */
  lemma JoinOpensDialog(s: HomeScreen)
    ensures var t := JoinPressed(s);
            && t.nickname == s.nickname
            && (IsBlank(s.nickname) ==> t == s.(ui := Error(NicknameRequired)))
            && (!IsBlank(s.nickname) ==> t == s.(events := s.events + [ShowJoinDialog]))
  {
    BlankTrim(s.nickname);
  }

  /** Clearing leaves no error, touches nothing but an error, and a second
      clear changes nothing. */
  lemma ClearErrorFacts(s: HomeScreen)
    ensures !ErrorCleared(s).ui.Error?
    ensures !s.ui.Error? ==> ErrorCleared(s) == s
    ensures ErrorCleared(s).nickname == s.nickname && ErrorCleared(s).events == s.events
    ensures ErrorCleared(ErrorCleared(s)) == ErrorCleared(s)
  {
  }

  class HomeViewModel {
    const createRoom: CreateRoomUseCase
    var uiState: HomeUiState
    var nickname: string
    var events: seq<HomeEvent>

    function Screen(): HomeScreen
      reads this
    {
      HomeScreen(uiState, nickname, events)
    }

    constructor(createRoom: CreateRoomUseCase)
      ensures this.createRoom == createRoom
      ensures Screen() == HomeScreen(Idle, "", [])
    {
      this.createRoom := createRoom;
      uiState := Idle;
      nickname := "";
      events := [];
    }

    /** `onNicknameChange`: the field keeps exactly what was typed. */
    method OnNicknameChange(newNickname: string)
      modifies this
      ensures Screen() == old(Screen()).(nickname := newNickname)
    {
      nickname := newNickname;
    }

    /** `onCreateRoom`; the loading state shown while the use case runs is
        replaced by its outcome. */
    method OnCreateRoom(env: CreateEnv)
      requires ValidEnv(env)
      modifies this, createRoom.repository
      ensures (Screen(), createRoom.repository.rooms) == CreatePressed(old(Screen()), old(createRoom.repository.rooms), env)
    {
      var current := Trim(nickname);
      if IsBlank(current) {
        uiState := Error(NicknameRequired);
        return;
      }
      uiState := Loading;
      var r, _ := createRoom.Invoke(current, env);
      match r
      case Ok(res) =>
        uiState := Idle;
        events := events + [NavigateToRoom(res.roomId, res.playerId)];
      case Err(f) =>
        uiState := Error(FailureMessage(f).GetOr(CreateFailedText));
    }

    /** `onJoinRoom`. */
    method OnJoinRoom()
      modifies this
      ensures Screen() == JoinPressed(old(Screen()))
    {
      if IsBlank(Trim(nickname)) {
        uiState := Error(NicknameRequired);
        return;
      }
      events := events + [ShowJoinDialog];
    }

    /** `clearError`. */
    method ClearError()
      modifies this
      ensures Screen() == ErrorCleared(old(Screen()))
    {
      if uiState.Error? {
        uiState := Idle;
      }
    }
  }
}
