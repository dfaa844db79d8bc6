/** The join dialog: the room-code field (typed or scanned from a QR code),
    validating the input, joining through the join use case, and the
    navigation that follows. The dialog is a class over the use case; each
    handler is proved against a pure function of the dialog (and, for
    joining, of the store). */
module JoinDialog {
  import opened Wrappers
  import opened Text
  import opened RoomErrors
  import opened Firestore
  import opened JoinRoom

  datatype JoinRoomUiState = Idle | Loading | Success(roomId: string) | Error(message: string)

  datatype JoinEvent = NavigateToRoom(roomId: string, playerId: string) | OpenQrScanner

  /** What the dialog shows and has emitted: its state, the room-code field
      and the navigation events so far, oldest first. */
  datatype JoinScreen = JoinScreen(ui: JoinRoomUiState, roomId: string, events: seq<JoinEvent>)

  const NicknameRequired: string := "Please enter a nickname"
  const RoomCodeRequired: string := "Please enter a room code"
  const RoomCodeLength: string := "Room code must be 6 digits"
  const InvalidQrCode: string := "Invalid QR code. Please scan a valid room code."
  const JoinFailedText: string := "Failed to join room. Please try again."

  /** What the room-code field can hold: at most six digits, of any script. */
  predicate RoomField(s: JoinScreen) {
    AllKotlinDigits(s.roomId) && |s.roomId| <= 6
  }

  /** An error goes away once the user edits or scans a code. */
  function Unerror(ui: JoinRoomUiState): JoinRoomUiState {
    if ui.Error? then Idle else ui
  }

  // ---------------------------------------------------------------------------
  // Reading a room code out of a QR code

  /** Six digits start at position `i` of `s`. */
  predicate SixDigitsAt(s: string, i: nat) {
    i + 6 <= |s| && AllDigits(s[i..i + 6])
  }

  /** The leftmost position at or after `from` where six digits start: what
      the pattern `\d{6}` finds. */
  function FirstSixDigits(s: string, from: nat): (r: Option<nat>)
    ensures r.Some? ==> from <= r.value && SixDigitsAt(s, r.value)
    ensures r.Some? ==> forall j | from <= j < r.value :: !SixDigitsAt(s, j)
    ensures r.None? ==> forall j | from <= j :: !SixDigitsAt(s, j)
    decreases |s| - from
  {
    if from + 6 > |s| then None
    else if SixDigitsAt(s, from) then Some(from)
    else FirstSixDigits(s, from + 1)
  }

  /** `extractRoomId`: the whole code when it is exactly six digits,
      otherwise the first six consecutive digits in it, if any. */
  function ExtractRoomId(qr: string): Option<string> {
    if IsRoomIdFormat(qr) then Some(qr)
    else
      match FirstSixDigits(qr, 0)
      case Some(i) => Some(qr[i..i + 6])
      case None => None
  }

  /** The shortcut for a bare code agrees with the search, so a room id is
      found exactly when the QR code contains six consecutive digits, and
      it is the leftmost such run; what is found is always a well-formed
      room id. */
  lemma ExtractRoomIdFacts(qr: string)
    ensures ExtractRoomId(qr).Some? <==> exists i: nat :: SixDigitsAt(qr, i)
    ensures forall i: nat | SixDigitsAt(qr, i) && (forall j: nat | j < i :: !SixDigitsAt(qr, j)) ::
              ExtractRoomId(qr) == Some(qr[i..i + 6])
    ensures ExtractRoomId(qr).Some? ==> IsRoomIdFormat(ExtractRoomId(qr).value)
  {
    if IsRoomIdFormat(qr) {
      assert qr[0..6] == qr;
      assert SixDigitsAt(qr, 0);
    }
    var f := FirstSixDigits(qr, 0);
    forall i: nat | SixDigitsAt(qr, i) && (forall j: nat | j < i :: !SixDigitsAt(qr, j))
      ensures ExtractRoomId(qr) == Some(qr[i..i + 6])
    {
      if !IsRoomIdFormat(qr) {
        assert f.Some?;
      }
    }
  }

  /** `onQrCodeScanned`. */
  function QrScanned(s: JoinScreen, code: string): JoinScreen {
    var e := ExtractRoomId(code);
    if e.Some? && IsRoomIdFormat(e.value) then s.(roomId := e.value, ui := Unerror(s.ui))
    else s.(ui := Error(InvalidQrCode))
  }

  /** A scan fills the field with the leftmost six-digit run of the code and
      clears an error; a code without one leaves the field and shows the QR
      error. */
  lemma QrScannedFacts(s: JoinScreen, code: string)
    ensures var t := QrScanned(s, code);
            && t.events == s.events
            && ((exists i: nat :: SixDigitsAt(code, i)) ==>
                  t.ui == Unerror(s.ui) && t.roomId == ExtractRoomId(code).value
                  && RoomField(t) && |t.roomId| == 6)
            && ((forall i: nat :: !SixDigitsAt(code, i)) ==> t == s.(ui := Error(InvalidQrCode)))
  {
    ExtractRoomIdFacts(code);
    if ExtractRoomId(code).Some? {
      AsciiDigitsAreKotlinDigits(ExtractRoomId(code).value);
    }
  }

  // ---------------------------------------------------------------------------
  // Typing, clearing, resetting

  /** `onRoomIdChange`: only up to six digits are accepted, where a digit is
      anything Kotlin's `isDigit()` accepts. */
  function RoomIdChanged(s: JoinScreen, newRoomId: string): JoinScreen {
    if AllKotlinDigits(newRoomId) && |newRoomId| <= 6 then s.(roomId := newRoomId, ui := Unerror(s.ui))
    else s
  }

  /** `clearError`. */
  function ErrorCleared(s: JoinScreen): JoinScreen {
    s.(ui := Unerror(s.ui))
  }

  /** `reset`. */
  function ResetDone(s: JoinScreen): JoinScreen {
    s.(roomId := "", ui := Idle)
  }

  /** An edit is taken exactly when it is at most six digits, and then it
      is the new field and no error remains; a refused edit changes nothing. */
  lemma RoomIdChangedFacts(s: JoinScreen, newRoomId: string)
    ensures var t := RoomIdChanged(s, newRoomId);
            && (t.roomId == newRoomId <==> (AllKotlinDigits(newRoomId) && |newRoomId| <= 6) || s.roomId == newRoomId)
            && (AllKotlinDigits(newRoomId) && |newRoomId| <= 6 ==> !t.ui.Error? && (!s.ui.Error? ==> t.ui == s.ui))
            && (!(AllKotlinDigits(newRoomId) && |newRoomId| <= 6) ==> t == s)
            && t.events == s.events
  {
  }

  // ---------------------------------------------------------------------------
  // Joining

  /** The dialog's own checks, on the trimmed inputs, in order. */
  function JoinValidation(nickname: string, roomId: string): Option<string> {
    if IsBlank(Trim(nickname)) then Some(NicknameRequired)
    else if IsBlank(Trim(roomId)) then Some(RoomCodeRequired)
    else if |Trim(roomId)| != 6 then Some(RoomCodeLength)
    else None
  }

  /** How a failed join is worded. */
  function JoinFailureText(f: Failure): string {
    match f
    case Domain(RoomNotFound(_)) => "Room does not exist. Please check the code."
    case Domain(InvalidRoomId(_)) => RoomCodeLength
    case Domain(NetworkError(_)) => "Connection error. Please try again."
    case Domain(PermissionDenied) => "Permission denied"
    case _ => FailureMessage(f).GetOr(JoinFailedText)
  }

  /** `onJoinRoom`, once the use case has answered: the dialog and the store
      afterwards. The player id carried by the navigation is the id of the
      player the use case added. */
  function JoinPressed(s: JoinScreen, rooms: map<string, RoomDocument>, nickname: string, env: JoinEnv)
    : (JoinScreen, map<string, RoomDocument>)
  {
    match JoinValidation(nickname, s.roomId)
    case Some(m) => (s.(ui := Error(m)), rooms)
    case None =>
      var roomId := Trim(s.roomId);
      var name := Trim(nickname);
      var r := JoinRoomRun(rooms, roomId, name, env);
      if r.result.Ok? then
        (s.(ui := Success(roomId), events := s.events + [NavigateToRoom(roomId, NewPlayer(name, env).id)]), r.rooms)
      else (s.(ui := Error(JoinFailureText(r.result.error))), r.rooms)
  }

  /** A field the dialog accepted that passes the dialog's checks reaches
      the use case as it is, six characters long, with a nickname that is not
      blank; the use case's format check then passes exactly when the digits
      are ASCII ones. */
  lemma ValidatedJoinPassesChecks(s: JoinScreen, nickname: string)
    requires RoomField(s) && JoinValidation(nickname, s.roomId).None?
    ensures Trim(s.roomId) == s.roomId && |s.roomId| == 6
    ensures IsRoomIdFormat(s.roomId) <==> AllDigits(s.roomId)
    ensures !IsBlank(Trim(nickname)) && !IsBlank(nickname)
  {
    var code := s.roomId;
    assert AllKotlinDigits(code) && |Trim(code)| == 6 by {
      ValidatedLength(nickname, code);
    }
    assert Trim(code) == code && |code| == 6 && (IsRoomIdFormat(code) <==> AllDigits(code)) by {
      ValidatedRoomCode(code);
    }
    assert !IsBlank(Trim(nickname)) && !IsBlank(nickname) by {
      ValidatedNickname(s, nickname);
    }
  }

  lemma ValidatedLength(nickname: string, code: string)
    requires JoinValidation(nickname, code).None?
    ensures |Trim(code)| == 6
  {
  }

  /** A field of at most six digits whose trimmed form has six characters is
      six characters that trimming leaves alone; it is a well-formed room id
      exactly when its digits are ASCII ones. */
  lemma ValidatedRoomCode(code: string)
    requires AllKotlinDigits(code) && |Trim(code)| == 6
    ensures Trim(code) == code && |code| == 6
    ensures IsRoomIdFormat(code) <==> AllDigits(code)
  {
    TrimKotlinDigits(code);
    SixCharsFormat(code);
  }

  lemma SixCharsFormat(code: string)
    requires |code| == 6
    ensures IsRoomIdFormat(code) <==> AllDigits(code)
  {
  }

  lemma ValidatedNickname(s: JoinScreen, nickname: string)
    requires JoinValidation(nickname, s.roomId).None?
    ensures !IsBlank(Trim(nickname)) && !IsBlank(nickname)
  {
    BlankTrim(nickname);
  }

  /** A rejected input shows the dialog's own message; the store is not
      asked anything and nothing is emitted. */
  lemma JoinRejected(s: JoinScreen, rooms: map<string, RoomDocument>, nickname: string, env: JoinEnv)
    requires JoinValidation(nickname, s.roomId).Some?
    ensures JoinPressed(s, rooms, nickname, env) == (s.(ui := Error(JoinValidation(nickname, s.roomId).value)), rooms)
    ensures IsBlank(nickname) ==> JoinValidation(nickname, s.roomId) == Some(NicknameRequired)
  {
    BlankTrim(nickname);
  }

  /** Once the dialog's checks pass, joining navigates exactly when the use
      case succeeds. The navigation names the code in the field (which
      trimming leaves as it is) and the player now last in that room, under
      the trimmed nickname; nothing else in the store changes. */
  lemma JoinNavigates(s: JoinScreen, rooms: map<string, RoomDocument>, nickname: string, env: JoinEnv)
    requires RoomField(s) && JoinValidation(nickname, s.roomId).None?
    ensures var (t, after) := JoinPressed(s, rooms, nickname, env);
            var code := Trim(s.roomId);
            var r := JoinRoomRun(rooms, code, Trim(nickname), env);
            var p := NewPlayer(Trim(nickname), env);
            && (|t.events| > |s.events| <==> r.result.Ok?)
            && (r.result.Ok? ==>
                  && t == JoinScreen(Success(code), s.roomId, s.events + [NavigateToRoom(code, p.id)])
                  && code in rooms
                  && OnlyRoomChanged(rooms, after, code)
                  && after[code].players == rooms[code].players + [p]
                  && p.nickname == Trim(nickname))
  {
    ValidatedJoinPassesChecks(s, nickname);
    JoinSucceeds(rooms, Trim(s.roomId), Trim(nickname), env);
  }

  /** Once the dialog's checks pass, a failure of the use case is never a
      blank nickname, and it is a rejected format exactly when the field holds
      a digit other than an ASCII one; it is shown, and the store is left as
      it was. */
  lemma JoinFails(s: JoinScreen, rooms: map<string, RoomDocument>, nickname: string, env: JoinEnv)
    requires RoomField(s) && JoinValidation(nickname, s.roomId).None?
    ensures var (t, after) := JoinPressed(s, rooms, nickname, env);
            var r := JoinRoomRun(rooms, Trim(s.roomId), Trim(nickname), env);
            r.result.Err? ==>
              && r.result.error != BlankNickname
              && (r.result.error.Domain? && r.result.error.error.InvalidRoomId? <==> !AllDigits(s.roomId))
              && t == s.(ui := Error(JoinFailureText(r.result.error)))
              && after == rooms
  {
    ValidatedJoinPassesChecks(s, nickname);
    JoinSucceeds(rooms, Trim(s.roomId), Trim(nickname), env);
  }

  /** A field of six digits that are not all ASCII passes the dialog's
      checks, but the use case's pattern refuses it: the dialog then says the
      code must be six digits, and nothing is written or emitted. */
  lemma NonAsciiCodeRejected(s: JoinScreen, rooms: map<string, RoomDocument>, nickname: string, env: JoinEnv)
    requires RoomField(s) && JoinValidation(nickname, s.roomId).None? && !AllDigits(s.roomId)
    ensures JoinPressed(s, rooms, nickname, env) == (s.(ui := Error(RoomCodeLength)), rooms)
  {
    ValidatedJoinPassesChecks(s, nickname);
  }

  /** The Arabic-Indic digits one to six. */
  const ArabicIndicCode: string := "\U{661}\U{662}\U{663}\U{664}\U{665}\U{666}"

  /** Such a code can be typed into the field, whatever the dialog showed
      before, and joining with it then ends in the six-digits message. */
  lemma ArabicIndicCodeTyped(s: JoinScreen, rooms: map<string, RoomDocument>, env: JoinEnv)
    ensures var t := RoomIdChanged(s, ArabicIndicCode);
            && t.roomId == ArabicIndicCode && RoomField(t)
            && JoinPressed(t, rooms, "Ann", env) == (t.(ui := Error(RoomCodeLength)), rooms)
  {
    var t := RoomIdChanged(s, ArabicIndicCode);
    assert AllKotlinDigits(ArabicIndicCode) && !AllDigits(ArabicIndicCode) by {
      ArabicIndicDigits();
    }
    assert t.roomId == ArabicIndicCode && RoomField(t);
    assert JoinValidation("Ann", ArabicIndicCode).None? by {
      assert !IsWhitespace("Ann"[0]);
      DigitCodePassesDialog("Ann", ArabicIndicCode);
    }
    NonAsciiCodeRejected(t, rooms, "Ann", env);
  }

  lemma ArabicIndicDigits()
    ensures AllKotlinDigits(ArabicIndicCode) && !AllDigits(ArabicIndicCode)
  {
    forall i | 0 <= i < |ArabicIndicCode| ensures IsKotlinDigit(ArabicIndicCode[i]) {
      assert DigitRun(ArabicIndicCode[i] as int, DigitZeros[1]);
    }
    AllKotlinDigitsEach(ArabicIndicCode);
    assert !IsDigit(ArabicIndicCode[0]);
  }

  /** Six digits of any script and a nickname that is not blank pass every
      check of the dialog. */
  lemma DigitCodePassesDialog(nickname: string, code: string)
    requires !IsBlank(nickname) && AllKotlinDigits(code) && |code| == 6
    ensures JoinValidation(nickname, code).None?
  {
    assert !IsBlank(Trim(nickname)) by {
      BlankTrim(nickname);
    }
    SixDigitCode(code);
  }

  /** Six digits of any script trim to themselves and are not blank. */
  lemma SixDigitCode(code: string)
    requires AllKotlinDigits(code) && |code| == 6
    ensures Trim(code) == code && !IsBlank(code)
  {
    KotlinDigitsNotBlank(code);
    TrimKotlinDigits(code);
  }

  /** The fixed wording of each failure the use case can report; other
      failures show their own message, or the fallback when they have none. */
  lemma JoinFailureTexts(f: Failure, id: string, c: Option<Cause>)
    ensures JoinFailureText(Domain(RoomNotFound(id))) == "Room does not exist. Please check the code."
    ensures JoinFailureText(Domain(NetworkError(c))) == "Connection error. Please try again."
    ensures JoinFailureText(BlankNickname) == "Nickname cannot be empty"
    ensures f.Domain? && f.error.RoomIdGenerationFailed? ==> JoinFailureText(f) == Message(f.error)
    ensures f.Unexpected? ==> JoinFailureText(f) == f.detail.GetOr(JoinFailedText)
  {
  }

  /** Whatever the dialog does, the field holds at most six digits. */
  lemma RoomFieldPreserved(s: JoinScreen, rooms: map<string, RoomDocument>, nickname: string, env: JoinEnv, text: string)
    requires RoomField(s)
    ensures RoomField(RoomIdChanged(s, text))
    ensures RoomField(QrScanned(s, text))
    ensures RoomField(JoinPressed(s, rooms, nickname, env).0)
    ensures RoomField(ErrorCleared(s)) && RoomField(ResetDone(s))
  {
    assert RoomField(QrScanned(s, text)) by {
      ExtractRoomIdFacts(text);
      if ExtractRoomId(text).Some? {
        AsciiDigitsAreKotlinDigits(ExtractRoomId(text).value);
      }
    }
    assert JoinPressed(s, rooms, nickname, env).0.roomId == s.roomId;
  }

  class JoinRoomViewModel {
    const joinRoom: JoinRoomUseCase
    var uiState: JoinRoomUiState
    var roomId: string
    var events: seq<JoinEvent>

    function Screen(): JoinScreen
      reads this
    {
      JoinScreen(uiState, roomId, events)
    }

    constructor(joinRoom: JoinRoomUseCase)
      ensures this.joinRoom == joinRoom
      ensures Screen() == JoinScreen(Idle, "", []) && RoomField(Screen())
    {
      this.joinRoom := joinRoom;
      uiState := Idle;
      roomId := "";
      events := [];
    }

    /** `onRoomIdChange`. */
    method OnRoomIdChange(newRoomId: string)
      modifies this
      ensures Screen() == RoomIdChanged(old(Screen()), newRoomId)
    {
      if AllKotlinDigits(newRoomId) && |newRoomId| <= 6 {
        roomId := newRoomId;
        if uiState.Error? {
          uiState := Idle;
        }
      }
    }

    /** `onJoinRoom`; the loading state shown while the use case runs is
        replaced by its outcome. */
    method OnJoinRoom(nickname: string, env: JoinEnv)
      modifies this, joinRoom.repository
      ensures (Screen(), joinRoom.repository.rooms) == JoinPressed(old(Screen()), old(joinRoom.repository.rooms), nickname, env)
    {
      var currentRoomId := Trim(roomId);
      var currentNickname := Trim(nickname);
      if IsBlank(currentNickname) {
        uiState := Error(NicknameRequired);
        return;
      }
      if IsBlank(currentRoomId) {
        uiState := Error(RoomCodeRequired);
        return;
      }
      if |currentRoomId| != 6 {
        uiState := Error(RoomCodeLength);
        return;
      }
      uiState := Loading;
      var r, _ := joinRoom.Invoke(currentRoomId, currentNickname, env);
      if r.Ok? {
        uiState := Success(currentRoomId);
        events := events + [NavigateToRoom(currentRoomId, NewPlayer(currentNickname, env).id)];
      } else {
        uiState := Error(JoinFailureText(r.error));
      }
    }

    /** `onQrCodeScanned`. */
    method OnQrCodeScanned(scannedCode: string)
      modifies this
      ensures Screen() == QrScanned(old(Screen()), scannedCode)
    {
      var extracted := ExtractRoomId(scannedCode);
      if extracted.Some? && IsRoomIdFormat(extracted.value) {
        roomId := extracted.value;
        if uiState.Error? {
          uiState := Idle;
        }
      } else {
        uiState := Error(InvalidQrCode);
      }
    }

    /** `onOpenQrScanner`. */
    method OnOpenQrScanner()
      modifies this
      ensures Screen() == old(Screen()).(events := old(events) + [OpenQrScanner])
    {
      events := events + [OpenQrScanner];
    }

    /** `clearError`. */
    method ClearError()
      modifies this
      ensures Screen() == ErrorCleared(old(Screen()))
    {
      if uiState.Error? {
        uiState := Idle;
      }
    }

    /** `reset`. */
    method Reset()
      modifies this
      ensures Screen() == ResetDone(old(Screen()))
    {
      roomId := "";
      uiState := Idle;
    }
  }
}
