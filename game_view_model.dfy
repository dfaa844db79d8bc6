/** The game screen's turn and wheel engine. Each room snapshot is turned into
    a per-viewer view; the three player actions read the last view and decide
    which store writes to make. The random draw and the spin delay are
    parameters, and each action runs to completion as one step. */
module Game {
  import opened Wrappers
  import opened Text
  import opened RoomErrors
  import opened Dto
  import opened WheelSlices
  import opened Firestore

  /** What one viewer sees of a room. */
  datatype GameView = GameView(
    roomId: string,
    players: seq<PlayerDto>,
    isSpinning: bool,
    currentTurnPlayer: Option<PlayerDto>,
    currentTurnIndex: int,
    isMyTurn: bool,
    isHost: bool,
    secretWord: Option<string>,
    revealedLetters: string,
    playerScores: map<string, int>,
    myScore: int,
    lastSliceIndex: Option<nat>,
    lastSliceResult: Option<WheelSlice>,
    hasExtraTurn: bool,
    showSecretWordDialog: bool,
    showGuessInput: bool,
    isGameOver: bool,
    winnerId: Option<string>,
    winnerName: Option<string>)

  datatype GameUiState = Loading | Playing(view: GameView) | Error(message: string)

  /** The players who take turns: everyone but the host, in joining order. */
  function GamePlayers(players: seq<PlayerDto>, hostId: string): (r: seq<PlayerDto>)
    ensures |r| <= |players|
    ensures forall p :: p in r <==> p in players && p.id != hostId
  {
    if players == [] then []
    else (if players[0].id == hostId then [] else [players[0]]) + GamePlayers(players[1..], hostId)
  }

  /** Filtering keeps the joining order: the players of a joined list are
      the players of each part, one part after the other. */
  lemma {:induction false} GamePlayersConcat(a: seq<PlayerDto>, b: seq<PlayerDto>, hostId: string)
    ensures GamePlayers(a + b, hostId) == GamePlayers(a, hostId) + GamePlayers(b, hostId)
    decreases |a|
  {
    if a == [] {
      assert a + b == b;
    } else {
      assert (a + b)[1..] == a[1..] + b;
      GamePlayersConcat(a[1..], b, hostId);
    }
  }

  /** A list without the host is kept whole, in order and with repeats, and
      one made only of host entries leaves nobody. */
  lemma {:induction false} GamePlayersNoHost(a: seq<PlayerDto>, hostId: string)
    ensures (forall p | p in a :: p.id != hostId) ==> GamePlayers(a, hostId) == a
    ensures (forall p | p in a :: p.id == hostId) ==> GamePlayers(a, hostId) == []
    decreases |a|
  {
    if a != [] {
      assert forall p | p in a[1..] :: p in a;
      GamePlayersNoHost(a[1..], hostId);
      assert a == [a[0]] + a[1..];
    }
  }

  /** Kotlin's `coerceIn(lo, hi)`. */
  function Clamp(x: int, lo: int, hi: int): (r: int)
    requires lo <= hi
    ensures lo <= r <= hi
    ensures lo <= x <= hi ==> r == x
  {
    if x < lo then lo else if x > hi then hi else x
  }

  /** The player whose turn it is: the stored index clamped into the list, or
      nobody when no one but the host has joined. */
  function CurrentTurnPlayer(gamePlayers: seq<PlayerDto>, index: int): (r: Option<PlayerDto>)
    ensures r.None? <==> gamePlayers == []
    ensures r.Some? ==> r.value in gamePlayers
    ensures 0 <= index < |gamePlayers| ==> r == Some(gamePlayers[index])
    ensures gamePlayers != [] && index < 0 ==> r == Some(gamePlayers[0])
    ensures gamePlayers != [] && index >= |gamePlayers| ==> r == Some(gamePlayers[|gamePlayers| - 1])
  {
    if gamePlayers == [] then None else Some(gamePlayers[Clamp(index, 0, |gamePlayers| - 1)])
  }

  /** The nickname of the first player with the given id. */
  function FindNickname(players: seq<PlayerDto>, id: string): (r: Option<string>)
    ensures r.None? <==> forall p | p in players :: p.id != id
    ensures r.Some? ==> exists i | 0 <= i < |players| ::
              && players[i].id == id && players[i].nickname == r.value
              && forall j | 0 <= j < i :: players[j].id != id
  {
    if players == [] then None
    else if players[0].id == id then Some(players[0].nickname)
    else
      var rest := FindNickname(players[1..], id);
      if rest.Some? then
        var i :| 0 <= i < |players| - 1 && players[1..][i].id == id && players[1..][i].nickname == rest.value
                 && forall j | 0 <= j < i :: players[1..][j].id != id;
        assert forall j | 0 <= j < i + 1 :: players[j].id != id by {
          forall j | 0 <= j < i + 1 ensures players[j].id != id {
            if j > 0 { assert players[j] == players[1..][j - 1]; }
          }
        }
        rest
      else rest
  }

  predicate IsNullOrBlank(s: Option<string>) {
    s.None? || IsBlank(s.value)
  }

  /** `scores[id] ?: 0`. */
  function ScoreOf(scores: map<string, int>, id: string): int {
    if id in scores then scores[id] else 0
  }

  /** The view built for one snapshot, the dialog latch after it and the
      points a following letter guess is worth. */
  datatype Derivation = Derivation(view: GameView, latch: bool, pending: int)

  /** The snapshot handler of `observeRoom`. */
  function Derive(roomId: string, playerId: string, doc: RoomDocument, latch: bool, pending: int): Derivation {
    var gamePlayers := GamePlayers(doc.players, doc.hostId);
    var current := CurrentTurnPlayer(gamePlayers, doc.currentTurnIndex);
    var isHost := playerId == doc.hostId;
    var isMyTurn := !isHost && current.Some? && current.value.id == playerId;
    var showDialog := isHost && IsNullOrBlank(doc.secretWord) && !latch;
    var slice := if doc.lastSliceIndex.Some? then Some(GetSliceAtIndex(doc.lastSliceIndex.value)) else None;
    var winnerName := if doc.winnerId.Some? then FindNickname(doc.players, doc.winnerId.value) else None;
    var pointsSlice := slice.Some? && slice.value.Points?;
    var showGuess := isMyTurn && !doc.isSpinning && pointsSlice && !doc.isGameOver && !doc.hasExtraTurn;
    var view := GameView(
      roomId, gamePlayers, doc.isSpinning, current, doc.currentTurnIndex, isMyTurn, isHost,
      doc.secretWord, Distinct(Upper(doc.revealedLetters)), doc.playerScores,
      ScoreOf(doc.playerScores, playerId), doc.lastSliceIndex, slice, doc.hasExtraTurn,
      showDialog, showGuess, doc.isGameOver, doc.winnerId, winnerName);
    Derivation(view, latch || showDialog,
               if pointsSlice && isMyTurn && !doc.isSpinning then slice.value.value else pending)
  }

  /** What every derived view satisfies and the actions rely on: a viewer
      whose turn it is is not the host and there is someone to pass the turn to. */
  predicate WellFormed(s: GameUiState) {
    s.Playing? ==> (s.view.isMyTurn ==> !s.view.isHost && |s.view.players| > 0)
  }

  /** The derived view hides the host from the players, gives the turn only to
      the non-host player at the clamped index, never shows the host a guess
      box, and raises the secret-word dialog only while the latch is unset. */
  lemma DeriveFacts(roomId: string, playerId: string, doc: RoomDocument, latch: bool, pending: int)
    ensures var d := Derive(roomId, playerId, doc, latch, pending);
            && WellFormed(Playing(d.view))
            && (forall p :: p in d.view.players <==> p in doc.players && p.id != doc.hostId)
            && (d.view.isMyTurn <==>
                  playerId != doc.hostId && d.view.players != []
                  && d.view.players[Clamp(doc.currentTurnIndex, 0, |d.view.players| - 1)].id == playerId)
            && (d.view.isHost ==> !d.view.isMyTurn && !d.view.showGuessInput)
            && (d.view.showSecretWordDialog ==> !latch && d.view.isHost)
            && d.latch == (latch || d.view.showSecretWordDialog)
            && (d.view.showGuessInput ==> d.view.isMyTurn && d.pending == d.view.lastSliceResult.value.value)
            && NoDuplicates(d.view.revealedLetters)
            && (forall c :: c in d.view.revealedLetters <==> c in Upper(doc.revealedLetters))
  {
  }

  /** Kotlin's `%` on `Int`, which truncates towards zero: the remainder takes
      the sign of the dividend. */
  function KotlinRem(a: int, n: int): (r: int)
    requires n > 0
    ensures -n < r < n
    ensures a >= 0 ==> r == a % n
    ensures a < 0 ==> r <= 0
  {
    if a >= 0 then a % n else -((-a) % n)
  }

  /** `(currentTurnIndex + 1) % players.size`. */
  function NextTurn(index: int, playerCount: int): int
    requires playerCount > 0
  {
    KotlinRem(index + 1, playerCount)
  }

  /** From an index in range the turn passes to the next player and wraps from
      the last to the first; any non-negative index lands back in range, while
      an index below -1 would never come back above 0. */
  lemma TurnWraps(index: int, playerCount: int)
    requires playerCount > 0
    ensures 0 <= index ==> 0 <= NextTurn(index, playerCount) < playerCount
    ensures 0 <= index < playerCount - 1 ==> NextTurn(index, playerCount) == index + 1
    ensures index == playerCount - 1 ==> NextTurn(index, playerCount) == 0
    ensures index < -1 ==> NextTurn(index, playerCount) <= 0
  {
    if 0 <= index < playerCount - 1 {
      assert (index + 1) % playerCount == index + 1;
    } else if index == playerCount - 1 {
      assert (index + 1) % playerCount == 0;
    }
  }

  /** The outcome of an action: the store writes, in order, and the pending
      points afterwards. */
  datatype Handled = Handled(updates: seq<GameUpdate>, pending: int)

  predicate CanSpin(s: GameUiState) {
    s.Playing? && !s.view.isSpinning && |s.view.players| > 0
    && !s.view.isHost && s.view.isMyTurn && !s.view.isGameOver
  }

  /** The write that starts every spin. */
  const SpinStart: GameUpdate := NoChange.(isSpinning := Some(true), hasExtraTurn := Some(false))

  /** The write that lands the wheel on slice number `draw`. */
  function SpinResult(v: GameView, playerId: string, draw: nat): GameUpdate
    requires |v.players| > 0
  {
    match GetSliceAtIndex(draw)
    case Bankrupt =>
      NoChange.(isSpinning := Some(false), lastSliceIndex := Some(draw),
                playerScores := Some(v.playerScores[playerId := 0]),
                nextTurnIndex := Some(NextTurn(v.currentTurnIndex, |v.players|)),
                hasExtraTurn := Some(false))
    case ExtraTurn =>
      NoChange.(isSpinning := Some(false), lastSliceIndex := Some(draw), hasExtraTurn := Some(true))
    case Points(_) =>
      NoChange.(isSpinning := Some(false), lastSliceIndex := Some(draw), hasExtraTurn := Some(false))
  }

  /** `spinWheel`, with `draw` standing for `Random.nextInt(8)`. */
  function SpinOutcome(s: GameUiState, playerId: string, pending: int, draw: nat): Handled
    requires draw < 8
  {
    if !CanSpin(s) then Handled([], pending)
    else
      var slice := GetSliceAtIndex(draw);
      Handled([SpinStart, SpinResult(s.view, playerId, draw)], if slice.Points? then slice.value else pending)
  }

  /** The stored room after a sequence of writes. */
  function Apply(doc: RoomDocument, updates: seq<GameUpdate>): RoomDocument
    decreases |updates|
  {
    if updates == [] then doc else Apply(Merge(doc, updates[0]), updates[1..])
  }

  lemma ApplyOne(doc: RoomDocument, us: seq<GameUpdate>)
    requires |us| == 1
    ensures Apply(doc, us) == Merge(doc, us[0])
  {
    assert us[1..] == [];
  }

  lemma ApplyTwo(doc: RoomDocument, us: seq<GameUpdate>)
    requires |us| == 2
    ensures Apply(doc, us) == Merge(Merge(doc, us[0]), us[1])
  {
    assert us[1..][0] == us[1];
    ApplyOne(Merge(doc, us[0]), us[1..]);
  }

  /** A spin writes only when the guard of `spinWheel` passes, and then writes
      the start of the spin followed by its result. */
  lemma SpinGuard(s: GameUiState, playerId: string, pending: int, draw: nat)
    requires draw < 8
    ensures SpinOutcome(s, playerId, pending, draw).updates == [] <==> !CanSpin(s)
    ensures !CanSpin(s) ==> SpinOutcome(s, playerId, pending, draw).pending == pending
    ensures CanSpin(s) ==> |SpinOutcome(s, playerId, pending, draw).updates| == 2
                           && SpinOutcome(s, playerId, pending, draw).updates[0] == SpinStart
  {
  }

  /** Bankrupt zeroes the spinner's score, keeps every other score, passes the
      turn on and clears the extra-turn and spinning flags. */
  lemma {:induction false} SpinBankrupt(s: GameUiState, playerId: string, pending: int, doc: RoomDocument)
    requires CanSpin(s)
    ensures var after := Apply(doc, SpinOutcome(s, playerId, pending, 3).updates);
            && after.playerScores == s.view.playerScores[playerId := 0]
            && (forall k | k in s.view.playerScores && k != playerId :: after.playerScores[k] == s.view.playerScores[k])
            && after.currentTurnIndex == NextTurn(s.view.currentTurnIndex, |s.view.players|)
            && !after.isSpinning && !after.hasExtraTurn && after.lastSliceIndex == Some(3)
            && after.isGameOver == doc.isGameOver && after.revealedLetters == doc.revealedLetters
  {
    var us := SpinOutcome(s, playerId, pending, 3).updates;
    ApplyTwo(doc, us);
  }

  /** An extra turn keeps the scores and the turn where they are and sets the
      extra-turn flag. */
  lemma {:induction false} SpinExtraTurn(s: GameUiState, playerId: string, pending: int, doc: RoomDocument)
    requires CanSpin(s)
    ensures var after := Apply(doc, SpinOutcome(s, playerId, pending, 7).updates);
            && after.playerScores == doc.playerScores && after.currentTurnIndex == doc.currentTurnIndex
            && !after.isSpinning && after.hasExtraTurn && after.lastSliceIndex == Some(7)
    ensures SpinOutcome(s, playerId, pending, 7).pending == pending
  {
    var us := SpinOutcome(s, playerId, pending, 7).updates;
    ApplyTwo(doc, us);
  }

  /** A points slice keeps the scores and the turn and makes its value the
      worth of the next correct letter. */
  lemma {:induction false} SpinPoints(s: GameUiState, playerId: string, pending: int, draw: nat, doc: RoomDocument)
    requires CanSpin(s) && draw < 8 && GetSliceAtIndex(draw).Points?
    ensures var after := Apply(doc, SpinOutcome(s, playerId, pending, draw).updates);
            && after.playerScores == doc.playerScores && after.currentTurnIndex == doc.currentTurnIndex
            && !after.isSpinning && !after.hasExtraTurn && after.lastSliceIndex == Some(draw)
    ensures SpinOutcome(s, playerId, pending, draw).pending == GetSliceAtIndex(draw).value
    ensures SpinOutcome(s, playerId, pending, draw).pending in {100, 200, 300}
  {
    var us := SpinOutcome(s, playerId, pending, draw).updates;
    ApplyTwo(doc, us);
    SliceKinds(draw);
  }

  predicate CanGuess(s: GameUiState) {
    s.Playing? && !s.view.isHost && s.view.isMyTurn && !s.view.isGameOver
  }

  /** Every non-whitespace character of the word has been revealed. */
  predicate WordComplete(secret: string, revealed: string) {
    forall c | c in NonWhitespace(secret) :: c in revealed
  }

  /** The write for the fresh letter `g` against the uppercased `secret`. */
  function LetterUpdate(v: GameView, playerId: string, pending: int, secret: string, g: char): GameUpdate
    requires |v.players| > 0
  {
    var revealed := v.revealedLetters + [g];
    var next := NextTurn(v.currentTurnIndex, |v.players|);
    if g in secret then
      var scores := v.playerScores[playerId := ScoreOf(v.playerScores, playerId) + pending * Count(secret, g)];
      if WordComplete(secret, revealed) then
        NoChange.(revealedLetters := Some(revealed), playerScores := Some(scores),
                  isGameOver := Some(true), winnerId := Some(playerId))
      else
        NoChange.(revealedLetters := Some(revealed), playerScores := Some(scores), nextTurnIndex := Some(next))
    else
      NoChange.(revealedLetters := Some(revealed), nextTurnIndex := Some(next))
  }

  /** `guessLetter`. */
  function GuessLetterOutcome(s: GameUiState, playerId: string, pending: int, letter: char): Handled
    requires WellFormed(s)
  {
    if !CanGuess(s) || s.view.secretWord.None? then Handled([], pending)
    else if UpperChar(letter) in s.view.revealedLetters then Handled([], pending)
    else Handled([LetterUpdate(s.view, playerId, pending, Upper(s.view.secretWord.value), UpperChar(letter))], 0)
  }

  /** A letter guess writes exactly when the viewer may guess, a word is set
      and the letter (in upper case) is not yet revealed; it then writes once
      and uses up the pending points. */
  lemma GuessLetterGuard(s: GameUiState, playerId: string, pending: int, letter: char)
    requires WellFormed(s)
    ensures var h := GuessLetterOutcome(s, playerId, pending, letter);
            && (h.updates == [] <==>
                  !CanGuess(s) || s.view.secretWord.None? || UpperChar(letter) in s.view.revealedLetters)
            && (h.updates == [] ==> h.pending == pending)
            && (h.updates != [] ==> |h.updates| == 1 && h.pending == 0)
  {
  }

  /** A letter in the word earns the pending points once per occurrence and is
      added after the revealed letters; the game ends with the guesser as
      winner when that reveals the whole word, and otherwise the turn passes.
      A letter not in the word only reveals it and passes the turn. */
  lemma {:induction false} GuessLetterEffect(s: GameUiState, playerId: string, pending: int, letter: char)
    requires WellFormed(s) && CanGuess(s) && s.view.secretWord.Some?
    requires UpperChar(letter) !in s.view.revealedLetters
    ensures var v := s.view;
            var secret := Upper(v.secretWord.value);
            var g := UpperChar(letter);
            var u := GuessLetterOutcome(s, playerId, pending, letter).updates[0];
            && u.revealedLetters == Some(v.revealedLetters + [g])
            && u.isSpinning.None? && u.lastSliceIndex.None? && u.hasExtraTurn.None?
            && (g in secret ==>
                  u.playerScores == Some(v.playerScores[playerId := ScoreOf(v.playerScores, playerId) + pending * Count(secret, g)]))
            && (g !in secret ==> u.playerScores.None? && u.isGameOver.None?)
            && (g in secret && WordComplete(secret, v.revealedLetters + [g]) ==>
                  u.isGameOver == Some(true) && u.winnerId == Some(playerId) && u.nextTurnIndex.None?)
            && (!(g in secret && WordComplete(secret, v.revealedLetters + [g])) ==>
                  u.nextTurnIndex == Some(NextTurn(v.currentTurnIndex, |v.players|))
                  && u.isGameOver.None? && u.winnerId.None?)
    ensures NoDuplicates(s.view.revealedLetters) ==>
              NoDuplicates(GuessLetterOutcome(s, playerId, pending, letter).updates[0].revealedLetters.value)
  {
    var v := s.view;
    var g := UpperChar(letter);
    var r := v.revealedLetters + [g];
    if NoDuplicates(v.revealedLetters) {
      forall i, j | 0 <= i < j < |r| ensures r[i] != r[j] {
        if j == |r| - 1 {
          assert r[i] in v.revealedLetters;
        }
      }
    }
  }

  /** `guessWord`: the guess is uppercased, then trimmed, and compared with
      the uppercased word. */
  function GuessWordOutcome(s: GameUiState, playerId: string, pending: int, word: string): Handled
    requires WellFormed(s)
  {
    if !CanGuess(s) || s.view.secretWord.None? then Handled([], pending)
    else
      var v := s.view;
      var secret := Upper(v.secretWord.value);
      if Trim(Upper(word)) == secret then
        Handled([NoChange.(revealedLetters := Some(Distinct(v.revealedLetters + Distinct(NonWhitespace(secret)))),
                           playerScores := Some(v.playerScores[playerId := ScoreOf(v.playerScores, playerId) * 2]),
                           isGameOver := Some(true), winnerId := Some(playerId))], 0)
      else
        Handled([NoChange.(nextTurnIndex := Some(NextTurn(v.currentTurnIndex, |v.players|)))], 0)
  }

  /** A word guess is right exactly when the upper-cased, trimmed guess is
      the upper-cased word (trimming and upper-casing commute, see
      `TrimUpperCommute`). A right guess doubles the guesser's score,
      reveals every letter of the word and ends the game with the guesser as
      winner; a wrong one only passes the turn. Either way the pending
      points are spent. */
  lemma GuessWordEffect(s: GameUiState, playerId: string, pending: int, word: string)
    requires WellFormed(s) && CanGuess(s) && s.view.secretWord.Some?
    ensures var v := s.view;
            var secret := Upper(v.secretWord.value);
            var right := Trim(Upper(word)) == secret;
            var h := GuessWordOutcome(s, playerId, pending, word);
            && |h.updates| == 1 && h.pending == 0
            && (h.updates[0].isGameOver == Some(true) <==> right)
            && (right ==>
                  h.updates[0].playerScores == Some(v.playerScores[playerId := 2 * ScoreOf(v.playerScores, playerId)])
                  && h.updates[0].winnerId == Some(playerId)
                  && WordComplete(secret, h.updates[0].revealedLetters.value)
                  && (forall c :: c in h.updates[0].revealedLetters.value <==>
                                   c in v.revealedLetters || (c in secret && !IsWhitespace(c))))
            && (!right ==>
                  h.updates[0] == NoChange.(nextTurnIndex := Some(NextTurn(v.currentTurnIndex, |v.players|))))
  {
    RightWordReveals(s.view.revealedLetters, Upper(s.view.secretWord.value));
  }

  /** What a right word guess reveals: the letters revealed before and every
      non-whitespace letter of the word, which completes the word. */
  lemma RightWordReveals(revealed: string, secret: string)
    ensures var r := Distinct(revealed + Distinct(NonWhitespace(secret)));
            && WordComplete(secret, r)
            && forall c :: c in r <==> c in revealed || (c in secret && !IsWhitespace(c))
  {
    var all := Distinct(NonWhitespace(secret));
    forall c ensures c in revealed + all <==> c in revealed || c in all {
    }
  }

  /** A word guess writes exactly when the viewer may guess and a word is set. */
  lemma GuessWordGuard(s: GameUiState, playerId: string, pending: int, word: string)
    requires WellFormed(s)
    ensures GuessWordOutcome(s, playerId, pending, word).updates == [] <==> !CanGuess(s) || s.view.secretWord.None?
    ensures GuessWordOutcome(s, playerId, pending, word).updates == [] ==> GuessWordOutcome(s, playerId, pending, word).pending == pending
  {
  }

  /** None of the writes reopens the game, and a winner is only written
      together with the end of the game. */
  predicate NeverReopens(updates: seq<GameUpdate>) {
    forall u | u in updates :: u.isGameOver != Some(false) && (u.winnerId.Some? ==> u.isGameOver == Some(true))
  }

  /** Writes that never reopen the game keep a finished game finished, and
      keep its winner. */
  lemma {:induction false} ApplyKeepsGameOver(doc: RoomDocument, updates: seq<GameUpdate>)
    requires NeverReopens(updates) && doc.isGameOver
    ensures Apply(doc, updates).isGameOver
    ensures doc.winnerId.Some? ==> Apply(doc, updates).winnerId.Some?
    decreases |updates|
  {
    if updates != [] {
      assert updates[0] in updates;
      assert NeverReopens(updates[1..]) by {
        forall u | u in updates[1..] ensures u in updates { }
      }
      ApplyKeepsGameOver(Merge(doc, updates[0]), updates[1..]);
    }
  }

  /** No action ever writes `isGameOver = false` or a winner without ending
      the game; so once the stored game is over it stays over. */
  lemma GameOverIsFinal(s: GameUiState, playerId: string, pending: int, draw: nat, letter: char, word: string,
                         doc: RoomDocument)
    requires WellFormed(s) && draw < 8
    ensures NeverReopens(SpinOutcome(s, playerId, pending, draw).updates)
    ensures NeverReopens(GuessLetterOutcome(s, playerId, pending, letter).updates)
    ensures NeverReopens(GuessWordOutcome(s, playerId, pending, word).updates)
    ensures doc.isGameOver ==>
              && Apply(doc, SpinOutcome(s, playerId, pending, draw).updates).isGameOver
              && Apply(doc, GuessLetterOutcome(s, playerId, pending, letter).updates).isGameOver
              && Apply(doc, GuessWordOutcome(s, playerId, pending, word).updates).isGameOver
  {
    if doc.isGameOver {
      ApplyKeepsGameOver(doc, SpinOutcome(s, playerId, pending, draw).updates);
      ApplyKeepsGameOver(doc, GuessLetterOutcome(s, playerId, pending, letter).updates);
      ApplyKeepsGameOver(doc, GuessWordOutcome(s, playerId, pending, word).updates);
    }
  }

  /** Once the stored game is over, the view any viewer derives from it lets
      none of the three actions write. */
  lemma GameOverBlocksActions(roomId: string, playerId: string, doc: RoomDocument, latch: bool,
                              pending: int, draw: nat, letter: char, word: string)
    requires doc.isGameOver && draw < 8
    ensures var s := Playing(Derive(roomId, playerId, doc, latch, pending).view);
            && WellFormed(s)
            && SpinOutcome(s, playerId, pending, draw).updates == []
            && GuessLetterOutcome(s, playerId, pending, letter).updates == []
            && GuessWordOutcome(s, playerId, pending, word).updates == []
  {
    DeriveFacts(roomId, playerId, doc, latch, pending);
  }

  /** A null slice index does not clear the stored one. After a player's wrong
      letter the slice of that player's spin stays stored, so the next player
      is shown the guess box, and is credited that spin's points, without
      having spun. */
  lemma StaleSliceShowsGuessInput()
    ensures var host := PlayerDto("h", "Host", 0);
            var a := PlayerDto("a", "Ann", 1);
            var b := PlayerDto("b", "Ben", 2);
            var doc := RoomDocument("123456", 0, "h", [host, a, b], true, 0, false, Some("AB"),
                                    map[], "", Some(0), false, false, None);
            var seenByA := Playing(Derive("123456", "a", doc, false, 0).view);
            var guess := GuessLetterOutcome(seenByA, "a", 100, 'z');
            var after := Apply(doc, guess.updates);
            var seenByB := Derive("123456", "b", after, false, 0);
            && WellFormed(seenByA) && |guess.updates| == 1
            && guess.updates[0].lastSliceIndex.None?
            && after.currentTurnIndex == 1 && after.lastSliceIndex == Some(0)
            && seenByB.view.isMyTurn && seenByB.view.showGuessInput && seenByB.pending == 100
  {
    var host := PlayerDto("h", "Host", 0);
    var a := PlayerDto("a", "Ann", 1);
    var b := PlayerDto("b", "Ben", 2);
    var doc := RoomDocument("123456", 0, "h", [host, a, b], true, 0, false, Some("AB"),
                            map[], "", Some(0), false, false, None);
    assert GamePlayers(doc.players, "h") == [a, b];
    var seenByA := Playing(Derive("123456", "a", doc, false, 0).view);
    assert seenByA.view.isMyTurn;
    assert Upper("") == "";
    assert Distinct("") == "";
    assert Upper("AB") == "AB";
    assert 'Z' !in "AB";
    var guess := GuessLetterOutcome(seenByA, "a", 100, 'z');
    assert guess.updates[0].nextTurnIndex == Some(1);
    var after := Apply(doc, guess.updates);
    ApplyOne(doc, guess.updates);
    assert GamePlayers(after.players, "h") == [a, b];
  }

  /** No guess writes the slice index, the spinning flag or the extra-turn
      flag, and a `null` never clears a stored value. So after any letter
      guess or word guess, the slice of the last spin stays stored. Whoever
      has the turn next in a game that is not over is shown the guess box
      and is credited that slice's points, without having spun. */
  lemma GuessesKeepStaleSlice(s: GameUiState, playerId: string, pending: int, letter: char, word: string,
                              doc: RoomDocument, roomId: string, viewer: string, latch: bool, viewerPending: int)
    requires WellFormed(s)
    requires doc.lastSliceIndex.Some? && GetSliceAtIndex(doc.lastSliceIndex.value).Points?
    requires !doc.isSpinning && !doc.hasExtraTurn
    ensures var after := Apply(doc, GuessLetterOutcome(s, playerId, pending, letter).updates);
            var d := Derive(roomId, viewer, after, latch, viewerPending);
            && after.lastSliceIndex == doc.lastSliceIndex && !after.isSpinning && !after.hasExtraTurn
            && (d.view.isMyTurn && !after.isGameOver ==>
                  d.view.showGuessInput && d.pending == GetSliceAtIndex(doc.lastSliceIndex.value).value)
    ensures var after := Apply(doc, GuessWordOutcome(s, playerId, pending, word).updates);
            var d := Derive(roomId, viewer, after, latch, viewerPending);
            && after.lastSliceIndex == doc.lastSliceIndex && !after.isSpinning && !after.hasExtraTurn
            && (d.view.isMyTurn && !after.isGameOver ==>
                  d.view.showGuessInput && d.pending == GetSliceAtIndex(doc.lastSliceIndex.value).value)
  {
    var afterLetter := Apply(doc, GuessLetterOutcome(s, playerId, pending, letter).updates);
    LetterKeepsSlice(s, playerId, pending, letter, doc);
    SliceOffered(roomId, viewer, afterLetter, latch, viewerPending);
    var afterWord := Apply(doc, GuessWordOutcome(s, playerId, pending, word).updates);
    WordKeepsSlice(s, playerId, pending, word, doc);
    SliceOffered(roomId, viewer, afterWord, latch, viewerPending);
  }

  lemma LetterKeepsSlice(s: GameUiState, playerId: string, pending: int, letter: char, doc: RoomDocument)
    requires WellFormed(s)
    ensures var after := Apply(doc, GuessLetterOutcome(s, playerId, pending, letter).updates);
            after.lastSliceIndex == doc.lastSliceIndex && after.isSpinning == doc.isSpinning
            && after.hasExtraTurn == doc.hasExtraTurn
  {
    var writes := GuessLetterOutcome(s, playerId, pending, letter).updates;
    if writes != [] {
      ApplyOne(doc, writes);
    }
  }

  lemma WordKeepsSlice(s: GameUiState, playerId: string, pending: int, word: string, doc: RoomDocument)
    requires WellFormed(s)
    ensures var after := Apply(doc, GuessWordOutcome(s, playerId, pending, word).updates);
            after.lastSliceIndex == doc.lastSliceIndex && after.isSpinning == doc.isSpinning
            && after.hasExtraTurn == doc.hasExtraTurn
  {
    var writes := GuessWordOutcome(s, playerId, pending, word).updates;
    if writes != [] {
      ApplyOne(doc, writes);
    }
  }

  /** A stored points slice, with the wheel at rest and no extra turn, offers
      the guess box and that slice's points to whoever has the turn. */
  lemma SliceOffered(roomId: string, viewer: string, doc: RoomDocument, latch: bool, pending: int)
    requires doc.lastSliceIndex.Some? && GetSliceAtIndex(doc.lastSliceIndex.value).Points?
    requires !doc.isSpinning && !doc.hasExtraTurn
    ensures var d := Derive(roomId, viewer, doc, latch, pending);
            d.view.isMyTurn && !doc.isGameOver ==>
              d.view.showGuessInput && d.pending == GetSliceAtIndex(doc.lastSliceIndex.value).value
  {
  }

  /** A write the screen asks the store for. */
  datatype StoreCall = Update(roomId: string, update: GameUpdate) | SetSecret(roomId: string, word: string)

  function AsCalls(roomId: string, updates: seq<GameUpdate>): (r: seq<StoreCall>)
    ensures |r| == |updates|
    ensures forall i | 0 <= i < |updates| :: r[i] == Update(roomId, updates[i])
  {
    seq(|updates|, i requires 0 <= i < |updates| => Update(roomId, updates[i]))
  }

  /** `setSecretWord`: only the host sets the word, which is stored uppercased. */
  function SecretWordCalls(s: GameUiState, roomId: string, word: string): (r: seq<StoreCall>)
    ensures r != [] <==> s.Playing? && s.view.isHost
    ensures r != [] ==> r == [SetSecret(roomId, Upper(word))] && Upper(r[0].word) == r[0].word
  {
    UpperIdempotent(word);
    if s.Playing? && s.view.isHost then [SetSecret(roomId, Upper(word))] else []
  }

  /** Anything that reaches the game screen: a stream emission or failure,
      or a user action. */
  datatype GameInput =
    | Snapshot(result: Result<RoomDocument, Failure>)
    | StreamFailure(message: Option<string>)
    | Spin(draw: nat)
    | Letter(letter: char)
    | Word(word: string)
    | SecretWord(word: string)
    | DismissDialog
    | RetryLoad

  /** A spin draws one of the eight slices. */
  predicate ValidInput(i: GameInput) {
    i.Spin? ==> i.draw < 8
  }

  /** The screen's state holder for one viewer of one room. */
  class GameViewModel {
    const roomId: string
    const playerId: string
    var uiState: GameUiState
    var currentPlayers: seq<PlayerDto>
    var currentTurnIndex: int
    var hostId: string
    var hasShownSecretWordDialog: bool
    var pendingPoints: int
    /** Every store write asked for so far, oldest first. */
    var calls: seq<StoreCall>
    /** How many snapshots have raised the secret-word dialog. */
    ghost var dialogsShown: nat

    ghost predicate Valid()
      reads this
    {
      WellFormed(uiState) && dialogsShown == (if hasShownSecretWordDialog then 1 else 0)
    }

    constructor(roomId: string, playerId: string)
      ensures Valid()
      ensures this.roomId == roomId && this.playerId == playerId
      ensures uiState == Loading && calls == [] && pendingPoints == 0 && !hasShownSecretWordDialog
    {
      this.roomId := roomId;
      this.playerId := playerId;
      uiState := Loading;
      currentPlayers := [];
      currentTurnIndex := 0;
      hostId := "";
      hasShownSecretWordDialog := false;
      pendingPoints := 0;
      calls := [];
      dialogsShown := 0;
    }

    /** One value from the room stream. The dialog is raised at most once in
        the life of the screen. */
    method OnRoomResult(r: Result<RoomDocument, Failure>)
      requires Valid()
      modifies this
      ensures Valid()
      ensures r.Ok? ==>
                var d := Derive(roomId, playerId, r.value, old(hasShownSecretWordDialog), old(pendingPoints));
                && uiState == Playing(d.view) && hasShownSecretWordDialog == d.latch && pendingPoints == d.pending
                && currentPlayers == r.value.players && currentTurnIndex == r.value.currentTurnIndex
                && hostId == r.value.hostId
      ensures r.Err? ==> uiState == Error(LoadFailureText(r.error, "Failed to load game"))
                         && pendingPoints == old(pendingPoints)
                         && hasShownSecretWordDialog == old(hasShownSecretWordDialog)
                         && currentPlayers == old(currentPlayers) && currentTurnIndex == old(currentTurnIndex)
                         && hostId == old(hostId)
      ensures calls == old(calls)
      ensures old(hasShownSecretWordDialog) ==> hasShownSecretWordDialog
      ensures old(dialogsShown) <= dialogsShown <= 1
    {
      match r
      case Err(f) =>
        uiState := Error(LoadFailureText(f, "Failed to load game"));
      case Ok(doc) =>
        currentPlayers := doc.players;
        currentTurnIndex := doc.currentTurnIndex;
        hostId := doc.hostId;
        var d := Derive(roomId, playerId, doc, hasShownSecretWordDialog, pendingPoints);
        DeriveFacts(roomId, playerId, doc, hasShownSecretWordDialog, pendingPoints);
        if d.view.showSecretWordDialog {
          hasShownSecretWordDialog := true;
          dialogsShown := dialogsShown + 1;
        }
        uiState := Playing(d.view);
        pendingPoints := d.pending;
    }

    /** The stream itself failed. */
    method OnStreamError(message: Option<string>)
      requires Valid()
      modifies this`uiState
      ensures Valid()
      ensures uiState == Error(message.GetOr("Failed to load game. Please try again."))
    {
      uiState := Error(message.GetOr("Failed to load game. Please try again."));
    }

    method SpinWheel(draw: nat)
      requires Valid() && draw < 8
      modifies this`calls, this`pendingPoints
      ensures Valid()
      ensures var h := SpinOutcome(old(uiState), playerId, old(pendingPoints), draw);
              calls == old(calls) + AsCalls(roomId, h.updates) && pendingPoints == h.pending
      ensures uiState == old(uiState)
    {
      var h := SpinOutcome(uiState, playerId, pendingPoints, draw);
      calls := calls + AsCalls(roomId, h.updates);
      pendingPoints := h.pending;
    }

    method GuessLetter(letter: char)
      requires Valid()
      modifies this`calls, this`pendingPoints
      ensures Valid()
      ensures var h := GuessLetterOutcome(old(uiState), playerId, old(pendingPoints), letter);
              calls == old(calls) + AsCalls(roomId, h.updates) && pendingPoints == h.pending
      ensures uiState == old(uiState)
    {
      var h := GuessLetterOutcome(uiState, playerId, pendingPoints, letter);
      calls := calls + AsCalls(roomId, h.updates);
      pendingPoints := h.pending;
    }

    method GuessWord(word: string)
      requires Valid()
      modifies this`calls, this`pendingPoints
      ensures Valid()
      ensures var h := GuessWordOutcome(old(uiState), playerId, old(pendingPoints), word);
              calls == old(calls) + AsCalls(roomId, h.updates) && pendingPoints == h.pending
      ensures uiState == old(uiState)
    {
      var h := GuessWordOutcome(uiState, playerId, pendingPoints, word);
      calls := calls + AsCalls(roomId, h.updates);
      pendingPoints := h.pending;
    }

    method SetSecretWord(word: string)
      requires Valid()
      modifies this`calls
      ensures Valid()
      ensures calls == old(calls) + SecretWordCalls(uiState, roomId, word)
    {
      calls := calls + SecretWordCalls(uiState, roomId, word);
    }

    method DismissSecretWordDialog()
      requires Valid()
      modifies this`uiState
      ensures Valid()
      ensures old(uiState).Playing? ==> uiState == Playing(old(uiState).view.(showSecretWordDialog := false))
      ensures !old(uiState).Playing? ==> uiState == old(uiState)
    {
      if uiState.Playing? {
        uiState := Playing(uiState.view.(showSecretWordDialog := false));
      }
    }

    /** Goes back to loading; the next snapshot arrives through `OnRoomResult`. */
    method Retry()
      requires Valid()
      modifies this`uiState
      ensures Valid()
      ensures uiState == Loading
    {
      uiState := Loading;
    }
    /** The screen over a whole session: inputs taken one after the other.
        The secret-word dialog is raised at most once, the count of raised
        dialogs never goes down, and writes are only ever appended. */
    method Run(inputs: seq<GameInput>)
      requires Valid() && forall k | 0 <= k < |inputs| :: ValidInput(inputs[k])
      modifies this
      ensures Valid()
      ensures old(dialogsShown) <= dialogsShown <= 1
      ensures old(hasShownSecretWordDialog) ==> hasShownSecretWordDialog
      ensures old(calls) <= calls
    {
      var k := 0;
      while k < |inputs|
        invariant 0 <= k <= |inputs|
        invariant Valid()
        invariant old(dialogsShown) <= dialogsShown <= 1
        invariant old(hasShownSecretWordDialog) ==> hasShownSecretWordDialog
        invariant old(calls) <= calls
      {
        match inputs[k] {
          case Snapshot(r) => OnRoomResult(r);
          case StreamFailure(m) => OnStreamError(m);
          case Spin(d) => SpinWheel(d);
          case Letter(c) => GuessLetter(c);
          case Word(w) => GuessWord(w);
          case SecretWord(w) => SetSecretWord(w);
          case DismissDialog => DismissSecretWordDialog();
          case RetryLoad => Retry();
        }
        k := k + 1;
      }
    }
  }
}
