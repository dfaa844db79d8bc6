# Wheel of Pasiva, modelled in Dafny

Wheel of Pasiva is a multiplayer word-guessing game in the style of "Wheel of
Fortune", built with Kotlin Multiplatform and Compose. A host creates a room
under a random six-digit code. Players join the room by typing the code or by
scanning it from a QR code, and they all wait in the room until the host starts
the game. The host then sets a secret word, and the players take turns: each
spins a wheel of eight slices (points, Bankrupt, Extra Turn), guesses a letter,
or guesses the whole word. All shared state lives in one document per room in a
cloud document store, and every screen follows that document as a stream of
snapshots.

This project models the core of that app and proves properties of the model:

| file | module | models |
|---|---|---|
| `wrappers.dfy` | `Wrappers` | `Option` and `Result` |
| `text.dfy` | `Text` | Kotlin's `trim` and `isBlank` over Kotlin's full set of whitespace characters; `isDigit` over the decimal digits of every script; `uppercase` and the pattern `\d` on ASCII; `Int.toString` |
| `room_error.dfy` | `RoomErrors` | the `RoomError` hierarchy and its messages; the failures a `Result` can carry |
| `wheel_slice.dfy` | `WheelSlices` | the wheel, `getSliceAtIndex` and `displayText` |
| `language.dfy` | `Languages` | `Language.fromString`, `displayName` and `getAlphabet` |
| `dto.dfy` | `Dto` | `PlayerDto` and `RoomDto`: conversion to and from the domain and to and from the store's key/value maps |
| `firestore.dfy` | `Firestore` | `FirestoreDataSource` as a class over a map of room documents |
| `create_room.dfy` | `CreateRoom` | `CreateRoomUseCase`: the five-attempt search for a free room id |
| `join_room.dfy` | `JoinRoom` | `JoinRoomUseCase` |
| `home_view_model.dfy` | `Home` | `HomeViewModel` |
| `join_room_view_model.dfy` | `JoinDialog` | `JoinRoomViewModel`, including reading a room id out of a QR code |
| `room_view_model.dfy` | `RoomScreen` | `RoomViewModel` |
| `game_view_model.dfy` | `Game` | `GameViewModel`: deriving the view from a snapshot; spinning; guessing a letter or a word; setting the word |
| `navigation.dfy` | `Navigation` | `SimpleNavigator` |

The code that changes state in place becomes Dafny classes with the same fields:
- the data source;
- the two use cases, which hold the data source;
- the four view models;
- the navigator.

Each method is proved against a pure function of the old state. For example,
`(Screen(), repository.rooms) == CreatePressed(old(Screen()), old(repository.rooms), env)`.
What the app promises is then proved as lemmas about those functions.

Inputs from the outside world are parameters:
- the random numbers (`Random.nextInt`);
- the clock readings (`TimeProvider.now()`);
- the failure, if any, of each remote call to the store.

The UI state flows become fields. A one-shot navigation event becomes an append
to a sequence of emitted events.

## Model

| member | source | states |
|---|---|---|
| RoomErrors.Message | composeApp/src/commonMain/kotlin/com/bramish/wheelofpasiva/domain/model/RoomError.kt:6-46 | each of the five errors has a non-empty message; the texts are the source's |
| RoomErrors.MessageDeterminesError | composeApp/src/commonMain/kotlin/com/bramish/wheelofpasiva/domain/model/RoomError.kt:6-46 | equal messages mean the same kind of error, the same missing room id and the same rendered network cause |
| RoomErrors.FixedMessages | composeApp/src/commonMain/kotlin/com/bramish/wheelofpasiva/domain/model/RoomError.kt:18-21 | the id-generation and invalid-id messages depend on neither the cause nor the rejected id |
| RoomErrors.FailureMessage | composeApp/src/commonMain/kotlin/com/bramish/wheelofpasiva/domain/model/RoomError.kt:6-46 | a room error's Throwable message is its own message |
| RoomErrors.LoadFailureTexts | composeApp/src/commonMain/kotlin/com/bramish/wheelofpasiva/presentation/room/RoomViewModel.kt:66-73 | a missing room and a network failure get fixed wordings whatever their payload; any other failure shows its own message, or the fallback when it has none |
| RoomErrors.LoadFailureText | composeApp/src/commonMain/kotlin/com/bramish/wheelofpasiva/presentation/room/RoomViewModel.kt:66-73 | the wording of a failed room read: fixed texts for a missing room and for network trouble, otherwise the failure's message or the fallback; its properties are RoomErrors.LoadFailureTexts |
| WheelSlices.GetSliceAtIndex | composeApp/src/commonMain/kotlin/com/bramish/wheelofpasiva/domain/model/WheelSlice.kt:51-53 | the slice is on the wheel and is the one at the index modulo 8 |
| WheelSlices.SlicePeriodic | composeApp/src/commonMain/kotlin/com/bramish/wheelofpasiva/domain/model/WheelSlice.kt:51-53 | the lookup repeats every 8 indices |
| WheelSlices.SliceKinds | composeApp/src/commonMain/kotlin/com/bramish/wheelofpasiva/domain/model/WheelSlice.kt:28-37 | Bankrupt only at position 3, ExtraTurn only at position 7, and every other position holds 100, 200 or 300 points |
| WheelSlices.SliceCounts | composeApp/src/commonMain/kotlin/com/bramish/wheelofpasiva/domain/model/WheelSlice.kt:26-37 | 100, 200 and 300 appear twice each, Bankrupt and ExtraTurn once each, and no other points value appears |
| WheelSlices.DisplayText | composeApp/src/commonMain/kotlin/com/bramish/wheelofpasiva/domain/model/WheelSlice.kt:42-46 | a non-negative points label is all digits and the other two labels are not |
| WheelSlices.DisplayTextInjective | composeApp/src/commonMain/kotlin/com/bramish/wheelofpasiva/domain/model/WheelSlice.kt:42-46 | different slices have different labels |
| WheelSlices.WheelLabels | composeApp/src/commonMain/kotlin/com/bramish/wheelofpasiva/domain/model/WheelSlice.kt:42-46 | the labels read 100, 200, 300, BANKRUPT and EXTRA TURN |
| Languages.FromString | composeApp/src/commonMain/kotlin/com/bramish/wheelofpasiva/domain/model/Language.kt:14-19 | Hebrew exactly when the string is "HEBREW" ignoring case; null gives English |
| Languages.FromStringName | composeApp/src/commonMain/kotlin/com/bramish/wheelofpasiva/domain/model/Language.kt:14-19 | parsing an enum constant's own name gives that constant back |
| Languages.FromStringIgnoresCase | composeApp/src/commonMain/kotlin/com/bramish/wheelofpasiva/domain/model/Language.kt:14-19 | the result depends only on the upper-cased string |
| Languages.DisplayName | composeApp/src/commonMain/kotlin/com/bramish/wheelofpasiva/domain/model/Language.kt:25-30 | English is shown as "English" and Hebrew in Hebrew script |
| Languages.GetAlphabet | composeApp/src/commonMain/kotlin/com/bramish/wheelofpasiva/domain/model/Language.kt:35-44 | English is A to Z in order and Hebrew has 22 letters; each list is strictly increasing, has no duplicates, and every letter is its own upper case |
| Languages.AlphabetsDisjoint | composeApp/src/commonMain/kotlin/com/bramish/wheelofpasiva/domain/model/Language.kt:35-44 | no letter is in both alphabets |
| Dto.FromEpochMilliseconds | composeApp/src/commonMain/kotlin/com/bramish/wheelofpasiva/data/model/PlayerDto.kt:24 | the instant is valid, lies on a millisecond boundary, and converts back to the same milliseconds |
| Dto.InstantRoundTrip | composeApp/src/commonMain/kotlin/com/bramish/wheelofpasiva/data/model/PlayerDto.kt:20-49 | instant to milliseconds and back is the identity exactly for whole-millisecond instants |
| Dto.PlayerDomainRoundTrip | composeApp/src/commonMain/kotlin/com/bramish/wheelofpasiva/data/model/PlayerDto.kt:20-49 | player to DTO and back keeps the player exactly when its join time is whole milliseconds |
| Dto.PlayerDtoRoundTrip | composeApp/src/commonMain/kotlin/com/bramish/wheelofpasiva/data/model/PlayerDto.kt:20-49 | DTO to player and back is always the identity |
| Dto.PlayerToMap | composeApp/src/commonMain/kotlin/com/bramish/wheelofpasiva/data/model/PlayerDto.kt:31-37 | the map has exactly the keys id, nickname and joinedAt, holding the id, the nickname and the join time in milliseconds |
| Dto.PlayerFromValue | composeApp/src/commonMain/kotlin/com/bramish/wheelofpasiva/data/model/RoomDto.kt:66-73 | a list element reads as a player exactly when it is a map |
| Dto.PlayerMapRoundTrip | composeApp/src/commonMain/kotlin/com/bramish/wheelofpasiva/data/model/RoomDto.kt:66-73 | reading a player's own map gives the player back |
| Dto.RoomToDomain | composeApp/src/commonMain/kotlin/com/bramish/wheelofpasiva/data/model/RoomDto.kt:21-28 | the room keeps the number of players |
| Dto.RoomFromDomain | composeApp/src/commonMain/kotlin/com/bramish/wheelofpasiva/data/model/RoomDto.kt:52-59 | the DTO keeps the number of players |
| Dto.RoomDomainRoundTrip | composeApp/src/commonMain/kotlin/com/bramish/wheelofpasiva/data/model/RoomDto.kt:21-59 | room to DTO and back keeps the room exactly when all its instants are whole milliseconds |
| Dto.RoomDtoRoundTrip | composeApp/src/commonMain/kotlin/com/bramish/wheelofpasiva/data/model/RoomDto.kt:21-59 | DTO to room and back is always the identity |
| Dto.RoomToMap | composeApp/src/commonMain/kotlin/com/bramish/wheelofpasiva/data/model/RoomDto.kt:33-46 | the map has exactly the four keys, holding the id, the creation time in milliseconds and the host id, and its players list holds each player's own map in order |
| Dto.PlayersFromValues | composeApp/src/commonMain/kotlin/com/bramish/wheelofpasiva/data/model/RoomDto.kt:66-73 | the list reads exactly when every element is a map, and then element by element and in order |
| Dto.RoomFromMap | composeApp/src/commonMain/kotlin/com/bramish/wheelofpasiva/data/model/RoomDto.kt:65-81 | the read fails exactly when some players element is not a map; otherwise it keeps the number of players |
| Dto.FromMapDefaults | composeApp/src/commonMain/kotlin/com/bramish/wheelofpasiva/data/model/RoomDto.kt:65-81 | a missing or wrongly typed key gives "", 0 or the empty list |
| Dto.RoomMapRoundTrip | composeApp/src/commonMain/kotlin/com/bramish/wheelofpasiva/data/model/RoomDto.kt:33-81 | reading a room's own map gives the room back |
| Dto.ToEpochMilliseconds | composeApp/src/commonMain/kotlin/com/bramish/wheelofpasiva/data/model/PlayerDto.kt:47 | an instant as epoch milliseconds, rounded towards the past; Dto.InstantRoundTrip states that going back is the identity exactly on whole milliseconds |
| Dto.PlayerToDomain | composeApp/src/commonMain/kotlin/com/bramish/wheelofpasiva/data/model/PlayerDto.kt:20-26 | the domain player for a stored one; Dto.PlayerDtoRoundTrip states that it inverts PlayerFromDomain |
| Dto.PlayerFromDomain | composeApp/src/commonMain/kotlin/com/bramish/wheelofpasiva/data/model/PlayerDto.kt:43-49 | the stored player for a domain one; Dto.PlayerDomainRoundTrip states when it is inverted by PlayerToDomain |
| Firestore.FromRoomDto | composeApp/src/commonMain/kotlin/com/bramish/wheelofpasiva/data/datasource/FirestoreDataSource.kt:23-30 | a created document keeps the DTO's fields; the game is not started, not over and has no winner |
| Firestore.Merge | composeApp/src/commonMain/kotlin/com/bramish/wheelofpasiva/data/datasource/FirestoreDataSource.kt:125-134 | an update never changes the id, creation time, host, players, secret word or started flag |
| Firestore.MergeFieldwise | composeApp/src/commonMain/kotlin/com/bramish/wheelofpasiva/data/datasource/FirestoreDataSource.kt:125-134 | field by field, a given value is stored and a null keeps the stored one, so a stored slice index or winner is never cleared |
| Firestore.MergeNoChange | composeApp/src/commonMain/kotlin/com/bramish/wheelofpasiva/data/datasource/FirestoreDataSource.kt:105-141 | an all-null update writes the document back unchanged |
| Firestore.MergeIdempotent | composeApp/src/commonMain/kotlin/com/bramish/wheelofpasiva/data/datasource/FirestoreDataSource.kt:105-141 | repeating an update changes nothing more |
| Firestore.MergeThen | composeApp/src/commonMain/kotlin/com/bramish/wheelofpasiva/data/datasource/FirestoreDataSource.kt:105-141 | two updates in a row act as one in which the later value of each field wins |
| Firestore.CreateRoomStep | composeApp/src/commonMain/kotlin/com/bramish/wheelofpasiva/data/datasource/FirestoreDataSource.kt:23-30 | a failure writes nothing; otherwise the room is stored under its id, replacing any room there, and the other rooms are kept |
| Firestore.ExistsResult | composeApp/src/commonMain/kotlin/com/bramish/wheelofpasiva/data/datasource/FirestoreDataSource.kt:35-42 | without a failure, the answer is true exactly when the room is stored |
| Firestore.GetResult | composeApp/src/commonMain/kotlin/com/bramish/wheelofpasiva/data/datasource/FirestoreDataSource.kt:87-100 | a stored room is returned and a missing room is RoomNotFound with its id |
| Firestore.UpdateGameStateEffect | composeApp/src/commonMain/kotlin/com/bramish/wheelofpasiva/data/datasource/FirestoreDataSource.kt:105-141 | a missing room is reported and nothing is written; otherwise only that room changes, by the merge |
| Firestore.AddPlayerEffect | composeApp/src/commonMain/kotlin/com/bramish/wheelofpasiva/data/datasource/FirestoreDataSource.kt:47-65 | a missing room is reported; otherwise the player is added last, nothing else in the room changes, and no other room changes |
| Firestore.StartGameIdempotent | composeApp/src/commonMain/kotlin/com/bramish/wheelofpasiva/data/datasource/FirestoreDataSource.kt:146-163 | only the started flag is set, and a second start changes nothing |
| Firestore.SetSecretWordEffect | composeApp/src/commonMain/kotlin/com/bramish/wheelofpasiva/data/datasource/FirestoreDataSource.kt:168-185 | only the word changes, and it is stored as given |
| Firestore.FaultsWriteNothing | composeApp/src/commonMain/kotlin/com/bramish/wheelofpasiva/data/datasource/FirestoreDataSource.kt:23-185 | an operation whose remote call fails leaves every room as it was |
| Firestore.FirestoreDataSource.CreateRoom | composeApp/src/commonMain/kotlin/com/bramish/wheelofpasiva/data/datasource/FirestoreDataSource.kt:23-30 | the result and the new rooms are those of CreateRoomStep |
| Firestore.FirestoreDataSource.RoomExists | composeApp/src/commonMain/kotlin/com/bramish/wheelofpasiva/data/datasource/FirestoreDataSource.kt:35-42 | the result is ExistsResult on the current rooms |
| Firestore.FirestoreDataSource.GetRoom | composeApp/src/commonMain/kotlin/com/bramish/wheelofpasiva/data/datasource/FirestoreDataSource.kt:87-100 | the result is GetResult on the current rooms |
| Firestore.FirestoreDataSource.ObserveRoom | composeApp/src/commonMain/kotlin/com/bramish/wheelofpasiva/data/datasource/FirestoreDataSource.kt:70-82 | each snapshot is mapped as getRoom maps it: the room, or RoomNotFound |
| Firestore.FirestoreDataSource.AddPlayer | composeApp/src/commonMain/kotlin/com/bramish/wheelofpasiva/data/datasource/FirestoreDataSource.kt:47-65 | the result and the new rooms are those of AddPlayerStep |
| Firestore.FirestoreDataSource.UpdateGameState | composeApp/src/commonMain/kotlin/com/bramish/wheelofpasiva/data/datasource/FirestoreDataSource.kt:105-141 | the result and the new rooms are those of UpdateGameStateStep |
| Firestore.FirestoreDataSource.StartGame | composeApp/src/commonMain/kotlin/com/bramish/wheelofpasiva/data/datasource/FirestoreDataSource.kt:146-163 | the result and the new rooms are those of StartGameStep |
| Firestore.FirestoreDataSource.SetSecretWord | composeApp/src/commonMain/kotlin/com/bramish/wheelofpasiva/data/datasource/FirestoreDataSource.kt:168-185 | the result and the new rooms are those of SetSecretWordStep |
| Firestore.AddPlayerStep | composeApp/src/commonMain/kotlin/com/bramish/wheelofpasiva/data/datasource/FirestoreDataSource.kt:47-65 | addPlayer on the map of rooms; Firestore.AddPlayerEffect and Firestore.FaultsWriteNothing state its effect and its failures |
| Firestore.UpdateGameStateStep | composeApp/src/commonMain/kotlin/com/bramish/wheelofpasiva/data/datasource/FirestoreDataSource.kt:105-141 | updateGameState on the map of rooms; Firestore.UpdateGameStateEffect and Firestore.FaultsWriteNothing state its effect and its failures |
| Firestore.StartGameStep | composeApp/src/commonMain/kotlin/com/bramish/wheelofpasiva/data/datasource/FirestoreDataSource.kt:146-163 | startGame on the map of rooms; Firestore.StartGameIdempotent and Firestore.FaultsWriteNothing state its effect and its failures |
| Firestore.SetSecretWordStep | composeApp/src/commonMain/kotlin/com/bramish/wheelofpasiva/data/datasource/FirestoreDataSource.kt:168-185 | setSecretWord on the map of rooms; Firestore.SetSecretWordEffect and Firestore.FaultsWriteNothing state its effect and its failures |
| CreateRoom.PlayerIdForm | composeApp/src/commonMain/kotlin/com/bramish/wheelofpasiva/domain/usecase/CreateRoomUseCase.kt:83-85 | a player id is the clock reading, an underscore, then four digits that spell the random suffix |
| CreateRoom.PlayerIdInjective | composeApp/src/commonMain/kotlin/com/bramish/wheelofpasiva/domain/usecase/CreateRoomUseCase.kt:83-85 | different clock readings or suffixes give different player ids |
| CreateRoom.BlankNicknameNoCalls | composeApp/src/commonMain/kotlin/com/bramish/wheelofpasiva/domain/usecase/CreateRoomUseCase.kt:34-36 | the store is asked nothing exactly when the nickname is blank, which fails with "Nickname cannot be empty" |
| CreateRoom.AtMostFiveChecks | composeApp/src/commonMain/kotlin/com/bramish/wheelofpasiva/domain/usecase/CreateRoomUseCase.kt:39-69 | at most five existence checks, then at most one create as the last call; the store changes only through that create |
| CreateRoom.AllTakenFails | composeApp/src/commonMain/kotlin/com/bramish/wheelofpasiva/domain/usecase/CreateRoomUseCase.kt:39-69 | when all five drawn ids are taken, exactly five checks are made, nothing is created, and the result is RoomIdGenerationFailed |
| CreateRoom.CheckFailureStops | composeApp/src/commonMain/kotlin/com/bramish/wheelofpasiva/domain/usecase/CreateRoomUseCase.kt:41-45 | a failed existence check stops the use case at once with that failure |
| CreateRoom.FirstFreeIdCreates | composeApp/src/commonMain/kotlin/com/bramish/wheelofpasiva/domain/usecase/CreateRoomUseCase.kt:47-65 | the room is created at the first free id with the host as its only player; the returned ids are the stored ones, and a failed write is passed on |
| CreateRoom.RoomIdsAreSixDigits | composeApp/src/commonMain/kotlin/com/bramish/wheelofpasiva/domain/usecase/CreateRoomUseCase.kt:75-77 | every id checked or created is six digits without a leading zero |
| CreateRoom.CreatedRoomIsNew | composeApp/src/commonMain/kotlin/com/bramish/wheelofpasiva/domain/usecase/CreateRoomUseCase.kt:33-70 | on success, exactly one room is added under a free six-digit id; it is not started, and its host and only player is the returned player with the given nickname |
| CreateRoom.CreateFailures | composeApp/src/commonMain/kotlin/com/bramish/wheelofpasiva/domain/usecase/CreateRoomUseCase.kt:33-70 | every failure is a room error, except the blank-nickname rejection |
| CreateRoom.CreateRoomUseCase.Invoke | composeApp/src/commonMain/kotlin/com/bramish/wheelofpasiva/domain/usecase/CreateRoomUseCase.kt:33-70 | the loop's result, calls and new rooms are those of CreateRoomRun |
| CreateRoom.PlayerIdFrom | composeApp/src/commonMain/kotlin/com/bramish/wheelofpasiva/domain/usecase/CreateRoomUseCase.kt:83-85 | the player id from the clock and the random suffix; CreateRoom.PlayerIdForm and CreateRoom.PlayerIdInjective state its shape and that it is injective |
| CreateRoom.NewRoom | composeApp/src/commonMain/kotlin/com/bramish/wheelofpasiva/domain/usecase/CreateRoomUseCase.kt:48-63 | the host player and the room the use case builds; CreateRoom.AttemptsCreate states what is stored |
| CreateRoom.Attempts | composeApp/src/commonMain/kotlin/com/bramish/wheelofpasiva/domain/usecase/CreateRoomUseCase.kt:38-69 | the attempts from a given one on; CreateRoom.AttemptsShape, CreateRoom.AttemptsCreate and CreateRoom.AttemptsFailures state their calls, their result and the store afterwards |
| CreateRoom.CreateRoomRun | composeApp/src/commonMain/kotlin/com/bramish/wheelofpasiva/domain/usecase/CreateRoomUseCase.kt:33-70 | invoke, as its result, its calls and the store afterwards; the lemmas from CreateRoom.BlankNicknameNoCalls to CreateRoom.CreateFailures state its properties |
| JoinRoom.NewPlayer | composeApp/src/commonMain/kotlin/com/bramish/wheelofpasiva/domain/usecase/JoinRoomUseCase.kt:45-50 | the new player has the given nickname and joins now |
| JoinRoom.JoinValidationOrder | composeApp/src/commonMain/kotlin/com/bramish/wheelofpasiva/domain/usecase/JoinRoomUseCase.kt:25-42 | checks run in order: id format, then nickname, then the existence check; each failure stops with the store unchanged |
| JoinRoom.JoinSucceeds | composeApp/src/commonMain/kotlin/com/bramish/wheelofpasiva/domain/usecase/JoinRoomUseCase.kt:25-53 | success exactly when every check passes and no call fails; the new player is then added last to that room and nothing else changes; a failure writes nothing |
| JoinRoom.JoinPlayerId | composeApp/src/commonMain/kotlin/com/bramish/wheelofpasiva/domain/usecase/JoinRoomUseCase.kt:58-60 | the player id is the clock reading, an underscore, then the four suffix digits |
| JoinRoom.JoinRoomUseCase.Invoke | composeApp/src/commonMain/kotlin/com/bramish/wheelofpasiva/domain/usecase/JoinRoomUseCase.kt:25-53 | the result, calls and new rooms are those of JoinRoomRun |
| JoinRoom.IsRoomIdFormat | composeApp/src/commonMain/kotlin/com/bramish/wheelofpasiva/domain/usecase/JoinRoomUseCase.kt:27 | the pattern of six digits; CreateRoom.RoomIdsAreSixDigits and JoinDialog.ExtractRoomIdFacts state that generated and scanned ids meet it |
| JoinRoom.JoinRoomRun | composeApp/src/commonMain/kotlin/com/bramish/wheelofpasiva/domain/usecase/JoinRoomUseCase.kt:25-53 | invoke, as its result, its calls and the store afterwards; JoinRoom.JoinValidationOrder, JoinRoom.JoinSucceeds and JoinRoom.JoinPlayerId state its properties |
| Game.GamePlayers | composeApp/src/commonMain/kotlin/com/bramish/wheelofpasiva/presentation/game/GameViewModel.kt:60 | the game's players are exactly the room's players other than the host, in joining order (see the two lemmas below) |
| Game.GamePlayersConcat | composeApp/src/commonMain/kotlin/com/bramish/wheelofpasiva/presentation/game/GameViewModel.kt:60 | filtering a joined list gives the filtered parts one after the other, so the joining order and repeated entries are kept |
| Game.GamePlayersNoHost | composeApp/src/commonMain/kotlin/com/bramish/wheelofpasiva/presentation/game/GameViewModel.kt:60 | a list without the host is kept whole, and a list of host entries only leaves nobody |
| Game.CurrentTurnPlayer | composeApp/src/commonMain/kotlin/com/bramish/wheelofpasiva/presentation/game/GameViewModel.kt:63-68 | nobody exactly when there are no players; otherwise the player at the index clamped into the list |
| Game.FindNickname | composeApp/src/commonMain/kotlin/com/bramish/wheelofpasiva/presentation/game/GameViewModel.kt:92-95 | the winner's name is the nickname of the first player with that id, and is missing only when no player has that id |
| Game.DeriveFacts | composeApp/src/commonMain/kotlin/com/bramish/wheelofpasiva/presentation/game/GameViewModel.kt:54-129 | the view hides the host, gives the turn only to the non-host at the clamped index, never gives the host a turn or a guess box, raises the word dialog only while the latch is unset, and shows revealed letters upper-cased without duplicates |
| Game.KotlinRem | composeApp/src/commonMain/kotlin/com/bramish/wheelofpasiva/presentation/game/GameViewModel.kt:180 | Kotlin's truncating remainder: a non-negative dividend gives the usual remainder and a negative one gives a remainder of at most 0 |
| Game.TurnWraps | composeApp/src/commonMain/kotlin/com/bramish/wheelofpasiva/presentation/game/GameViewModel.kt:180 | the next turn index stays in range from any non-negative index, goes to the next player and wraps from last to first |
| Game.SpinGuard | composeApp/src/commonMain/kotlin/com/bramish/wheelofpasiva/presentation/game/GameViewModel.kt:147-165 | a spin writes exactly when its guard passes, and then it first writes the spin start |
| Game.SpinBankrupt | composeApp/src/commonMain/kotlin/com/bramish/wheelofpasiva/presentation/game/GameViewModel.kt:176-190 | Bankrupt zeroes only the spinner's score, passes the turn, and clears the spinning and extra-turn flags |
| Game.SpinExtraTurn | composeApp/src/commonMain/kotlin/com/bramish/wheelofpasiva/presentation/game/GameViewModel.kt:191-199 | ExtraTurn keeps the scores and the turn, sets the extra-turn flag, and leaves the pending points unchanged |
| Game.SpinPoints | composeApp/src/commonMain/kotlin/com/bramish/wheelofpasiva/presentation/game/GameViewModel.kt:200-209 | a points slice keeps the scores and the turn, and its value (100, 200 or 300) becomes the pending points |
| Game.GuessLetterGuard | composeApp/src/commonMain/kotlin/com/bramish/wheelofpasiva/presentation/game/GameViewModel.kt:219-231 | a letter is written exactly when the viewer may guess, a word is set and the upper-cased letter is new; the write uses up the pending points |
| Game.GuessLetterEffect | composeApp/src/commonMain/kotlin/com/bramish/wheelofpasiva/presentation/game/GameViewModel.kt:233-282 | a right letter earns the pending points per occurrence and ends the game when it completes the word, otherwise passes the turn; a wrong letter only reveals and passes; revealed letters stay free of duplicates |
| Game.GuessWordEffect | composeApp/src/commonMain/kotlin/com/bramish/wheelofpasiva/presentation/game/GameViewModel.kt:290-330 | a word guess is right exactly when the upper-cased, trimmed guess equals the upper-cased word; a right guess doubles the score, reveals every letter of the word and ends the game; a wrong guess only passes the turn |
| Text.TrimUpperCommute | composeApp/src/commonMain/kotlin/com/bramish/wheelofpasiva/presentation/game/GameViewModel.kt:296-297 | upper-casing then trimming gives the same as trimming then upper-casing |
| Text.AsciiDigitsAreKotlinDigits | composeApp/src/commonMain/kotlin/com/bramish/wheelofpasiva/presentation/home/JoinRoomViewModel.kt:38 | every ASCII digit, which is what the pattern `\d` matches, is a Kotlin digit, and the Arabic-Indic digit one is a Kotlin digit that is not ASCII |
| Text.KotlinDigitNotWhitespace | composeApp/src/commonMain/kotlin/com/bramish/wheelofpasiva/presentation/home/JoinRoomViewModel.kt:38 | no Kotlin digit is a whitespace character |
| Text.TrimKotlinDigits | composeApp/src/commonMain/kotlin/com/bramish/wheelofpasiva/presentation/home/JoinRoomViewModel.kt:51 | trimming leaves a string of Kotlin digits unchanged |
| Text.AllKotlinDigitsEach | composeApp/src/commonMain/kotlin/com/bramish/wheelofpasiva/presentation/home/JoinRoomViewModel.kt:38 | the recursive `all { it.isDigit() }` holds exactly when every character is a Kotlin digit |
| Game.GuessWordGuard | composeApp/src/commonMain/kotlin/com/bramish/wheelofpasiva/presentation/game/GameViewModel.kt:290-296 | a word guess writes exactly when the viewer may guess and a word is set |
| Game.GameOverIsFinal | composeApp/src/commonMain/kotlin/com/bramish/wheelofpasiva/presentation/game/GameViewModel.kt:147-330 | no action writes "not over", or a winner without ending the game, so a finished game stays finished |
| Game.GameOverBlocksActions | composeApp/src/commonMain/kotlin/com/bramish/wheelofpasiva/presentation/game/GameViewModel.kt:149-156 | once the stored game is over, none of the three actions writes anything |
| Game.StaleSliceShowsGuessInput | composeApp/src/commonMain/kotlin/com/bramish/wheelofpasiva/presentation/game/GameViewModel.kt:98-102 | after a wrong letter, the next player sees the guess box and is credited the previous spin's points without spinning |
| Game.AsCalls | composeApp/src/commonMain/kotlin/com/bramish/wheelofpasiva/presentation/game/GameViewModel.kt:160-209 | each update becomes one store write for the room, in order |
| Game.SecretWordCalls | composeApp/src/commonMain/kotlin/com/bramish/wheelofpasiva/presentation/game/GameViewModel.kt:336-345 | only the host writes the word, and it is written upper-cased |
| Game.GameViewModel.OnRoomResult | composeApp/src/commonMain/kotlin/com/bramish/wheelofpasiva/presentation/game/GameViewModel.kt:44-138 | a snapshot replaces the view with the derived one and the dialog is raised at most once; a failure shows its text and keeps the pending points, the players, the turn index and the host id |
| Game.GameViewModel.OnStreamError | composeApp/src/commonMain/kotlin/com/bramish/wheelofpasiva/presentation/game/GameViewModel.kt:47-51 | the stream's message, or the fixed text, is shown; only the screen state changes, so the players, the turn index, the host id, the latch and the pending points stay as they were |
| Game.GameViewModel.SpinWheel | composeApp/src/commonMain/kotlin/com/bramish/wheelofpasiva/presentation/game/GameViewModel.kt:147-212 | the writes asked for are SpinOutcome's, in order, and its pending points are kept; only the requested writes and the pending points change, so the dialog latch is kept |
| Game.GameViewModel.GuessLetter | composeApp/src/commonMain/kotlin/com/bramish/wheelofpasiva/presentation/game/GameViewModel.kt:219-283 | the writes asked for are GuessLetterOutcome's and its pending points are kept; only the requested writes and the pending points change, so the dialog latch is kept |
| Game.GameViewModel.GuessWord | composeApp/src/commonMain/kotlin/com/bramish/wheelofpasiva/presentation/game/GameViewModel.kt:290-330 | the writes asked for are GuessWordOutcome's and its pending points are kept; only the requested writes and the pending points change, so the dialog latch is kept |
| Game.GameViewModel.SetSecretWord | composeApp/src/commonMain/kotlin/com/bramish/wheelofpasiva/presentation/game/GameViewModel.kt:336-345 | the writes asked for are those of SecretWordCalls |
| Game.GameViewModel.DismissSecretWordDialog | composeApp/src/commonMain/kotlin/com/bramish/wheelofpasiva/presentation/game/GameViewModel.kt:350-355 | only the dialog flag of a playing view is cleared |
| Game.GameViewModel.Retry | composeApp/src/commonMain/kotlin/com/bramish/wheelofpasiva/presentation/game/GameViewModel.kt:360-363 | the screen goes back to loading |
| Game.Derive | composeApp/src/commonMain/kotlin/com/bramish/wheelofpasiva/presentation/game/GameViewModel.kt:54-129 | the snapshot handler of observeRoom; Game.DeriveFacts states its properties |
| Game.NextTurn | composeApp/src/commonMain/kotlin/com/bramish/wheelofpasiva/presentation/game/GameViewModel.kt:180 | the next turn index with Kotlin's truncating remainder; Game.TurnWraps states its properties |
| Game.SpinOutcome | composeApp/src/commonMain/kotlin/com/bramish/wheelofpasiva/presentation/game/GameViewModel.kt:147-209 | spinWheel, as its writes and the pending points afterwards; Game.SpinGuard, Game.SpinBankrupt, Game.SpinExtraTurn and Game.SpinPoints state its properties |
| Game.LetterUpdate | composeApp/src/commonMain/kotlin/com/bramish/wheelofpasiva/presentation/game/GameViewModel.kt:233-282 | the write for a fresh letter; Game.GuessLetterEffect states its properties |
| Game.GuessLetterOutcome | composeApp/src/commonMain/kotlin/com/bramish/wheelofpasiva/presentation/game/GameViewModel.kt:219-282 | guessLetter, as its writes and the pending points afterwards; Game.GuessLetterGuard and Game.GuessLetterEffect state its properties |
| Game.GuessWordOutcome | composeApp/src/commonMain/kotlin/com/bramish/wheelofpasiva/presentation/game/GameViewModel.kt:290-330 | guessWord, as its writes and the pending points afterwards; Game.GuessWordGuard and Game.GuessWordEffect state its properties |
| Game.GuessesKeepStaleSlice | composeApp/src/commonMain/kotlin/com/bramish/wheelofpasiva/presentation/game/GameViewModel.kt:98-102 | for every viewer state and guess, a letter or word guess leaves the stored slice, the spinning flag and the extra-turn flag alone, so whoever has the turn next is offered the guess box worth the old slice's points |
| Game.LetterKeepsSlice | composeApp/src/commonMain/kotlin/com/bramish/wheelofpasiva/presentation/game/GameViewModel.kt:219-282 | a letter guess writes neither the slice nor the spinning or extra-turn flag |
| Game.WordKeepsSlice | composeApp/src/commonMain/kotlin/com/bramish/wheelofpasiva/presentation/game/GameViewModel.kt:290-330 | a word guess writes neither the slice nor the spinning or extra-turn flag |
| Game.SliceOffered | composeApp/src/commonMain/kotlin/com/bramish/wheelofpasiva/presentation/game/GameViewModel.kt:98-102 | a stored points slice, with the wheel at rest, no extra turn and the game not over, shows the guess box and those points to the player whose turn it is |
| Game.GameViewModel.Run | composeApp/src/commonMain/kotlin/com/bramish/wheelofpasiva/presentation/game/GameViewModel.kt:44-363 | over any sequence of snapshots, stream failures and actions the view model stays valid, the secret-word dialog is shown at most once and never un-shown, and the requested writes only grow |
| Home.CreateNeedsNickname | composeApp/src/commonMain/kotlin/com/bramish/wheelofpasiva/presentation/home/HomeViewModel.kt:41-50 | a blank nickname shows the nickname error and leaves the store alone; any other nickname reaches the use case trimmed and is never rejected there as blank |
| Home.CreateOutcome | composeApp/src/commonMain/kotlin/com/bramish/wheelofpasiva/presentation/home/HomeViewModel.kt:41-64 | navigation happens exactly when the use case succeeds, to the new room as its host; a failure shows the room error's own message |
| Home.JoinOpensDialog | composeApp/src/commonMain/kotlin/com/bramish/wheelofpasiva/presentation/home/HomeViewModel.kt:69-79 | the join dialog opens exactly when the nickname is not blank; otherwise the nickname error is shown |
| Home.ClearErrorFacts | composeApp/src/commonMain/kotlin/com/bramish/wheelofpasiva/presentation/home/HomeViewModel.kt:84-88 | clearing leaves no error, touches only an error, and a second clear changes nothing |
| Home.HomeViewModel.OnNicknameChange | composeApp/src/commonMain/kotlin/com/bramish/wheelofpasiva/presentation/home/HomeViewModel.kt:34-36 | the field holds exactly what was typed |
| Home.HomeViewModel.OnCreateRoom | composeApp/src/commonMain/kotlin/com/bramish/wheelofpasiva/presentation/home/HomeViewModel.kt:41-64 | the screen and the store afterwards are those of CreatePressed |
| Home.HomeViewModel.OnJoinRoom | composeApp/src/commonMain/kotlin/com/bramish/wheelofpasiva/presentation/home/HomeViewModel.kt:69-79 | the screen afterwards is that of JoinPressed |
| Home.HomeViewModel.ClearError | composeApp/src/commonMain/kotlin/com/bramish/wheelofpasiva/presentation/home/HomeViewModel.kt:84-88 | the screen afterwards is that of ErrorCleared |
| Home.CreatePressed | composeApp/src/commonMain/kotlin/com/bramish/wheelofpasiva/presentation/home/HomeViewModel.kt:41-64 | onCreateRoom once the use case has answered; Home.CreateNeedsNickname and Home.CreateOutcome state its properties |
| Home.JoinPressed | composeApp/src/commonMain/kotlin/com/bramish/wheelofpasiva/presentation/home/HomeViewModel.kt:69-79 | onJoinRoom; Home.JoinOpensDialog states its properties |
| Home.ErrorCleared | composeApp/src/commonMain/kotlin/com/bramish/wheelofpasiva/presentation/home/HomeViewModel.kt:84-88 | clearError; Home.ClearErrorFacts states its properties |
| JoinDialog.FirstSixDigits | composeApp/src/commonMain/kotlin/com/bramish/wheelofpasiva/presentation/home/JoinRoomViewModel.kt:146-147 | the first position from which six digits follow, or none if there is no such position |
| JoinDialog.ExtractRoomIdFacts | composeApp/src/commonMain/kotlin/com/bramish/wheelofpasiva/presentation/home/JoinRoomViewModel.kt:139-148 | an id is found exactly when the code contains six consecutive digits; it is the leftmost such run and is always a well-formed room id |
| JoinDialog.QrScannedFacts | composeApp/src/commonMain/kotlin/com/bramish/wheelofpasiva/presentation/home/JoinRoomViewModel.kt:94-107 | a scan puts the leftmost six-digit run in the field and clears an error; without one, only the QR error is shown |
| JoinDialog.RoomIdChangedFacts | composeApp/src/commonMain/kotlin/com/bramish/wheelofpasiva/presentation/home/JoinRoomViewModel.kt:36-45 | an edit is taken exactly when it is at most six digits of any script, and then it clears an error; a refused edit changes nothing |
| JoinDialog.ValidatedJoinPassesChecks | composeApp/src/commonMain/kotlin/com/bramish/wheelofpasiva/presentation/home/JoinRoomViewModel.kt:55-68 | input that passes the dialog's checks reaches the use case untrimmed, six characters long and with a nickname that is not blank; it passes the use case's format check exactly when its digits are ASCII ones |
| JoinDialog.JoinRejected | composeApp/src/commonMain/kotlin/com/bramish/wheelofpasiva/presentation/home/JoinRoomViewModel.kt:55-68 | rejected input shows the dialog's own message, asks the store nothing and emits nothing; a blank nickname is reported first |
| JoinDialog.JoinNavigates | composeApp/src/commonMain/kotlin/com/bramish/wheelofpasiva/presentation/home/JoinRoomViewModel.kt:69-77 | after the checks, navigation happens exactly when the use case succeeds, with the code and the id of the player just added last to that room |
| JoinDialog.JoinFails | composeApp/src/commonMain/kotlin/com/bramish/wheelofpasiva/presentation/home/JoinRoomViewModel.kt:78-87 | after the checks, a failure is never a blank-nickname rejection, and it is a format rejection exactly when the field holds a non-ASCII digit; it is shown and the store is unchanged |
| JoinDialog.NonAsciiCodeRejected | composeApp/src/commonMain/kotlin/com/bramish/wheelofpasiva/presentation/home/JoinRoomViewModel.kt:50-89 | a field of six digits that are not all ASCII passes the dialog's checks, is refused by the use case's pattern, and ends in the six-digits message, with nothing written or emitted |
| JoinDialog.ArabicIndicCodeTyped | composeApp/src/commonMain/kotlin/com/bramish/wheelofpasiva/presentation/home/JoinRoomViewModel.kt:36-89 | the Arabic-Indic code one to six is taken into the field from any dialog state, and joining with it shows the six-digits message and leaves the store alone |
| JoinDialog.JoinFailureTexts | composeApp/src/commonMain/kotlin/com/bramish/wheelofpasiva/presentation/home/JoinRoomViewModel.kt:78-87 | each failure's fixed wording, and for any other failure its own message or the fallback |
| JoinDialog.RoomFieldPreserved | composeApp/src/commonMain/kotlin/com/bramish/wheelofpasiva/presentation/home/JoinRoomViewModel.kt:36-133 | whatever the dialog does, the field holds at most six digits of any script |
| JoinDialog.JoinRoomViewModel.OnRoomIdChange | composeApp/src/commonMain/kotlin/com/bramish/wheelofpasiva/presentation/home/JoinRoomViewModel.kt:36-45 | the dialog afterwards is that of RoomIdChanged |
| JoinDialog.JoinRoomViewModel.OnJoinRoom | composeApp/src/commonMain/kotlin/com/bramish/wheelofpasiva/presentation/home/JoinRoomViewModel.kt:50-89 | the dialog and the store afterwards are those of JoinPressed |
| JoinDialog.JoinRoomViewModel.OnQrCodeScanned | composeApp/src/commonMain/kotlin/com/bramish/wheelofpasiva/presentation/home/JoinRoomViewModel.kt:94-107 | the dialog afterwards is that of QrScanned |
| JoinDialog.JoinRoomViewModel.OnOpenQrScanner | composeApp/src/commonMain/kotlin/com/bramish/wheelofpasiva/presentation/home/JoinRoomViewModel.kt:112-116 | one scanner event is emitted and nothing else changes |
| JoinDialog.JoinRoomViewModel.ClearError | composeApp/src/commonMain/kotlin/com/bramish/wheelofpasiva/presentation/home/JoinRoomViewModel.kt:121-125 | the dialog afterwards is that of ErrorCleared |
| JoinDialog.JoinRoomViewModel.Reset | composeApp/src/commonMain/kotlin/com/bramish/wheelofpasiva/presentation/home/JoinRoomViewModel.kt:130-133 | the field is emptied and the state is idle |
| JoinDialog.ExtractRoomId | composeApp/src/commonMain/kotlin/com/bramish/wheelofpasiva/presentation/home/JoinRoomViewModel.kt:139-148 | extractRoomId; JoinDialog.ExtractRoomIdFacts states that it finds the leftmost six-digit run, exactly when there is one |
| JoinDialog.QrScanned | composeApp/src/commonMain/kotlin/com/bramish/wheelofpasiva/presentation/home/JoinRoomViewModel.kt:94-107 | onQrCodeScanned; JoinDialog.QrScannedFacts states its properties |
| JoinDialog.RoomIdChanged | composeApp/src/commonMain/kotlin/com/bramish/wheelofpasiva/presentation/home/JoinRoomViewModel.kt:36-45 | onRoomIdChange; JoinDialog.RoomIdChangedFacts states its properties |
| JoinDialog.JoinValidation | composeApp/src/commonMain/kotlin/com/bramish/wheelofpasiva/presentation/home/JoinRoomViewModel.kt:55-68 | the checks of the dialog, in order; JoinDialog.JoinRejected and JoinDialog.ValidatedJoinPassesChecks state its properties |
| JoinDialog.JoinFailureText | composeApp/src/commonMain/kotlin/com/bramish/wheelofpasiva/presentation/home/JoinRoomViewModel.kt:78-87 | the wording of a failed join; JoinDialog.JoinFailureTexts states its properties |
| JoinDialog.JoinPressed | composeApp/src/commonMain/kotlin/com/bramish/wheelofpasiva/presentation/home/JoinRoomViewModel.kt:50-89 | onJoinRoom once the use case has answered; JoinDialog.JoinRejected, JoinDialog.JoinNavigates and JoinDialog.JoinFails state its properties |
| RoomScreen.Navigations | composeApp/src/commonMain/kotlin/com/bramish/wheelofpasiva/presentation/room/RoomViewModel.kt:56-58 | n navigation events |
| RoomScreen.NavigationPerStartedSnapshot | composeApp/src/commonMain/kotlin/com/bramish/wheelofpasiva/presentation/room/RoomViewModel.kt:52-64 | every snapshot of a started game emits one navigation, not only the first |
| RoomScreen.LatestSnapshotShown | composeApp/src/commonMain/kotlin/com/bramish/wheelofpasiva/presentation/room/RoomViewModel.kt:52-73 | what is shown depends only on the latest snapshot: its players and the host flag, or the failure's text |
| RoomScreen.NothingReceived | composeApp/src/commonMain/kotlin/com/bramish/wheelofpasiva/presentation/room/RoomViewModel.kt:52-76 | no snapshots leave the screen as it was |
| RoomScreen.HostFlagAgrees | composeApp/src/commonMain/kotlin/com/bramish/wheelofpasiva/presentation/room/RoomViewModel.kt:111-113 | for the current player's entry in the list, the host flag shown after a snapshot agrees with isHost |
| RoomScreen.StartGameFacts | composeApp/src/commonMain/kotlin/com/bramish/wheelofpasiva/presentation/room/RoomViewModel.kt:81-93 | only a host viewing a room changes the store: it sets only the started flag, and the next snapshot sends everyone to the game; a failure changes nothing |
| RoomScreen.RoomViewModel.OnRoomResult | composeApp/src/commonMain/kotlin/com/bramish/wheelofpasiva/presentation/room/RoomViewModel.kt:52-73 | the screen afterwards is that of Received |
| RoomScreen.RoomViewModel.Collect | composeApp/src/commonMain/kotlin/com/bramish/wheelofpasiva/presentation/room/RoomViewModel.kt:44-76 | after the loop, the screen is the in-order fold of the snapshots, with one navigation per started snapshot |
| RoomScreen.RoomViewModel.OnStreamError | composeApp/src/commonMain/kotlin/com/bramish/wheelofpasiva/presentation/room/RoomViewModel.kt:47-51 | the stream's message, or the fixed text, is shown |
| RoomScreen.RoomViewModel.StartGame | composeApp/src/commonMain/kotlin/com/bramish/wheelofpasiva/presentation/room/RoomViewModel.kt:81-93 | the store afterwards is that of StartPressed |
| RoomScreen.RoomViewModel.Retry | composeApp/src/commonMain/kotlin/com/bramish/wheelofpasiva/presentation/room/RoomViewModel.kt:98-101 | back to loading, with the events kept |
| RoomScreen.Received | composeApp/src/commonMain/kotlin/com/bramish/wheelofpasiva/presentation/room/RoomViewModel.kt:52-73 | one snapshot or failure, as the screen takes it; RoomScreen.LatestSnapshotShown and RoomScreen.NavigationPerStartedSnapshot state its properties |
| RoomScreen.IsHost | composeApp/src/commonMain/kotlin/com/bramish/wheelofpasiva/presentation/room/RoomViewModel.kt:111-113 | isHost; RoomScreen.HostFlagAgrees states that the screen's host flag agrees with it |
| RoomScreen.StartPressed | composeApp/src/commonMain/kotlin/com/bramish/wheelofpasiva/presentation/room/RoomViewModel.kt:81-93 | startGame, as the store afterwards; RoomScreen.StartGameFacts states its properties |
| Navigation.BackFacts | composeApp/src/commonMain/kotlin/com/bramish/wheelofpasiva/presentation/navigation/SimpleNavigation.kt:38-50 | back is refused exactly at home; otherwise it moves one step towards home and keeps the room and the player |
| Navigation.BackReachesHome | composeApp/src/commonMain/kotlin/com/bramish/wheelofpasiva/presentation/navigation/SimpleNavigation.kt:38-50 | going back as many times as the screen's depth reaches home |
| Navigation.SimpleNavigator.NavigateToHome | composeApp/src/commonMain/kotlin/com/bramish/wheelofpasiva/presentation/navigation/SimpleNavigation.kt:26-28 | the current screen is home |
| Navigation.SimpleNavigator.NavigateToRoom | composeApp/src/commonMain/kotlin/com/bramish/wheelofpasiva/presentation/navigation/SimpleNavigation.kt:30-32 | the current screen is that room, for that player |
| Navigation.SimpleNavigator.NavigateToGame | composeApp/src/commonMain/kotlin/com/bramish/wheelofpasiva/presentation/navigation/SimpleNavigation.kt:34-36 | the current screen is that game, for that player |
| Navigation.SimpleNavigator.NavigateBack | composeApp/src/commonMain/kotlin/com/bramish/wheelofpasiva/presentation/navigation/SimpleNavigation.kt:38-50 | it moves exactly when not at home, and then to the Back screen; otherwise nothing changes |
| Navigation.Back | composeApp/src/commonMain/kotlin/com/bramish/wheelofpasiva/presentation/navigation/SimpleNavigation.kt:38-50 | where going back leads; Navigation.BackFacts and Navigation.BackReachesHome state its properties |

## Left out

- Compose UI, the screens, sound, the QR camera and the platform code on Android and iOS: these are not part of this model.
- Coroutines, `viewModelScope`, the 2-second spin `delay` and concurrency between clients. Each handler is modelled as running to completion at once. The `Loading` state shown while a call runs is therefore overwritten within the same step.
- Remote calls: the Firebase SDK is an abstract map from room id to document. A network failure is a `Some(cause)` argument. The snapshot stream is a sequence of results that the screen takes in order (`RoomScreen.RoomViewModel.Collect`, `Game.GameViewModel.OnRoomResult`).
- The pass-through layer between the view models and the data source is folded into the data source's operations. That layer includes `RoomRepositoryImpl`, `ObserveRoomUseCase`, `GetRoomUseCase`, `StartGameUseCase`, `UpdateGameStateUseCase` and `SetSecretWordUseCase`.
- `RoomDto` has four fields, but the data source reads and writes the game fields of the same document. The store therefore holds a 14-field `RoomDocument`, and `Firestore.FromRoomDto` fills the game fields with their defaults when a room is created.
- Text: `uppercase` maps only the ASCII letters; Unicode case mapping is not modelled. The pattern `\d` matches only the ASCII digits, as it does on the platform. `isDigit` accepts the decimal digits (category Nd) of the Basic Multilingual Plane as Unicode 15 lists them; a digit beyond that plane is two `Char`s, neither of them a digit, and a platform on an older Unicode version may list fewer runs. `isWhitespace`, and so `trim` and `isBlank`, covers every character Kotlin counts as whitespace.
- Numbers: Kotlin `Int` and `Long` overflow is not modelled. Stored numbers are integral; a `Double` in a store map is not modelled. `Instant` is not clamped to its platform range.
- Game.GameViewModel.SpinWheel: the spin is modelled as writes the screen asks the store for (`calls`), not as a change to the store. The sequence of writes then goes through `Firestore.Merge` in the lemmas (`Game.Apply`). The same holds for `GuessLetter`, `GuessWord` and `SetSecretWord`.
- Game.GameViewModel.SetSecretWord: the `Language` argument that the use case passes along is not stored by the data source, so it is not modelled.
- Game.KotlinRem: a negative turn index, which the app never writes, is only bounded (`<= 0`) and not computed further.
- The stored slice index is a `nat`: a negative `lastSliceIndex` in the store is not modelled.
- `getDisplayWord` and the other formatting helpers that only feed the UI are not modelled.
- `Retry` in the room and game screens only resets the state. The model does not capture the old subscription staying active (the flow is not cancelled), because concurrency is out of scope.
- JoinDialog.JoinPressed: `JoinRoomUseCase` returns `Result<Unit>`, yet `JoinRoomViewModel` reads a player id from the success value. The model navigates with the id of the player that the use case added. The call on the Kotlin `Unit` value is not modelled.
- Game.GuessLetterOutcome: as in the source, it does not check whether the wheel is still spinning, and it accepts a whitespace letter.
