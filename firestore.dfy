/** The document store adapter: rooms kept as documents under their id, each
    operation a read of the whole document followed by a write-back of a
    modified copy. The remote store is an abstract map; a network failure of
    an operation is supplied by the caller as `Some(cause)`. */
module Firestore {
  import opened Wrappers
  import opened RoomErrors
  import opened Dto

  /** A stored room: the four fields of `RoomDto` plus the game fields that
      the adapter and the game screen read and write. */
  datatype RoomDocument = RoomDocument(
    id: string,
    createdAt: int,
    hostId: string,
    players: seq<PlayerDto>,
    isGameStarted: bool,
    currentTurnIndex: int,
    isSpinning: bool,
    secretWord: Option<string>,
    playerScores: map<string, int>,
    revealedLetters: string,
    lastSliceIndex: Option<nat>,
    hasExtraTurn: bool,
    isGameOver: bool,
    winnerId: Option<string>)

  /** The document written for a freshly created room: the DTO's fields and
      every game field at its default. */
  function FromRoomDto(d: RoomDto): (doc: RoomDocument)
    ensures doc.id == d.id && doc.createdAt == d.createdAt
    ensures doc.hostId == d.hostId && doc.players == d.players
    ensures !doc.isGameStarted && !doc.isGameOver && doc.winnerId.None?
  {
    RoomDocument(d.id, d.createdAt, d.hostId, d.players,
                 false, 0, false, None, map[], "", None, false, false, None)
  }

  /** The optional arguments of `updateGameState`; `None` is Kotlin's `null`. */
  datatype GameUpdate = GameUpdate(
    isSpinning: Option<bool>,
    nextTurnIndex: Option<int>,
    playerScores: Option<map<string, int>>,
    revealedLetters: Option<string>,
    lastSliceIndex: Option<nat>,
    hasExtraTurn: Option<bool>,
    isGameOver: Option<bool>,
    winnerId: Option<string>)

  const NoChange: GameUpdate := GameUpdate(None, None, None, None, None, None, None, None)

  /** The copy `updateGameState` writes back: each given field replaces the
      stored one, each `null` keeps it. */
  function Merge(doc: RoomDocument, u: GameUpdate): (r: RoomDocument)
    ensures r.id == doc.id && r.createdAt == doc.createdAt && r.hostId == doc.hostId
    ensures r.players == doc.players && r.secretWord == doc.secretWord
    ensures r.isGameStarted == doc.isGameStarted
  {
    doc.(isSpinning := u.isSpinning.GetOr(doc.isSpinning),
         currentTurnIndex := u.nextTurnIndex.GetOr(doc.currentTurnIndex),
         playerScores := u.playerScores.GetOr(doc.playerScores),
         revealedLetters := u.revealedLetters.GetOr(doc.revealedLetters),
         lastSliceIndex := if u.lastSliceIndex.Some? then u.lastSliceIndex else doc.lastSliceIndex,
         hasExtraTurn := u.hasExtraTurn.GetOr(doc.hasExtraTurn),
         isGameOver := u.isGameOver.GetOr(doc.isGameOver),
         winnerId := if u.winnerId.Some? then u.winnerId else doc.winnerId)
  }

  /** Field by field: a given value is stored, a `null` keeps the stored one.
      In particular a `null` slice index or winner never clears a stored one. */
  lemma MergeFieldwise(doc: RoomDocument, u: GameUpdate)
    ensures u.lastSliceIndex.Some? ==> Merge(doc, u).lastSliceIndex == u.lastSliceIndex
    ensures u.lastSliceIndex.None? ==> Merge(doc, u).lastSliceIndex == doc.lastSliceIndex
    ensures u.winnerId.Some? ==> Merge(doc, u).winnerId == u.winnerId
    ensures u.winnerId.None? ==> Merge(doc, u).winnerId == doc.winnerId
    ensures u.isSpinning.Some? ==> Merge(doc, u).isSpinning == u.isSpinning.value
    ensures u.isSpinning.None? ==> Merge(doc, u).isSpinning == doc.isSpinning
    ensures u.nextTurnIndex.Some? ==> Merge(doc, u).currentTurnIndex == u.nextTurnIndex.value
    ensures u.nextTurnIndex.None? ==> Merge(doc, u).currentTurnIndex == doc.currentTurnIndex
    ensures u.playerScores.Some? ==> Merge(doc, u).playerScores == u.playerScores.value
    ensures u.playerScores.None? ==> Merge(doc, u).playerScores == doc.playerScores
    ensures u.revealedLetters.Some? ==> Merge(doc, u).revealedLetters == u.revealedLetters.value
    ensures u.revealedLetters.None? ==> Merge(doc, u).revealedLetters == doc.revealedLetters
    ensures u.hasExtraTurn.Some? ==> Merge(doc, u).hasExtraTurn == u.hasExtraTurn.value
    ensures u.hasExtraTurn.None? ==> Merge(doc, u).hasExtraTurn == doc.hasExtraTurn
    ensures u.isGameOver.Some? ==> Merge(doc, u).isGameOver == u.isGameOver.value
    ensures u.isGameOver.None? ==> Merge(doc, u).isGameOver == doc.isGameOver
    ensures doc.lastSliceIndex.Some? ==> Merge(doc, u).lastSliceIndex.Some?
    ensures doc.winnerId.Some? ==> Merge(doc, u).winnerId.Some?
  {
  }

  /** An all-null update writes the document back unchanged. */
  lemma MergeNoChange(doc: RoomDocument)
    ensures Merge(doc, NoChange) == doc
  {
  }

  /** Repeating an update changes nothing further. */
  lemma MergeIdempotent(doc: RoomDocument, u: GameUpdate)
    ensures Merge(Merge(doc, u), u) == Merge(doc, u)
  {
  }

  /** Two updates in a row: field by field, the later given value wins. */
  function Then(first: GameUpdate, second: GameUpdate): GameUpdate {
    GameUpdate(
      if second.isSpinning.Some? then second.isSpinning else first.isSpinning,
      if second.nextTurnIndex.Some? then second.nextTurnIndex else first.nextTurnIndex,
      if second.playerScores.Some? then second.playerScores else first.playerScores,
      if second.revealedLetters.Some? then second.revealedLetters else first.revealedLetters,
      if second.lastSliceIndex.Some? then second.lastSliceIndex else first.lastSliceIndex,
      if second.hasExtraTurn.Some? then second.hasExtraTurn else first.hasExtraTurn,
      if second.isGameOver.Some? then second.isGameOver else first.isGameOver,
      if second.winnerId.Some? then second.winnerId else first.winnerId)
  }

  /** Consecutive writes compose as one write in which the later writer wins
      each field it sets. */
  lemma MergeThen(doc: RoomDocument, first: GameUpdate, second: GameUpdate)
    ensures Merge(Merge(doc, first), second) == Merge(doc, Then(first, second))
  {
  }

  /** The failure every store operation reports when the remote call throws. */
  function NetworkFailure(c: Cause): Failure {
    Domain(NetworkError(Some(c)))
  }

  /** The outcome of one store operation and the rooms afterwards. */
  datatype Step<T> = Step(result: Result<T, Failure>, rooms: map<string, RoomDocument>)

  /** `createRoom`: stores the room under its id, replacing any document there. */
  function CreateRoomStep(rooms: map<string, RoomDocument>, d: RoomDto, fault: Option<Cause>): (s: Step<()>)
    ensures fault.Some? ==> s == Step(Err(NetworkFailure(fault.value)), rooms)
    ensures fault.None? ==> s.result.Ok? && s.rooms.Keys == rooms.Keys + {d.id}
    ensures fault.None? ==> s.rooms[d.id] == FromRoomDto(d)
    ensures forall k | k in rooms && k != d.id :: k in s.rooms && s.rooms[k] == rooms[k]
  {
    match fault
    case Some(c) => Step(Err(NetworkFailure(c)), rooms)
    case None => Step(Ok(()), rooms[d.id := FromRoomDto(d)])
  }

  /** `roomExists`. */
  function ExistsResult(rooms: map<string, RoomDocument>, id: string, fault: Option<Cause>): (r: Result<bool, Failure>)
    ensures fault.None? ==> (r == Ok(true) <==> id in rooms) && r.Ok?
  {
    match fault
    case Some(c) => Err(NetworkFailure(c))
    case None => Ok(id in rooms)
  }

  /** `getRoom`, and the mapping `observeRoom` applies to each snapshot. */
  function GetResult(rooms: map<string, RoomDocument>, id: string, fault: Option<Cause>): (r: Result<RoomDocument, Failure>)
    ensures fault.None? && id in rooms ==> r == Ok(rooms[id])
    ensures fault.None? && id !in rooms ==> r == Err(Domain(RoomNotFound(id)))
  {
    match fault
    case Some(c) => Err(NetworkFailure(c))
    case None => if id in rooms then Ok(rooms[id]) else Err(Domain(RoomNotFound(id)))
  }

  /** `addPlayer`: appends the player to the stored room. */
  function AddPlayerStep(rooms: map<string, RoomDocument>, id: string, p: PlayerDto, fault: Option<Cause>): Step<()> {
    match fault
    case Some(c) => Step(Err(NetworkFailure(c)), rooms)
    case None =>
      if id !in rooms then Step(Err(Domain(RoomNotFound(id))), rooms)
      else Step(Ok(()), rooms[id := rooms[id].(players := rooms[id].players + [p])])
  }

  /** `updateGameState`: merges the update into the stored room. */
  function UpdateGameStateStep(rooms: map<string, RoomDocument>, id: string, u: GameUpdate, fault: Option<Cause>): Step<()> {
    match fault
    case Some(c) => Step(Err(NetworkFailure(c)), rooms)
    case None =>
      if id !in rooms then Step(Err(Domain(RoomNotFound(id))), rooms)
      else Step(Ok(()), rooms[id := Merge(rooms[id], u)])
  }

  /** `startGame`: sets the started flag. */
  function StartGameStep(rooms: map<string, RoomDocument>, id: string, fault: Option<Cause>): Step<()> {
    match fault
    case Some(c) => Step(Err(NetworkFailure(c)), rooms)
    case None =>
      if id !in rooms then Step(Err(Domain(RoomNotFound(id))), rooms)
      else Step(Ok(()), rooms[id := rooms[id].(isGameStarted := true)])
  }

  /** `setSecretWord`: stores the word exactly as given. */
  function SetSecretWordStep(rooms: map<string, RoomDocument>, id: string, word: string, fault: Option<Cause>): Step<()> {
    match fault
    case Some(c) => Step(Err(NetworkFailure(c)), rooms)
    case None =>
      if id !in rooms then Step(Err(Domain(RoomNotFound(id))), rooms)
      else Step(Ok(()), rooms[id := rooms[id].(secretWord := Some(word))])
  }

  /** The rooms other than `id` are untouched and no key appears or vanishes. */
  predicate OnlyRoomChanged(before: map<string, RoomDocument>, after: map<string, RoomDocument>, id: string) {
    after.Keys == before.Keys && forall k | k in before && k != id :: after[k] == before[k]
  }

  /** `updateGameState` on a missing room reports it and writes nothing; on a
      present room it touches only that room, merging the update into it. */
  lemma UpdateGameStateEffect(rooms: map<string, RoomDocument>, id: string, u: GameUpdate)
    ensures id !in rooms ==>
              UpdateGameStateStep(rooms, id, u, None) == Step(Err(Domain(RoomNotFound(id))), rooms)
    ensures id in rooms ==>
              var s := UpdateGameStateStep(rooms, id, u, None);
              s.result.Ok? && OnlyRoomChanged(rooms, s.rooms, id) && s.rooms[id] == Merge(rooms[id], u)
  {
  }

  /** `addPlayer` puts the new player last and changes nothing else. */
  lemma AddPlayerEffect(rooms: map<string, RoomDocument>, id: string, p: PlayerDto)
    ensures id !in rooms ==> AddPlayerStep(rooms, id, p, None) == Step(Err(Domain(RoomNotFound(id))), rooms)
    ensures id in rooms ==>
              var s := AddPlayerStep(rooms, id, p, None);
              s.result.Ok? && OnlyRoomChanged(rooms, s.rooms, id)
              && s.rooms[id].players == rooms[id].players + [p]
              && s.rooms[id] == rooms[id].(players := s.rooms[id].players)
  {
  }

  /** `startGame` sets only the started flag, and a second call changes nothing. */
  lemma StartGameIdempotent(rooms: map<string, RoomDocument>, id: string)
    requires id in rooms
    ensures var s := StartGameStep(rooms, id, None);
            s.rooms[id].isGameStarted && s.rooms[id] == rooms[id].(isGameStarted := true)
            && OnlyRoomChanged(rooms, s.rooms, id)
            && StartGameStep(s.rooms, id, None).rooms == s.rooms
  {
  }

  /** `setSecretWord` replaces only the word, keeping its letter case. */
  lemma SetSecretWordEffect(rooms: map<string, RoomDocument>, id: string, word: string)
    requires id in rooms
    ensures var s := SetSecretWordStep(rooms, id, word, None);
            s.rooms[id].secretWord == Some(word) && s.rooms[id] == rooms[id].(secretWord := Some(word))
            && OnlyRoomChanged(rooms, s.rooms, id)
  {
  }

  /** Any failed remote call leaves every room as it was. */
  lemma FaultsWriteNothing(rooms: map<string, RoomDocument>, id: string, c: Cause, u: GameUpdate, p: PlayerDto, w: string, d: RoomDto)
    ensures CreateRoomStep(rooms, d, Some(c)).rooms == rooms
    ensures AddPlayerStep(rooms, id, p, Some(c)).rooms == rooms
    ensures UpdateGameStateStep(rooms, id, u, Some(c)).rooms == rooms
    ensures StartGameStep(rooms, id, Some(c)).rooms == rooms
    ensures SetSecretWordStep(rooms, id, w, Some(c)).rooms == rooms
  {
  }

  /** The adapter over the shared `rooms` collection. */
  class FirestoreDataSource {
    var rooms: map<string, RoomDocument>

    constructor(initial: map<string, RoomDocument>)
      ensures rooms == initial
    {
      rooms := initial;
    }

    method CreateRoom(d: RoomDto, fault: Option<Cause>) returns (r: Result<(), Failure>)
      modifies this
      ensures Step(r, rooms) == CreateRoomStep(old(rooms), d, fault)
    {
      if fault.Some? {
        return Err(NetworkFailure(fault.value));
      }
      rooms := rooms[d.id := FromRoomDto(d)];
      r := Ok(());
    }

    method RoomExists(id: string, fault: Option<Cause>) returns (r: Result<bool, Failure>)
      ensures r == ExistsResult(rooms, id, fault)
    {
      if fault.Some? {
        return Err(NetworkFailure(fault.value));
      }
      r := Ok(id in rooms);
    }

    method GetRoom(id: string, fault: Option<Cause>) returns (r: Result<RoomDocument, Failure>)
      ensures r == GetResult(rooms, id, fault)
    {
      if fault.Some? {
        return Err(NetworkFailure(fault.value));
      }
      if id !in rooms {
        return Err(Domain(RoomNotFound(id)));
      }
      r := Ok(rooms[id]);
    }

    /** The value `observeRoom` emits for the current snapshot of a room. */
    function ObserveRoom(id: string): (r: Result<RoomDocument, Failure>)
      reads this
      ensures r == GetResult(rooms, id, None)
    {
      if id in rooms then Ok(rooms[id]) else Err(Domain(RoomNotFound(id)))
    }

    method AddPlayer(id: string, p: PlayerDto, fault: Option<Cause>) returns (r: Result<(), Failure>)
      modifies this
      ensures Step(r, rooms) == AddPlayerStep(old(rooms), id, p, fault)
    {
      if fault.Some? {
        return Err(NetworkFailure(fault.value));
      }
      if id !in rooms {
        return Err(Domain(RoomNotFound(id)));
      }
      var data := rooms[id];
      rooms := rooms[id := data.(players := data.players + [p])];
      r := Ok(());
    }

    method UpdateGameState(id: string, u: GameUpdate, fault: Option<Cause>) returns (r: Result<(), Failure>)
      modifies this
      ensures Step(r, rooms) == UpdateGameStateStep(old(rooms), id, u, fault)
    {
      if fault.Some? {
        return Err(NetworkFailure(fault.value));
      }
      if id !in rooms {
        return Err(Domain(RoomNotFound(id)));
      }
      rooms := rooms[id := Merge(rooms[id], u)];
      r := Ok(());
    }

    method StartGame(id: string, fault: Option<Cause>) returns (r: Result<(), Failure>)
      modifies this
      ensures Step(r, rooms) == StartGameStep(old(rooms), id, fault)
    {
      if fault.Some? {
        return Err(NetworkFailure(fault.value));
      }
      if id !in rooms {
        return Err(Domain(RoomNotFound(id)));
      }
      rooms := rooms[id := rooms[id].(isGameStarted := true)];
      r := Ok(());
    }

    method SetSecretWord(id: string, word: string, fault: Option<Cause>) returns (r: Result<(), Failure>)
      modifies this
      ensures Step(r, rooms) == SetSecretWordStep(old(rooms), id, word, fault)
    {
      if fault.Some? {
        return Err(NetworkFailure(fault.value));
      }
      if id !in rooms {
        return Err(Domain(RoomNotFound(id)));
      }
      rooms := rooms[id := rooms[id].(secretWord := Some(word))];
      r := Ok(());
    }
  }
}
