/** The app's three screens and the navigator that holds the current one. */
module Navigation {
  import opened Wrappers

  datatype Screen =
    | Home
    | Room(roomId: string, playerId: string)
    | Game(roomId: string, playerId: string)

  /** Where "back" leads, if anywhere: a game goes back to its room, a room
      to home, and home nowhere. */
  function Back(s: Screen): Option<Screen> {
    match s
    case Home => None
    case Room(_, _) => Some(Home)
    case Game(r, p) => Some(Room(r, p))
  }

  /** How many steps back lead to home. */
  function Depth(s: Screen): nat {
    match s
    case Home => 0
    case Room(_, _) => 1
    case Game(_, _) => 2
  }

  /** Going back is refused exactly at home; otherwise it goes one step
      closer to home and keeps the room and the player. */
  lemma BackFacts(s: Screen)
    ensures Back(s).None? <==> s == Home
    ensures Back(s).Some? ==> Depth(Back(s).value) + 1 == Depth(s)
    ensures Back(s).Some? && Back(s).value != Home ==>
              Back(s).value.roomId == s.roomId && Back(s).value.playerId == s.playerId
  {
  }

  /** Going back `Depth(s)` times from any screen reaches home. */
  function BackTimes(s: Screen, n: nat): Screen
    decreases n
  {
    if n == 0 then s
    else match Back(s)
      case None => s
      case Some(t) => BackTimes(t, n - 1)
  }

  lemma {:induction false} BackReachesHome(s: Screen)
    ensures BackTimes(s, Depth(s)) == Home
    decreases Depth(s)
  {
    if s != Home {
      BackFacts(s);
      BackReachesHome(Back(s).value);
    }
  }

  class SimpleNavigator {
    var currentScreen: Screen

    constructor()
      ensures currentScreen == Home
    {
      currentScreen := Home;
    }

    method NavigateToHome()
      modifies this
      ensures currentScreen == Home
    {
      currentScreen := Home;
    }

    method NavigateToRoom(roomId: string, playerId: string)
      modifies this
      ensures currentScreen == Room(roomId, playerId)
    {
      currentScreen := Room(roomId, playerId);
    }

    method NavigateToGame(roomId: string, playerId: string)
      modifies this
      ensures currentScreen == Game(roomId, playerId)
    {
      currentScreen := Game(roomId, playerId);
    }

    /** `navigateBack`: whether there was somewhere to go back to. */
    method NavigateBack() returns (moved: bool)
      modifies this
      ensures moved <==> old(currentScreen) != Home
      ensures moved ==> Some(currentScreen) == Back(old(currentScreen))
      ensures !moved ==> currentScreen == old(currentScreen)
    {
      match currentScreen
      case Home =>
        moved := false;
      case Room(_, _) =>
        currentScreen := Home;
        moved := true;
      case Game(roomId, playerId) =>
        currentScreen := Room(roomId, playerId);
        moved := true;
    }
  }
}
