/** Domain players and rooms, their store transfer objects, and the
    conversions between them: domain <-> DTO (through epoch milliseconds) and
    DTO <-> the untyped key/value map the document store accepts. */
module Dto {
  import opened Wrappers

  /** A `kotlinx.datetime.Instant`: whole seconds since the epoch plus the
      nanoseconds into that second. */
  datatype Instant = Instant(epochSeconds: int, nanosecondsOfSecond: int)

  predicate ValidInstant(t: Instant) {
    0 <= t.nanosecondsOfSecond < 1_000_000_000
  }

  /** The instant lies on a millisecond boundary. */
  predicate WholeMillis(t: Instant) {
    t.nanosecondsOfSecond % 1_000_000 == 0
  }

  /** `Instant.toEpochMilliseconds()`: rounds towards the past. */
  function ToEpochMilliseconds(t: Instant): int {
    t.epochSeconds * 1000 + t.nanosecondsOfSecond / 1_000_000
  }

  /** `Instant.fromEpochMilliseconds(ms)`: floor division and floor modulus,
      which is what Dafny's `/` and `%` give for the positive divisor 1000. */
  function FromEpochMilliseconds(ms: int): (t: Instant)
    ensures ValidInstant(t) && WholeMillis(t)
    ensures ToEpochMilliseconds(t) == ms
  {
    Instant(ms / 1000, (ms % 1000) * 1_000_000)
  }

  /** Converting an instant to milliseconds and back loses exactly the
      sub-millisecond part: it is the identity precisely on whole milliseconds. */
  lemma InstantRoundTrip(t: Instant)
    requires ValidInstant(t)
    ensures FromEpochMilliseconds(ToEpochMilliseconds(t)) == t <==> WholeMillis(t)
  {
    var q := t.nanosecondsOfSecond / 1_000_000;
    var ms := ToEpochMilliseconds(t);
    assert 0 <= q < 1000;
    assert ms == t.epochSeconds * 1000 + q;
    assert ms / 1000 == t.epochSeconds && ms % 1000 == q;
    if WholeMillis(t) {
      assert t.nanosecondsOfSecond == q * 1_000_000;
    }
  }

  datatype Player = Player(id: string, nickname: string, joinedAt: Instant)

  /** The stored form of a player: the join time in epoch milliseconds. */
  datatype PlayerDto = PlayerDto(id: string, nickname: string, joinedAt: int)

  /** The DTO's default constructor arguments. */
  const DefaultPlayerDto: PlayerDto := PlayerDto("", "", 0)

  function PlayerToDomain(d: PlayerDto): Player {
    Player(d.id, d.nickname, FromEpochMilliseconds(d.joinedAt))
  }

  function PlayerFromDomain(p: Player): PlayerDto {
    PlayerDto(p.id, p.nickname, ToEpochMilliseconds(p.joinedAt))
  }

  /** Domain -> DTO -> domain is the identity exactly for whole-millisecond
      join times. */
  lemma PlayerDomainRoundTrip(p: Player)
    requires ValidInstant(p.joinedAt)
    ensures PlayerToDomain(PlayerFromDomain(p)) == p <==> WholeMillis(p.joinedAt)
  {
    InstantRoundTrip(p.joinedAt);
  }

  /** DTO -> domain -> DTO is always the identity. */
  lemma PlayerDtoRoundTrip(d: PlayerDto)
    ensures PlayerFromDomain(PlayerToDomain(d)) == d
  {
  }

  /** The untyped values of a store map (`Map<String, Any>`). Numbers are
      integral (`Int` or `Long`). */
  datatype Value =
    | VString(str: string)
    | VNumber(num: int)
    | VBool(flag: bool)
    | VList(items: seq<Value>)
    | VMap(entries: map<string, Value>)

  /** `PlayerDto.toMap()`. */
  function PlayerToMap(d: PlayerDto): (m: map<string, Value>)
    ensures m.Keys == {"id", "nickname", "joinedAt"}
    ensures m["id"] == VString(d.id) && m["nickname"] == VString(d.nickname)
    ensures m["joinedAt"] == VNumber(d.joinedAt)
  {
    map["id" := VString(d.id), "nickname" := VString(d.nickname), "joinedAt" := VNumber(d.joinedAt)]
  }

  /** `m[key] as? String ?: ""`. */
  function StringOr(m: map<string, Value>, key: string): string {
    if key in m && m[key].VString? then m[key].str else ""
  }

  /** `(m[key] as? Number)?.toLong() ?: 0L`. */
  function NumberOr(m: map<string, Value>, key: string): int {
    if key in m && m[key].VNumber? then m[key].num else 0
  }

  /** The player read back from one element of the "players" list, as
      `RoomDto.fromMap` does inline; an element that is not a map makes the
      cast fail, which is `None` here. */
  function PlayerFromValue(v: Value): (r: Option<PlayerDto>)
    ensures r.Some? <==> v.VMap?
  {
    match v
    case VMap(pm) => Some(PlayerDto(StringOr(pm, "id"), StringOr(pm, "nickname"), NumberOr(pm, "joinedAt")))
    case _ => None
  }

  /** Reading a player's own map gives the player back. */
  lemma PlayerMapRoundTrip(d: PlayerDto)
    ensures PlayerFromValue(VMap(PlayerToMap(d))) == Some(d)
  {
  }

  datatype Room = Room(id: string, createdAt: Instant, hostId: string, players: seq<Player>)

  /** The four-field room transfer object. */
  datatype RoomDto = RoomDto(id: string, createdAt: int, hostId: string, players: seq<PlayerDto>)

  const DefaultRoomDto: RoomDto := RoomDto("", 0, "", [])

  function RoomToDomain(d: RoomDto): (r: Room)
    ensures |r.players| == |d.players|
  {
    Room(d.id, FromEpochMilliseconds(d.createdAt), d.hostId,
         seq(|d.players|, i requires 0 <= i < |d.players| => PlayerToDomain(d.players[i])))
  }

  function RoomFromDomain(r: Room): (d: RoomDto)
    ensures |d.players| == |r.players|
  {
    RoomDto(r.id, ToEpochMilliseconds(r.createdAt), r.hostId,
            seq(|r.players|, i requires 0 <= i < |r.players| => PlayerFromDomain(r.players[i])))
  }

  predicate ValidRoom(r: Room) {
    ValidInstant(r.createdAt) && forall i | 0 <= i < |r.players| :: ValidInstant(r.players[i].joinedAt)
  }

  /** Every instant of the room lies on a millisecond boundary. */
  predicate RoomWholeMillis(r: Room) {
    WholeMillis(r.createdAt) && forall i | 0 <= i < |r.players| :: WholeMillis(r.players[i].joinedAt)
  }

  /** Domain -> DTO -> domain keeps a room exactly when all its instants are
      whole milliseconds; players keep their order and count. */
  lemma RoomDomainRoundTrip(r: Room)
    requires ValidRoom(r)
    ensures RoomToDomain(RoomFromDomain(r)) == r <==> RoomWholeMillis(r)
  {
    var back := RoomToDomain(RoomFromDomain(r));
    InstantRoundTrip(r.createdAt);
    forall i | 0 <= i < |r.players|
      ensures back.players[i] == PlayerToDomain(PlayerFromDomain(r.players[i]))
    {
    }
    if RoomWholeMillis(r) {
      forall i | 0 <= i < |r.players| ensures back.players[i] == r.players[i] {
        PlayerDomainRoundTrip(r.players[i]);
      }
    }
    if back == r {
      forall i | 0 <= i < |r.players| ensures WholeMillis(r.players[i].joinedAt) {
        assert back.players[i] == r.players[i];
        PlayerDomainRoundTrip(r.players[i]);
      }
    }
  }

  /** DTO -> domain -> DTO is always the identity. */
  lemma RoomDtoRoundTrip(d: RoomDto)
    ensures RoomFromDomain(RoomToDomain(d)) == d
  {
    var back := RoomFromDomain(RoomToDomain(d));
    assert back.players == d.players;
  }

  /** `RoomDto.toMap()`: the players become a list of inline maps. */
  function RoomToMap(d: RoomDto): (m: map<string, Value>)
    ensures m.Keys == {"id", "createdAt", "hostId", "players"}
    ensures m["id"] == VString(d.id) && m["createdAt"] == VNumber(d.createdAt)
    ensures m["hostId"] == VString(d.hostId)
    ensures m["players"].VList? && |m["players"].items| == |d.players|
    ensures forall i | 0 <= i < |d.players| :: m["players"].items[i] == VMap(PlayerToMap(d.players[i]))
  {
    map["id" := VString(d.id),
        "createdAt" := VNumber(d.createdAt),
        "hostId" := VString(d.hostId),
        "players" := VList(seq(|d.players|, i requires 0 <= i < |d.players| =>
                               VMap(map["id" := VString(d.players[i].id),
                                        "nickname" := VString(d.players[i].nickname),
                                        "joinedAt" := VNumber(d.players[i].joinedAt)])))]
  }

  /** Reads each element of the "players" list; fails if one is not a map. */
  function PlayersFromValues(items: seq<Value>): (r: Option<seq<PlayerDto>>)
    ensures r.Some? <==> forall i | 0 <= i < |items| :: items[i].VMap?
    ensures r.Some? ==> |r.value| == |items|
    ensures r.Some? ==> forall i | 0 <= i < |items| :: Some(r.value[i]) == PlayerFromValue(items[i])
  {
    if items == [] then Some([])
    else
      match PlayerFromValue(items[0])
      case None => None
      case Some(p) =>
        match PlayersFromValues(items[1..])
        case None => None
        case Some(rest) => Some([p] + rest)
  }

  /** The value under "players" as a list (`as? List<...> ?: emptyList()`). */
  function PlayerValues(m: map<string, Value>): seq<Value> {
    if "players" in m && m["players"].VList? then m["players"].items else []
  }

  /** `RoomDto.fromMap`: missing or wrongly typed keys fall back to "", 0 and
      the empty list; `None` stands for the `ClassCastException` raised by a
      "players" element that is not a map. */
  function RoomFromMap(m: map<string, Value>): (r: Option<RoomDto>)
    ensures r.Some? <==> forall i | 0 <= i < |PlayerValues(m)| :: PlayerValues(m)[i].VMap?
    ensures r.Some? ==> |r.value.players| == |PlayerValues(m)|
  {
    match PlayersFromValues(PlayerValues(m))
    case None => None
    case Some(players) =>
      Some(RoomDto(StringOr(m, "id"), NumberOr(m, "createdAt"), StringOr(m, "hostId"), players))
  }

  /** Each field falls back to its default when its key is missing or holds
      a value of another type. */
  lemma FromMapDefaults(m: map<string, Value>)
    requires RoomFromMap(m).Some?
    ensures !("id" in m && m["id"].VString?) ==> RoomFromMap(m).value.id == ""
    ensures !("hostId" in m && m["hostId"].VString?) ==> RoomFromMap(m).value.hostId == ""
    ensures !("createdAt" in m && m["createdAt"].VNumber?) ==> RoomFromMap(m).value.createdAt == 0
    ensures !("players" in m && m["players"].VList?) ==> RoomFromMap(m).value.players == []
  {
  }

  /** Reading back a room's own map gives the room back. */
  lemma RoomMapRoundTrip(d: RoomDto)
    ensures RoomFromMap(RoomToMap(d)) == Some(d)
  {
    var m := RoomToMap(d);
    var ps := PlayersFromValues(PlayerValues(m));
    assert ps.Some?;
    forall i | 0 <= i < |d.players| ensures ps.value[i] == d.players[i] {
      PlayerMapRoundTrip(d.players[i]);
    }
    assert ps.value == d.players;
  }
}
