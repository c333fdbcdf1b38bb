/**
  `Player`, the one concrete typed object of the library's tests. Its two
  fields are only ever assigned by its initializers, so it is a value here;
  `FromMap` is the `T(with:)` and `Empty()` the `T()` that the generic
  operations receive when `T` is `Player`.
 */
module Player {
  import opened Wrappers
  import opened Json

  datatype Player = Player(playerId: Option<int64>, playerName: Option<string>)

  /** `init()`: both fields nil. */
  function Empty(): (p: Player)
    ensures p.playerId.None? && p.playerName.None?
  {
    Player(None, None)
  }

  /** `init(_ id:)`: sets only the identifier. */
  function WithId(id: int64): (p: Player)
    ensures p.playerId == Some(id) && p.playerName.None?
  {
    Player(Some(id), None)
  }

  /** `init(with:)`: each field is taken when the key holds a value of its type, else nil.
      The map is force-unwrapped, so it must be non-nil. */
  function FromJson(with: Option<map<string, Json>>): (p: Player)
    requires with.Some?
    ensures p.playerId.Some? <==> "playerId" in with.value && AsInt64(with.value["playerId"]).Some?
    ensures p.playerId.Some? ==> with.value["playerId"] == Int(p.playerId.value as int)
    ensures p.playerName.Some? <==> "playerName" in with.value && with.value["playerName"].Str?
    ensures p.playerName.Some? ==> with.value["playerName"] == Str(p.playerName.value)
  {
    Player(FieldInt64(with.value, "playerId"), FieldString(with.value, "playerName"))
  }

  /** `Player(with: m)` for a map that is present: the construction capability handed to the
      generic operations. */
  function FromMap(m: map<string, Json>): Player {
    FromJson(Some(m))
  }

  /** How `encode(to:)` writes an optional: the value, or JSON null for nil. */
  function EncodeId(v: Option<int64>): Json {
    match v
    case Some(i) => Int(i as int)
    case None => Null
  }

  function EncodeName(v: Option<string>): Json {
    match v
    case Some(s) => Str(s)
    case None => Null
  }

  /** `encode(to:)`: writes exactly the keys `init(with:)` reads, so decoding the written
      object gives back the same player. */
  function Encode(p: Player): (m: map<string, Json>)
    ensures m.Keys == {"playerId", "playerName"}
    ensures FromJson(Some(m)) == p
  {
    map["playerId" := EncodeId(p.playerId), "playerName" := EncodeName(p.playerName)]
  }

  /** The `==` operator as written: false as soon as either field matches, so it is
      not an equality. */
  function Eq(lhs: Player, rhs: Player): (r: bool)
    ensures r ==> lhs != rhs
  {
    if lhs.playerId == rhs.playerId then false
    else if lhs.playerName == rhs.playerName then false
    else true
  }

  /** Field-by-field equality, as `==` is evidently meant: both identifiers and both names match. */
  function Equal(lhs: Player, rhs: Player): (r: bool)
    ensures r <==> lhs == rhs
  {
    lhs.playerId == rhs.playerId && lhs.playerName == rhs.playerName
  }

  /** Encoding a player and decoding the object gives back an `Equal` player; under `==` as
      written the two never compare equal. */
  lemma RoundTripEquality(p: Player)
    ensures Equal(FromJson(Some(Encode(p))), p)
    ensures !Eq(FromJson(Some(Encode(p))), p)
  {
  }

  /** `==` holds exactly when both fields differ. */
  lemma EqMeansBothDiffer(lhs: Player, rhs: Player)
    ensures Eq(lhs, rhs) <==> lhs.playerId != rhs.playerId && lhs.playerName != rhs.playerName
  {
  }

  /** No player is `==` to itself, nor to a player that shares either field with it. */
  lemma EqNotReflexive(p: Player, q: Player)
    ensures !Eq(p, p)
    ensures p.playerId == q.playerId || p.playerName == q.playerName ==> !Eq(p, q)
  {
  }

  /** `==` is symmetric. */
  lemma EqSymmetric(p: Player, q: Player)
    ensures Eq(p, q) == Eq(q, p)
  {
  }
}
