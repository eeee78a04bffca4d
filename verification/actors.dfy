/**
 * The moving elements of a level. The source has one class per kind (Player,
 * Lava, Coin), each with a `type` tag, a size shared by every instance of the
 * kind, and a static `create` that builds an actor from its grid cell.
 */
module Actors {
  import opened Wrappers
  import opened Vectors

  /** `Math.PI`. */
  const PI: real := 3.141592653589793

  const PlayerSize: Vec := Vec(0.8, 1.5)
  const LavaSize: Vec := Vec(1.0, 1.0)
  const CoinSize: Vec := Vec(0.6, 0.6)

  datatype Actor =
    | Player(pos: Vec, speed: Vec)
    | Lava(pos: Vec, speed: Vec, reset: Option<Vec>)
    | Coin(pos: Vec, basePos: Vec, wobble: real)
  {
    /** The `type` getter of each class: one distinct tag per kind. */
    function Type(): (t: string)
      ensures t == "player" <==> this.Player?
      ensures t == "Lava" <==> this.Lava?
      ensures t == "coin" <==> this.Coin?
    {
      match this
      case Player(_, _) => "player"
      case Lava(_, _, _) => "Lava"
      case Coin(_, _, _) => "coin"
    }

    /**
     * The size stored once on each class's prototype: positive, at most one
     * cell wide, and the per-kind constant.
     */
    function Size(): (s: Vec)
      ensures 0.0 < s.x <= 1.0 && 0.0 < s.y
      ensures this.Player? ==> s == Vec(0.8, 1.5)
      ensures this.Lava? ==> s == Vec(1.0, 1.0)
      ensures this.Coin? ==> s == Vec(0.6, 0.6)
    {
      match this
      case Player(_, _) => PlayerSize
      case Lava(_, _, _) => LavaSize
      case Coin(_, _, _) => CoinSize
    }
  }

  /** The actor classes that the character table can name. */
  datatype ActorClass = PlayerClass | LavaClass | CoinClass

  /** The characters `Lava.create` knows. */
  const LavaChars: set<char> := {'=', '|', 'v'}

  /**
   * `Player.create`: half a unit above the spawn cell, so that the bottom of
   * the 1.5-unit-tall box rests on the bottom of that cell, horizontally
   * inside the cell, and at rest.
   */
  function PlayerCreate(pos: Vec): (a: Actor)
    ensures a.Player? && a.Type() == "player"
    ensures a.pos.x == pos.x && a.pos.y == pos.y - 0.5
    ensures a.pos.y + a.Size().y == pos.y + 1.0
    ensures pos.x <= a.pos.x && a.pos.x + a.Size().x <= pos.x + 1.0
    ensures a.speed == Zero
  {
    Player(pos.Plus(Vec(0.0, -0.5)), Vec(0.0, 0.0))
  }

  /**
   * `Lava.create`: `=` moves right at speed 2, `|` moves down at speed 2,
   * `v` drips down at speed 3 and remembers its spawn cell to return to;
   * any other character falls through every branch and yields `undefined`.
   */
  function LavaCreate(pos: Vec, ch: char): (r: Option<Actor>)
    ensures r.Some? <==> ch in LavaChars
    ensures r.Some? ==> r.value.Lava? && r.value.Type() == "Lava" && r.value.pos == pos
    ensures r.Some? ==> (r.value.reset.Some? <==> ch == 'v')
    ensures r.Some? && r.value.reset.Some? ==> r.value.reset.value == pos
    ensures ch == '=' ==> r.value.speed == Vec(2.0, 0.0)
    ensures ch == '|' ==> r.value.speed == Vec(0.0, 2.0)
    ensures ch == 'v' ==> r.value.speed == Vec(0.0, 3.0)
  {
    if ch == '=' then Some(Lava(pos, Vec(2.0, 0.0), None))
    else if ch == '|' then Some(Lava(pos, Vec(0.0, 2.0), None))
    else if ch == 'v' then Some(Lava(pos, Vec(0.0, 3.0), Some(pos)))
    else None
  }

  /**
   * `Coin.create`, with the value `Math.random()` returned passed in as
   * `draw`: the coin sits 0.2 right and 0.1 down from its cell corner, which
   * centres it horizontally and keeps it inside the cell, and its wobble
   * phase is the draw scaled to a full turn.
   */
  function CoinCreate(pos: Vec, draw: real): (a: Actor)
    ensures a.Coin? && a.Type() == "coin"
    ensures a.pos == a.basePos && a.pos.x == pos.x + 0.2 && a.pos.y == pos.y + 0.1
    ensures a.pos.x + a.Size().x / 2.0 == pos.x + 0.5
    ensures pos.y <= a.pos.y && a.pos.y + a.Size().y <= pos.y + 1.0
    ensures a.wobble == draw * PI * 2.0
    ensures 0.0 <= draw < 1.0 ==> 0.0 <= a.wobble < 2.0 * PI
  {
    var basePos := pos.Plus(Vec(0.2, 0.1));
    assert 0.0 <= draw < 1.0 ==> draw * PI < PI;
    Coin(basePos, basePos, draw * PI * 2.0)
  }

  /**
   * `type.create(new Vec(x, y), ch)` for the class the table gave: the
   * character only matters to Lava, the draw only to Coin.
   */
  function Create(cls: ActorClass, pos: Vec, ch: char, draw: real): (a: Actor)
    requires cls == LavaClass ==> ch in LavaChars
    ensures a.Type() == (match cls
                         case PlayerClass => "player"
                         case LavaClass => "Lava"
                         case CoinClass => "coin")
    ensures cls == PlayerClass ==> a == PlayerCreate(pos)
    ensures cls == LavaClass ==> LavaCreate(pos, ch) == Some(a)
    ensures cls == CoinClass ==> a == CoinCreate(pos, draw)
  {
    match cls
    case PlayerClass => PlayerCreate(pos)
    case LavaClass => LavaCreate(pos, ch).value
    case CoinClass => CoinCreate(pos, draw)
  }

  /** Every instance of a kind has that kind's size, whatever its other fields. */
  lemma SizePerKind(a: Actor, b: Actor)
    requires a.Type() == b.Type()
    ensures a.Size() == b.Size()
  {
  }
}
