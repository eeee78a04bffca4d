/** Small plans worked through the model. */
module Examples {
  import opened Wrappers
  import opened Vectors
  import Actors
  import Text
  import opened Levels
  import LevelProperties
  import States

  /** No coin in this plan, so the draws do not matter. */
  function NoDraw(x: nat, y: nat): real { 0.0 }

  /** Lines of a plan that has no surrounding white space, given as separator-free pieces. */
  lemma PlanLines(plan: string, lines: seq<string>)
    requires |lines| >= 1 && forall k :: 0 <= k < |lines| ==> '\n' !in lines[k]
    requires plan == Text.Join(lines, '\n')
    requires plan != [] && !Text.IsWhiteSpace(plan[0]) && !Text.IsWhiteSpace(plan[|plan| - 1])
    ensures Lines(plan) == lines
  {
    assert Text.LeadingWhiteSpace(plan) == 0 && Text.TrailingWhiteSpace(plan) == 0;
    assert Text.Trim(plan) == plan;
    Text.SplitJoin(lines, '\n');
  }

  lemma PlayerPlanJoin()
    ensures Text.Join(["@.", ".."], '\n') == "@.\n.."
  {
  }

  lemma PlayerPlanLines()
    ensures Lines("@.\n..") == ["@.", ".."]
  {
    PlayerPlanJoin();
    PlanLines("@.\n..", ["@.", ".."]);
  }

  lemma PlayerPlanKnown()
    ensures FirstUnknown(["@.", ".."], 0) == None
  {
    LevelProperties.FirstUnknownSpec(["@.", ".."], 0);
  }

  lemma PlayerPlanActors()
    ensures GridActors(["@.", ".."], 2, NoDraw) == [Actors.Player(Vec(0.0, -0.5), Vec(0.0, 0.0))]
  {
    var lines := ["@.", ".."];
    assert LineActors(lines[0], 0, 2, NoDraw) == [Actors.PlayerCreate(Vec(0.0, 0.0))];
    assert LineActors(lines[1], 1, 2, NoDraw) == [];
  }

  /** A 2×2 plan with only a player: the player stands half a unit above its cell. */
  lemma PlayerOnlyPlan()
    ensures var r := ParseLevel("@.\n..", NoDraw);
      && r.Success? && r.value.width == 2 && r.value.height == 2
      && r.value.startActors == [Actors.Player(Vec(0.0, -0.5), Vec(0.0, 0.0))]
  {
    PlayerPlanLines();
    PlayerPlanKnown();
    PlayerPlanActors();
  }

  /**
   * Wall, lava and a coin: the coin's cell is `undefined` rather than
   * "empty", and the coin sits at (1.2, 1.1).
   */
  lemma CoinPlan(draw: (nat, nat) -> real)
    ensures var r := ParseLevel("#+\n.o", draw);
      && r.Success?
      && r.value.rows == [[Some(Wall), Some(Cell.Lava)], [Some(Empty), None]]
      && r.value.startActors == [Actors.Coin(Vec(1.2, 1.1), Vec(1.2, 1.1), draw(1, 1) * Actors.PI * 2.0)]
  {
    assert Text.Join(["#+", ".o"], '\n') == "#+\n.o";
    PlanLines("#+\n.o", ["#+", ".o"]);
    CoinRows(["#+", ".o"], draw);
  }

  lemma CoinRows(lines: seq<string>, draw: (nat, nat) -> real)
    requires lines == ["#+", ".o"]
    ensures var r := ParseLines(lines, draw);
      && r.Success?
      && r.value.rows == [[Some(Wall), Some(Cell.Lava)], [Some(Empty), None]]
      && r.value.startActors == [Actors.Coin(Vec(1.2, 1.1), Vec(1.2, 1.1), draw(1, 1) * Actors.PI * 2.0)]
  {
    LevelProperties.FirstUnknownSpec(lines, 0);
    assert FirstUnknown(lines, 0) == None;
    assert BackgroundRow(lines[0]) == [Some(Wall), Some(Cell.Lava)];
    assert BackgroundRow(lines[1]) == [Some(Empty), None];
    assert LineActors(lines[0], 0, 2, draw) == [];
    assert LineActors(lines[1], 1, 2, draw) == [Actors.CoinCreate(Vec(1.0, 1.0), draw(1, 1))];
    assert |lines[0]| == 2 && |lines[1]| == 2;
    assert GridActors(lines, 1, draw) == [];
    assert GridActors(lines, 2, draw) == [Actors.CoinCreate(Vec(1.0, 1.0), draw(1, 1))];
  }

  /** Rows are not checked against the width: a ragged plan still makes a level. */
  lemma RaggedPlan()
    ensures var r := ParseLevel("..\n.", NoDraw);
      && r.Success? && r.value.width == 2 && r.value.height == 2 && |r.value.rows[1]| == 1
  {
    assert Text.Join(["..", "."], '\n') == "..\n.";
    PlanLines("..\n.", ["..", "."]);
    LevelProperties.FirstUnknownSpec(["..", "."], 0);
  }

  /** A plan with Windows line ends: the carriage return is not in the table, so the constructor throws there. */
  lemma CrlfPlan()
    ensures ParseLevel("@\r\n.", NoDraw) == Failure(UnknownChar(1, 0, '\r'))
  {
    assert Text.Join(["@\r", "."], '\n') == "@\r\n.";
    PlanLines("@\r\n.", ["@\r", "."]);
    CrlfRows(["@\r", "."]);
  }

  lemma CrlfRows(lines: seq<string>)
    requires lines == ["@\r", "."]
    ensures ParseLines(lines, NoDraw) == Failure(UnknownChar(1, 0, '\r'))
  {
    assert FirstUnknownInLine(lines[0], 0, 1) == Some(UnknownChar(1, 0, '\r'));
  }

  /** Starting a level whose actors are a coin and then a player: playing, and the player is found past the coin. */
  lemma StartFindsPlayer(draw: real)
    ensures var coin := Actors.CoinCreate(Vec(1.0, 0.0), draw);
      var player := Actors.PlayerCreate(Vec(0.0, 0.0));
      var s := States.State.Start(Level(1, 2, [[None, None]], [coin, player]));
      s.status == States.Playing && s.Player() == Some(player)
  {
    var coin := Actors.CoinCreate(Vec(1.0, 0.0), draw);
    var player := Actors.PlayerCreate(Vec(0.0, 0.0));
    assert [coin, player][1..] == [player];
    assert States.PlayerIndex([player]) == Some(0);
    assert States.PlayerIndex([coin, player]) == Some(1);
  }

  /** The rows of the level the game ships with. */
  function SimpleLevelLines(): seq<string> {
    [
      "......................",
      "..#................#..",
      "..#..............=.#..",
      "..#.........o.o....#..",
      "..#.@......#####...#..",
      "..#####............#..",
      "......#++++++++++++#..",
      "......##############..",
      "......................"]
  }

  /** `simpleLevelPlan`: the template literal opens with a line break, then the nine rows. */
  function SimpleLevelPlan(): string {
    "\n" + Text.Join(SimpleLevelLines(), '\n')
  }

  lemma JoinEnds(lines: seq<string>, sep: char)
    requires |lines| >= 1 && forall k :: 0 <= k < |lines| ==> lines[k] != []
    ensures var s := Text.Join(lines, sep); s != [] && s[0] == lines[0][0] && s[|s| - 1] == lines[|lines| - 1][|lines[|lines| - 1]| - 1]
  {
    if |lines| > 1 {
      JoinEnds(lines[1..], sep);
    }
  }

  lemma SimpleNoNewline()
    ensures forall k :: 0 <= k < |SimpleLevelLines()| ==> '\n' !in SimpleLevelLines()[k] && SimpleLevelLines()[k] != []
  {
  }

  /** A line break followed by text that starts and ends with a non-space trims to that text. */
  lemma TrimLeadingBreak(body: string)
    requires body != [] && !Text.IsWhiteSpace(body[0]) && !Text.IsWhiteSpace(body[|body| - 1])
    ensures Text.Trim("\n" + body) == body
  {
    assert ("\n" + body)[1..] == body;
    assert Text.LeadingWhiteSpace(body) == 0 && Text.TrailingWhiteSpace(body) == 0;
    assert Text.LeadingWhiteSpace("\n" + body) == 1;
  }

  /** The joined rows start and end with a dot. */
  lemma SimpleBodyEnds()
    ensures var body := Text.Join(SimpleLevelLines(), '\n');
      body != [] && body[0] == '.' && body[|body| - 1] == '.'
  {
    assert forall k :: 0 <= k < |SimpleLevelLines()| ==> SimpleLevelLines()[k] != [];
    JoinEnds(SimpleLevelLines(), '\n');
  }

  lemma SimpleTrim()
    ensures Text.Trim(SimpleLevelPlan()) == Text.Join(SimpleLevelLines(), '\n')
  {
    SimpleBodyEnds();
    TrimLeadingBreak(Text.Join(SimpleLevelLines(), '\n'));
  }

  lemma SimpleLines()
    ensures Lines(SimpleLevelPlan()) == SimpleLevelLines()
  {
    SimpleTrim();
    SimpleNoNewline();
    Text.SplitJoin(SimpleLevelLines(), '\n');
  }

  /** A line drawn from the table's vocabulary has only known characters. */
  lemma KnownLine(line: string)
    requires forall c :: c in line ==> c in ".#+@o=|v"
    ensures forall i :: 0 <= i < |line| ==> Known(line[i])
  {
    forall i | 0 <= i < |line| ensures Known(line[i]) {
      assert line[i] in line;
      LevelProperties.TableVocabulary(line[i]);
    }
  }

  lemma SimpleKnown()
    ensures FirstUnknown(SimpleLevelLines(), 0) == None
  {
    forall k | 0 <= k < |SimpleLevelLines()|
      ensures forall i :: 0 <= i < |SimpleLevelLines()[k]| ==> Known(SimpleLevelLines()[k][i])
    {
      KnownLine(SimpleLevelLines()[k]);
    }
    LevelProperties.FirstUnknownSpec(SimpleLevelLines(), 0);
  }

  lemma SimpleWidths()
    ensures forall k :: 0 <= k < 9 ==> |SimpleLevelLines()[k]| == 22
  {
  }

  lemma SimpleBackgroundRows(lines: seq<string>)
    requires lines == SimpleLevelLines()
    ensures forall k :: k in {0, 1, 5, 6, 7, 8} ==> LevelProperties.LineActorCells(lines[k], k, |lines[k]|) == []
  {
    forall k | k in {0, 1, 5, 6, 7, 8} ensures LevelProperties.LineActorCells(lines[k], k, |lines[k]|) == [] {
      LevelProperties.BackgroundLine(lines[k], k);
    }
  }

  lemma SimpleLavaRow(line: string, y: nat)
    requires line == SimpleLevelLines()[2] && y == 2
    ensures LevelProperties.LineActorCells(line, y, |line|) == [Pos(17, 2)]
  {
    assert line == "..#.............." + ['='] + ".#..";
    LevelProperties.OneActorLine("..#..............", '=', ".#..", y);
  }

  lemma SimpleCoinRow(line: string, y: nat)
    requires line == SimpleLevelLines()[3] && y == 3
    ensures LevelProperties.LineActorCells(line, y, |line|) == [Pos(12, 3), Pos(14, 3)]
  {
    assert line == "..#........." + ['o'] + "." + ['o'] + "....#..";
    LevelProperties.TwoActorLine("..#.........", 'o', ".", 'o', "....#..", y);
  }

  lemma SimplePlayerRow(line: string, y: nat)
    requires line == SimpleLevelLines()[4] && y == 4
    ensures LevelProperties.LineActorCells(line, y, |line|) == [Pos(4, 4)]
  {
    assert line == "..#." + ['@'] + "......#####...#..";
    LevelProperties.OneActorLine("..#.", '@', "......#####...#..", y);
  }

  /** The shipped plan's actor cells: the lava block, then the two coins, then the player. */
  lemma SimpleActorCells(lines: seq<string>)
    requires lines == SimpleLevelLines()
    ensures LevelProperties.ActorCells(lines, 9) == [Pos(17, 2), Pos(12, 3), Pos(14, 3), Pos(4, 4)]
  {
    SimpleBackgroundRows(lines);
    SimpleLavaRow(lines[2], 2);
    SimpleCoinRow(lines[3], 3);
    SimplePlayerRow(lines[4], 4);
    assert LevelProperties.ActorCells(lines, 2) == [];
    assert LevelProperties.ActorCells(lines, 5) == [Pos(17, 2), Pos(12, 3), Pos(14, 3), Pos(4, 4)];
  }

  /** The actors built from the shipped plan's four actor cells. */
  lemma SimpleActorsAt(lines: seq<string>, draw: (nat, nat) -> real)
    requires lines == SimpleLevelLines()
    ensures var cells := [Pos(17, 2), Pos(12, 3), Pos(14, 3), Pos(4, 4)];
      && LevelProperties.IsActorCell(lines, cells[0])
      && LevelProperties.IsActorCell(lines, cells[1])
      && LevelProperties.IsActorCell(lines, cells[2])
      && LevelProperties.IsActorCell(lines, cells[3])
      && LevelProperties.ActorAt(lines, cells[0], draw) == Actors.LavaCreate(Vec(17.0, 2.0), '=').value
      && LevelProperties.ActorAt(lines, cells[1], draw) == Actors.CoinCreate(Vec(12.0, 3.0), draw(12, 3))
      && LevelProperties.ActorAt(lines, cells[2], draw) == Actors.CoinCreate(Vec(14.0, 3.0), draw(14, 3))
      && LevelProperties.ActorAt(lines, cells[3], draw) == Actors.PlayerCreate(Vec(4.0, 4.0))
  {
    assert lines[2][17] == '=' && lines[3][12] == 'o' && lines[3][14] == 'o' && lines[4][4] == '@';
    LavaAt(lines, Pos(17, 2), draw);
    CoinAt(lines, Pos(12, 3), draw);
    CoinAt(lines, Pos(14, 3), draw);
    PlayerAt(lines, Pos(4, 4), draw);
  }

  lemma LavaAt(lines: seq<string>, p: Pos, draw: (nat, nat) -> real)
    requires p.y < |lines| && p.x < |lines[p.y]| && lines[p.y][p.x] == '='
    ensures LevelProperties.IsActorCell(lines, p)
    ensures LevelProperties.ActorAt(lines, p, draw) == Actors.LavaCreate(Vec(p.x as real, p.y as real), '=').value
  {
  }

  lemma CoinAt(lines: seq<string>, p: Pos, draw: (nat, nat) -> real)
    requires p.y < |lines| && p.x < |lines[p.y]| && lines[p.y][p.x] == 'o'
    ensures LevelProperties.IsActorCell(lines, p)
    ensures LevelProperties.ActorAt(lines, p, draw) == Actors.CoinCreate(Vec(p.x as real, p.y as real), draw(p.x, p.y))
  {
  }

  lemma PlayerAt(lines: seq<string>, p: Pos, draw: (nat, nat) -> real)
    requires p.y < |lines| && p.x < |lines[p.y]| && lines[p.y][p.x] == '@'
    ensures LevelProperties.IsActorCell(lines, p)
    ensures LevelProperties.ActorAt(lines, p, draw) == Actors.PlayerCreate(Vec(p.x as real, p.y as real))
  {
  }

  /** A started level whose first three actors are not players finds the fourth one, a player. */
  lemma StartFourth(level: Level)
    requires |level.startActors| == 4 && level.startActors[3].Player?
    requires !level.startActors[0].Player? && !level.startActors[1].Player? && !level.startActors[2].Player?
    ensures States.State.Start(level).Player() == Some(level.startActors[3])
  {
    var acts := level.startActors;
    assert acts[3..] == [acts[3]];
    assert States.PlayerIndex(acts[3..]) == Some(0);
    assert acts[2..][1..] == acts[3..];
    assert acts[1..][1..] == acts[2..];
  }

  /** The shipped plan parses as its nine rows do. */
  lemma ShippedPlan(plan: string, draw: (nat, nat) -> real)
    requires plan == SimpleLevelPlan()
    ensures ParseLevel(plan, draw) == ParseLines(SimpleLevelLines(), draw)
  {
    SimpleLines();
  }

  /**
   * The shipped rows make a level 22 wide and 9 high that starts with four
   * actors, in scan order: the horizontal lava block of row 2, the two coins
   * of row 3 and the player of row 4.
   */
  lemma SimpleLevel(lines: seq<string>, draw: (nat, nat) -> real)
    requires lines == SimpleLevelLines()
    ensures var r := ParseLines(lines, draw);
      && r.Success? && r.value.width == 22 && r.value.height == 9
      && r.value.startActors == [
        Actors.LavaCreate(Vec(17.0, 2.0), '=').value,
        Actors.CoinCreate(Vec(12.0, 3.0), draw(12, 3)),
        Actors.CoinCreate(Vec(14.0, 3.0), draw(14, 3)),
        Actors.PlayerCreate(Vec(4.0, 4.0))]
  {
    SimpleShape(lines, draw);
    SimpleActors(lines, draw);
  }

  lemma SimpleShape(lines: seq<string>, draw: (nat, nat) -> real)
    requires lines == SimpleLevelLines()
    ensures var r := ParseLines(lines, draw);
      r.Success? && r.value.width == 22 && r.value.height == 9
  {
    SimpleKnown();
    SimpleWidths();
  }

  lemma SimpleActors(lines: seq<string>, draw: (nat, nat) -> real)
    requires lines == SimpleLevelLines()
    ensures GridActors(lines, |lines|, draw) == [
        Actors.LavaCreate(Vec(17.0, 2.0), '=').value,
        Actors.CoinCreate(Vec(12.0, 3.0), draw(12, 3)),
        Actors.CoinCreate(Vec(14.0, 3.0), draw(14, 3)),
        Actors.PlayerCreate(Vec(4.0, 4.0))]
  {
    SimpleActorCells(lines);
    SimpleActorsAt(lines, draw);
    FourActors(lines, draw, [Pos(17, 2), Pos(12, 3), Pos(14, 3), Pos(4, 4)], [
        Actors.LavaCreate(Vec(17.0, 2.0), '=').value,
        Actors.CoinCreate(Vec(12.0, 3.0), draw(12, 3)),
        Actors.CoinCreate(Vec(14.0, 3.0), draw(14, 3)),
        Actors.PlayerCreate(Vec(4.0, 4.0))]);
  }

  /** Rows with four actor cells start with the four actors built at them. */
  lemma FourActors(lines: seq<string>, draw: (nat, nat) -> real, cells: seq<Pos>, acts: seq<Actors.Actor>)
    requires LevelProperties.ActorCells(lines, |lines|) == cells && |cells| == 4 && |acts| == 4
    requires LevelProperties.IsActorCell(lines, cells[0]) && LevelProperties.ActorAt(lines, cells[0], draw) == acts[0]
    requires LevelProperties.IsActorCell(lines, cells[1]) && LevelProperties.ActorAt(lines, cells[1], draw) == acts[1]
    requires LevelProperties.IsActorCell(lines, cells[2]) && LevelProperties.ActorAt(lines, cells[2], draw) == acts[2]
    requires LevelProperties.IsActorCell(lines, cells[3]) && LevelProperties.ActorAt(lines, cells[3], draw) == acts[3]
    ensures GridActors(lines, |lines|, draw) == acts
  {
    var built := GridActors(lines, |lines|, draw);
    LevelProperties.GridActorsAt(lines, |lines|, draw);
    assert |built| == 4;
    forall k | 0 <= k < 4 ensures built[k] == acts[k] {
      assert built[k] == LevelProperties.ActorAt(lines, cells[k], draw);
      if k == 0 {
      } else if k == 1 {
      } else if k == 2 {
      } else {
        assert k == 3;
      }
    }
  }

  /** Starting the shipped level: playing, with the player of cell (4, 4) found past the lava block and the coins. */
  lemma SimpleStart(lines: seq<string>, draw: (nat, nat) -> real)
    requires lines == SimpleLevelLines()
    ensures var r := ParseLines(lines, draw);
      && r.Success?
      && var s := States.State.Start(r.value);
      && s.status == States.Playing
      && s.Player() == Some(Actors.PlayerCreate(Vec(4.0, 4.0)))
  {
    SimpleLevel(lines, draw);
    StartFourth(ParseLines(lines, draw).value);
  }
}
