/**
 * The `Level` constructor: it turns a textual plan into a grid of background
 * cells and the list of actors the level starts with, looking every
 * character up in the `levelChars` table.
 */
module Levels {
  import opened Wrappers
  import opened Vectors
  import Actors
  import Text

  /** The background strings "empty", "wall" and "lava". */
  datatype Cell = Empty | Wall | Lava {
    function Name(): string {
      match this
      case Empty => "empty"
      case Wall => "wall"
      case Lava => "lava"
    }
  }

  /** A `levelChars` value: a background string or an actor class. */
  datatype Entry = Background(cell: Cell) | ActorEntry(cls: Actors.ActorClass)

  /** `levelChars[ch]`; `None` is the `undefined` of a character the table lacks. */
  function LevelChars(ch: char): (e: Option<Entry>)
    ensures e.Some? && e.value.ActorEntry? && e.value.cls == Actors.LavaClass ==> ch in Actors.LavaChars
  {
    match ch
    case '.' => Some(Background(Empty))
    case '#' => Some(Background(Wall))
    case '+' => Some(Background(Lava))
    case '@' => Some(ActorEntry(Actors.PlayerClass))
    case 'o' => Some(ActorEntry(Actors.CoinClass))
    case '=' => Some(ActorEntry(Actors.LavaClass))
    case '|' => Some(ActorEntry(Actors.LavaClass))
    case 'v' => Some(ActorEntry(Actors.LavaClass))
    case _ => None
  }

  predicate Known(ch: char) {
    LevelChars(ch).Some?
  }

  predicate IsActorChar(ch: char) {
    LevelChars(ch).Some? && LevelChars(ch).value.ActorEntry?
  }

  /** The constructor throws a TypeError at the first character the table lacks. */
  datatype LevelError = UnknownChar(x: nat, y: nat, ch: char)

  /**
   * A constructed level. `rows[y][x]` is the background of cell (x, y); it is
   * `None` (JavaScript's `undefined`) where an actor character stood.
   */
  datatype Level = Level(height: nat, width: nat, rows: seq<seq<Option<Cell>>>, startActors: seq<Actors.Actor>)

  datatype Pos = Pos(x: nat, y: nat)

  /** Row-major order: top to bottom, then left to right. */
  predicate Before(p: Pos, q: Pos) {
    p.y < q.y || (p.y == q.y && p.x < q.x)
  }

  /** `plan.trim().split("\n")`, each line already a sequence of characters. */
  function Lines(plan: string): (lines: seq<string>)
    ensures |lines| >= 1
  {
    Text.Split(Text.Trim(plan), '\n')
  }

  /**
   * The value the row callback returns for one character: the table's
   * background string, and `undefined` for an actor character or one the
   * table lacks.
   */
  function CellOf(ch: char): (c: Option<Cell>)
    ensures c.Some? <==> Known(ch) && !IsActorChar(ch)
    ensures c.Some? ==> LevelChars(ch) == Some(Background(c.value))
  {
    match LevelChars(ch)
    case Some(Background(c)) => Some(c)
    case _ => None
  }

  /** The row the callback returns: one cell per character, `undefined` where an actor stands. */
  function BackgroundRow(line: string): (row: seq<Option<Cell>>)
    ensures |row| == |line| && forall x :: 0 <= x < |line| ==> row[x] == CellOf(line[x])
  {
    if line == [] then [] else BackgroundRow(line[..|line| - 1]) + [CellOf(line[|line| - 1])]
  }

  /** The rows the callback returns for the first `m` lines. */
  function BackgroundRows(lines: seq<string>, m: nat): (rows: seq<seq<Option<Cell>>>)
    requires m <= |lines|
    ensures |rows| == m && forall y :: 0 <= y < m ==> rows[y] == BackgroundRow(lines[y])
  {
    if m == 0 then [] else BackgroundRows(lines, m - 1) + [BackgroundRow(lines[m - 1])]
  }

  /** The first unknown character of `line` at or after column `x`. */
  function FirstUnknownInLine(line: string, y: nat, x: nat): Option<LevelError>
    requires x <= |line|
    decreases |line| - x
  {
    if x == |line| then None
    else if !Known(line[x]) then Some(UnknownChar(x, y, line[x]))
    else FirstUnknownInLine(line, y, x + 1)
  }

  /** The first unknown character, in row-major order, of the lines from row `y` on. */
  function FirstUnknown(lines: seq<string>, y: nat): Option<LevelError>
    requires y <= |lines|
    decreases |lines| - y
  {
    if y == |lines| then None
    else
      match FirstUnknownInLine(lines[y], y, 0)
      case Some(e) => Some(e)
      case None => FirstUnknown(lines, y + 1)
  }

  /** The actor, if any, that the character at (x, y) pushes; `draw` gives each cell's `Math.random()`. */
  function CellActors(ch: char, x: nat, y: nat, draw: (nat, nat) -> real): seq<Actors.Actor> {
    match LevelChars(ch)
    case Some(ActorEntry(cls)) => [Actors.Create(cls, Vec(x as real, y as real), ch, draw(x, y))]
    case _ => []
  }

  /** The actors pushed by the first `n` characters of row `y`. */
  function LineActors(line: string, y: nat, n: nat, draw: (nat, nat) -> real): seq<Actors.Actor>
    requires n <= |line|
  {
    if n == 0 then [] else LineActors(line, y, n - 1, draw) + CellActors(line[n - 1], n - 1, y, draw)
  }

  /** The actors pushed by the first `m` rows. */
  function GridActors(lines: seq<string>, m: nat, draw: (nat, nat) -> real): seq<Actors.Actor>
    requires m <= |lines|
  {
    if m == 0 then []
    else GridActors(lines, m - 1, draw) + LineActors(lines[m - 1], m - 1, |lines[m - 1]|, draw)
  }

  /** What `new Level(plan)` yields, or the error it throws. */
  function ParseLevel(plan: string, draw: (nat, nat) -> real): Result<Level, LevelError> {
    ParseLines(Lines(plan), draw)
  }

  /** The level built from the rows of a plan, or the first unknown character. */
  function ParseLines(lines: seq<string>, draw: (nat, nat) -> real): Result<Level, LevelError>
    requires |lines| >= 1
  {
    match FirstUnknown(lines, 0)
    case Some(e) => Failure(e)
    case None =>
      Success(Level(|lines|, |lines[0]|,
                    BackgroundRows(lines, |lines|),
                    GridActors(lines, |lines|, draw)))
  }

  /** What the character at column `x` contributes to the row, the actors and the error. */
  lemma ScanStep(line: string, y: nat, x: nat, draw: (nat, nat) -> real)
    requires x < |line|
    ensures var ch, entry := line[x], LevelChars(line[x]);
      && (entry.None? ==> FirstUnknownInLine(line, y, x) == Some(UnknownChar(x, y, ch)))
      && (entry.Some? ==> FirstUnknownInLine(line, y, x) == FirstUnknownInLine(line, y, x + 1))
      && (entry.Some? && entry.value.Background? ==>
            CellOf(ch) == Some(entry.value.cell) && CellActors(ch, x, y, draw) == [])
      && (entry.Some? && entry.value.ActorEntry? ==>
            CellOf(ch) == None
            && CellActors(ch, x, y, draw) == [Actors.Create(entry.value.cls, Vec(x as real, y as real), ch, draw(x, y))])
      && LineActors(line, y, x + 1, draw) == LineActors(line, y, x, draw) + CellActors(ch, x, y, draw)
      && BackgroundRow(line[..x + 1]) == BackgroundRow(line[..x]) + [CellOf(ch)]
  {
    assert line[..x + 1][..x] == line[..x];
  }

  /**
   * The callback mapped over one row: returns the row's background cells and
   * pushes onto `pushed` the actors of the row, left to right; it stops at the
   * first character the table lacks, which is where the constructor throws.
   */
  method ScanRow(line: string, y: nat, draw: (nat, nat) -> real, actors: seq<Actors.Actor>)
    returns (row: seq<Option<Cell>>, pushed: seq<Actors.Actor>, err: Option<LevelError>)
    ensures err == FirstUnknownInLine(line, y, 0)
    ensures err.None? ==> row == BackgroundRow(line) && pushed == actors + LineActors(line, y, |line|, draw)
  {
    row, pushed, err := [], actors, None;
    var x := 0;
    while x < |line|
      invariant 0 <= x <= |line|
      invariant FirstUnknownInLine(line, y, x) == FirstUnknownInLine(line, y, 0)
      invariant row == BackgroundRow(line[..x])
      invariant pushed == actors + LineActors(line, y, x, draw)
    {
      var ch := line[x];
      var entry := LevelChars(ch);
      ScanStep(line, y, x, draw);
      if entry.None? {
        err := Some(UnknownChar(x, y, ch));
        return;
      } else if entry.value.Background? {
        row := row + [Some(entry.value.cell)];
      } else {
        var actor := Actors.Create(entry.value.cls, Vec(x as real, y as real), ch, draw(x, y));
        pushed := pushed + [actor];
        row := row + [None];
      }
      x := x + 1;
    }
    assert line[..x] == line;
  }

  /** What row `y` contributes to the first error and to the start actors. */
  lemma RowStep(lines: seq<string>, y: nat, draw: (nat, nat) -> real)
    requires y < |lines|
    ensures FirstUnknownInLine(lines[y], y, 0).None? ==> FirstUnknown(lines, y) == FirstUnknown(lines, y + 1)
    ensures GridActors(lines, y + 1, draw) == GridActors(lines, y, draw) + LineActors(lines[y], y, |lines[y]|, draw)
  {
  }

  /** The constructor throws at the first unknown character of the first row that has one. */
  lemma ParsedFailure(lines: seq<string>, draw: (nat, nat) -> real, y: nat)
    requires |lines| >= 1 && y < |lines|
    requires FirstUnknown(lines, y) == FirstUnknown(lines, 0) && FirstUnknownInLine(lines[y], y, 0).Some?
    ensures ParseLines(lines, draw) == Failure(FirstUnknownInLine(lines[y], y, 0).value)
  {
  }

  /**
   * The constructor: splits the trimmed plan into rows and maps the row
   * callback over them.
   */
  method NewLevel(plan: string, draw: (nat, nat) -> real) returns (r: Result<Level, LevelError>)
    ensures r == ParseLevel(plan, draw)
  {
    r := MapRows(Lines(plan), draw);
  }

  /** The `rows.map` of the constructor: top to bottom, accumulating the start actors. */
  method MapRows(lines: seq<string>, draw: (nat, nat) -> real) returns (r: Result<Level, LevelError>)
    requires |lines| >= 1
    ensures r == ParseLines(lines, draw)
  {
    var rows: seq<seq<Option<Cell>>> := [];
    var startActors: seq<Actors.Actor> := [];
    var y := 0;
    while y < |lines|
      invariant 0 <= y <= |lines|
      invariant FirstUnknown(lines, y) == FirstUnknown(lines, 0)
      invariant rows == BackgroundRows(lines, y)
      invariant startActors == GridActors(lines, y, draw)
    {
      var row, err;
      RowStep(lines, y, draw);
      row, startActors, err := ScanRow(lines[y], y, draw, startActors);
      if err.Some? {
        ParsedFailure(lines, draw, y);
        return Failure(err.value);
      }
      rows := rows + [row];
      y := y + 1;
    }
    r := Success(Level(|lines|, |lines[0]|, rows, startActors));
  }
}
