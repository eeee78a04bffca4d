/** What the `Level` constructor guarantees about the level it builds. */
module LevelProperties {
  import opened Wrappers
  import opened Vectors
  import Actors
  import Text
  import opened Levels

  /** The character table knows exactly the eight plan characters. */
  lemma TableVocabulary(ch: char)
    ensures Known(ch) <==> ch in ".#+@o=|v"
    ensures IsActorChar(ch) <==> ch in "@o=|v"
    ensures Known(ch) && !IsActorChar(ch) ==>
      LevelChars(ch).value.cell.Name() == (if ch == '.' then "empty" else if ch == '#' then "wall" else "lava")
  {
  }

  predicate AllKnown(lines: seq<string>) {
    forall j, i :: 0 <= j < |lines| && 0 <= i < |lines[j]| ==> Known(lines[j][i])
  }

  lemma {:induction false} FirstUnknownInLineSpec(line: string, y: nat, x: nat)
    requires x <= |line|
    ensures FirstUnknownInLine(line, y, x).None? <==> forall i :: x <= i < |line| ==> Known(line[i])
    ensures var r := FirstUnknownInLine(line, y, x);
      r.Some? ==> && r.value.y == y && x <= r.value.x < |line| && line[r.value.x] == r.value.ch
                  && !Known(r.value.ch) && forall i :: x <= i < r.value.x ==> Known(line[i])
    decreases |line| - x
  {
    if x < |line| && Known(line[x]) {
      FirstUnknownInLineSpec(line, y, x + 1);
    }
  }

  lemma {:induction false} FirstUnknownSpec(lines: seq<string>, y: nat)
    requires y <= |lines|
    ensures FirstUnknown(lines, y).None? <==>
      forall j, i :: y <= j < |lines| && 0 <= i < |lines[j]| ==> Known(lines[j][i])
    ensures var r := FirstUnknown(lines, y);
      r.Some? ==> && y <= r.value.y < |lines| && r.value.x < |lines[r.value.y]|
                  && lines[r.value.y][r.value.x] == r.value.ch && !Known(r.value.ch)
                  && forall j, i :: y <= j < |lines| && 0 <= i < |lines[j]| && Before(Pos(i, j), Pos(r.value.x, r.value.y))
                       ==> Known(lines[j][i])
    decreases |lines| - y
  {
    if y < |lines| {
      FirstUnknownInLineSpec(lines[y], y, 0);
      FirstUnknownSpec(lines, y + 1);
    }
  }

  /**
   * The constructor throws exactly when the trimmed plan holds a character
   * the table lacks, and it throws at the first such character in row-major
   * order.
   */
  lemma ParseFailsAtFirstUnknown(plan: string, draw: (nat, nat) -> real)
    ensures ParseLevel(plan, draw).Failure? <==> !AllKnown(Lines(plan))
    ensures var lines := Lines(plan); var r := ParseLevel(plan, draw);
      r.Failure? ==> && r.error.y < |lines| && r.error.x < |lines[r.error.y]|
                     && lines[r.error.y][r.error.x] == r.error.ch && !Known(r.error.ch)
                     && forall j, i :: 0 <= j < |lines| && 0 <= i < |lines[j]| && Before(Pos(i, j), Pos(r.error.x, r.error.y))
                          ==> Known(lines[j][i])
  {
    FirstUnknownSpec(Lines(plan), 0);
  }

  /**
   * `height` is the number of lines of the trimmed plan, one more than its
   * newlines; `width` is the length of the first line alone, the text before
   * the first newline.
   */
  lemma LevelDimensions(plan: string, draw: (nat, nat) -> real)
    requires ParseLevel(plan, draw).Success?
    ensures var level := ParseLevel(plan, draw).value; var t := Text.Trim(plan);
      && level.height == Text.Count(t, '\n') + 1
      && level.width <= |t| && '\n' !in t[..level.width]
      && (level.width < |t| ==> t[level.width] == '\n')
  {
    var t := Text.Trim(plan);
    Text.SplitCount(t, '\n');
    Text.FirstPiece(t, '\n');
  }

  /**
   * Every row is as long as its line (only row 0 is tied to `width`), and each
   * cell is the table's background string for its character, or `None` for an
   * actor character.
   */
  lemma LevelCells(plan: string, draw: (nat, nat) -> real)
    requires ParseLevel(plan, draw).Success?
    ensures var level := ParseLevel(plan, draw).value; var lines := Lines(plan);
      && |level.rows| == level.height == |lines|
      && |level.rows[0]| == level.width
      && forall y :: 0 <= y < |lines| ==> |level.rows[y]| == |lines[y]|
    ensures var level := ParseLevel(plan, draw).value; var lines := Lines(plan);
      forall y, x :: 0 <= y < |lines| && 0 <= x < |lines[y]| ==>
        && Known(lines[y][x])
        && (IsActorChar(lines[y][x]) ==> level.rows[y][x] == None)
        && (!IsActorChar(lines[y][x]) ==> level.rows[y][x] == Some(LevelChars(lines[y][x]).value.cell))
  {
    FirstUnknownSpec(Lines(plan), 0);
  }

  /** The actor cells among the first `n` characters of row `y`, left to right. */
  function LineActorCells(line: string, y: nat, n: nat): seq<Pos>
    requires n <= |line|
  {
    if n == 0 then []
    else LineActorCells(line, y, n - 1) + (if IsActorChar(line[n - 1]) then [Pos(n - 1, y)] else [])
  }

  /** The actor cells of the first `m` rows, in row-major order. */
  function ActorCells(lines: seq<string>, m: nat): seq<Pos>
    requires m <= |lines|
  {
    if m == 0 then [] else ActorCells(lines, m - 1) + LineActorCells(lines[m - 1], m - 1, |lines[m - 1]|)
  }

  predicate IsActorCell(lines: seq<string>, p: Pos) {
    p.y < |lines| && p.x < |lines[p.y]| && IsActorChar(lines[p.y][p.x])
  }

  predicate InScanOrder(cells: seq<Pos>) {
    forall i, j :: 0 <= i < j < |cells| ==> Before(cells[i], cells[j])
  }

  /** The actor built from cell `p`: `create(new Vec(x, y), ch)` of the cell's class. */
  function ActorAt(lines: seq<string>, p: Pos, draw: (nat, nat) -> real): Actors.Actor
    requires IsActorCell(lines, p)
  {
    var ch := lines[p.y][p.x];
    Actors.Create(LevelChars(ch).value.cls, Vec(p.x as real, p.y as real), ch, draw(p.x, p.y))
  }

  lemma {:induction false} LineActorCellsSpec(line: string, y: nat, n: nat)
    requires n <= |line|
    ensures forall p :: p in LineActorCells(line, y, n) <==> p.y == y && p.x < n && IsActorChar(line[p.x])
    ensures InScanOrder(LineActorCells(line, y, n))
  {
    if n > 0 {
      LineActorCellsSpec(line, y, n - 1);
    }
  }

  lemma {:induction false} ActorCellsSpec(lines: seq<string>, m: nat)
    requires m <= |lines|
    ensures forall p :: p in ActorCells(lines, m) <==> p.y < m && IsActorCell(lines, p)
    ensures InScanOrder(ActorCells(lines, m))
  {
    if m > 0 {
      ActorCellsSpec(lines, m - 1);
      LineActorCellsSpec(lines[m - 1], m - 1, |lines[m - 1]|);
      var a, b := ActorCells(lines, m - 1), LineActorCells(lines[m - 1], m - 1, |lines[m - 1]|);
      forall i, j | 0 <= i < j < |a + b| ensures Before((a + b)[i], (a + b)[j]) {
        if j < |a| {
        } else if i >= |a| {
          assert (a + b)[i] == b[i - |a|] && (a + b)[j] == b[j - |a|];
        } else {
          assert (a + b)[i] == a[i] && a[i] in a;
          assert (a + b)[j] == b[j - |a|] && b[j - |a|] in b;
        }
      }
    }
  }

  lemma {:induction false} LineActorsAt(lines: seq<string>, y: nat, n: nat, draw: (nat, nat) -> real)
    requires y < |lines| && n <= |lines[y]|
    ensures var acts, cells := LineActors(lines[y], y, n, draw), LineActorCells(lines[y], y, n);
      && |acts| == |cells|
      && forall k :: 0 <= k < |cells| ==> IsActorCell(lines, cells[k]) && acts[k] == ActorAt(lines, cells[k], draw)
  {
    if n > 0 {
      LineActorsAt(lines, y, n - 1, draw);
    }
  }

  lemma {:induction false} GridActorsAt(lines: seq<string>, m: nat, draw: (nat, nat) -> real)
    requires m <= |lines|
    ensures var acts, cells := GridActors(lines, m, draw), ActorCells(lines, m);
      && |acts| == |cells|
      && forall k :: 0 <= k < |cells| ==> IsActorCell(lines, cells[k]) && acts[k] == ActorAt(lines, cells[k], draw)
  {
    if m > 0 {
      GridActorsAt(lines, m - 1, draw);
      LineActorsAt(lines, m - 1, |lines[m - 1]|, draw);
      var a, c := GridActors(lines, m - 1, draw), ActorCells(lines, m - 1);
      var b, d := LineActors(lines[m - 1], m - 1, |lines[m - 1]|, draw), LineActorCells(lines[m - 1], m - 1, |lines[m - 1]|);
      forall k | 0 <= k < |c + d|
        ensures IsActorCell(lines, (c + d)[k]) && (a + b)[k] == ActorAt(lines, (c + d)[k], draw)
      {
        if k < |c| {
          assert (c + d)[k] == c[k] && (a + b)[k] == a[k];
        } else {
          assert (c + d)[k] == d[k - |c|] && (a + b)[k] == b[k - |c|];
        }
      }
    }
  }

  /**
   * `startActors` holds one actor per actor character of the plan, in
   * row-major order, each created from `Vec(x, y)` of its own cell and its
   * own character.
   */
  lemma StartActorsInScanOrder(plan: string, draw: (nat, nat) -> real)
    requires ParseLevel(plan, draw).Success?
    ensures var lines := Lines(plan); var acts := ParseLevel(plan, draw).value.startActors;
      var cells := ActorCells(lines, |lines|);
      && (forall p :: p in cells <==> IsActorCell(lines, p))
      && InScanOrder(cells)
      && |acts| == |cells|
      && forall k :: 0 <= k < |acts| ==> acts[k] == ActorAt(lines, cells[k], draw)
  {
    var lines := Lines(plan);
    ActorCellsSpec(lines, |lines|);
    GridActorsAt(lines, |lines|, draw);
  }

  lemma {:induction false} NoActorCells(lines: seq<string>, m: nat)
    requires m <= |lines|
    requires forall j, i :: 0 <= j < m && 0 <= i < |lines[j]| ==> !IsActorChar(lines[j][i])
    ensures ActorCells(lines, m) == []
  {
    if m > 0 {
      NoActorCells(lines, m - 1);
      NoLineActorCells(lines[m - 1], m - 1, |lines[m - 1]|);
    }
  }

  lemma {:induction false} NoLineActorCells(line: string, y: nat, n: nat)
    requires n <= |line|
    requires forall i :: 0 <= i < n ==> !IsActorChar(line[i])
    ensures LineActorCells(line, y, n) == []
  {
    if n > 0 {
      NoLineActorCells(line, y, n - 1);
    }
  }

  /** Characters that are not actors add no actor cells. */
  lemma {:induction false} LineActorCellsSkip(line: string, y: nat, a: nat, b: nat)
    requires a <= b <= |line|
    requires forall i :: a <= i < b ==> !IsActorChar(line[i])
    ensures LineActorCells(line, y, b) == LineActorCells(line, y, a)
  {
    if a < b {
      LineActorCellsSkip(line, y, a, b - 1);
    }
  }

  /** A stretch `piece` of background characters starting at column `a` adds no actor cells. */
  lemma BackgroundPiece(line: string, y: nat, a: nat, piece: string)
    requires a + |piece| <= |line| && line[a..a + |piece|] == piece
    requires forall d :: d in piece ==> d in ".#+"
    ensures LineActorCells(line, y, a + |piece|) == LineActorCells(line, y, a)
  {
    forall i | a <= i < a + |piece| ensures !IsActorChar(line[i]) {
      assert line[i] == piece[i - a] && piece[i - a] in piece;
    }
    LineActorCellsSkip(line, y, a, a + |piece|);
  }

  /** A row of background characters has no actor cells. */
  lemma BackgroundLine(line: string, y: nat)
    requires forall d :: d in line ==> d in ".#+"
    ensures LineActorCells(line, y, |line|) == []
  {
    assert line[0..|line|] == line;
    BackgroundPiece(line, y, 0, line);
  }

  /** A row with a single actor character after the background `a` has that one actor cell. */
  lemma OneActorLine(a: string, c: char, b: string, y: nat)
    requires forall d :: d in a ==> d in ".#+"
    requires forall d :: d in b ==> d in ".#+"
    requires IsActorChar(c)
    ensures var line := a + [c] + b;
      LineActorCells(line, y, |line|) == [Pos(|a|, y)]
  {
    var line := a + [c] + b;
    assert line[|a| + 1..|a| + 1 + |b|] == b;
    BackgroundPiece(line, y, |a| + 1, b);
    assert line[0..0 + |a|] == a;
    BackgroundPiece(line, y, 0, a);
    assert line[|a|] == c;
  }

  /** A row with two actor characters separated by the background `m` has those two actor cells. */
  lemma TwoActorLine(a: string, c1: char, m: string, c2: char, b: string, y: nat)
    requires forall d :: d in a ==> d in ".#+"
    requires forall d :: d in m ==> d in ".#+"
    requires forall d :: d in b ==> d in ".#+"
    requires IsActorChar(c1) && IsActorChar(c2)
    ensures var line := a + [c1] + m + [c2] + b;
      LineActorCells(line, y, |line|) == [Pos(|a|, y), Pos(|a| + 1 + |m|, y)]
  {
    var line := a + [c1] + m + [c2] + b;
    var k := |a| + 1 + |m|;
    assert line[k + 1..k + 1 + |b|] == b;
    BackgroundPiece(line, y, k + 1, b);
    assert line[k] == c2;
    assert line[|a| + 1..|a| + 1 + |m|] == m;
    BackgroundPiece(line, y, |a| + 1, m);
    assert line[|a|] == c1;
    assert line[0..0 + |a|] == a;
    BackgroundPiece(line, y, 0, a);
  }

  /** A plan made only of background characters starts with no actors. */
  lemma BackgroundOnlyPlan(plan: string, draw: (nat, nat) -> real)
    requires ParseLevel(plan, draw).Success?
    requires forall j, i :: 0 <= j < |Lines(plan)| && 0 <= i < |Lines(plan)[j]| ==> !IsActorChar(Lines(plan)[j][i])
    ensures ParseLevel(plan, draw).value.startActors == []
  {
    var lines := Lines(plan);
    GridActorsAt(lines, |lines|, draw);
    NoActorCells(lines, |lines|);
  }

  /** When every `Math.random()` draw is in [0, 1), every coin's wobble phase is in [0, 2π). */
  lemma CoinWobbleInRange(plan: string, draw: (nat, nat) -> real)
    requires ParseLevel(plan, draw).Success?
    requires forall x: nat, y: nat :: 0.0 <= draw(x, y) < 1.0
    ensures forall a :: a in ParseLevel(plan, draw).value.startActors && a.Coin? ==>
      0.0 <= a.wobble < 2.0 * Actors.PI
  {
    var lines := Lines(plan);
    assert ParseLevel(plan, draw).value.startActors == GridActors(lines, |lines|, draw);
    GridCoinWobble(lines, draw);
  }

  /** The coins pushed by the rows have their wobble in [0, 2π) when the draws are in [0, 1). */
  lemma GridCoinWobble(lines: seq<string>, draw: (nat, nat) -> real)
    requires forall x: nat, y: nat :: 0.0 <= draw(x, y) < 1.0
    ensures forall a :: a in GridActors(lines, |lines|, draw) && a.Coin? ==> 0.0 <= a.wobble < 2.0 * Actors.PI
  {
    var acts, cells := GridActors(lines, |lines|, draw), ActorCells(lines, |lines|);
    GridActorsAt(lines, |lines|, draw);
    forall a | a in acts && a.Coin? ensures 0.0 <= a.wobble < 2.0 * Actors.PI {
      var k :| 0 <= k < |acts| && acts[k] == a;
      CellCoinWobble(lines, cells[k], draw);
    }
  }

  /** A coin built at an actor cell has its wobble in [0, 2π) when that cell's draw is in [0, 1). */
  lemma CellCoinWobble(lines: seq<string>, p: Pos, draw: (nat, nat) -> real)
    requires IsActorCell(lines, p) && 0.0 <= draw(p.x, p.y) < 1.0
    ensures var a := ActorAt(lines, p, draw); a.Coin? ==> 0.0 <= a.wobble < 2.0 * Actors.PI
  {
  }
}
