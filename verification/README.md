# Platform game level model

A Dafny model of the core of `main.js`, the first stage of a small browser
platform game. It covers:

- the immutable two-dimensional `Vec`;
- the `Level` constructor, which trims and splits a textual plan and looks
  each character up in the `levelChars` table;
- the `Player`, `Lava` and `Coin` actors, with their `create` functions,
  type tags and per-kind sizes;
- `State.start` and the `player` getter;
- the arithmetic of `DOMDisplay.scrollPlayerIntoView`.

Modules, one per part of the program:

| module | file | what it holds |
|---|---|---|
| `Wrappers` | `wrappers.dfy` | `Option` and `Result` |
| `Vectors` | `vec.dfy` | `Vec`, `Plus`, `Times` |
| `Text` | `text.dfy` | `trim`, `split("\n")` and their reference `Join` |
| `Actors` | `actors.dfy` | the actor kinds and their `create` functions |
| `Levels` | `level.dfy` | the character table, the pure specification `ParseLevel`, and the constructor as the loop methods `NewLevel` / `MapRows` / `ScanRow` proved equal to it |
| `LevelProperties` | `level_props.dfy` | what the constructor guarantees: errors, dimensions, cells, actors in scan order |
| `States` | `state.dfy` | `State`, `start`, `player` |
| `Display` | `display.dfy` | the scroll arithmetic, as written and as intended, and the `DomDisplay` class whose scroll fields it updates |
| `Examples` | `examples.dfy` | small plans and the shipped `simpleLevelPlan`, worked through the model |

Modelling choices:

- **Level.** A built `Level` is never changed after its constructor runs, so it
  is a datatype.
- **The constructor.** It fills `startActors` with `push` inside a nested
  `map`. It is modelled as the method `Levels.NewLevel`, whose loops
  (`MapRows` over rows, `ScanRow` over characters) accumulate the rows and
  the actors.
- **Unknown characters.** A character missing from `levelChars` makes
  `type.create` throw a TypeError. The model returns
  `Failure(UnknownChar(x, y, ch))` for the first such character in row-major
  order.
- **Actor cells.** The row callback returns nothing for an actor character,
  so that cell is JavaScript's `undefined`. The model writes it as `None`.
- **Random draws.** `Math.random()` becomes a `draw` function from the
  coin's cell `(x, y)` to a real.
- **Where the code departs from what its own comments and neighbouring
  branches say, the model follows the code:**
  - an actor character leaves an `undefined` cell, although the comment at
    main.js:31 describes the background as strings "empty", "wall" and "lava";
  - the left-scroll branch assigns the margin itself (main.js:259), where the
    other three branches (main.js:261, 265, 267) offset the centre by the
    margin (see Findings).
- **The model also follows the code where it may surprise a reader, with no
  comment saying otherwise:**
  - rows are not checked against `width`, which is the length of row 0 alone;
  - the vertical margin is the same third of the viewport's width, as
    main.js:246 documents it.

## Model

| member | source | states |
|---|---|---|
| Vectors.Vec.Plus | main.js:77-79 | the sum is component-wise: subtracting `other` from each component gives back the original |
| Vectors.Vec.Times | main.js:82-84 | both components are scaled by the factor: dividing by a non-zero factor gives back the original, and a zero factor gives the zero vector |
| Vectors.PlusCommutes | main.js:77-79 | `plus` is commutative |
| Vectors.PlusZero | main.js:77-79 | the zero vector is neutral for `plus` on both sides |
| Vectors.TimesDistributes | main.js:254-255 | `(pos + size·0.5)·scale` equals `pos·scale + size·0.5·scale`: scaling distributes over the sum |
| Text.Trim | main.js:25 | `trim` keeps the slice after the leading white space; everything cut off is ECMAScript white space, and the result neither starts nor ends with white space |
| Text.Split | main.js:25 | `split` returns at least one piece, and no piece contains the separator |
| Text.JoinSplit | main.js:25 | joining the pieces of a split with the separator gives back the original string |
| Text.SplitJoin | main.js:25 | splitting a join of separator-free pieces gives back exactly those pieces |
| Text.SplitNoSeparator | main.js:25 | a string without the separator splits into itself alone |
| Text.SplitAfter | main.js:25 | a separator-free prefix followed by the separator becomes the first piece |
| Text.FirstPiece | main.js:25 | the first piece is the text before the first separator, or the whole string when there is none |
| Text.SplitCount | main.js:25 | there is one more piece than separators |
| Actors.PlayerCreate | main.js:98-106 | `Player.create`: type "player", position `pos + (0, -0.5)`, so the box's bottom rests on the cell's bottom and it lies inside the cell horizontally; speed zero |
| Actors.LavaCreate | main.js:117-132 | `Lava.create` yields an actor exactly for `=`, the vertical bar and `v`: type "Lava" at `pos`; speed (2,0), (0,2), (0,3) respectively; `reset` present only for `v`, and then equal to `pos`; any other character gives `undefined` |
| Actors.CoinCreate | main.js:143-153 | `Coin.create`: type "coin", `pos == basePos == pos + (0.2, 0.1)`, horizontally centred and inside the cell; the wobble is the draw times 2π, so a draw in [0, 1) gives a wobble in [0, 2π) |
| Actors.Actor.Type | main.js:98 | the `type` getters: "player" exactly for a player, "Lava" (capital L, main.js:117) exactly for lava, "coin" (main.js:143) exactly for a coin |
| Actors.Actor.Size | main.js:106 | the prototype sizes: (0.8, 1.5) for a player, (1, 1) for lava (main.js:132), (0.6, 0.6) for a coin (main.js:153); every size is positive and at most one cell wide |
| Actors.Create | main.js:42 | `type.create(new Vec(x, y), ch)`: the actor the table's class builds, with that class's type tag |
| Actors.SizePerKind | main.js:105-106 | sizes live on each class's prototype, so two actors of the same type have the same size |
| Levels.LevelChars | main.js:156-165 | the table maps to the Lava class only characters that `Lava.create` handles |
| Levels.Lines | main.js:25 | `plan.trim().split("\n")` has at least one line, so `rows[0]` exists |
| Levels.CellOf | main.js:36-38 | the callback's value for one character is defined exactly for a known background character, and it is then the table's string for it; an actor character gives `undefined` |
| Levels.BackgroundRow | main.js:34-44 | the row callback's result has one cell per character: the table's string, or `undefined` for an actor character |
| Levels.BackgroundRows | main.js:32-45 | the mapped rows are, row for row, the callback applied to each line |
| Levels.ScanStep | main.js:34-44 | one character: an unknown one is where the constructor throws; a background one adds its string and no actor; an actor one adds `undefined` and exactly the created actor |
| Levels.ScanRow | main.js:34-44 | the loop over one row returns the first unknown character of the row, or else the row's cells and the row's actors pushed after the existing ones |
| Levels.RowStep | main.js:32-45 | a row without unknown characters passes the search on to the next row, and appends its own actors to the start actors |
| Levels.ParsedFailure | main.js:36-42 | the first row with an unknown character decides the constructor's error |
| Levels.MapRows | main.js:26-45 | the loop over rows yields exactly the specification `ParseLines`: the first error, or height, width, rows and start actors |
| Levels.NewLevel | main.js:22-47 | the constructor yields exactly the specification `ParseLevel` of the plan |
| LevelProperties.TableVocabulary | main.js:156-165 | the table knows exactly eight characters, `. # + @ o = v` and the vertical bar, and its actor characters are exactly `@ o = v` and the vertical bar; the background strings of `.`, `#`, `+` are "empty", "wall", "lava" |
| LevelProperties.FirstUnknownInLineSpec | main.js:36-42 | the scan of a line finds nothing exactly when every character is known; otherwise it finds the leftmost unknown character |
| LevelProperties.FirstUnknownSpec | main.js:32-45 | the grid scan finds nothing exactly when every character is known; otherwise it finds the first unknown one in row-major order |
| LevelProperties.ParseFailsAtFirstUnknown | main.js:25-45 | the constructor throws if and only if the trimmed plan has a character the table lacks, and it throws at the first one in row-major order |
| LevelProperties.LevelDimensions | main.js:25-27 | `height` is one more than the number of newlines in the trimmed plan; `width` is the length of the text before the first newline |
| LevelProperties.LevelCells | main.js:32-45 | there are `height` rows, row 0 has `width` cells and every row as many as its line; every cell is the table's string for its character, or `undefined` for an actor character |
| LevelProperties.LineActorCellsSpec | main.js:34-44 | the actor cells of a row are exactly its actor characters, left to right |
| LevelProperties.ActorCellsSpec | main.js:32-45 | the actor cells of the grid are exactly its actor characters, in row-major order |
| LevelProperties.LineActorsAt | main.js:40-43 | the actors pushed by a row are, one for one, created from its actor cells |
| LevelProperties.GridActorsAt | main.js:40-43 | the actors pushed by the grid are, one for one, created from its actor cells |
| LevelProperties.StartActorsInScanOrder | main.js:29-45 | `startActors` holds exactly one actor per actor character, in row-major order, each created from `Vec(x, y)` of its own cell and its own character |
| LevelProperties.BackgroundOnlyPlan | main.js:29-45 | a plan with no actor characters starts with no actors |
| LevelProperties.CoinWobbleInRange | main.js:146-150 | with every `Math.random()` draw in [0, 1), every coin of a built level has its wobble in [0, 2π) |
| LevelProperties.GridCoinWobble | main.js:40-43 | every coin the row callbacks push has its wobble in [0, 2π) when the draws are in [0, 1) |
| States.PlayerIndex | main.js:64 | `find` stops at the first actor whose type is "player", or finds none when no actor has that type |
| States.State.Start | main.js:58-60 | `State.start`: the level, the level's own `startActors`, and status "playing" |
| States.State.Player | main.js:62-65 | the `player` getter returns the first actor of type "player", or `undefined` exactly when there is none |
| States.StartPlayer | main.js:58-65 | a started game has a player exactly when the level starts with one, and it is one of the start actors |
| Display.Center | main.js:254-255 | the pixel centre is `(pos + size/2)·20` on each axis: the pixel corner the box is drawn at plus half its pixel size |
| Display.Margin | main.js:246 | the margin is a third of the viewport's width, and lies between 0 and that width |
| Display.ScrollAdjust | main.js:243-268 | nothing is assigned on an axis exactly when the centre is inside that axis's band; scrolling right, up or down leaves the centre one margin inside the crossed edge; scrolling left assigns the margin itself |
| Display.ScrollAdjustIntended | main.js:258-259 | the corrected left branch `center.x - margin`: whichever way it scrolls, the centre ends inside the horizontal band; every other assignment is unchanged |
| Display.NoScrollInsideMargins | main.js:257-268 | a centre inside both bands assigns nothing |
| Display.VerticalScrollSettles | main.js:264-268 | after a vertical scroll, a second adjustment leaves `scrollTop` alone exactly when the viewport is at least two thirds as tall as it is wide |
| Display.RightScrollSettles | main.js:260-261 | after a scroll to the right, a second adjustment leaves `scrollLeft` alone |
| Display.LeftScrollAsWritten | main.js:258-259 | as written, a left scroll brings the centre into the band only when it lies between two margins and one viewport width from the level's left edge |
| Display.LeftScrollCounterexample | main.js:259 | a 300-pixel viewport scrolled to 500 with the centre at x = 100 is scrolled to 100, which leaves the centre outside the band; the intended offset is 0 |
| Display.DomDisplay.constructor | main.js:189-194 | a new display has the laid-out client size and is scrolled to the origin |
| Display.DomDisplay.ScrollPlayerIntoView | main.js:243-269 | `scrollLeft`/`scrollTop` become the values `ScrollAdjust` assigns, or stay as they were; with no player the method fails before assigning anything |
| Examples.PlayerOnlyPlan | main.js:22-47 | `"@.\n.."` builds a 2×2 level whose only actor is the player at (0, -0.5) |
| Examples.CoinPlan | main.js:32-45 | `"#+\n.o"` gives rows wall/lava and empty/`undefined`, and one coin at (1.2, 1.1) |
| Examples.RaggedPlan | main.js:26-27 | a ragged plan still builds: width 2 from row 0, while row 1 has one cell |
| Examples.CrlfPlan | main.js:25-42 | with Windows line ends the carriage return is not in the table, so the constructor throws at (1, 0) |
| Examples.StartFindsPlayer | main.js:58-65 | a started level whose actors are a coin and then a player is playing and finds the player past the coin |
| Examples.SimpleLines | main.js:2-11 | the shipped plan trims and splits into its nine rows |
| Examples.ShippedPlan | main.js:2-11 | building the shipped plan is building its nine rows |
| Examples.SimpleLevel | main.js:2-11 | the shipped rows build a level 22 wide and 9 high, starting with the `=` lava at (17, 2), the coins at (12, 3) and (14, 3), and the player at (4, 4), in that order |
| Examples.SimpleStart | main.js:271-273 | starting the shipped level: status "playing", and the player is the one created at (4, 4) |

## Left out

- `elt`, `drawGrid`, `drawActors`, `DOMDisplay.clear` and the element tree the `DOMDisplay` constructor builds: these are browser DOM calls with no computation beyond multiplying by `scale`.
- `syncState`: its actor-layer replacement and class-name update are DOM work. Its last step, `scrollPlayerIntoView`, is modelled.
- Display.DomDisplay.constructor: the client width and height are what the browser lays out, so they are parameters here.
- Display.DomDisplay.ScrollPlayerIntoView: records the values the code assigns. The browser's clamping of `scrollLeft`/`scrollTop` to the scrollable range is not modelled.
- Numbers are `real`, not IEEE doubles, so rounding is not modelled. `Math.PI` is its 16-digit decimal value.
- `Math.random()` is the `draw` parameter keyed by the coin's cell. Its range [0, 1) is a premise of Actors.CoinCreate and LevelProperties.CoinWobbleInRange where they need it.
- States.State.Start: `State.start` hands out the very array object `level.startActors`, while the model copies a sequence value. Nothing in this code mutates that array afterwards, so no behaviour is lost, but the aliasing itself is not modelled.
- Strings are sequences of Dafny characters. The model does not distinguish UTF-16 code units from the code points that `[...l]` iterates.
- Levels.NewLevel: a thrown TypeError becomes a `Failure` result. The half-filled `startActors` of the object being built is not observable afterwards, so it is not modelled.
- The top-level script (main.js:271-273) is covered only up to `State.start(simpleLevel)`, by Examples.SimpleStart. Creating the display on `document.body` and the first `syncState` are DOM work.
- There is no physics, input handling or game loop in the source.

## Findings

| source | as written | input that shows it | evidently intended | confidence | as-written member | corrected member |
|---|---|---|---|---|---|---|
| main.js:259 | `this.dom.scrollLeft = center.x = margin;` assigns the margin to `center.x` and then to `scrollLeft`, whatever the player's position | clientWidth 300, scrollLeft 500, player centre x = 100: scrollLeft becomes 100, so the centre sits on the viewport's left edge, not a margin inside it | `scrollLeft = center.x - margin` (offset 0 here), mirroring the right-hand branch on line 261 | not executed; follows from the operator semantics of chained assignment | Display.LeftScrollCounterexample | Display.ScrollAdjustIntended |

`Display.ScrollAdjust` and `Display.DomDisplay.ScrollPlayerIntoView` keep the code's behaviour. `Display.LeftScrollAsWritten` describes exactly when that behaviour still lands in the band. `Display.ScrollAdjustIntended` is the corrected arithmetic, with its band property proved.
