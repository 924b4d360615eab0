# Littleman's World Builder, modelled in Dafny

This project models the core of Littleman's World Builder, a small 2-D
platform game and its map editor, and proves properties of that model.

- **The game world.** A map is a table of shapes, each a box with:
  - a collision kind (1 is solid);
  - a climb kind (1 ladder, 2 water, 3 jump-through, 10 + k for in-map warp k);
  - a colour.

  A map also has a table of in-map warp targets (map, x, y) and four edge
  warps that lead to the neighbouring maps.
- **The character.** It moves one pixel at a time, probing the edges of its
  hit box against the map. It jumps in a fixed three-tick cycle and falls
  under gravity that accelerates, first slowly and then fast. A priority
  merge over 38 sensed pixels decides whether it climbs, floats in water
  or is warped.
- **The level file.** Four header lines (size, spawn point, edge warps,
  shape count) are followed by nine numbers per shape, the warp count and
  three values per warp. The token `n` stands for the map's own number.
- **The editor.** It keeps the map as a flat list of nine integers per
  shape and three per warp target. It appends shapes drawn with two
  clicks, and supports:
  - undo and delete, with warp renumbering;
  - reordering;
  - attribute edits;
  - selection;
  - save and load.

## Files

| module | file | models |
|---|---|---|
| `Shapes` | `shapes.dfy` | shapes, warps, levels, tokens |
| `MapQuery` | `mapquery.dfy` | the map object and its point queries (`SMap`) |
| `Sprite` | `sprite.dfy` | the character's position and walking frame (`SChar`) |
| `Probes` | `probes.dfy` | hit-box probing and the climb merge over the probe pixels |
| `Physics` | `game.dfy` | the game (`SGame`) |
| `PhysicsFacts` | `physicsfacts.dfy` | lemmas about moves, jumps, falls and edge warps |
| `LevelFile` | `levelfile.dfy` | the level reader (`SFileRead`) |
| `MapFormat` | `mapformat.dfy` | the editor's save format, its decoder, and how the game reads a save |
| `ShapeList` | `shapelist.dfy` | functions over the editor's flat shape and warp lists |
| `Editor` | `editor.dfy` | the editor (`SMapMaker`) |

### How Physics is built

`Physics` first states each step of the game as a pure function over a
`GState` snapshot of everything the game changes. The class `Game` then
performs the same steps on its fields, its character object and its map
object. Each method's postcondition is that it ends in the state its
function computes.

### What is passed in

- **Timers** are running flags; their ticks are explicit method calls.
- **Level files** are parameters: the game receives a table from map
  number to level.
- **Files in the editor** are token lines. `None` stands for a file that
  does not exist.
- **Widget contents** (text fields, check boxes, radio buttons) are the
  parameters of the methods that read them. A text field that does not
  hold a number is `None`.
- **Game options** are the constructor's parameters: whether an in-map warp
  and whether an edge warp resets gravity.

### Gravity and other choices

- **Gravity units.** Gravity is kept in tenths of a pixel, as integers:
  - normal gravity starts at 40, grows by 2 while it is at most 160, and is
    divided by 20;
  - fast gravity starts at 80, grows by 2 on every second pixel while it is
    at most 480, and is divided by 60.

  `(int) (g / d)` becomes the integer quotient. The switch to fast falling
  happens at normal gravity 60, that is at 3 pixels per tick. With
  `double` arithmetic the model is not claimed to agree bit for bit at that
  threshold.
- **Warp chains.** The game's warp check, fall check and warp can call each
  other. The model assumes that no in-map warp target lies inside a warp
  zone (`Physics.WellFormed`); that assumption makes the chain end.
- **Exceptions.** In the editor and the level reader, where the source
  throws because an index is out of range, the model returns `false` and
  changes nothing. Where the throw comes after earlier writes, the model
  makes those same writes first. The game itself is modelled only on
  well-formed levels (`Physics.WellFormed`, under "Left out").

## Model

| member | source | states |
|---|---|---|
| Shapes.Row | src/SMap.java:123-133 | a shape's nine values in file order: x, y, width, height, collision, climb, red, green, blue |
| Shapes.ShapeOfRow | src/SFileRead.java:55-72 | reading nine values as a shape and writing it back gives the same nine values |
| Shapes.WarpRow | src/SMap.java:233-235 | a warp's three values in file order: map, x, y |
| MapQuery.Collision | src/SMap.java:135-160 | a pixel is free exactly when no shape of collision 1 holds it in its closed box |
| MapQuery.Climb | src/SMap.java:81-121 | the climb answer is 0 exactly when no shape offers a climb kind (1, 2, 3 or at least 10) at the pixel within its box widened 3 pixels left; otherwise it is such a kind |
| MapQuery.SolidOnly | src/SMap.java:144-155 | keeps only the solid shapes |
| MapQuery.CollisionSeesOnlySolid | src/SMap.java:144-155 | shapes of collision 0, 2, 3, 4 or 5 never change a collision answer |
| MapQuery.BlockedCarriesOver | src/SMap.java:144-155 | a pixel blocked in one shape list is blocked in any list holding all of its shapes |
| MapQuery.CollisionOrderFree | src/SMap.java:144-155 | the collision answer does not depend on the order of the shapes |
| MapQuery.ClimbIsFirstOffer | src/SMap.java:87-114 | the climb answer is the climb value of the first shape, in list order, that offers one at the pixel |
| MapQuery.ClimbComesFromShape | src/SMap.java:98-114 | a non-zero climb answer is the climb value of some shape |
| MapQuery.ClimbIgnoresCollision | src/SMap.java:91-97 | changing only collision kinds leaves every climb answer unchanged, so a solid shape can be climbable |
| MapQuery.ClimbZoneOfBox | src/SMap.java:87-97 | for a box of non-negative width the climb zone is the box widened by 3 pixels on the left |
| MapQuery.GameMap.Shapes | src/SMap.java:135-160 | the scanned shapes are the first shapeCount stored ones |
| MapQuery.GameMap.constructor | src/SMap.java:37-39 | a new map holds its number, no shapes, no warps and zero edge warps |
| MapQuery.GameMap.SetShapeData | src/SMap.java:44-46 | installs the shape table |
| MapQuery.GameMap.SetShapeCount | src/SMap.java:52-54 | installs the shape count |
| MapQuery.GameMap.SetWarpCount | src/SMap.java:60-62 | installs the warp count |
| MapQuery.GameMap.SetWarpList | src/SMap.java:67-69 | installs the warp table |
| MapQuery.GameMap.SetEdgeWarps | src/SMap.java:195-229 | installs the four edge warps |
| MapQuery.GameMap.ReadNum | src/SMap.java:123-133 | value v of shape record r, in file order |
| MapQuery.GameMap.GetNormWarpValue | src/SMap.java:233-235 | value v (map, x, y) of warp k, for 0 <= k < warpCount and 0 <= v < 3 |
| MapQuery.GameMap.GetCollision | src/SMap.java:135-160 | the scan loop returns free exactly when no solid shape among the first shapeCount holds the pixel, which equals `Collision` |
| MapQuery.GameMap.GetClimb | src/SMap.java:81-121 | the scan loop returns the first offered climb kind, equal to `Climb`, always 0, 1, 2, 3 or at least 10 |
| Sprite.NextStep | src/SChar.java:129-135 | the next frame is step + 1 or 0; it is 0 exactly when step has reached stepMax; it stays in 0..stepMax |
| Sprite.AnimationCycles | src/SChar.java:129-135 | from frame 0 the animation visits 1, 2, ... in order and is back at 0 after stepMax + 1 advances; with stepMax 1, two advances return to 0 |
| Sprite.Character.At | src/SChar.java:25-36 | the character stands at (x, y) on frame 0 with stepMax 1 and moveSize 3 |
| Sprite.Character.constructor | src/SChar.java:38-44 | the character stands at (0, 0) on frame 0 with stepMax 1 and moveSize 3 |
| Sprite.Character.SetX | src/SChar.java:63-65 | sets x and nothing else |
| Sprite.Character.SetY | src/SChar.java:70-72 | sets y and nothing else |
| Sprite.Character.SetXY | src/SChar.java:106-109 | sets x and y and nothing else |
| Sprite.Character.IncX | src/SChar.java:77-79 | x grows by moveSize, nothing else changes, so DecX after IncX restores x |
| Sprite.Character.IncY | src/SChar.java:84-86 | y grows by moveSize, nothing else changes |
| Sprite.Character.DecX | src/SChar.java:91-93 | x shrinks by moveSize, nothing else changes |
| Sprite.Character.DecY | src/SChar.java:98-100 | y shrinks by moveSize, nothing else changes |
| Sprite.Character.SetStep | src/SChar.java:121-123 | sets the frame and nothing else |
| Sprite.Character.IncStep | src/SChar.java:129-135 | advances the frame by `NextStep`, keeping it within 0..stepMax |
| Probes.ColumnClear | src/SGame.java:776-793 | the column scan succeeds exactly when every pixel of the column between the two rows is free |
| Probes.RowClear | src/SGame.java:794-811 | the row scan succeeds exactly when every pixel of the row between the two columns is free |
| Probes.SideClearProbes | src/SGame.java:774-814 | side l probes column x+2, r column x+7 (rows y-22..y-1), u row y-23, d row y (columns x+2..x+7); the side is free exactly when no probed pixel is blocked; any other side is free |
| Probes.Grounded | src/SGame.java:824-826 | the character stands on something exactly when a pixel of row y within columns x+2..x+7 is blocked |
| Probes.MergeAllRanked | src/SGame.java:639-703 | the merged climb kind ranks at least as high as every sensed kind (warp > 3 > 1 > 2 > 0), is one of them, and is 0 exactly when every sensed kind is 0 |
| Probes.MergeAllLastWarp | src/SGame.java:646-647 | when warps are sensed, the last warp sensed wins |
| Probes.MergeAllOrderFree | src/SGame.java:639-703 | without warps, the order of sensing does not change the merged kind |
| Probes.ClimbProbes | src/SGame.java:642-702 | 38 probe pixels, in the game's sensing order |
| Probes.ClimbProbesCover | src/SGame.java:642-702 | the probes are exactly columns x+1 and x+8 over rows y-11..y-1 and rows y-11 and y-1 over columns x+1..x+8 |
| Probes.ProbeCodes | src/SGame.java:642-702 | one climb query per probe pixel, each a value a query can report |
| Probes.ClimbAt | src/SGame.java:616-703 | the merged climb kind is 0 or a climb kind |
| Probes.ClimbAtNone | src/SGame.java:639-703 | the merged kind is 0 exactly when every probe pixel's climb query is 0 |
| Probes.ClimbAtFromShape | src/SGame.java:639-703 | a non-zero merged kind is the climb value of some shape |
| Probes.LadderBeatsWater | src/SGame.java:648-653 | a ladder sensed anywhere beats water sensed anywhere when no warp or jump-through is sensed |
| Physics.GravityReset | src/SGame.java:833-837 | gravity back at its initial values: 40 and 80 tenths, count 0 |
| Physics.WarpInRange | src/SGame.java:704-706 | in a well-formed level, a warp shape under the character names an entry of the warp table |
| Physics.CheckFallSpec | src/SGame.java:367-376 | the fall check starts the normal fall timer only when the character is unsupported, the climb kind is neither 1 nor 3, and no fast fall runs; otherwise only warps it fires change the state |
| Physics.CheckClimbSpec | src/SGame.java:616-709 | the climb check reports the merged kind; below 10 it changes nothing; at 10 + k it performs in-map warp k and ends outside any warp zone |
| Physics.NormWarpSpec | src/SGame.java:751-759 | the corrected order (see Findings): an in-map warp puts the character at exactly the target's map, x and y, resets gravity when the option is set, then runs the fall check |
| Physics.NormWarpTargetAsWritten | src/SGame.java:751-754 | as written, the warp takes its map from the current map's warp table and its x and y from the target map's table |
| Physics.NormWarpAsWrittenMisplaces | src/SGame.java:751-754 | on a two-map example the code as written lands at (7, 8) instead of the warp's (100, 50) |
| Physics.EdgeWarpSpec | src/SGame.java:575-598 | an edge warp loads the neighbouring map, places the character past its opposite border, resets gravity when the option is set, and runs the fall check |
| Physics.EdgeLanding | src/SGame.java:575-592 | leaving left lands at x = W'+5, right at x = -15, up at y = H'+22, down at y = -2, with W' and H' the new map's size and the other coordinate kept |
| Physics.StepRight | src/SGame.java:400-410 | one pixel right when the r probe there is clear, with the edge warp at x >= W+5 |
| Physics.StepLeft | src/SGame.java:413-422 | one pixel left when the l probe there is clear, with the edge warp at x <= -15 |
| Physics.StepUp | src/SGame.java:445-455 | one pixel up when the u probe there is clear, with the edge warp at y <= -2 |
| Physics.StepDown | src/SGame.java:462-471 | one pixel down only when the d probe there is clear and no jump runs, with the edge warp at y >= H+22 |
| Physics.StepSpec | src/SGame.java:400-471 | one pixel of a keyboard move; only warps change the map |
| Physics.SlideSpec | src/SGame.java:400-471 | n pixels of a move; the flag says whether any was taken |
| Physics.LadderSpec | src/SGame.java:444-455 | without a jump start, three pixels up when the climb check reports a ladder |
| Physics.JumpAllowedSpec | src/SGame.java:429 | the climb checks in the jump condition run, and may warp, before a jump can start |
| Physics.Descend | src/SGame.java:286-291 | one pixel down, with the edge warp through the bottom border |
| Physics.NormalDescent | src/SGame.java:286-308 | gravity grows by 2 tenths while at most 160 and stays below its cap; at 3 pixels per tick the fast fall takes over (fast flag on, fast timer on, normal timer off) |
| Physics.NormalPixel | src/SGame.java:285-308 | a loop iteration keeps gravity below its cap |
| Physics.FastDescent | src/SGame.java:216-232 | fast gravity grows by 2 tenths on every second pixel while at most 480, and stays below its cap |
| Physics.FastPixel | src/SGame.java:215-232 | a loop iteration keeps fast gravity below its cap |
| Physics.JumpTickSpec | src/SGame.java:150-191 | every jump tick advances the jump counter by one |
| Physics.RiseSpec | src/SGame.java:172-178 | the rise is three pixels up when the d probe three pixels up is clear, with the edge warp at the top border |
| Physics.Game.constructor | src/SGame.java:125-137 | the game loads map 4 (the field's initial value; the constructor's argument is unused), places the character at the spawn point and ends in the state of the fall check |
| Physics.Game.ChangeMap | src/SGame.java:535-566 | a new map object holds exactly the new level's shapes, warps and edge warps, and the frame takes the level's size |
| Physics.Game.ResetGravity | src/SGame.java:833-837 | gravity and fast gravity back at their initial values, count 0 |
| Physics.Game.SenseClimb | src/SGame.java:639-703 | the probe loop's merged kind is `ClimbAt` at the position |
| Physics.Game.CheckClimb | src/SGame.java:616-709 | ends in the state, and returns the kind, that `CheckClimbSpec` gives |
| Physics.Game.NormWarp | src/SGame.java:751-759 | the corrected order (see Findings): ends in the state `NormWarpSpec` gives |
| Physics.Game.CheckFall | src/SGame.java:367-376 | ends in the state `CheckFallSpec` gives |
| Physics.Game.EdgeLand | src/SGame.java:575-592 | ends in the landing `EdgeLanding` gives |
| Physics.Game.EdgeWarp | src/SGame.java:575-598 | ends in the state `EdgeWarpSpec` gives |
| Physics.Game.Step | src/SGame.java:400-471 | one pixel as `StepSpec` gives |
| Physics.Game.MoveRight | src/SGame.java:400-410 | one pixel as `StepRight` gives |
| Physics.Game.MoveLeft | src/SGame.java:413-422 | one pixel as `StepLeft` gives |
| Physics.Game.MoveUpPixel | src/SGame.java:445-455 | one pixel as `StepUp` gives |
| Physics.Game.MoveDown | src/SGame.java:462-471 | one pixel as `StepDown` gives |
| Physics.Game.Slide | src/SGame.java:400-471 | three pixels as `SlideSpec` gives |
| Physics.Game.MoveUp | src/SGame.java:423-455 | the up key as `UpSpec` gives |
| Physics.Game.StartJump | src/SGame.java:429-441 | a jump start raises y by 3, stops the fall timer, sets frame 0 and jump counter 0, and starts the jump timer |
| Physics.Game.ClimbLadder | src/SGame.java:444-455 | as `LadderSpec` gives |
| Physics.Game.JumpAllowed | src/SGame.java:429 | as `JumpAllowedSpec` gives |
| Physics.Game.Move | src/SGame.java:389-492 | a keyboard move as `MoveSpec` gives |
| Physics.Game.Animate | src/SGame.java:475-477 | the walking frame advances by one exactly when the move took a pixel; nothing else changes |
| Physics.Game.Update | src/SGame.java:500-516 | the arrow keys move; every other key changes nothing |
| Physics.Game.FallOnePixel | src/SGame.java:286-291 | as `Descend` gives |
| Physics.Game.FallTick | src/SGame.java:276-352 | one normal fall tick, including its pixel loop whose bound is recomputed every iteration, as `NormalTickSpec` gives |
| Physics.Game.NormalFallPixel | src/SGame.java:285-308 | as `NormalPixel` gives |
| Physics.Game.NormalFall | src/SGame.java:286-308 | as `NormalDescent` gives |
| Physics.Game.FallTickEnd | src/SGame.java:311-350 | as `NormalTail` gives |
| Physics.Game.StopFall | src/SGame.java:339-350 | as `NormalStop` gives |
| Physics.Game.FastFallTick | src/SGame.java:206-258 | one fast fall tick as `FastTickSpec` gives |
| Physics.Game.FastFallPixel | src/SGame.java:215-232 | as `FastPixel` gives |
| Physics.Game.FastFall | src/SGame.java:216-232 | as `FastDescent` gives |
| Physics.Game.FastFallTickEnd | src/SGame.java:236-256 | as `FastTail` gives |
| Physics.Game.Land | src/SGame.java:252-256 | the fast fall ends: timer and fast-fall flag off, frame 0, both gravities reset |
| Physics.Game.JumpTick | src/SGame.java:150-191 | one jump tick as `JumpTickSpec` gives |
| Physics.Game.Rise | src/SGame.java:172-178 | as `RiseSpec` gives |
| PhysicsFacts.StepInside | src/SGame.java:400-471 | away from the borders one pixel step either takes exactly that pixel or changes nothing |
| PhysicsFacts.SlideInsideMap | src/SGame.java:400-471 | away from the borders an n-pixel move goes k pixels for some k in 0..n, changes nothing else, and reports a move exactly when k > 0 |
| PhysicsFacts.SlideOneMore | src/SGame.java:400-422 | after k pixels, a clear next pixel makes the move reach k + 1 |
| PhysicsFacts.SlideBlocked | src/SGame.java:400-471 | a move whose first pixel is refused goes nowhere and changes nothing |
| PhysicsFacts.RightBlocked | src/SGame.java:400-410 | moving right when the probed pixel is not free, short of the right border, is refused and changes nothing |
| PhysicsFacts.LeftBlocked | src/SGame.java:413-422 | moving left when the probed pixel is not free, short of the left border, is refused and changes nothing |
| PhysicsFacts.DownDuringJump | src/SGame.java:462-471 | during a jump the down key takes no pixel |
| PhysicsFacts.MoveAnimates | src/SGame.java:475-481 | the walking frame advances exactly when a pixel was taken |
| PhysicsFacts.MoveDownDuringJump | src/SGame.java:456-492 | during a jump the down key only runs the climb check |
| PhysicsFacts.JumpAllowedAwayFromWarps | src/SGame.java:429 | away from warp zones the jump condition's climb checks change nothing |
| PhysicsFacts.UpStartsJump | src/SGame.java:429-441 | with the counter at 3, the u probe 3 up clear, and either ground with climb 0 or climb 2 or 3, the up key starts a jump |
| PhysicsFacts.UpDuringJump | src/SGame.java:423-455 | the up key never touches the jump counter while a jump runs |
| PhysicsFacts.JumpRise | src/SGame.java:164-178 | ticks at counter 0 and 1 rise 3 pixels when the d probe 3 up is clear |
| PhysicsFacts.JumpEnds | src/SGame.java:180-185 | the tick at counter 2 stops the jump timer, sets frame 0 and leaves the counter at 3 |
| PhysicsFacts.JumpCycle | src/SGame.java:150-191 | three ticks from a fresh jump leave the counter ready and the timer stopped |
| PhysicsFacts.NormalLoopGrounded | src/SGame.java:283-309 | on ground away from warps the normal fall's pixel loop changes nothing |
| PhysicsFacts.NormalTickLands | src/SGame.java:276-352 | a normal tick on ground stops the timer, sets frame 0 and resets gravity |
| PhysicsFacts.NormalLoopInWater | src/SGame.java:283-309 | in water away from warps the pixel loop changes nothing |
| PhysicsFacts.NormalTickInWater | src/SGame.java:328-334 | in water a normal tick descends one pixel and resets gravity |
| PhysicsFacts.FastLoopGrounded | src/SGame.java:213-234 | on ground away from warps the fast fall's pixel loop changes nothing |
| PhysicsFacts.FastTickLands | src/SGame.java:242-256 | a fast tick on ground stops the fast timer, clears the fast flag, sets frame 0 and resets gravity |
| PhysicsFacts.NormalDescentRamps | src/SGame.java:296-308 | in open air a normal pixel moves down one and adds 2 tenths while gravity is at most 160 |
| PhysicsFacts.FastDescentRamps | src/SGame.java:227-232 | in open air a fast pixel moves down one and adds 2 tenths on every second pixel while at most 480 |
| PhysicsFacts.RightEdgeWarp | src/SGame.java:406-409 | stepping right to x >= W+5 loads the right neighbour with the character at x = -15, when that landing spot is not a warp zone |
| PhysicsFacts.LeftEdgeWarp | src/SGame.java:419-421 | stepping left to x <= -15 loads the left neighbour with the character at x = W'+5, when that landing spot is not a warp zone |
| LevelFile.ShapesFrom | src/SFileRead.java:55-72 | count shapes whose values are the first 9 * count numbers, row by row |
| LevelFile.WarpsFrom | src/SFileRead.java:74-86 | count warps from the values after the shapes, with n read as the map's own number |
| LevelFile.MissingFileIsEmpty | src/SFileRead.java:40-48 | a missing file reads as an empty level: no shapes, no warps, all zero |
| LevelFile.ShapesIn | src/SFileRead.java:55-72 | one shape per row of a 9-column table |
| LevelFile.WarpsIn | src/SFileRead.java:74-86 | one warp per row of a 3-column table |
| LevelFile.ShapesInRows | src/SFileRead.java:55-72 | a table filled row by row with shapes holds exactly those shapes |
| LevelFile.WarpsInRows | src/SFileRead.java:74-86 | a table filled row by row with warps holds exactly those warps |
| LevelFile.ReadPartsMakeLevel | src/SFileRead.java:40-48 | when every item reads, the level is made of exactly those items |
| LevelFile.FailedPartFailsLevel | src/SFileRead.java:40-48 | when any item fails to read, there is no level |
| LevelFile.LevelReader.constructor | src/SFileRead.java:40-48 | the reader fails exactly when `ParseLevel` gives none; otherwise it holds the parsed level |
| LevelFile.LevelReader.ReadHeader | src/SFileRead.java:121-195 | edge warps, spawn point and size read exactly when each part is present |
| LevelFile.LevelReader.ReadTables | src/SFileRead.java:55-110 | the shape count and both tables read as `TablesOf` gives |
| LevelFile.LevelReader.SetShapeCount | src/SFileRead.java:97-110 | the shape count is the first number of line 4; 0 for a missing file |
| LevelFile.LevelReader.FillMapArray | src/SFileRead.java:55-91 | shapeCount rows of 9 numbers after line 4, then the warp count and that many rows of 3 values |
| LevelFile.LevelReader.ReadShapes | src/SFileRead.java:58-72 | the nested loop fills row i, column j with number 9 * i + j, failing exactly when one is not a number |
| LevelFile.LevelReader.ReadWarpTable | src/SFileRead.java:73-86 | a non-negative warp count followed by that many rows of three values gives a fresh table of exactly those warps; anything else fails |
| LevelFile.LevelReader.ReadWarps | src/SFileRead.java:74-86 | the nested loop fills the warp table, with n as the map's own number, failing exactly when a value is neither |
| LevelFile.LevelReader.GetEdgeWarps | src/SFileRead.java:121-162 | left, right, up, down from line 3, with n as the map's own number |
| LevelFile.LevelReader.GetSpawn | src/SFileRead.java:184-195 | the spawn point from line 2 |
| LevelFile.LevelReader.GameDimensions | src/SFileRead.java:166-180 | width and height from line 1 |
| MapFormat.ShapeLine | src/SMapMaker.java:2952-2954 | nine values per shape line: x - 15, y - 15, then the other seven |
| MapFormat.WarpLine | src/SMapMaker.java:2958-2960 | three values per warp line |
| MapFormat.Decode | src/SMapMaker.java:2830-2918 | the load's decoding gives four edges and exactly nine values per counted shape and three per counted warp |
| MapFormat.GameShapes | src/SFileRead.java:55-72 | the shapes the game sees in a save, one per record |
| MapFormat.GameWarps | src/SFileRead.java:74-86 | the warps the game sees in a save, one per triple |
| MapFormat.ShapeRun | src/SMapMaker.java:2950-2954 | the shape tokens as one run of 9 * n |
| MapFormat.WarpRun | src/SMapMaker.java:2956-2960 | the warp tokens as one run of 3 * m |
| MapFormat.FlattenAppend | src/SFileRead.java:55-91 | scanning two blocks of lines reads their tokens in turn |
| MapFormat.FlattenOne | src/SFileRead.java:55-91 | a single line reads as its own tokens |
| MapFormat.ShapeLinesRead | src/SMapMaker.java:2950-2954 | the shape lines read as the shape run |
| MapFormat.WarpLinesRead | src/SMapMaker.java:2956-2960 | the warp lines read as the warp run |
| MapFormat.TableLinesRead | src/SMapMaker.java:2950-2960 | the lines after the fourth read as the table run |
| MapFormat.SaveSuffixes | src/SMapMaker.java:2944-2950 | after skipping 1 to 4 lines of a save, the game's reader finds the expected item |
| MapFormat.SaveRead | src/SMapMaker.java:2944-2960 | a save reads as one run of tokens |
| MapFormat.LoadReadsSave | src/SMapMaker.java:2830-2960 | for consistent data, loading what save wrote gives back exactly the size, spawn point, edge tokens, shape list, warp list and both counts |
| MapFormat.GameReadsShapeRun | src/SFileRead.java:55-72 | the game reads the saved shapes in game coordinates |
| MapFormat.GameReadsWarpRun | src/SFileRead.java:74-86 | the game reads the saved warps unchanged |
| MapFormat.GameReadsTables | src/SFileRead.java:55-91 | the game's tables from a save are the saved shapes and warps |
| MapFormat.GameReadsSave | src/SFileRead.java:40-195 | the game reads a save exactly when each edge token is a number or n; it then has the saved size, spawn point, counts, shapes and warps |
| ShapeList.Record | src/SMapMaker.java:2651-2663 | record i is the nine values from index 9 * i |
| ShapeList.Records | src/SMapMaker.java:2651-2663 | the n records in order |
| ShapeList.NextWarp | src/SMapMaker.java:1260-1268 | the first warp shape at or after an index, and none was skipped; none when there is no such shape |
| ShapeList.PrevWarp | src/SMapMaker.java:1311-1322 | the last warp shape below an index, and none was skipped; none when there is no such shape |
| ShapeList.RemoveRecord | src/SMapMaker.java:1127-1145 | nine values fewer |
| ShapeList.RemoveWarp | src/SMapMaker.java:1127-1145 | three values fewer |
| ShapeList.ToBackList | src/SMapMaker.java:1357-1378 | the same length |
| ShapeList.ToFrontList | src/SMapMaker.java:1389-1409 | the same length |
| ShapeList.Renumbered | src/SMapMaker.java:3257-3264 | the same length |
| ShapeList.RenumberedRecord | src/SMapMaker.java:3257-3264 | renumbering changes only the climb value of warp shapes above the deleted number, by one |
| ShapeList.RecordsAppend | src/SMapMaker.java:2651-2663 | joining lists of whole records joins their records |
| ShapeList.RemoveRecordRecords | src/SMapMaker.java:1127-1145 | removing record i removes exactly that record and keeps the others in order |
| ShapeList.ToBackRecords | src/SMapMaker.java:1357-1378 | send to back puts the record first and keeps the others in order |
| ShapeList.ToFrontRecords | src/SMapMaker.java:1389-1409 | bring to front puts the record last and keeps the others in order |
| ShapeList.ReorderKeepsRecords | src/SMapMaker.java:1357-1409 | both reorderings are permutations of the records |
| ShapeList.DeleteKeepsWarpTargets | src/SMapMaker.java:1127-1155 | after a warp delete, every other warp shape with a different number still reaches its own target |
| Editor.FixColorRange | src/SMapMaker.java:3237-3244 | the result lies in 0..255 and equals the value when the value is already in range |
| Editor.FixColorRangeNearest | src/SMapMaker.java:3237-3244 | the result is the in-range value nearest the input |
| Editor.FixColorRangeMonotone | src/SMapMaker.java:3237-3244 | clamping is monotone and idempotent |
| Editor.Normalize | src/SMapMaker.java:2599-2650 | two corners in any order become positive width and height covering the same box; zero sides are left alone |
| Editor.NormalizeIdempotent | src/SMapMaker.java:2599-2650 | normalising twice is normalising once |
| Editor.EditedBoxOfSelection | src/SMapMaker.java:1048-1116 | the corners the selection writes into the edit fields give back the same box |
| Editor.WaterClimb | src/SMapMaker.java:2044-2072 | water exactly when the water box is selected; otherwise ladder or jump-through |
| Editor.EditClimbAsWritten | src/SMapMaker.java:2004-2043 | as written, the edit menu's climbable box never yields water |
| Editor.EditClimb | src/SMapMaker.java:2004-2043 | 0 exactly when unchecked; water whenever water is selected |
| Editor.ToolboxClimb | src/SMapMaker.java:1684-1723 | 0 exactly when unchecked; water whenever water is selected |
| Editor.EditClimbAgreesWithToolbox | src/SMapMaker.java:1684-2072 | the corrected edit-menu rule agrees with the toolbox rule and the water listener; the rule as written disagrees with both whenever water is selected |
| Editor.SelectionOf | src/SMapMaker.java:1216-1232 | a selection that shows a record's kind and box |
| Editor.MapMaker.Data | src/SMapMaker.java:2938-2960 | the saved part of the state is consistent whenever the editor's counts match its lists |
| Editor.MapMaker.constructor | src/SMapMaker.java:267-302 | an empty 430 by 210 map numbered 0 with spawn at (99, 99), no edge warps, rectangle mode, solid collision and temporary values -1 |
| Editor.MapMaker.EnterWarpMode | src/SMapMaker.java:811-840 | warp mode, collision 5, climb 10 + warpCount |
| Editor.MapMaker.EnterRectangleMode | src/SMapMaker.java:849-898 | climb: water over jump-through over ladder, 0 when unchecked; collision 1 when on, else 2 in front, else 0 |
| Editor.MapMaker.EnterOvalMode | src/SMapMaker.java:909-941 | oval mode, climb 0, collision 4 in front or 3 behind |
| Editor.MapMaker.EnterEditMode | src/SMapMaker.java:951-979 | edit mode |
| Editor.MapMaker.SetWarpDrawTarget | src/SMapMaker.java:988-996 | the target for new warps |
| Editor.MapMaker.ChooseCollisionOff | src/SMapMaker.java:1583-1611 | in rectangle mode collision 0 behind or 2 in front; otherwise unchanged |
| Editor.MapMaker.ChooseCollisionOn | src/SMapMaker.java:1612-1638 | collision 1 |
| Editor.MapMaker.ChooseLayer | src/SMapMaker.java:1639-1683 | 2 or 0 in rectangle mode, 4 or 3 in oval mode, otherwise unchanged |
| Editor.MapMaker.ChooseClimbable | src/SMapMaker.java:1684-1723 | climb as `ToolboxClimb` gives |
| Editor.MapMaker.ChooseClimbType | src/SMapMaker.java:1724-1755 | climb 3 or 1 |
| Editor.MapMaker.ChooseWater | src/SMapMaker.java:1756-1788 | water when selected, else the selected climb type, else unchanged |
| Editor.MapMaker.Click | src/SMapMaker.java:2341-2359 | the first click fixes the corner at (ex - 1, ey - 25); the second sets width and height so the opposite corner is (ex, ey - 23); other modes and steps change nothing |
| Editor.MapMaker.SelectAt | src/SMapMaker.java:2368-2395 | an edit-mode click selects the topmost shape whose box holds the point (no later shape holds it), with its number, kind and box; a click on no shape changes nothing |
| Editor.MapMaker.Commit | src/SMapMaker.java:2586-2675 | a zero-sided box adds nothing; otherwise exactly one normalised record with the current collision, climb and colour is appended, plus the warp target in warp mode; counts match lists |
| Editor.MapMaker.Undo | src/SMapMaker.java:2738-2755 | on a non-empty list the last record goes, and for a warp shape the last warp triple too; on an empty list the lists stay; the undo button's listener (line 760) then clears the selection either way; a warp shape with no triple left fails with no change; counts match lists |
| Editor.MapMaker.AdjustWarpData | src/SMapMaker.java:3257-3264 | the list becomes `Renumbered` for the deleted number |
| Editor.MapMaker.Delete | src/SMapMaker.java:1127-1155 | removes the selected record, and for a warp its triple with the later warps renumbered; counts match lists |
| Editor.MapMaker.TakeSelected | src/SMapMaker.java:1361-1367 | the taken nine values are the selected record and the list is without it |
| Editor.MapMaker.PutFirst | src/SMapMaker.java:1368-1370 | the record is placed in front of the list |
| Editor.MapMaker.ToBack | src/SMapMaker.java:1357-1378 | the list is `ToBackList` and the selection number becomes 1 |
| Editor.MapMaker.ToFront | src/SMapMaker.java:1389-1409 | the list is `ToFrontList` and the selection number becomes the count |
| Editor.MapMaker.SetAttributes | src/SMapMaker.java:2106-2124 | a temporary value of -1 takes the shape's own and keeps it; the shape gets the temporary collision, and climb 0 if it is an oval; nothing else changes |
| Editor.MapMaker.EditCollisionOff | src/SMapMaker.java:1908-1934 | a selected shape of collision 0, 1 or 2 is to get 0 behind or 2 in front |
| Editor.MapMaker.EditCollisionOn | src/SMapMaker.java:1935-1956 | the shape is to become solid |
| Editor.MapMaker.EditLayer | src/SMapMaker.java:1957-2003 | rectangles are to get 2 or 0, ovals 4 or 3; warp shapes keep their value |
| Editor.MapMaker.EditClimbable | src/SMapMaker.java:2004-2043 | the corrected rule `EditClimb` |
| Editor.MapMaker.EditWater | src/SMapMaker.java:2044-2072 | as `WaterClimb` gives |
| Editor.MapMaker.EditClimbType | src/SMapMaker.java:2073-2105 | climb 3 or 1 |
| Editor.MapMaker.EditSetColor | src/SMapMaker.java:1852-1907 | the selected shape's colour becomes the three clamped values; every other value is kept |
| Editor.MapMaker.SelectCurrent | src/SMapMaker.java:1216-1232 | the selection shows the shape the menu's number names; it fails exactly when the number is 0 or less |
| Editor.MapMaker.EditNext | src/SMapMaker.java:1248-1300 | the number moves to the next shape, or the next warp shape; then the selection follows |
| Editor.MapMaker.EditPrev | src/SMapMaker.java:1301-1356 | the number moves to the previous shape, or the previous warp shape; then the selection follows |
| Editor.MapMaker.SetCount | src/SMapMaker.java:1199-1240 | the number is clamped into 1..count, and the selection shows that shape; it fails with no shapes and a positive request |
| Editor.MapMaker.SetCoords | src/SMapMaker.java:1048-1116 | the selected shape's box becomes the edited box and the selection follows it; nothing else changes |
| Editor.MapMaker.EditWarpSet | src/SMapMaker.java:1024-1037 | the selected warp shape's target triple is replaced; nothing else changes |
| Editor.MapMaker.SetColor | src/SMapMaker.java:1789-1840 | each colour is its field's number, 0 when it holds none, clamped into 0..255 |
| Editor.MapMaker.SetEdgeWarps | src/SMapMaker.java:2229-2258 | each edge is its field's token, n when the field is empty or disabled |
| Editor.MapMaker.SetSpawn | src/SMapMaker.java:1529-1536 | the spawn point |
| Editor.MapMaker.SetDimensions | src/SMapMaker.java:1560-1570 | the map size |
| Editor.MapMaker.SetMapNumber | src/SMapMaker.java:1513-1520 | the map number |
| Editor.MapMaker.NewMap | src/SMapMaker.java:2789-2803 | empty lists, zero counts, no selection |
| Editor.MapMaker.Save | src/SMapMaker.java:2938-2960 | the written lines are exactly `SaveLines` of the state |
| Editor.MapMaker.Load | src/SMapMaker.java:2812-2930 | a missing file gives an empty map; otherwise it succeeds exactly when the tokens decode, and then holds the decoded size, spawn point, lists and counts, with an n edge keeping the old edge |
| Editor.MapMaker.LoadTokens | src/SMapMaker.java:2830-2918 | succeeds exactly when `Decode` does, with the decoded values |
| Editor.MapMaker.LoadHeader | src/SMapMaker.java:2830-2897 | size, spawn point (+5, -11), edges and shape count from the first nine tokens |
| Editor.MapMaker.LoadShapes | src/SMapMaker.java:2904-2911 | the shape list is the next 9 * count numbers, x and y shifted by +15 |
| Editor.MapMaker.LoadWarps | src/SMapMaker.java:2913-2918 | the warp count and the next 3 * count numbers |

## Left out

- The Swing user interface: drawing, repainting, frames, menus, the
  enabling and disabling of widgets (`adjustEditMenu`), the text written
  back into fields, the colour chooser, and the sprite preview mode.
- `SGamePanel.java` and `SLauncher.java` are not part of this model. The
  panel's frame size is the loaded level's size.
- Timer scheduling and the event thread. The timers are flags, and their
  ticks are method calls made one at a time.
- File input and output, and the comment trailer a save writes after the
  data. Files are token lines passed in or returned.
- Parsing of text fields. A field's number is a parameter, and `None`
  stands for a field that does not hold one.
- Physics.NormalDescent: gravity is in integer tenths. The model does not
  claim to agree bit for bit with `double` arithmetic at the switch to fast
  falling.
- Java's 32-bit integer overflow is not modelled; all integers are
  unbounded.
- Physics.WellFormed: an in-map warp target must not lie in a warp zone.
  Without this the chain of warp, fall check and climb check in the source
  may not end, and that case is not modelled.
- Physics.WellFormed: `Physics.WarpIndicesOK` also demands that every warp
  shape's climb value 10 + k names an entry of the level's warp table
  (k < warpCount). The level reader accepts a file that breaks this
  (src/SFileRead.java:55-86), and the game then throws an index error in
  `getNormWarpValue` (src/SMap.java:233-235) once the character reaches that
  shape (src/SGame.java:704-706, 751-752). The model does not cover that
  throw: every Physics function and Game method requires a well-formed level.
- Physics.Game.NormWarp: the class follows the corrected order of the first
  "Findings" row (map, x and y all read from the current map before the map
  changes), not src/SGame.java:752-754 as written; every Game method that
  can warp inherits that order. The order as written is
  `Physics.NormWarpTargetAsWritten`.
- Editor.MapMaker.Load: when a load fails part way, the state the Java
  scanner leaves behind is not described. Only success, and the failure
  verdict itself, are stated.
- MapFormat.LoadReadsSave: edge-warp tokens that read as n on load keep the
  editor's previous field. The round trip is therefore stated for the token
  sequence the decoder sees, not for what the fields hold afterwards.
- MapFormat.SaveLines: an edge-warp field is one token. A field whose
  text holds spaces would be written as several tokens; that is not
  modelled.
- Editor.MapMaker.SetCount: a request that is not a number throws in the
  source before anything changes. That case is not modelled.
- Editor.MapMaker.Delete: the text of the edit menu's number field, which
  the source adjusts, is not modelled.

## Findings

| source | as written | input that shows it | evidently intended | confidence | as-written member | corrected member |
|---|---|---|---|---|---|---|
| src/SGame.java:751-754 | `normWarp` calls `changeMap` first and then reads the target x and y with `getNormWarpValue`, which by then consults the target map's warp table | map 1 has warp 0 to (2, 100, 50); map 2 has warp 0 to (3, 7, 8); the character lands on map 2 at (7, 8) | read the map, x and y of the warp before changing map, so the character lands at (100, 50) | high; not executed | Physics.NormWarpTargetAsWritten, Physics.NormWarpAsWrittenMisplaces | Physics.NormWarpSpec |
| src/SMapMaker.java:2011-2022 | checking the edit menu's climbable box stores 2 when water is selected, then overwrites it with 3 or 1 | climbable checked, water selected, ladder selected: the stored value is 1 | water takes precedence, as in the toolbox's listener (src/SMapMaker.java:1684-1723) and the edit menu's water listener | medium; not executed | Editor.EditClimbAsWritten | Editor.EditClimb, Editor.EditClimbAgreesWithToolbox |
