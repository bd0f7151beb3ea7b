# L-system trees: rewriting, turtle, Bresenham renderer

This project models the sequential core of a small L-system tree renderer
in Dafny:

- **Rewriting.** The grammar expander appears in three forms:
  - the `LSystem` classes of `lsystem.cpp` and `generation_class.cpp`, with a `char -> string` rule table;
  - the free functions of `generation.cpp`, with a rule function;
  - the scatter-based `update_par` of `generation_class.cpp`, which works in three steps: sizes, exclusive scan, then scatter.

  Every form is proved equal to one reference definition, `Rewriting.Expand` and `Rewriting.Generation`. Closed forms are proved for the Koch curve and fern presets.
- **Turtle.** `LSystem::getLines` interprets the instructions:
  - `F` draws a segment one step ahead;
  - `+` and `-` turn;
  - `[` and `]` save and restore the pose on three parallel stacks.

  It is proved against a pure turtle walk (`Turtle.Run`), about which the LIFO restore, segment counts, chaining and the stack precondition are proved.
- **Renderer.** `RefRenderer` of `refRenderer.cpp` works as follows:
  - `drawLine` clamps the endpoints onto the image and plots an all-octant integer Bresenham walk into an RGBA float buffer;
  - `drawTree` walks a tree's instructions and draws one line per `F`;
  - `render` draws the loaded trees in index order;
  - the image is allocated and cleared.

  Each method is proved to leave exactly the image a pure function describes. Lemmas pin down what that image holds at every sample.

Floats are modelled as `real`. `cos` and `sin` are parameters, passed as functions.

Modules, one file each:
- `Colors`;
- `Rewriting`;
- `PrefixScan`;
- `Presets`;
- `Turtle`;
- `LSystems` (lsystem.cpp);
- `GenerationClass` (generation_class.cpp);
- `GenerationFunctions` (generation.cpp);
- `Raster` (the pixel level of drawLine);
- `RefRendering` (refRenderer.cpp).

## Model

| member | source | states |
|---|---|---|
| Rewriting.Lookup | lsystem.cpp:19-24 | the replacement of a symbol: its table entry when there is one, the symbol itself otherwise (the `rules.find(c) != rules.end()` test) |
| Rewriting.Expand | lsystem.cpp:16-28 | one rewriting step, each symbol's replacement appended in input order; characterised by ExpandSingle, ExpandAppend and ExpandLength |
| Rewriting.Generation | lsystem.cpp:95-103 | generation d of an axiom, d rewriting steps in a row; characterised by GenerationCompose and GenerationOfEmpty |
| Rewriting.ExpandAppend | generation.cpp:12-15 | rewriting maps "" to "" and a concatenation to the concatenation of the rewritten parts |
| Rewriting.ExpandSingle | generation.cpp:13-14 | one symbol rewrites to exactly its replacement |
| Rewriting.ExpandLength | lsystem.cpp:16-28 | the length of a generation is the sum of the lengths of the replacements, symbol by symbol |
| Rewriting.ExpandAgree | generation.cpp:10-17 | two rules that agree on every symbol of the input rewrite it identically |
| Rewriting.GenerationAgree | generation.cpp:21-29 | two rules that agree everywhere give the same generations |
| Rewriting.GenerationOfEmpty | lsystem.cpp:95-103 | an empty axiom stays empty at every depth |
| Rewriting.GenerationCompose | lsystem.cpp:97-100 | d + e generations are e generations of generation d |
| Rewriting.CountPreserved | lsystem.cpp:18-26 | a rule whose replacements hold as many copies of a symbol as the symbol itself keeps that symbol's count |
| Rewriting.GenerationCountPreserved | lsystem.cpp:95-103 | the same over any number of generations |
| PrefixScan.ExclusiveScan | generation_class.cpp:42-44 | the exclusive scan has one offset per size |
| PrefixScan.ScanStart | generation_class.cpp:44 | the first offset is 0 |
| PrefixScan.ScanSteps | generation_class.cpp:44 | each offset is the previous offset plus the previous size |
| PrefixScan.ScanTotal | generation_class.cpp:47 | the last offset plus the last size is the sum of all sizes (the output size) |
| PrefixScan.RangesDisjoint | generation_class.cpp:49-59 | a later write range starts at or after the end of an earlier one |
| PrefixScan.RangeInsideLast | generation_class.cpp:47-49 | every write range ends inside the output |
| PrefixScan.RangesCover | generation_class.cpp:49-59 | every output position lies in some symbol's write range |
| PrefixScan.RangesUnique | generation_class.cpp:49-59 | no output position lies in two write ranges |
| PrefixScan.ScatterAgrees | generation_class.cpp:52-54 | slot j of symbol i, written at offset scan[i] + j, is the character sequential rewriting puts there |
| Presets.FernClosedFormStep | lsystem.cpp:187-189 | the closed form 3 * 2^(d-1) * (2^d - 1) satisfies F(d) = 2 F(d-1) + 3 * 4^(d-1) |
| Presets.KochRulesShaped | lsystem.cpp:162-164 | the Koch table turns F into 9 symbols with 5 F and every other symbol into itself |
| Presets.FernRulesShaped | lsystem.cpp:177-180 | the fern table turns X into 4 X and 3 F, F into 2 F, and creates no X or F elsewhere |
| Presets.FernSymbol | lsystem.cpp:178-179 | the X and F counts of each symbol's fern replacement |
| Presets.KochStep | lsystem.cpp:163 | one Koch generation multiplies the F count by 5 and adds 8 symbols per F |
| Presets.KochGenerations | lsystem.cpp:156-169 | Koch generation d from F holds 5^d F among 2 * 5^d - 1 symbols |
| Presets.KochFirstGenerations | lsystem.cpp:158-168 | Koch generation 1 is F+F-F-F+F and generation 2 has 49 symbols |
| Presets.FernStep | lsystem.cpp:178-179 | one fern generation multiplies the X count by 4 and makes the F count twice the old F count plus 3 per X |
| Presets.FernX | lsystem.cpp:175-180 | fern generation d from X holds 4^d X |
| Presets.FernF | lsystem.cpp:186-190 | for d >= 1 fern generation d from X holds 3 * 2^(d-1) * (2^d - 1) F |
| Presets.FernFirst | lsystem.cpp:186-190 | the first fern generation holds 3 F |
| Turtle.Advance | lsystem.cpp:126-127 | the pose one step of `length` ahead along the heading, heading unchanged |
| Turtle.Step | lsystem.cpp:125-149 | one turn of getLines' switch: F draws and moves, + and - turn, [ pushes, ] pops or fails on an empty stack, anything else changes nothing; characterised by StepCounts |
| Turtle.Run | lsystem.cpp:124-150 | the walk over the instructions, one Step per symbol, failing at the first failing Step; characterised by RunAppend, RunCounts and RunDefinedIff |
| Turtle.FlatRun | refRenderer.cpp:183-198 | drawTree's walk, in which [ and ] do nothing; characterised by FlatRunAgrees and FlatRunCounts |
| Turtle.Flatten | lsystem.cpp:115 | the lines vector holds four reals per segment |
| Turtle.RunAppend | lsystem.cpp:124-150 | interpreting a + b is interpreting a, then b from where a stopped (and failing if a failed) |
| Turtle.RunCounts | lsystem.cpp:124-150 | a completed walk adds one segment per F, keeps the earlier segments, and leaves one saved pose per unmatched [ |
| Turtle.StepCounts | lsystem.cpp:125-149 | one instruction adds a segment exactly for F, pushes exactly for [ and pops exactly for ] |
| Turtle.RunDefinedIff | lsystem.cpp:142-148 | the walk never pops an empty stack if and only if no prefix closes more brackets than it opened |
| Turtle.RunFrame | lsystem.cpp:138-149 | poses saved below those a walk uses are left untouched by it |
| Turtle.BracketRestores | lsystem.cpp:138-149 | a bracketed balanced block returns to the pose and stack it started from, keeping the segments it drew (LIFO restore) |
| Turtle.TurnsOnlyTurn | lsystem.cpp:134-137 | a string of + and - changes only the heading, by the rotation per + and minus it per - |
| Turtle.HeadingWithoutBrackets | lsystem.cpp:134-137 | without brackets a walk cannot fail, keeps the stack, and turns by the net turn of the string |
| Turtle.TurningPreserved | lsystem.cpp:16-28 | a rule whose replacements keep each symbol's net turn keeps the net turn of a string |
| Turtle.GenerationTurningPreserved | lsystem.cpp:95-103 | the same over any number of generations |
| Turtle.SegmentsConnect | lsystem.cpp:125-133 | without ] each segment starts where the previous one ended, the first at the starting position, and the walk ends at the last end point |
| Turtle.FlattenSlots | lsystem.cpp:128-131 | segment l occupies slots 4l .. 4l+3 as (x, y, new_x, new_y) |
| Turtle.FlattenSnoc | lsystem.cpp:128-133 | a new segment appends its four coordinates after the stored ones |
| Turtle.FlatRunAgrees | refRenderer.cpp:183-198 | on bracket-free instructions the stackless walk of drawTree is the walk of getLines |
| Turtle.FlatRunCounts | refRenderer.cpp:183-188 | the stackless walk draws one segment per F and never uses the stack |
| Turtle.KochTurn | lsystem.cpp:162-166 | F+F-F-F+F has no net turn |
| Turtle.KochBrackets | lsystem.cpp:160-164 | the Koch axiom and replacement hold no brackets |
| Turtle.KochSymbol | lsystem.cpp:160-166 | each symbol's Koch replacement keeps its bracket counts and its net turn |
| Turtle.KochCurveBracketFree | lsystem.cpp:156-169 | no Koch generation holds a bracket |
| Turtle.KochCurveNoNetTurn | lsystem.cpp:156-169 | every Koch generation turns as much left as right |
| Turtle.KochCurveWalk | lsystem.cpp:156-169 | a Koch generation drawn from any state never pops, keeps stack and heading, and draws 5^d segments chained into one polyline |
| Turtle.OccurrencesAppend | lsystem.cpp:104-110 | the count of a symbol in a concatenation is the sum of the counts in the parts |
| Turtle.NeverUnderflowsAppend | lsystem.cpp:138-149 | a then b never pops an empty stack when b does not from the depth a leaves open |
| Turtle.BalancedAppend | lsystem.cpp:138-149 | two well-bracketed strings in a row are well-bracketed |
| Turtle.BalancedWrap | lsystem.cpp:138-149 | a well-bracketed string between [ and ] is well-bracketed |
| Turtle.ExpandNeverUnderflows | lsystem.cpp:16-28 | rewriting under a rule that keeps brackets keeps a string from popping an empty stack, and keeps how many brackets it leaves open |
| Turtle.GenerationNeverUnderflows | lsystem.cpp:95-103 | every generation of an axiom that never pops an empty stack never pops one either |
| Turtle.BalancedFernShape | lsystem.cpp:178 | the shape p[[q]r]t[u]v is well-bracketed when its pieces hold no bracket |
| Turtle.FernXBalanced | lsystem.cpp:178 | the fern's X replacement is well-bracketed |
| Turtle.FernSymbolBrackets | lsystem.cpp:177-180 | the fern table maps each symbol to itself or, for X and F, to a well-bracketed string |
| Turtle.FernKeepsBrackets | lsystem.cpp:177-180 | the fern table keeps brackets |
| Turtle.FernGenerationsBalanced | lsystem.cpp:171-184 | every fern generation is well-bracketed, so getLines on it from an empty stack is defined and ends with an empty stack |
| LSystems.LSystem.Blank | lsystem.cpp:76-78 | the default constructor leaves no grammar, instructions or lines |
| LSystems.LSystem.constructor | lsystem.cpp:82-93 | stores the axiom, rules, rotation, pose, length and colour |
| LSystems.LSystem.KochCurve | lsystem.cpp:156-169 | Koch preset: axiom F, rule F -> F+F-F-F+F, rotation 90 |
| LSystems.LSystem.Fern | lsystem.cpp:171-184 | fern preset: axiom X, rules X -> F-[[X]+X]+F[+FX]-X and F -> FF, rotation 0.436 |
| LSystems.LSystem.Update | lsystem.cpp:16-28 | the output is the rewriting of the input under the table (a symbol without an entry stands for itself) |
| LSystems.LSystem.Generate | lsystem.cpp:95-103 | returns generation max(d, 0) of the axiom and stores it as the instructions |
| LSystems.LSystem.NumLines | lsystem.cpp:104-110 | the number of F in the instructions, whatever d |
| LSystems.LSystem.GetLines | lsystem.cpp:113-153 | on instructions that never close an unopened bracket, returns (and stores as lines) the flattened segments of the stack walk from the system's pose |
| LSystems.PutLine | lsystem.cpp:128-131 | line l's four coordinates land in slots 4l .. 4l+3 after the stored lines, and no other slot changes |
| LSystems.Poses | lsystem.cpp:119-121 | the three parallel stacks read as one stack of poses, one pose per entry |
| LSystems.PosesAt | lsystem.cpp:138-148 | entry i of that stack holds the i-th x, y and angle, so pushing onto and popping from all three stacks together pushes and pops one pose |
| LSystems.RoomForLine | lsystem.cpp:114-115 | the vector of 4 * numLines reals has room for the line of every F |
| LSystems.TracksForward | lsystem.cpp:125-133 | on F the local state follows the walk: the pose steps ahead and the segment is stored after the others |
| LSystems.TracksTurn | lsystem.cpp:134-137 | on + and - the local state follows the walk: only the angle changes, by the rotation |
| LSystems.TracksPush | lsystem.cpp:138-141 | on [ the pose is pushed on all three stacks |
| LSystems.TracksPop | lsystem.cpp:142-148 | on a ] the walk can do, the stacks are non-empty and their tops become the pose |
| LSystems.TracksOther | lsystem.cpp:124-150 | any other symbol changes nothing |
| LSystems.FernNumLines | lsystem.cpp:186-190 | for 1 <= d <= 15 the closed form is the number of F in fern generation d |
| GenerationClass.LSystem.constructor | generation_class.cpp:74-85 | stores the axiom, rules, rotation, pose, length and colour |
| GenerationClass.LSystem.KochCurve | generation_class.cpp:97-110 | Koch preset: axiom F, rule F -> F+F-F-F+F, rotation 80 |
| GenerationClass.LSystem.Update | generation_class.cpp:16-28 | the output is the rewriting of the input under the table |
| GenerationClass.LSystem.UpdatePar | generation_class.cpp:30-63 | on a non-empty input the scatter expander gives the same string as sequential rewriting |
| GenerationClass.LSystem.ReplacementSizes | generation_class.cpp:32-39 | size i is the length of the rule for input[i], or 1 without a rule |
| GenerationClass.LSystem.ScatterReplacements | generation_class.cpp:46-59 | writing each replacement at its scanned offset into an output of the total size yields the rewritten string |
| GenerationClass.LSystem.Generate | generation_class.cpp:87-94 | returns generation max(d, 0) of the axiom |
| GenerationClass.CopyInto | generation_class.cpp:52-54 | the replacement lands at offset .. offset + length and no other slot changes |
| GenerationClass.KochCurveFirstGeneration | generation_class.cpp:99-109 | the preset's first generation is F+F-F-F+F |
| GenerationFunctions.KochCurveRule | generation.cpp:34-40 | F's replacement has 9 symbols, every other symbol's has 1, and each starts with the symbol itself |
| GenerationFunctions.KochCurveRuleIsKochTable | generation.cpp:34-40 | the Koch rule function maps F to F+F-F-F+F and any other symbol to itself, like the Koch table |
| GenerationFunctions.KochCurveRuleGenerations | generation.cpp:33-42 | with the rule function from F: generation 1 is F+F-F-F+F, generation d holds 5^d F among 2 * 5^d - 1 symbols |
| GenerationFunctions.Update | generation.cpp:10-17 | the output is the concatenation of the rule's replacements in input order |
| GenerationFunctions.Generate | generation.cpp:21-29 | the printed lines are generations 0 .. max(d, 0), d updates in all |
| Raster.Clamp | refRenderer.cpp:140-143 | the clamped value lies in [lo, hi] and equals v when v already does |
| Raster.Trunc | refRenderer.cpp:140 | the float-to-int cast truncates toward zero |
| Raster.ScreenCoord | refRenderer.cpp:140-143 | a clamped coordinate lies in 0 .. extent - 1 and is p - 1 when that is on screen |
| Raster.ToPixel | refRenderer.cpp:140-143 | a normalised coordinate scaled by the image extent and truncated to an int |
| Raster.Setup | refRenderer.cpp:144-148 | drawLine's dx, dy, sx and sy, before the loop |
| Raster.Next | refRenderer.cpp:161-173 | one turn of the loop: the x step when 2 * err >= dy, the y step when 2 * err <= dx, each with its error update |
| Raster.PathFrom | refRenderer.cpp:151-174 | the walk the loop plots starts at the current pixel |
| Raster.Path | refRenderer.cpp:144-160 | the walk of a line starts at its start point |
| Raster.NoEarlyXBreak | refRenderer.cpp:162-164 | under the error invariant the x-break never fires before the end point |
| Raster.NoEarlyYBreak | refRenderer.cpp:168-170 | under the error invariant the y-break never fires before the end point |
| Raster.StepXKeeps | refRenderer.cpp:165-166 | a step along x keeps the error invariant and stays toward x1 |
| Raster.StepYKeeps | refRenderer.cpp:171-172 | a step along y keeps the error invariant and stays toward y1 |
| Raster.PathFromUnfold | refRenderer.cpp:161-173 | each further step moves to an adjacent pixel between the current one and the end point |
| Raster.PathFromEnds | refRenderer.cpp:151-174 | from a position with the error invariant the walk reaches the end point |
| Raster.PathEnds | refRenderer.cpp:144-174 | the walk of a line ends at (x1, y1) |
| Raster.PathFromConnected | refRenderer.cpp:161-173 | consecutive plotted pixels are 8-adjacent |
| Raster.PathFromInBox | refRenderer.cpp:161-173 | every plotted pixel lies in the box of the current position and the end point |
| Raster.PathShape | refRenderer.cpp:144-174 | the walk of a line is 8-connected, inside the box of its endpoints, and plots each pixel once |
| Raster.PathFromCloser | refRenderer.cpp:161-173 | every later pixel of the walk is strictly nearer the end point, counting x and y distance |
| Raster.PathFromDistinct | refRenderer.cpp:151-174 | the loop never plots the same pixel twice |
| Raster.Idx | refRenderer.cpp:153 | the sample index 4 * (y * width + x) + ch of channel ch of pixel (x, y) |
| Raster.IdxInRange | refRenderer.cpp:153 | every slot of every pixel lies inside the 4 * width * height samples |
| Raster.IdxPixel | refRenderer.cpp:153-157 | slot ch of pixel (x, y) belongs to that pixel, as channel ch |
| Raster.SlotOfPixel | refRenderer.cpp:153 | every sample is a slot of exactly the pixel PixelOf names |
| Raster.InImageFits | refRenderer.cpp:153-157 | a pixel of the image has all four slots inside the buffer |
| Raster.Paint | refRenderer.cpp:153-157 | one plotted pixel, its four samples set to (r, g, b, 1); the buffer keeps its length |
| Raster.PaintPath | refRenderer.cpp:151-174 | the buffer after plotting every pixel of a walk in order; the buffer keeps its length |
| Raster.PaintAt | refRenderer.cpp:153-157 | plotting one pixel sets its four slots to (r, g, b, 1) and changes no other slot |
| Raster.PaintPathAt | refRenderer.cpp:151-174 | after plotting a walk, a slot of a pixel on it holds the colour channel (alpha 1), every other slot is unchanged |
| Raster.PathFits | refRenderer.cpp:144-157 | every pixel of a line between on-screen points is on screen and fits the buffer |
| Raster.LinePixels | refRenderer.cpp:138-175 | the plotted pixels start at the clamped start, end at the clamped end, and all fit the buffer |
| Raster.LinePixelsDistinct | refRenderer.cpp:138-175 | drawLine plots no pixel twice |
| RefRendering.Image.constructor | refRenderer.cpp:44 | a new image of width x height pixels with 4 * width * height samples |
| RefRendering.Image.Clear | refRenderer.cpp:52 | every sample becomes the matching channel of (r, g, b, a) |
| RefRendering.Image.Plot | refRenderer.cpp:153-157 | the pixel's four slots become the colour and alpha 1, nothing else changes |
| RefRendering.TreeSegments | refRenderer.cpp:177-199 | the segments drawTree hands to drawLine: those of the stackless walk from the tree's own pose |
| RefRendering.SegmentPixels | refRenderer.cpp:185-187 | the pixels of a segment's line all lie on the image |
| RefRendering.DrawSegments | refRenderer.cpp:183-188 | drawing lines keeps the size of the image |
| RefRendering.DrawForest | refRenderer.cpp:205-207 | drawing trees keeps the size of the image |
| RefRendering.DrawForestPrefix | refRenderer.cpp:205-207 | drawing trees 0 .. i is drawing trees 0 .. i-1, then tree i |
| RefRendering.CoversWitness | refRenderer.cpp:183-188 | when some line of a tree covers a pixel, one of its segments' lines names it |
| RefRendering.CoversFrom | refRenderer.cpp:183-188 | a segment whose line passes through a pixel makes the tree cover it |
| RefRendering.DrawSegmentsAt | refRenderer.cpp:183-188 | after drawing a tree, a sample holds its colour channel (alpha 1) exactly where one of its lines passes, the old value elsewhere |
| RefRendering.DrawForestAt | refRenderer.cpp:205-207 | after rendering, a sample holds the colour of the last tree through its pixel, or its old value if none passes |
| RefRendering.TreeLineCount | refRenderer.cpp:183-188 | drawTree draws one line per F of the instructions |
| RefRendering.TreeMatchesLines | refRenderer.cpp:183-192 | on bracket-free instructions drawTree draws exactly the segments getLines computes |
| RefRendering.DrawingStep | refRenderer.cpp:151-174 | each turn of the loop plots an in-bounds pixel and either stops with the whole line drawn or moves closer to the end point |
| RefRendering.DrawingStart | refRenderer.cpp:140-148 | the loop starts at the clamped start with error dx + dy and the whole line left to plot |
| RefRendering.RefRenderer.constructor | refRenderer.cpp:11-18 | no image, no trees, zero trees |
| RefRendering.RefRenderer.GetImage | refRenderer.cpp:31 | returns the current image |
| RefRendering.RefRenderer.AllocOutputImage | refRenderer.cpp:41-45 | the image is replaced by a fresh width x height one |
| RefRendering.RefRenderer.ClearImage | refRenderer.cpp:51-53 | every sample becomes 1 (opaque white) |
| RefRendering.RefRenderer.LoadTrees | refRenderer.cpp:55-58 | stores the tree array and count, copying nothing |
| RefRendering.RefRenderer.Loaded | refRenderer.cpp:203-207 | the trees render visits: the first numberOfTrees of the loaded array, none when the count is not positive |
| RefRendering.RefRenderer.DrawLine | refRenderer.cpp:138-175 | the image afterwards is the old one with the Bresenham walk between the clamped endpoints plotted in the tree's colour |
| RefRendering.RefRenderer.DrawTree | refRenderer.cpp:177-199 | the image afterwards is the old one with one line per F of the stackless walk drawn in order |
| RefRendering.RefRenderer.Render | refRenderer.cpp:203-245 | the image afterwards is the old one with the first numberOfTrees trees drawn in index order |

## Left out

- display.cpp and main.cpp are not part of this model. They hold the window, event handling, timing, option parsing and random placement, all of it I/O.
- cudaRenderer.h, ompRenderer.h and treeRenderer.h declare renderers with no implementation here, so there is no concurrency to model.
- `setup` (refRenderer.cpp:33-35), `advanceAnimation` (refRenderer.cpp:64-66), `lookupColor` (refRenderer.cpp:68-87) and `shadePixel` (refRenderer.cpp:95-136) are left out. They do nothing here, or are never called by `render`. The `position` and `color` arrays are never allocated.
- The destructor (refRenderer.cpp:20-29) and the `delete` in `allocOutputImage` are memory management, which Dafny does not have.
- image.h and util.h are not part of this model. Three things are assumed:
  - `Image` stores `4 * width * height` floats, row by row, pixel (x, y) at `4 * (y * width + x)`. This follows the indexing of refRenderer.cpp:153.
  - `Image::clear` sets the four channels of every pixel.
  - `CLAMP(v, lo, hi)` is `max(lo, min(v, hi))`.
- RefRendering.RefRenderer.AllocOutputImage and RefRendering.Image.constructor require non-negative sizes, because the `Image` constructor is not shown.
- Floating point is modelled as `real`. `cos` and `sin` are parameters rather than the C library functions. Rounding of float arithmetic is not modelled.
- RefRendering.RefRenderer.DrawLine takes the already scaled and truncated coordinates. `drawTree` passes `ToPixel(v, extent)`, the truncation of `v * extent`, and `drawLine` does the `- 1` and the clamp.
- RefRendering.RefRenderer.DrawLine and RefRendering.RefRenderer.DrawTree require a non-empty image. On an empty image the clamp range is empty and the write falls outside the buffer.
- RefRendering.RefRenderer.Render requires that a positive `numberOfTrees` comes with an array at least that long, because the source reads `trees[treeIndex]` unchecked.
- LSystems.FernNumLines requires 1 <= d <= 15. `1 << (d - 1)` is undefined for d = 0, and the 32-bit product overflows from d = 16 on.
- 32-bit `int` overflow is not modelled elsewhere. Counts, offsets and pixel indices are unbounded integers.
- LSystems.LSystem.GetLines requires instructions that never close an unopened bracket. `std::stack::top` on an empty stack is undefined; `Turtle.RunDefinedIff` shows this is exactly when the walk is defined.
- `drawLine` and `drawTree` take `LSystem` by value. The model passes a reference and reads only fields the call does not change.
- drawTree and render are modelled against the `LSystem` of lsystem.cpp, which has `instructions` and `rotation`. refRenderer.h includes generation_class.cpp, whose `LSystem` has no `instructions`, and its `rotation` is private, so drawTree could read neither.
- lsystem.cpp's `update_par` (lsystem.cpp:30-64) is left out. Its exclusive scan is commented out, so every offset is 0, and `generate` never calls it. The scatter expander is modelled on its generation_class.cpp form, which does run the scan.
- generation_class.cpp's `main` is left out: it calls a three-argument constructor that does not exist.
- The `cout` output of generation.cpp's `generate` is returned as the list of printed generations instead.
- GenerationClass.LSystem.UpdatePar requires a non-empty input. It reads `output_sums.back()` and `output_sizes.back()` (generation_class.cpp:47), which are undefined on an empty vector.
- LSystems.LSystem.Blank leaves the pose, length, colour and rotation unspecified, because the C++ default constructor leaves them uninitialised.
