# Swiss grid generator: a Dafny model of its core

This project models the core of a generative-design web application. The application
lays out tiles on a grid, one per cell. It shapes each tile from a trigonometric noise
field, a seeded pseudo-random generator and the styling rule of one of 101 generative
modes. Five "slots" of such designs live in one store. The preview shows them as a
collage: the active slot large on the left, the others stacked on the right.

The modules follow the source files:

- `Types` (`types.dfy`) covers `types.ts`: the `GenerativeMode` enum in declaration
  order, with each member's value and index; `TileShape`; and the records `GridPoint`,
  `SlotSettings` and `DesignConfig`. One lemma per member (`Types.Member_HALFTONE` and
  so on) records that member's index and value; the round-trip lemmas are built on them.
- `JsMath` (`arith.dfy`) covers the JavaScript arithmetic the code relies on:
  `Math.max`, `Math.min`, `Math.abs`, and `%`, which truncates toward zero.
- `Noise` (`noise.dfy`) covers `utils/noise.ts`: the linear congruential generator
  `Random`, a class whose one field is the seed, plus `lerp` and `fade`.
- `Generator` (`generator.dfy`) covers `hooks/useGenerator.ts`: `getNoise` and
  `generatePoints`.
  - `GenerateWithPlan` is the imperative double loop. It is proved equal to the pure
    row-major scan `Run`, which threads the generator state from cell to cell.
  - The mode's styling rule is a `Branch`. `SelectBranchAsWritten` picks it the way the
    source's tiered `switch` statements do. `SelectBranch` picks it the way the cases
    are evidently meant to work (see Findings).
  - `GeneratePoints` is generatePoints as written: the loop under the rule
    `SelectBranchAsWritten` picks. `GeneratePointsIntended` is the same loop under
    `SelectBranch`.
- `Store` (`store.dfy`) covers `store.ts`: the default slot, the initial state, and
  every action.
  - Each action is a pure transition on `DesignConfig`.
  - The class `DesignStore` holds the store's fields. Each of its methods is proved to
    perform that action's transition.
- `Collage` (`collage.dfy`) covers `components/CanvasPreview.tsx`: the collage layout,
  the export dimensions and the draw-visibility test.
- `ModeDefs` (`modedefs.dfy`) covers `components/Sidebar.tsx`: the mode menu entries
  (label and icon) and the lookup that turns the AI's font suggestion into a CSS
  font-family value.

Numbers are exact: JavaScript numbers become `int` where the code only computes
integers (seeds, counts, indices) and `real` elsewhere. `Math.sin`, `Math.cos`,
`Math.sqrt`, `Math.atan2` and `Math.PI` are the fields of a `MathLib` parameter. The
model knows only their ranges.

## Model

| member | source | states |
|---|---|---|
| Types.Index | types.ts:3-26 | every mode has a declaration index below 101, its position in `Object.values(GenerativeMode)` |
| Types.FromName | types.ts:3-26 | a string resolves to a mode only if it is exactly that mode's value |
| Types.RoundTrip | types.ts:3-26 | `ModeAt` undoes `Index` (the member at a member's declaration index is that member), and every member's value string resolves back to the member |
| Types.IndexOfModeAt | types.ts:3-26 | `Index` undoes `ModeAt`: the declaration indices are exactly 0 .. 100 |
| Types.IndexInjective | types.ts:3-26 | distinct members have distinct declaration indices |
| Types.NameInjective | types.ts:3-26 | distinct members have distinct value strings |
| Types.AllModesListsEachOnce | types.ts:3-26 | `Object.values(GenerativeMode)` has 101 entries and lists each member exactly once, at its declaration index |
| Types.FromNameIff | types.ts:3-26 | a string resolves to a member exactly when it is that member's value string |
| JsMath.Max | hooks/useGenerator.ts:127 | the result is at least both arguments and is one of them |
| JsMath.Min | hooks/useGenerator.ts:41 | the result is at most both arguments and is one of them |
| JsMath.Abs | hooks/useGenerator.ts:122 | the result is non-negative and is the argument or its negation |
| JsMath.JsRem | hooks/useGenerator.ts:24 | JavaScript `%` with a positive divisor equals the Euclidean remainder for a non-negative dividend; for a negative one it is that remainder minus the divisor, or 0; its sign follows the dividend |
| JsMath.FloatRem | hooks/useGenerator.ts:66 | the real remainder `x % m` takes the sign of x |
| Noise.NextState | utils/noise.ts:11 | one LCG step from a non-negative state is `(s * 1664525 + 1013904223) mod 2^32` and lies in [0, 2^32); from a negative product it lies in (-2^32, 0] |
| Noise.Draw | utils/noise.ts:12 | a state in [0, 2^32) draws a value in [0, 1); a draw is negative exactly when the state is; a state of magnitude below 2^32 draws a value in (-1, 1) |
| Noise.Draws | utils/noise.ts:10-13 | n calls of `next()` yield n values, and call i + 1 returns the draw of the state after i + 1 steps |
| Noise.StateStaysInRange | utils/noise.ts:10-13 | a state starting in [0, 2^32) stays there after any number of draws |
| Noise.DrawsInUnitInterval | utils/noise.ts:10-13 | every one of n successive draws from a state in [0, 2^32) is in [0, 1) |
| Noise.Seed42FirstDraw | utils/noise.ts:10-13 | from seed 42 the first state is 1083814273, so the first draw is 1083814273 / 2^32 |
| Noise.NegativeSeedFirstDraw | utils/noise.ts:10-13 | a negative seed (-1000) gives a negative state and a negative draw, because `%` truncates |
| Noise.Random.constructor | utils/noise.ts:5-7 | the new generator's state is the seed |
| Noise.Random.Next | utils/noise.ts:10-13 | advances the state by one LCG step and returns the new state over 2^32 |
| Noise.Random.NextFloat | utils/noise.ts:15-17 | one step; the result is min plus the draw times (max - min) |
| Noise.Random.NextInt | utils/noise.ts:19-21 | one step; the result is the floor of NextFloat's value |
| Noise.NextFloatInRange | utils/noise.ts:15-17 | from a non-negative state with min < max, `nextFloat` lands in [min, max) |
| Noise.NextIntInRange | utils/noise.ts:19-21 | from a non-negative state with integers min < max, `nextInt` lands in min .. max - 1 |
| Noise.TwinGenerators | utils/noise.ts:2-22 | two generators built from one seed and drawn in turn n times return the same n values, the seed's sequence `Draws(seed, n)`: each instance owns its state |
| Noise.Lerp | utils/noise.ts:25-27 | t = 0 gives a and t = 1 gives b |
| Noise.Fade | utils/noise.ts:29-31 | fade(0) = 0 and fade(1) = 1 |
| Noise.FadeShape | utils/noise.ts:29-31 | on [0, 1] fade stays in [0, 1] and is point-symmetric: fade(1 - t) = 1 - fade(t) |
| Generator.SafeCount | hooks/useGenerator.ts:14-15 | the safe row/column count is at least 1 and at least the requested count; it equals a positive request and is 1 for a request below 1 |
| Generator.IndexOf | hooks/useGenerator.ts:20 | the mode index is in -1 .. 100; it is -1 exactly when the name is not a mode, and otherwise the mode's declaration index, at which `Object.values` holds that mode |
| Generator.CustomFreq | hooks/useGenerator.ts:24 | the frequency is shifted by at most 9 either way; by `idx % 10` for a mode index, and by -1 for the unknown index -1 |
| Generator.GetNoise | hooks/useGenerator.ts:22-29 | the noise value is in [0, 1] for every seed, mode index, position and frequency |
| Generator.SelectBranchFollowsCases | hooks/useGenerator.ts:49-124 | intended dispatch: a mode with its own `case` gets it; any other mode gets its index tier's `default`; an unknown name gets the base default |
| Generator.SelectBranchAsWritten | hooks/useGenerator.ts:49-124 | as written, the rule always comes from the switch of the tier the mode index falls in: the base one below 10, the geometric one below 30, the organic one below 60, the digital one above |
| Generator.UnreachableCasesAsWritten | hooks/useGenerator.ts:49-124 | as written, GLITCH, STRIPES, BRUTALIST, FLOW, MATRIX, DNA and AURORA get their tier's default, which differs from their own case |
| Generator.AsWrittenAgreesOnOthers | hooks/useGenerator.ts:49-124 | as written, every other mode and every unknown name gets the intended rule |
| Generator.AsWrittenSelection | hooks/useGenerator.ts:49-124 | the written and intended dispatches differ exactly on the seven unreachable modes |
| Generator.StripesAsWritten | hooks/useGenerator.ts:73-76 | the name "STRIPES" gets the base default as written, but the stripes rule as intended |
| Generator.AsWrittenNeverDrawsOrDisplaces | hooks/useGenerator.ts:100-124 | as written, no name reaches a rule that calls `rng.next()` or moves a tile off its cell centre |
| Generator.UnknownModeSelection | hooks/useGenerator.ts:20-24 | an unknown name has index -1, gets the base default, and shifts getNoise's frequency by -1 (from 4 to 3) |
| Generator.SampleAt | hooks/useGenerator.ts:35-46 | the sampled noise is in [0, 1]; the normalised position is the cell centre `(c + 0.5) / cols`, `(r + 0.5) / rows` |
| Generator.FrameAt | hooks/useGenerator.ts:35-43 | each cell's starting frame carries a noise value in [0, 1] |
| Generator.BaseSize | hooks/useGenerator.ts:41 | with a gap between 0 and the shorter cell side and a non-negative scale, the base size is between 0 and that side times the scale |
| Generator.Shade | hooks/useGenerator.ts:49-124 | a rule that does not draw gives the rule's shape, rotation 0 for the non-rotating rules, and the frame centre for the rules that do not move tiles |
| Generator.Emit | hooks/useGenerator.ts:127 | an emitted size is never negative: it is the computed size, or 0 when that was negative; position, rotation and shape pass through |
| Generator.PlanOfName | hooks/useGenerator.ts:20-124 | a call with a mode's value string is planned with that mode's declaration index and the rule the mode selects, as written and as intended |
| Generator.Cell | hooks/useGenerator.ts:35-127 | per tile: size is never negative; the shape is the rule's; rules that never rotate give rotation 0; rules that do not draw leave the generator alone; MATRIX draws once; GLITCH draws once or three times; non-moving rules place the tile at the frame centre |
| Generator.Scan | hooks/useGenerator.ts:33-34 | a row-major walk of k cells emits exactly k tiles |
| Generator.ScanPrefix | hooks/useGenerator.ts:33-34 | tiles are appended, never rewritten: the first k tiles of a longer walk are those of the walk of k cells |
| Generator.ScanAt | hooks/useGenerator.ts:33-34 | the tile at index `r * cols + c` is the one computed at row r, column c, from the generator state reached there |
| Generator.Run | hooks/useGenerator.ts:33-127 | a run over k cells yields k tiles |
| Generator.Generated | hooks/useGenerator.ts:5-131 | with the intended dispatch, one tile per cell of the safe grid, none of negative size |
| Generator.GeneratedAsWritten | hooks/useGenerator.ts:5-131 | as written, one tile per cell of the safe grid, none of negative size |
| Generator.CellStep | hooks/useGenerator.ts:35-127 | computing one tile against the live generator gives the tile and the generator state that `Cell` specifies |
| Generator.GenerateWithPlan | hooks/useGenerator.ts:11-131 | the double loop, rows outer and columns inner, drawing from one generator seeded with `config.seed`, returns exactly the row-major run of the plan over the safe grid |
| Generator.GeneratePoints | hooks/useGenerator.ts:5-131 | generatePoints as written returns the as-written run: one tile per cell of the safe grid, each with a non-negative size |
| Generator.GeneratePointsIntended | hooks/useGenerator.ts:5-131 | with the intended dispatch, the loop returns the intended run: one tile per cell, each with a non-negative size |
| Generator.RunInvariants | hooks/useGenerator.ts:33-127 | every tile of a run has a non-negative size and the rule's shape; a non-rotating rule leaves every rotation 0; a non-drawing rule leaves the generator in its seeded state |
| Generator.PointAt | hooks/useGenerator.ts:33-127 | for a rule that does not draw, the tile at (r, c) of a full run is that cell's tile computed on its own |
| Generator.CentredTiles | hooks/useGenerator.ts:40 | for a rule that neither draws nor moves tiles, each tile sits at its cell centre on the canvas |
| Generator.TilesAtCellCentres | hooks/useGenerator.ts:5-131 | with the intended dispatch, every mode except FLOW, DNA, AURORA and GLITCH (and MATRIX, which draws) puts each tile at the centre of its cell |
| Generator.AsWrittenUndisturbed | hooks/useGenerator.ts:5-131 | as written, whatever the mode, the generator is never advanced and every tile sits at its cell centre |
| Generator.AsWrittenAgreesElsewhere | hooks/useGenerator.ts:5-131 | for every reachable mode and every unknown name, the written code and the intended dispatch give identical tile lists |
| Generator.AsWrittenBranchShape | hooks/useGenerator.ts:49-124 | as written, the selected rule forces a shape only for HALFTONE (square) and ISOMETRIC (triangle) |
| Generator.AsWrittenShapes | hooks/useGenerator.ts:43-76 | as written, every tile has the configured shape, except that HALFTONE's are squares and ISOMETRIC's triangles |
| Generator.OrganicTierKeepsRotation | hooks/useGenerator.ts:81-99 | as written, every mode with index 30 to 59 gets a rule of the organic switch, and every rule of that switch keeps rotation 0 |
| Generator.AsWrittenOrganicTierUnrotated | hooks/useGenerator.ts:81-99 | as written, every mode with index 30 to 59 lays every tile with rotation 0 |
| Generator.CellIgnoresCanvas | hooks/useGenerator.ts:35-124 | a cell's rotation, shape and generator use do not depend on the canvas size, gap or scale |
| Generator.RotationIgnoresCanvas | hooks/useGenerator.ts:33-127 | across a whole run, the canvas size, gap and scale change no rotation, no shape and no generator state |
| Store.CreateDefaultSlot | store.ts:27-43 | a default slot has the given mode, seed and colours, the text colour equal to the foreground, a 50 x 50 grid with gap 2 and scale 1, text "GRID" at (5, 5), size 60, rotation 0, and the Space Grotesk font |
| Store.InitialState | store.ts:45-62 | the initial state has five slots, active slot 0, a 1200 x 1200 canvas, triangle tiles, grid and typography shown, grain 0.15, not loading, opaque export |
| Store.InitialSlots | store.ts:46-52 | the five initial slots hold HALFTONE, WAVE, GLITCH, BRUTALIST and KINETIC with seeds 42, 142, 242, 342, 442, each otherwise a default slot |
| Store.WithActiveSlot | store.ts:70-72 | writing a slot at the active index changes that entry and nothing else |
| Store.AfterSetMode | store.ts:69-73 | only the active slot changes; its mode becomes the given one and its other fields are untouched |
| Store.AfterSetCols | store.ts:75-79 | only the active slot changes; its column count becomes the given one, unvalidated, and its other fields are untouched |
| Store.AfterSetRows | store.ts:80-84 | only the active slot changes; its row count becomes the given one and its other fields are untouched |
| Store.AfterSetGap | store.ts:85-89 | only the active slot changes; its gap becomes the given one and its other fields are untouched |
| Store.AfterSetScale | store.ts:90-94 | only the active slot changes; its scale becomes the given one and its other fields are untouched |
| Store.AfterSetSeed | store.ts:95-99 | only the active slot changes; its seed becomes the given one and its other fields are untouched |
| Store.AfterSetColors | store.ts:100-104 | only the active slot changes; its background and foreground become the given ones and its other fields (including the text colour) are untouched |
| Store.SpreadField | store.ts:116-120 | spreading a patch over a slot sets every field the patch carries and keeps every field it does not |
| Store.SpreadFields | store.ts:116-120 | the same for all fields at once |
| Store.TextOnly | store.ts:18 | a text-settings patch can carry only the seven text fields |
| Store.AfterUpdateFromAi | store.ts:116-120 | only the active slot changes; the fields the AI patch carries take its values and all others are kept |
| Store.AfterUpdateTextSettings | store.ts:108-112 | only the active slot changes; the text fields in the patch take its values, every field the patch does not carry is kept, and so is every non-text field |
| Store.SpreadIdempotent | store.ts:116-120 | spreading the same patch twice is spreading it once |
| Store.UpdateFromAiIdempotent | store.ts:116-120 | applying the same AI suggestion twice is applying it once |
| Store.EmptyPatchIsIdentity | store.ts:116-120 | an empty AI suggestion leaves the state unchanged |
| Store.ConfigExtensionality | store.ts:69-120 | a state equals another that differs at most in the active slot when that slot is equal too |
| Store.SettersArePatches | store.ts:69-112 | each per-slot setter, and updateTextSettings, is updateFromAi with a patch carrying just its fields |
| Store.LastWriteWins | store.ts:69-99 | setting mode, cols, rows or seed twice leaves only the last value |
| Store.AfterSetActiveSlot | store.ts:74 | only the active index changes, to the given value, unvalidated; the new index is usable exactly when it is within the slot list |
| Store.AfterSetCanvasSize | store.ts:105 | the canvas width and height become the given ones; slots and every other global field are untouched |
| Store.AfterSetTileShape | store.ts:106 | the tile shape becomes the given one; nothing else changes |
| Store.AfterSetTypography | store.ts:107 | the typography switch becomes the given value; nothing else changes |
| Store.AfterSetGrain | store.ts:113 | the grain intensity becomes the given value; nothing else changes |
| Store.AfterSetAiLoading | store.ts:114 | the loading flag becomes the given value; nothing else changes |
| Store.AfterSetExportTransparent | store.ts:115 | the transparent-export switch becomes the given value; nothing else changes |
| Store.AfterToggleGrid | store.ts:121 | the grid switch flips; nothing else changes |
| Store.ToggleGridTwice | store.ts:121 | toggling the grid twice restores the state |
| Store.AfterReset | store.ts:122-125 | after reset: five slots, active slot 0, a 1200 x 1200 triangle canvas |
| Store.ResetForgets | store.ts:122-125 | every state resets to the initial state, and resetting twice is resetting once |
| Store.SwitchThenEdit | store.ts:74-99 | after selecting slot i, setting the seed changes slot i and leaves every other slot as it was |
| Store.DesignStore.constructor | store.ts:64-67 | a new store holds the initial state |
| Store.DesignStore.SetMode | store.ts:69-73 | the store's new state is the setMode transition of its old state |
| Store.DesignStore.SetActiveSlot | store.ts:74 | the store's new state is the setActiveSlot transition of its old state |
| Store.DesignStore.SetCols | store.ts:75-79 | the store's new state is the setCols transition of its old state |
| Store.DesignStore.SetRows | store.ts:80-84 | the store's new state is the setRows transition of its old state |
| Store.DesignStore.SetGap | store.ts:85-89 | the store's new state is the setGap transition of its old state |
| Store.DesignStore.SetScale | store.ts:90-94 | the store's new state is the setScale transition of its old state |
| Store.DesignStore.SetSeed | store.ts:95-99 | the store's new state is the setSeed transition of its old state |
| Store.DesignStore.SetColors | store.ts:100-104 | the store's new state is the setColors transition of its old state |
| Store.DesignStore.SetCanvasSize | store.ts:105 | the store's new state is the setCanvasSize transition of its old state |
| Store.DesignStore.SetTileShape | store.ts:106 | the store's new state is the setTileShape transition of its old state |
| Store.DesignStore.SetTypography | store.ts:107 | the store's new state is the setTypography transition of its old state |
| Store.DesignStore.UpdateTextSettings | store.ts:108-112 | the store's new state is the updateTextSettings transition of its old state |
| Store.DesignStore.SetGrain | store.ts:113 | the store's new state is the setGrain transition of its old state |
| Store.DesignStore.SetAiLoading | store.ts:114 | the store's new state is the setAiLoading transition of its old state |
| Store.DesignStore.SetExportTransparent | store.ts:115 | the store's new state is the setExportTransparent transition of its old state |
| Store.DesignStore.UpdateFromAi | store.ts:116-120 | the store's new state is the updateFromAi transition of its old state |
| Store.DesignStore.ToggleGrid | store.ts:121 | the store's new state is the toggleGrid transition of its old state |
| Store.DesignStore.Reset | store.ts:122-125 | the store's new state is the initial state |
| Collage.Without | components/CanvasPreview.tsx:18 | filtering a value out never lengthens the list |
| Collage.WithoutAbsent | components/CanvasPreview.tsx:18 | filtering out a value the list does not hold keeps the list |
| Collage.WithoutOnce | components/CanvasPreview.tsx:18 | filtering out a value the list holds once removes exactly that position |
| Collage.OthersOfActive | components/CanvasPreview.tsx:18 | with slot a in 0..4 active, the side slots are 0..4 without a, ascending; with any other index they are all five |
| Collage.Layout | components/CanvasPreview.tsx:11-26 | the layout has one main panel plus one panel per other slot |
| Collage.CollageLayout | components/CanvasPreview.tsx:11-26 | pushing the main panel and then one side panel per other slot builds the specified layout |
| Collage.Shown | components/CanvasPreview.tsx:11-26 | the list of slots shown has one entry per panel |
| Collage.ShownLayout | components/CanvasPreview.tsx:20-23 | the panels show the active slot, then the other slots in order |
| Collage.MoveToFront | components/CanvasPreview.tsx:18-20 | moving one element of a list to its front keeps the same multiset |
| Collage.OthersPermutation | components/CanvasPreview.tsx:18-20 | the active slot followed by the others is a permutation of 0..4 |
| Collage.LayoutOfActive | components/CanvasPreview.tsx:11-26 | with slot a in 0..4 active: five panels; the main one is slot a at the origin, 70% wide and full height; the side panels show the other slots ascending; every slot appears exactly once |
| Collage.LayoutOfOutOfRange | components/CanvasPreview.tsx:11-26 | with an active index outside 0..4: six panels, all five slots on the side, the last starting at the canvas's bottom edge |
| Collage.LayoutTiles | components/CanvasPreview.tsx:13-22 | the main panel sits at the origin at full height; every side panel starts where it ends; the main and side widths add up to the canvas width |
| Collage.LayoutStacks | components/CanvasPreview.tsx:15-22 | side panels stack without gaps from y = 0; with slot 0..4 active, the last ends at the canvas height |
| Collage.SideStack | components/CanvasPreview.tsx:22 | each side panel starts where the previous one ends |
| Collage.Find | components/CanvasPreview.tsx:158 | `find` returns a panel of the list showing the slot, and returns nothing exactly when no panel shows it |
| Collage.ExportSize | components/CanvasPreview.tsx:148-161 | the master export is four times the canvas; a slot export exists exactly when a panel shows the slot |
| Collage.ExportTransparent | components/CanvasPreview.tsx:151 | an export is transparent exactly when the switch is on and a single slot is exported |
| Collage.ExportActiveSlot | components/CanvasPreview.tsx:148-161 | exporting the active slot gives 2.8 times the canvas width by 4 times its height |
| Collage.SidePanel | components/CanvasPreview.tsx:18-23 | side panel j shows slot j - 1 below the active slot and j from it on, in position j - 1 |
| Collage.ExportSideSlot | components/CanvasPreview.tsx:148-161 | exporting any other slot of 0..4 gives 1.2 times the canvas width by its full height |
| Collage.ExportOfSidePanel | components/CanvasPreview.tsx:148-161 | a slot whose panel is a side panel exports at 1.2 times the width by the full height |
| Collage.ExportMissingSlot | components/CanvasPreview.tsx:158-160 | exporting an index outside 0..4 finds no panel and fails |
| Collage.FindFirst | components/CanvasPreview.tsx:158 | `find` returns the first panel showing the slot |
| Collage.ClampInvisible | components/CanvasPreview.tsx:42 | clamping a size at 0 never changes whether a tile is drawn, and a drawn tile has a positive size |
| ModeDefs.ContainsIff | components/Sidebar.tsx:13-21 | `includes` holds exactly when the word occurs at some position of the value |
| ModeDefs.IconAfterLastMatch | components/Sidebar.tsx:12-21 | after the first n rules, the icon is Box when none fires and otherwise the icon of the last rule that fires |
| ModeDefs.Rule | components/Sidebar.tsx:13-21 | no rule selects Box: Box is only the starting icon |
| ModeDefs.IconOf | components/Sidebar.tsx:12-21 | an entry's icon is Box when no rule fires and otherwise the icon of the last rule that fires |
| ModeDefs.IconFor | components/Sidebar.tsx:12-21 | running the chain of `if`s from Box gives the specified icon |
| ModeDefs.LastFiringExists | components/Sidebar.tsx:13-21 | if some rule fires, a last firing rule exists at or after it |
| ModeDefs.RuleIconsDistinct | components/Sidebar.tsx:13-21 | distinct rules select distinct icons |
| ModeDefs.LaterRuleWins | components/Sidebar.tsx:13-21 | once a later rule fires, no earlier rule's icon and not Box survives |
| ModeDefs.MissingCharacter | components/Sidebar.tsx:13-21 | a word with a character the value lacks is not included in it |
| ModeDefs.SilentRules | components/Sidebar.tsx:13-21 | a run of rules stays silent when each of their words has a character the value lacks |
| ModeDefs.RuleFires | components/Sidebar.tsx:13-21 | a rule fires when one of its words occurs in the value |
| ModeDefs.HalftoneIcon | components/Sidebar.tsx:15 | HALFTONE's entry shows Circle |
| ModeDefs.NoStratInCrossHatch | components/Sidebar.tsx:21 | STRAT is not included in "CROSS_HATCH", although each of its letters is |
| ModeDefs.CrossHatchIcon | components/Sidebar.tsx:20-21 | CROSS_HATCH's entry shows Hash |
| ModeDefs.StratifiedIcon | components/Sidebar.tsx:21 | STRATIFIED's entry shows Layers |
| ModeDefs.MatrixIcon | components/Sidebar.tsx:12-21 | MATRIX's entry keeps Box: no rule fires for it |
| ModeDefs.ReplaceChar | components/Sidebar.tsx:23 | replacing a character keeps the length, turns every occurrence of it into the replacement and keeps every other character |
| ModeDefs.Label | components/Sidebar.tsx:23 | a label has the value's length and holds no underscore |
| ModeDefs.LabelShape | components/Sidebar.tsx:23 | a value without spaces is recovered from its label by turning spaces back into underscores |
| ModeDefs.ModeDefsOfAllModes | components/Sidebar.tsx:11-24 | `MODE_DEFS` has 101 entries; the entry at a mode's declaration index has the mode's value as id and its icon; ids are pairwise distinct; no label holds an underscore |
| ModeDefs.FindFont | components/Sidebar.tsx:103 | `find` gives nothing exactly when no font has the name, and otherwise gives the first font with that name |
| ModeDefs.ResolveIn | components/Sidebar.tsx:103-104 | a suggestion matching a font name becomes that first font's value; any other suggestion is kept |
| ModeDefs.ResolveInIdempotent | components/Sidebar.tsx:103-104 | when no value in the list is also a name, resolving twice is resolving once |
| ModeDefs.FontQuoted | components/Sidebar.tsx:26-34 | every `GOOGLE_FONTS` value starts with a quote and no name does |
| ModeDefs.ResolveFont | components/Sidebar.tsx:103-104 | a suggestion matching a `GOOGLE_FONTS` name becomes the first such font's value; any other suggestion is kept |
| ModeDefs.ResolveFontIdempotent | components/Sidebar.tsx:103-104 | resolving a suggestion against `GOOGLE_FONTS` twice is resolving it once |

## Left out

- Floating point: the model computes with exact reals and unbounded integers. Rounding,
  NaN and infinities are not modelled. This includes the `Number.isNaN` half of the
  draw test (components/CanvasPreview.tsx:42) and a division by a zero-width canvas.
- The generator's state is exact. In JavaScript, `seed * 1664525` stays exact while it
  is below 2^53 in magnitude, that is for seeds up to about 5.4e9 in magnitude. Every
  state reached after the first step is below 2^32 in magnitude, so later steps are
  exact too. A seed above about 5.4e9 in magnitude would lose precision in the first
  step; the model does not capture that.
- `Math.sin`, `Math.cos`, `Math.sqrt`, `Math.atan2` and `Math.PI` are parameters known
  only by their ranges. No concrete tile size or rotation is computed. The per-rule
  size and rotation formulas appear in `Generator.Shade` and `Generator.Cell`; only
  their shape, rotation-0, clamping and positioning properties are proved.
- Fractional `cols`/`rows`: the model takes integers. The store does not validate them,
  and the JavaScript loops would run over a fractional bound.
- JsMath.FloatRem: only the sign of the remainder is stated, not the bound |r| < m.
- ModeDefs.IconOf: the icon is characterised generically (the last firing rule wins)
  and evaluated for four values (HALFTONE, CROSS_HATCH, STRATIFIED, MATRIX); the icons
  of the other 97 values are not stated one by one.
- Store.WithActiveSlot: requires the active index to be within the slot list. Out of
  range, JavaScript would write a slot made of the new fields alone past the end of
  the list. The same holds for each of the next eighteen members.
- Store.AfterSetMode: requires the active index within the slot list (see above).
- Store.AfterSetCols: requires the active index within the slot list.
- Store.AfterSetRows: requires the active index within the slot list.
- Store.AfterSetGap: requires the active index within the slot list.
- Store.AfterSetScale: requires the active index within the slot list.
- Store.AfterSetSeed: requires the active index within the slot list.
- Store.AfterSetColors: requires the active index within the slot list.
- Store.AfterUpdateFromAi: requires the active index within the slot list.
- Store.AfterUpdateTextSettings: requires the active index within the slot list.
- Store.DesignStore.SetMode: requires the active index within the slot list.
- Store.DesignStore.SetCols: requires the active index within the slot list.
- Store.DesignStore.SetRows: requires the active index within the slot list.
- Store.DesignStore.SetGap: requires the active index within the slot list.
- Store.DesignStore.SetScale: requires the active index within the slot list.
- Store.DesignStore.SetSeed: requires the active index within the slot list.
- Store.DesignStore.SetColors: requires the active index within the slot list.
- Store.DesignStore.UpdateTextSettings: requires the active index within the slot list.
- Store.DesignStore.UpdateFromAi: requires the active index within the slot list.
- AI patches are records of optional fields. A key present with the value `undefined`,
  and keys that are no field of a slot, are not modelled.
- Persistence: zustand's `persist` middleware, `localStorage` and the key removal in
  `reset` (store.ts:123) are left out; they are I/O.
- Rendering and I/O: canvas drawing, grain, typography, SVG and PNG encoding, the
  download, the Gemini request and `JSON.parse` are left out. Of these files, only the
  parts named above are modelled.
- Collage.ExportSize: the source throws on a slot without a panel; the model returns
  None.

## Findings

| source | as written | input that shows it | evidently intended | confidence | as-written member | corrected member |
|---|---|---|---|---|---|---|
| hooks/useGenerator.ts:49-124 | the index tier (`modeIdx < 10`, `< 30`, `< 60`, rest) is chosen first, and only that tier's `switch` is consulted; GLITCH (6), STRIPES (7), BRUTALIST (9), FLOW (12), MATRIX (59), DNA (71) and AURORA (91) have their `case` in a tier their index never reaches | mode "STRIPES": index 7 selects the base tier, whose `default` rotates by `val * 360`, instead of the stripes rule | each bespoke `case` applies to its own mode; every other mode gets its tier's default | not executed | Generator.UnreachableCasesAsWritten (also Generator.StripesAsWritten, Generator.AsWrittenUndisturbed, Generator.GeneratePoints) | Generator.SelectBranchFollowsCases (used by Generator.PlanOf and Generator.GeneratePointsIntended) |
