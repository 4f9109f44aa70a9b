/** store.ts: the design store. Its state is a DesignConfig record; every action is a
    transition on that record.

    The per-slot actions copy the slot list, overwrite the entry at `activeSlot` with a
    copy of the old entry carrying the new field values, and store the list back. The
    global actions overwrite one or two top-level fields. Nothing validates the values:
    `setCols(-3)` stores -3 and `setActiveSlot(9)` stores 9.

    The pure functions here are the transitions; the class DesignStore holds the store's
    fields and performs each action by updating them, specified by the transition. */
module Store {

  import opened Types

  // ---------------------------------------------------------------------------------
  // Fields, and what it means for a transition to leave them alone

  /** The fields of SlotSettings, for stating which of them an action may change. */
  datatype SlotField =
    | ModeField | ColsField | RowsField | GapField | ScaleField | SeedField
    | BgColorField | FgColorField | TextField | TextXField | TextYField | TextSizeField
    | TextColorField | TextRotationField | FontFamilyField

  /** Slots a and b hold the same value in field f. */
  predicate SameField(a: SlotSettings, b: SlotSettings, f: SlotField)
  {
    match f
    case ModeField => a.mode == b.mode
    case ColsField => a.cols == b.cols
    case RowsField => a.rows == b.rows
    case GapField => a.gap == b.gap
    case ScaleField => a.scale == b.scale
    case SeedField => a.seed == b.seed
    case BgColorField => a.bgColor == b.bgColor
    case FgColorField => a.fgColor == b.fgColor
    case TextField => a.text == b.text
    case TextXField => a.textX == b.textX
    case TextYField => a.textY == b.textY
    case TextSizeField => a.textSize == b.textSize
    case TextColorField => a.textColor == b.textColor
    case TextRotationField => a.textRotation == b.textRotation
    case FontFamilyField => a.fontFamily == b.fontFamily
  }

  /** Two slots that agree on every field are the same slot. */
  lemma SlotExtensionality(a: SlotSettings, b: SlotSettings)
    requires forall f :: SameField(a, b, f)
    ensures a == b
  {
    assert SameField(a, b, ModeField) && SameField(a, b, ColsField) && SameField(a, b, RowsField);
    assert SameField(a, b, GapField) && SameField(a, b, ScaleField) && SameField(a, b, SeedField);
    assert SameField(a, b, BgColorField) && SameField(a, b, FgColorField);
    assert SameField(a, b, TextField) && SameField(a, b, TextXField) && SameField(a, b, TextYField);
    assert SameField(a, b, TextSizeField) && SameField(a, b, TextColorField);
    assert SameField(a, b, TextRotationField) && SameField(a, b, FontFamilyField);
  }

  /** The fields `updateTextSettings` accepts. */
  predicate IsTextField(f: SlotField)
  {
    f in {TextField, TextXField, TextYField, TextSizeField, TextColorField,
          TextRotationField, FontFamilyField}
  }

  /** The top-level fields of DesignConfig other than `slots` and `activeSlot`. */
  datatype GlobalField =
    | CanvasWidthField | CanvasHeightField | TileShapeField | ShowGridField
    | ShowTypographyField | GrainIntensityField | IsAiLoadingField | ExportTransparentField

  /** States c and d hold the same value in global field g. */
  predicate SameGlobal(c: DesignConfig, d: DesignConfig, g: GlobalField)
  {
    match g
    case CanvasWidthField => c.canvasWidth == d.canvasWidth
    case CanvasHeightField => c.canvasHeight == d.canvasHeight
    case TileShapeField => c.tileShape == d.tileShape
    case ShowGridField => c.showGrid == d.showGrid
    case ShowTypographyField => c.showTypography == d.showTypography
    case GrainIntensityField => c.grainIntensity == d.grainIntensity
    case IsAiLoadingField => c.isAiLoading == d.isAiLoading
    case ExportTransparentField => c.exportTransparent == d.exportTransparent
  }

  /** `activeSlot` names an entry of the slot list. */
  predicate ActiveInRange(c: DesignConfig)
  {
    0 <= c.activeSlot < |c.slots|
  }

  /** d differs from c at most in the entry `slots[activeSlot]`: same number of slots,
      same active index, the other slots and every global field unchanged. */
  predicate OnlyActiveSlotChanged(c: DesignConfig, d: DesignConfig)
  {
    && |d.slots| == |c.slots|
    && d.activeSlot == c.activeSlot
    && (forall i :: 0 <= i < |c.slots| && i != c.activeSlot ==> d.slots[i] == c.slots[i])
    && (forall g :: SameGlobal(c, d, g))
  }

  /** d differs from c at most in global fields: the slot list and the active index
      are unchanged. */
  predicate SlotsUnchanged(c: DesignConfig, d: DesignConfig)
  {
    d.slots == c.slots && d.activeSlot == c.activeSlot
  }

  // ---------------------------------------------------------------------------------
  // Defaults

  /** `createDefaultSlot(mode, seed, bg, fg)`: a 50 by 50 grid with gap 2 and scale 1,
      the caption "GRID" at (5, 5) in the foreground colour. */
  function CreateDefaultSlot(mode: GenerativeMode, seed: int, bg: string, fg: string): (s: SlotSettings)
    ensures s.mode == Name(mode) && s.seed == seed
    ensures s.bgColor == bg && s.fgColor == fg && s.textColor == fg
    ensures s.cols == 50 && s.rows == 50 && s.gap == 2.0 && s.scale == 1.0
    ensures s.text == "GRID" && s.textX == 5.0 && s.textY == 5.0
    ensures s.textSize == 60.0 && s.textRotation == 0.0
    ensures s.fontFamily == "'Space Grotesk', sans-serif"
  {
    SlotSettings(Name(mode), 50, 50, 2.0, 1.0, seed, bg, fg, "GRID", 5.0, 5.0, 60.0, fg, 0.0,
                 "'Space Grotesk', sans-serif")
  }

  /** `getInitialState()`: five slots, the first active, a 1200 by 1200 canvas. */
  function InitialState(): (c: DesignConfig)
    ensures |c.slots| == 5 && c.activeSlot == 0 && ActiveInRange(c)
    ensures c.canvasWidth == 1200.0 && c.canvasHeight == 1200.0
    ensures c.tileShape == TRIANGLE
    ensures c.showGrid && c.showTypography && !c.isAiLoading && !c.exportTransparent
    ensures c.grainIntensity == 0.15
  {
    DesignConfig(
      [CreateDefaultSlot(HALFTONE, 42, "#000000", "#FFFFFF"),
       CreateDefaultSlot(WAVE, 142, "#111111", "#00FF00"),
       CreateDefaultSlot(GLITCH, 242, "#050505", "#FF00FF"),
       CreateDefaultSlot(BRUTALIST, 342, "#FFFFFF", "#000000"),
       CreateDefaultSlot(KINETIC, 442, "#0000FF", "#FFFFFF")],
      0, 1200.0, 1200.0, TRIANGLE, true, true, 0.15, false, false)
  }

  /** The initial slots name the modes HALFTONE, WAVE, GLITCH, BRUTALIST and KINETIC
      with seeds 42, 142, 242, 342 and 442, and each is otherwise a default slot. */
  lemma InitialSlots()
    ensures var s := InitialState().slots;
      && FromName(s[0].mode) == Some(HALFTONE) && s[0].seed == 42
      && FromName(s[1].mode) == Some(WAVE) && s[1].seed == 142
      && FromName(s[2].mode) == Some(GLITCH) && s[2].seed == 242
      && FromName(s[3].mode) == Some(BRUTALIST) && s[3].seed == 342
      && FromName(s[4].mode) == Some(KINETIC) && s[4].seed == 442
    ensures forall i :: 0 <= i < 5 ==>
      var s := InitialState().slots[i];
      s.cols == 50 && s.rows == 50 && s.gap == 2.0 && s.scale == 1.0 && s.textColor == s.fgColor
  {
  }

  // ---------------------------------------------------------------------------------
  // Per-slot actions

  /** Writes s over the active slot. */
  function WithActiveSlot(c: DesignConfig, s: SlotSettings): (d: DesignConfig)
    requires ActiveInRange(c)
    ensures OnlyActiveSlotChanged(c, d) && ActiveInRange(d)
    ensures d.slots[c.activeSlot] == s
  {
    c.(slots := c.slots[c.activeSlot := s])
  }

  /** The state after `setMode`. */
  function AfterSetMode(c: DesignConfig, mode: string): (d: DesignConfig)
    requires ActiveInRange(c)
    ensures OnlyActiveSlotChanged(c, d)
    ensures d.slots[c.activeSlot].mode == mode
    ensures forall f :: f != ModeField ==> SameField(c.slots[c.activeSlot], d.slots[c.activeSlot], f)
  {
    WithActiveSlot(c, c.slots[c.activeSlot].(mode := mode))
  }

  /** The state after `setCols`: the value is stored as given, zero and negative counts included. */
  function AfterSetCols(c: DesignConfig, cols: int): (d: DesignConfig)
    requires ActiveInRange(c)
    ensures OnlyActiveSlotChanged(c, d)
    ensures d.slots[c.activeSlot].cols == cols
    ensures forall f :: f != ColsField ==> SameField(c.slots[c.activeSlot], d.slots[c.activeSlot], f)
  {
    WithActiveSlot(c, c.slots[c.activeSlot].(cols := cols))
  }

  /** The state after `setRows`: the value is stored as given, zero and negative counts included. */
  function AfterSetRows(c: DesignConfig, rows: int): (d: DesignConfig)
    requires ActiveInRange(c)
    ensures OnlyActiveSlotChanged(c, d)
    ensures d.slots[c.activeSlot].rows == rows
    ensures forall f :: f != RowsField ==> SameField(c.slots[c.activeSlot], d.slots[c.activeSlot], f)
  {
    WithActiveSlot(c, c.slots[c.activeSlot].(rows := rows))
  }

  /** The state after `setGap`. */
  function AfterSetGap(c: DesignConfig, gap: real): (d: DesignConfig)
    requires ActiveInRange(c)
    ensures OnlyActiveSlotChanged(c, d)
    ensures d.slots[c.activeSlot].gap == gap
    ensures forall f :: f != GapField ==> SameField(c.slots[c.activeSlot], d.slots[c.activeSlot], f)
  {
    WithActiveSlot(c, c.slots[c.activeSlot].(gap := gap))
  }

  /** The state after `setScale`. */
  function AfterSetScale(c: DesignConfig, scale: real): (d: DesignConfig)
    requires ActiveInRange(c)
    ensures OnlyActiveSlotChanged(c, d)
    ensures d.slots[c.activeSlot].scale == scale
    ensures forall f :: f != ScaleField ==> SameField(c.slots[c.activeSlot], d.slots[c.activeSlot], f)
  {
    WithActiveSlot(c, c.slots[c.activeSlot].(scale := scale))
  }

  /** The state after `setSeed`. */
  function AfterSetSeed(c: DesignConfig, seed: int): (d: DesignConfig)
    requires ActiveInRange(c)
    ensures OnlyActiveSlotChanged(c, d)
    ensures d.slots[c.activeSlot].seed == seed
    ensures forall f :: f != SeedField ==> SameField(c.slots[c.activeSlot], d.slots[c.activeSlot], f)
  {
    WithActiveSlot(c, c.slots[c.activeSlot].(seed := seed))
  }

  /** The state after `setColors`: background and foreground together; the caption colour is kept. */
  function AfterSetColors(c: DesignConfig, bg: string, fg: string): (d: DesignConfig)
    requires ActiveInRange(c)
    ensures OnlyActiveSlotChanged(c, d)
    ensures d.slots[c.activeSlot].bgColor == bg && d.slots[c.activeSlot].fgColor == fg
    ensures forall f :: f != BgColorField && f != FgColorField ==>
      SameField(c.slots[c.activeSlot], d.slots[c.activeSlot], f)
  {
    WithActiveSlot(c, c.slots[c.activeSlot].(bgColor := bg, fgColor := fg))
  }

  // ---------------------------------------------------------------------------------
  // Partial updates

  /** A `Partial<SlotSettings>`: a field is present exactly when it is Some. */
  datatype SlotPatch = SlotPatch(
    mode: Option<string>,
    cols: Option<int>,
    rows: Option<int>,
    gap: Option<real>,
    scale: Option<real>,
    seed: Option<int>,
    bgColor: Option<string>,
    fgColor: Option<string>,
    text: Option<string>,
    textX: Option<real>,
    textY: Option<real>,
    textSize: Option<real>,
    textColor: Option<string>,
    textRotation: Option<real>,
    fontFamily: Option<string>)

  /** The settings `updateTextSettings` accepts: the caption fields only. */
  datatype TextPatch = TextPatch(
    text: Option<string>,
    textX: Option<real>,
    textY: Option<real>,
    textSize: Option<real>,
    textColor: Option<string>,
    textRotation: Option<real>,
    fontFamily: Option<string>)

  /** The patch with no field present. */
  const EmptyPatch: SlotPatch :=
    SlotPatch(None, None, None, None, None, None, None, None, None, None, None, None, None, None, None)

  /** Patch p carries field f. */
  predicate Present(p: SlotPatch, f: SlotField)
  {
    match f
    case ModeField => p.mode.Some?
    case ColsField => p.cols.Some?
    case RowsField => p.rows.Some?
    case GapField => p.gap.Some?
    case ScaleField => p.scale.Some?
    case SeedField => p.seed.Some?
    case BgColorField => p.bgColor.Some?
    case FgColorField => p.fgColor.Some?
    case TextField => p.text.Some?
    case TextXField => p.textX.Some?
    case TextYField => p.textY.Some?
    case TextSizeField => p.textSize.Some?
    case TextColorField => p.textColor.Some?
    case TextRotationField => p.textRotation.Some?
    case FontFamilyField => p.fontFamily.Some?
  }

  /** Field f of slot s holds the value patch p carries for it. */
  predicate Carries(p: SlotPatch, s: SlotSettings, f: SlotField)
    requires Present(p, f)
  {
    match f
    case ModeField => s.mode == p.mode.value
    case ColsField => s.cols == p.cols.value
    case RowsField => s.rows == p.rows.value
    case GapField => s.gap == p.gap.value
    case ScaleField => s.scale == p.scale.value
    case SeedField => s.seed == p.seed.value
    case BgColorField => s.bgColor == p.bgColor.value
    case FgColorField => s.fgColor == p.fgColor.value
    case TextField => s.text == p.text.value
    case TextXField => s.textX == p.textX.value
    case TextYField => s.textY == p.textY.value
    case TextSizeField => s.textSize == p.textSize.value
    case TextColorField => s.textColor == p.textColor.value
    case TextRotationField => s.textRotation == p.textRotation.value
    case FontFamilyField => s.fontFamily == p.fontFamily.value
  }

  /** `{ ...s, ...p }`: the fields present in p replace those of s. SpreadFields states
      what it does field by field. */
  function Spread(s: SlotSettings, p: SlotPatch): SlotSettings
  {
    SlotSettings(
      if p.mode.Some? then p.mode.value else s.mode,
      if p.cols.Some? then p.cols.value else s.cols,
      if p.rows.Some? then p.rows.value else s.rows,
      if p.gap.Some? then p.gap.value else s.gap,
      if p.scale.Some? then p.scale.value else s.scale,
      if p.seed.Some? then p.seed.value else s.seed,
      if p.bgColor.Some? then p.bgColor.value else s.bgColor,
      if p.fgColor.Some? then p.fgColor.value else s.fgColor,
      if p.text.Some? then p.text.value else s.text,
      if p.textX.Some? then p.textX.value else s.textX,
      if p.textY.Some? then p.textY.value else s.textY,
      if p.textSize.Some? then p.textSize.value else s.textSize,
      if p.textColor.Some? then p.textColor.value else s.textColor,
      if p.textRotation.Some? then p.textRotation.value else s.textRotation,
      if p.fontFamily.Some? then p.fontFamily.value else s.fontFamily)
  }

  /** Field f of a spread takes the patch's value if the patch carries one and keeps the
      slot's value otherwise. */
  lemma SpreadField(s: SlotSettings, p: SlotPatch, f: SlotField)
    ensures Present(p, f) ==> Carries(p, Spread(s, p), f)
    ensures !Present(p, f) ==> SameField(s, Spread(s, p), f)
  {
  }

  /** A spread overwrites exactly the fields the patch carries. */
  lemma SpreadFields(s: SlotSettings, p: SlotPatch)
    ensures forall f :: Present(p, f) ==> Carries(p, Spread(s, p), f)
    ensures forall f :: !Present(p, f) ==> SameField(s, Spread(s, p), f)
  {
    forall f
      ensures Present(p, f) ==> Carries(p, Spread(s, p), f)
      ensures !Present(p, f) ==> SameField(s, Spread(s, p), f)
    {
      SpreadField(s, p, f);
    }
  }

  /** The caption settings as a slot patch with every other field absent. */
  function TextOnly(t: TextPatch): (p: SlotPatch)
    ensures forall f :: Present(p, f) ==> IsTextField(f)
  {
    EmptyPatch.(text := t.text, textX := t.textX, textY := t.textY, textSize := t.textSize,
                textColor := t.textColor, textRotation := t.textRotation,
                fontFamily := t.fontFamily)
  }

  /** The state after `updateFromAi`: the fields present in the suggestion overwrite those of the active
      slot, every other field keeps its value. */
  function AfterUpdateFromAi(c: DesignConfig, p: SlotPatch): (d: DesignConfig)
    requires ActiveInRange(c)
    ensures OnlyActiveSlotChanged(c, d)
    ensures forall f :: Present(p, f) ==> Carries(p, d.slots[c.activeSlot], f)
    ensures forall f :: !Present(p, f) ==> SameField(c.slots[c.activeSlot], d.slots[c.activeSlot], f)
  {
    SpreadFields(c.slots[c.activeSlot], p);
    WithActiveSlot(c, Spread(c.slots[c.activeSlot], p))
  }

  /** The state after `updateTextSettings`: the caption fields given overwrite those of the active slot;
      the mode, grid, seed and colours are never touched. */
  function AfterUpdateTextSettings(c: DesignConfig, t: TextPatch): (d: DesignConfig)
    requires ActiveInRange(c)
    ensures OnlyActiveSlotChanged(c, d)
    ensures forall f :: Present(TextOnly(t), f) ==> Carries(TextOnly(t), d.slots[c.activeSlot], f)
    ensures forall f :: !Present(TextOnly(t), f) ==> SameField(c.slots[c.activeSlot], d.slots[c.activeSlot], f)
    ensures forall f :: !IsTextField(f) ==> SameField(c.slots[c.activeSlot], d.slots[c.activeSlot], f)
  {
    SpreadFields(c.slots[c.activeSlot], TextOnly(t));
    WithActiveSlot(c, Spread(c.slots[c.activeSlot], TextOnly(t)))
  }

  /** Spreading the same patch twice is spreading it once. */
  lemma SpreadIdempotent(s: SlotSettings, p: SlotPatch)
    ensures Spread(Spread(s, p), p) == Spread(s, p)
  {
  }

  /** Applying the same suggestion twice is the same as applying it once. */
  lemma UpdateFromAiIdempotent(c: DesignConfig, p: SlotPatch)
    requires ActiveInRange(c)
    ensures AfterUpdateFromAi(AfterUpdateFromAi(c, p), p) == AfterUpdateFromAi(c, p)
  {
    var d := AfterUpdateFromAi(c, p);
    SpreadIdempotent(c.slots[c.activeSlot], p);
    ConfigExtensionality(AfterUpdateFromAi(d, p), d);
  }

  /** The empty suggestion changes nothing. */
  lemma EmptyPatchIsIdentity(c: DesignConfig)
    requires ActiveInRange(c)
    ensures AfterUpdateFromAi(c, EmptyPatch) == c
  {
    var d := AfterUpdateFromAi(c, EmptyPatch);
    var a := c.activeSlot;
    assert forall f :: !Present(EmptyPatch, f);
    SlotExtensionality(d.slots[a], c.slots[a]);
    ConfigExtensionality(d, c);
  }

  /** Two states whose slot lists agree entry by entry and whose other fields agree are
      the same state. */
  lemma ConfigExtensionality(c: DesignConfig, d: DesignConfig)
    requires OnlyActiveSlotChanged(c, d)
    requires ActiveInRange(c) ==> d.slots[c.activeSlot] == c.slots[c.activeSlot]
    ensures c == d
  {
    assert d.slots == c.slots;
    assert SameGlobal(c, d, CanvasWidthField) && SameGlobal(c, d, CanvasHeightField);
    assert SameGlobal(c, d, TileShapeField) && SameGlobal(c, d, ShowGridField);
    assert SameGlobal(c, d, ShowTypographyField) && SameGlobal(c, d, GrainIntensityField);
    assert SameGlobal(c, d, IsAiLoadingField) && SameGlobal(c, d, ExportTransparentField);
  }

  /** Each single-field setter is the partial update carrying just that field, and
      `updateTextSettings` is `updateFromAi` restricted to the caption fields. */
  lemma SettersArePatches(c: DesignConfig, mode: string, n: int, x: real, bg: string, fg: string, t: TextPatch)
    requires ActiveInRange(c)
    ensures AfterSetMode(c, mode) == AfterUpdateFromAi(c, EmptyPatch.(mode := Some(mode)))
    ensures AfterSetCols(c, n) == AfterUpdateFromAi(c, EmptyPatch.(cols := Some(n)))
    ensures AfterSetRows(c, n) == AfterUpdateFromAi(c, EmptyPatch.(rows := Some(n)))
    ensures AfterSetGap(c, x) == AfterUpdateFromAi(c, EmptyPatch.(gap := Some(x)))
    ensures AfterSetScale(c, x) == AfterUpdateFromAi(c, EmptyPatch.(scale := Some(x)))
    ensures AfterSetSeed(c, n) == AfterUpdateFromAi(c, EmptyPatch.(seed := Some(n)))
    ensures AfterSetColors(c, bg, fg) == AfterUpdateFromAi(c, EmptyPatch.(bgColor := Some(bg), fgColor := Some(fg)))
    ensures AfterUpdateTextSettings(c, t) == AfterUpdateFromAi(c, TextOnly(t))
  {
  }

  /** Setting the same field twice keeps only the second value. */
  lemma LastWriteWins(c: DesignConfig, m1: string, m2: string, n1: int, n2: int)
    requires ActiveInRange(c)
    ensures AfterSetMode(AfterSetMode(c, m1), m2) == AfterSetMode(c, m2)
    ensures AfterSetCols(AfterSetCols(c, n1), n2) == AfterSetCols(c, n2)
    ensures AfterSetRows(AfterSetRows(c, n1), n2) == AfterSetRows(c, n2)
    ensures AfterSetSeed(AfterSetSeed(c, n1), n2) == AfterSetSeed(c, n2)
  {
    assert AfterSetMode(AfterSetMode(c, m1), m2).slots == AfterSetMode(c, m2).slots;
    assert AfterSetCols(AfterSetCols(c, n1), n2).slots == AfterSetCols(c, n2).slots;
    assert AfterSetRows(AfterSetRows(c, n1), n2).slots == AfterSetRows(c, n2).slots;
    assert AfterSetSeed(AfterSetSeed(c, n1), n2).slots == AfterSetSeed(c, n2).slots;
  }

  // ---------------------------------------------------------------------------------
  // Global actions

  /** The state after `setActiveSlot`: stored without a range check. */
  function AfterSetActiveSlot(c: DesignConfig, index: int): (d: DesignConfig)
    ensures d.activeSlot == index && d.slots == c.slots
    ensures forall g :: SameGlobal(c, d, g)
    ensures ActiveInRange(d) <==> 0 <= index < |c.slots|
  {
    c.(activeSlot := index)
  }

  /** The state after `setCanvasSize`. */
  function AfterSetCanvasSize(c: DesignConfig, w: real, h: real): (d: DesignConfig)
    ensures SlotsUnchanged(c, d)
    ensures d.canvasWidth == w && d.canvasHeight == h
    ensures forall g :: g != CanvasWidthField && g != CanvasHeightField ==> SameGlobal(c, d, g)
  {
    c.(canvasWidth := w, canvasHeight := h)
  }

  /** The state after `setTileShape`. */
  function AfterSetTileShape(c: DesignConfig, shape: TileShape): (d: DesignConfig)
    ensures SlotsUnchanged(c, d)
    ensures d.tileShape == shape
    ensures forall g :: g != TileShapeField ==> SameGlobal(c, d, g)
  {
    c.(tileShape := shape)
  }

  /** The state after `setTypography`. */
  function AfterSetTypography(c: DesignConfig, show: bool): (d: DesignConfig)
    ensures SlotsUnchanged(c, d)
    ensures d.showTypography == show
    ensures forall g :: g != ShowTypographyField ==> SameGlobal(c, d, g)
  {
    c.(showTypography := show)
  }

  /** The state after `setGrain`. */
  function AfterSetGrain(c: DesignConfig, intensity: real): (d: DesignConfig)
    ensures SlotsUnchanged(c, d)
    ensures d.grainIntensity == intensity
    ensures forall g :: g != GrainIntensityField ==> SameGlobal(c, d, g)
  {
    c.(grainIntensity := intensity)
  }

  /** The state after `setAiLoading`. */
  function AfterSetAiLoading(c: DesignConfig, loading: bool): (d: DesignConfig)
    ensures SlotsUnchanged(c, d)
    ensures d.isAiLoading == loading
    ensures forall g :: g != IsAiLoadingField ==> SameGlobal(c, d, g)
  {
    c.(isAiLoading := loading)
  }

  /** The state after `setExportTransparent`. */
  function AfterSetExportTransparent(c: DesignConfig, transparent: bool): (d: DesignConfig)
    ensures SlotsUnchanged(c, d)
    ensures d.exportTransparent == transparent
    ensures forall g :: g != ExportTransparentField ==> SameGlobal(c, d, g)
  {
    c.(exportTransparent := transparent)
  }

  /** The state after `toggleGrid`: flips `showGrid`. */
  function AfterToggleGrid(c: DesignConfig): (d: DesignConfig)
    ensures SlotsUnchanged(c, d)
    ensures d.showGrid == !c.showGrid
    ensures forall g :: g != ShowGridField ==> SameGlobal(c, d, g)
  {
    c.(showGrid := !c.showGrid)
  }

  /** Toggling the grid twice restores the state. */
  lemma ToggleGridTwice(c: DesignConfig)
    ensures AfterToggleGrid(AfterToggleGrid(c)) == c
  {
  }

  /** The state after `reset`: whatever the state, the result is the initial state. */
  function AfterReset(c: DesignConfig): (d: DesignConfig)
    ensures |d.slots| == 5 && d.activeSlot == 0
    ensures d.canvasWidth == 1200.0 && d.canvasHeight == 1200.0 && d.tileShape == TRIANGLE
  {
    InitialState()
  }

  /** Resetting forgets every earlier action: two states reset to the same state, and
      resetting twice is resetting once. */
  lemma ResetForgets(c: DesignConfig, d: DesignConfig)
    ensures AfterReset(c) == AfterReset(d) == InitialState()
    ensures AfterReset(AfterReset(c)) == AfterReset(c)
  {
  }

  /** A per-slot action after `setActiveSlot(i)` touches slot i and no other. */
  lemma SwitchThenEdit(c: DesignConfig, i: int, seed: int)
    requires 0 <= i < |c.slots|
    ensures var d := AfterSetSeed(AfterSetActiveSlot(c, i), seed);
      && d.slots[i].seed == seed
      && forall j :: 0 <= j < |c.slots| && j != i ==> d.slots[j] == c.slots[j]
  {
  }

  // ---------------------------------------------------------------------------------
  // The store object

  /** The store. Its fields are those of DesignConfig; each action updates them. */
  class DesignStore {
    var slots: seq<SlotSettings>
    var activeSlot: int
    var canvasWidth: real
    var canvasHeight: real
    var tileShape: TileShape
    var showGrid: bool
    var showTypography: bool
    var grainIntensity: real
    var isAiLoading: bool
    var exportTransparent: bool

    /** The store's fields as a DesignConfig record. */
    function Config(): DesignConfig
      reads this
    {
      DesignConfig(slots, activeSlot, canvasWidth, canvasHeight, tileShape, showGrid,
                   showTypography, grainIntensity, isAiLoading, exportTransparent)
    }

    /** A new store starts from `getInitialState()`. */
    constructor ()
      ensures Config() == InitialState()
    {
      var init := InitialState();
      slots := init.slots;
      activeSlot := init.activeSlot;
      canvasWidth := init.canvasWidth;
      canvasHeight := init.canvasHeight;
      tileShape := init.tileShape;
      showGrid := init.showGrid;
      showTypography := init.showTypography;
      grainIntensity := init.grainIntensity;
      isAiLoading := init.isAiLoading;
      exportTransparent := init.exportTransparent;
    }

    method SetMode(mode: string)
      requires 0 <= activeSlot < |slots|
      modifies this
      ensures Config() == AfterSetMode(old(Config()), mode)
    {
      var nextSlots := slots;
      nextSlots := nextSlots[activeSlot := nextSlots[activeSlot].(mode := mode)];
      slots := nextSlots;
    }

    method SetActiveSlot(index: int)
      modifies this
      ensures Config() == AfterSetActiveSlot(old(Config()), index)
    {
      activeSlot := index;
    }

    method SetCols(cols: int)
      requires 0 <= activeSlot < |slots|
      modifies this
      ensures Config() == AfterSetCols(old(Config()), cols)
    {
      var nextSlots := slots;
      nextSlots := nextSlots[activeSlot := nextSlots[activeSlot].(cols := cols)];
      slots := nextSlots;
    }

    method SetRows(rows: int)
      requires 0 <= activeSlot < |slots|
      modifies this
      ensures Config() == AfterSetRows(old(Config()), rows)
    {
      var nextSlots := slots;
      nextSlots := nextSlots[activeSlot := nextSlots[activeSlot].(rows := rows)];
      slots := nextSlots;
    }

    method SetGap(gap: real)
      requires 0 <= activeSlot < |slots|
      modifies this
      ensures Config() == AfterSetGap(old(Config()), gap)
    {
      var nextSlots := slots;
      nextSlots := nextSlots[activeSlot := nextSlots[activeSlot].(gap := gap)];
      slots := nextSlots;
    }

    method SetScale(scale: real)
      requires 0 <= activeSlot < |slots|
      modifies this
      ensures Config() == AfterSetScale(old(Config()), scale)
    {
      var nextSlots := slots;
      nextSlots := nextSlots[activeSlot := nextSlots[activeSlot].(scale := scale)];
      slots := nextSlots;
    }

    method SetSeed(seed: int)
      requires 0 <= activeSlot < |slots|
      modifies this
      ensures Config() == AfterSetSeed(old(Config()), seed)
    {
      var nextSlots := slots;
      nextSlots := nextSlots[activeSlot := nextSlots[activeSlot].(seed := seed)];
      slots := nextSlots;
    }

    method SetColors(bgColor: string, fgColor: string)
      requires 0 <= activeSlot < |slots|
      modifies this
      ensures Config() == AfterSetColors(old(Config()), bgColor, fgColor)
    {
      var nextSlots := slots;
      nextSlots := nextSlots[activeSlot := nextSlots[activeSlot].(bgColor := bgColor, fgColor := fgColor)];
      slots := nextSlots;
    }

    method SetCanvasSize(w: real, h: real)
      modifies this
      ensures Config() == AfterSetCanvasSize(old(Config()), w, h)
    {
      canvasWidth, canvasHeight := w, h;
    }

    method SetTileShape(shape: TileShape)
      modifies this
      ensures Config() == AfterSetTileShape(old(Config()), shape)
    {
      tileShape := shape;
    }

    method SetTypography(show: bool)
      modifies this
      ensures Config() == AfterSetTypography(old(Config()), show)
    {
      showTypography := show;
    }

    method UpdateTextSettings(settings: TextPatch)
      requires 0 <= activeSlot < |slots|
      modifies this
      ensures Config() == AfterUpdateTextSettings(old(Config()), settings)
    {
      var nextSlots := slots;
      nextSlots := nextSlots[activeSlot := Spread(nextSlots[activeSlot], TextOnly(settings))];
      slots := nextSlots;
    }

    method SetGrain(intensity: real)
      modifies this
      ensures Config() == AfterSetGrain(old(Config()), intensity)
    {
      grainIntensity := intensity;
    }

    method SetAiLoading(loading: bool)
      modifies this
      ensures Config() == AfterSetAiLoading(old(Config()), loading)
    {
      isAiLoading := loading;
    }

    method SetExportTransparent(transparent: bool)
      modifies this
      ensures Config() == AfterSetExportTransparent(old(Config()), transparent)
    {
      exportTransparent := transparent;
    }

    method UpdateFromAi(aiConfig: SlotPatch)
      requires 0 <= activeSlot < |slots|
      modifies this
      ensures Config() == AfterUpdateFromAi(old(Config()), aiConfig)
    {
      var nextSlots := slots;
      nextSlots := nextSlots[activeSlot := Spread(nextSlots[activeSlot], aiConfig)];
      slots := nextSlots;
    }

    method ToggleGrid()
      modifies this
      ensures Config() == AfterToggleGrid(old(Config()))
    {
      showGrid := !showGrid;
    }

    /** `reset`; the removal of the persisted copy is not part of this model. */
    method Reset()
      modifies this
      ensures Config() == AfterReset(old(Config()))
    {
      var init := InitialState();
      slots, activeSlot := init.slots, init.activeSlot;
      canvasWidth, canvasHeight := init.canvasWidth, init.canvasHeight;
      tileShape, showGrid, showTypography := init.tileShape, init.showGrid, init.showTypography;
      grainIntensity, isAiLoading, exportTransparent := init.grainIntensity, init.isAiLoading, init.exportTransparent;
    }
  }
}
