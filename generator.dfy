/** hooks/useGenerator.ts: `generatePoints`, which lays one tile per grid cell, row by
    row, and shapes each tile from a noise value, the cell's place on the canvas and the
    mode's styling rule; and `getNoise`, the trigonometric noise it samples.

    Numbers are exact reals and integers. The transcendental functions of `Math` are
    parameters (`MathLib`) that are known only by their ranges. */
module Generator {

  import opened Types
  import opened JsMath
  import opened Noise

  type UnitReal = r: real | -1.0 <= r <= 1.0
  type NonNegReal = r: real | 0.0 <= r
  type PosReal = r: real | 0.0 < r witness 1.0

  /** The parts of `Math` the generator calls: `sin` and `cos` in [-1, 1], `sqrt`
      non-negative, `atan2` unconstrained, and a positive `PI`. */
  datatype MathLib = MathLib(
    sin: real -> UnitReal,
    cos: real -> UnitReal,
    sqrt: real -> NonNegReal,
    atan2: (real, real) -> real,
    pi: PosReal)

  /** The `config` argument of generatePoints. */
  datatype GenConfig = GenConfig(
    cols: int, rows: int, gap: real, scale: real, seed: int, tileShape: TileShape)

  /** All arguments of one generatePoints call. The mode is a string: a stored slot can
      hold any text, and an unknown name takes index -1. */
  datatype Input = Input(mode: string, width: real, height: real, config: GenConfig, math: MathLib)

  /** `Math.max(1, n)`: the grid always has at least one row and one column. */
  function SafeCount(n: int): (r: nat)
    ensures r >= 1 && r >= n
    ensures n >= 1 ==> r == n
    ensures n < 1 ==> r == 1
  {
    if n < 1 then 1 else n
  }

  /** Number of tiles: one per cell of the safe grid. */
  function Total(inp: Input): nat
  {
    SafeCount(inp.config.rows) * SafeCount(inp.config.cols)
  }

  /** `Object.values(GenerativeMode).indexOf(mode)`, given what the name resolves to:
      the declaration index of the mode, or -1 when no mode has that name. */
  function IndexOf(found: Option<GenerativeMode>): (i: int)
    ensures -1 <= i < ModeCount
    ensures i == -1 <==> found.None?
    ensures found.Some? ==> i == Index(found.value) && ModeAt(i) == found.value
  {
    match found
    case None => -1
    case Some(m) => RoundTrip(m); Index(m)
  }

  /** The frequency getNoise uses: the requested one shifted by `modeIdx % 10`, with
      JavaScript's truncating remainder. */
  function CustomFreq(freq: real, idx: int): (f: real)
    ensures freq - 9.0 <= f <= freq + 9.0
    ensures 0 <= idx ==> f == freq + (idx % 10) as real
    ensures idx == -1 ==> f == freq - 1.0
  {
    freq + JsRem(idx, 10) as real
  }

  /** `getNoise(nx, ny, freq)`: two sine/cosine waves mixed 0.6 : 0.4 and mapped from
      [-1, 1] onto [0, 1]. The phase depends on the seed and the mode index. */
  function GetNoise(math: MathLib, seed: int, idx: int, nx: real, ny: real, freq: real): (v: real)
    ensures 0.0 <= v <= 1.0
  {
    var cf := CustomFreq(freq, idx);
    var s := (seed + idx * 1000) as real * 0.005;
    var a, b := math.sin(nx * cf + s), math.cos(ny * cf - s);
    var v1 := a * b;
    var v2 := math.sin(nx * cf * 2.5 + ny * 1.5 + s);
    ProductOfUnits(a, b);
    (v1 * 0.6 + v2 * 0.4 + 1.0) / 2.0
  }

  /** The styling rule a tile receives: one per bespoke `case` of the four switch
      statements, and one per `default`. */
  datatype Branch =
    | Halftone | Vortex | BaseDefault
    | Brutalist | Isometric | Stripes | GeometricDefault
    | Flow | Dna | Aurora | OrganicDefault
    | Matrix | Glitch | BlackHole | Circuitry | DigitalDefault
  {
    /** The rules that call `rng.next()`. */
    predicate UsesGenerator()
    {
      Matrix? || Glitch?
    }

    /** The rules that move a tile away from its cell centre. */
    predicate Displaces()
    {
      Flow? || Dna? || Aurora? || Glitch?
    }

    /** The switch statement the rule sits in: 0 for the base one, 1 for the geometric,
        2 for the organic and 3 for the digital one. */
    function Tier(): nat
    {
      if Halftone? || Vortex? || BaseDefault? then 0
      else if Brutalist? || Isometric? || Stripes? || GeometricDefault? then 1
      else if Flow? || Dna? || Aurora? || OrganicDefault? then 2
      else 3
    }
  }

  /** The switch statement the source consults for a mode index: the base one below 10,
      the geometric one below 30, the organic one below 60, the digital one above. */
  function IndexTier(idx: int): nat
  {
    if idx < 10 then 0 else if idx < 30 then 1 else if idx < 60 then 2 else 3
  }

  /** The `default` rule of the index tier: below 10, below 30, below 60, and the rest. */
  function TierDefault(idx: int): Branch
  {
    if idx < 10 then BaseDefault
    else if idx < 30 then GeometricDefault
    else if idx < 60 then OrganicDefault
    else DigitalDefault
  }

  /** The modes that have a `case` of their own in one of the four switch statements,
      and that case. */
  const BespokeCases: map<GenerativeMode, Branch> := map[
    HALFTONE := Halftone, VORTEX := Vortex,
    BRUTALIST := Brutalist, ISOMETRIC := Isometric, STRIPES := Stripes,
    FLOW := Flow, DNA := Dna, AURORA := Aurora,
    MATRIX := Matrix, GLITCH := Glitch, BLACK_HOLE := BlackHole, CIRCUITRY := Circuitry]

  /** The dispatch as the source writes it: the index picks a tier first, and only that
      tier's switch is consulted. A `case GenerativeMode.X` is taken when the name
      resolves to X, which by `Types.FromName`'s contract means the name is X's value.
      The rule always comes from the switch of the tier the index falls in. */
  function SelectBranchAsWritten(found: Option<GenerativeMode>): (b: Branch)
    ensures b.Tier() == IndexTier(IndexOf(found))
  {
    var idx := IndexOf(found);
    if idx < 10 then
      if found == Some(HALFTONE) then Halftone
      else if found == Some(VORTEX) then Vortex
      else BaseDefault
    else if idx < 30 then
      if found == Some(BRUTALIST) then Brutalist
      else if found == Some(ISOMETRIC) then Isometric
      else if found == Some(STRIPES) then Stripes
      else GeometricDefault
    else if idx < 60 then
      if found == Some(FLOW) then Flow
      else if found == Some(DNA) then Dna
      else if found == Some(AURORA) then Aurora
      else OrganicDefault
    else
      if found == Some(MATRIX) then Matrix
      else if found == Some(GLITCH) then Glitch
      else if found == Some(BLACK_HOLE) then BlackHole
      else if found == Some(CIRCUITRY) then Circuitry
      else DigitalDefault
  }

  /** The dispatch the switch statements are written for: a mode with a `case` of its own
      gets that case wherever its index falls; every other mode gets its tier's default. */
  function SelectBranch(found: Option<GenerativeMode>): Branch
  {
    if found == Some(HALFTONE) then Halftone
    else if found == Some(VORTEX) then Vortex
    else if found == Some(BRUTALIST) then Brutalist
    else if found == Some(ISOMETRIC) then Isometric
    else if found == Some(STRIPES) then Stripes
    else if found == Some(FLOW) then Flow
    else if found == Some(DNA) then Dna
    else if found == Some(AURORA) then Aurora
    else if found == Some(MATRIX) then Matrix
    else if found == Some(GLITCH) then Glitch
    else if found == Some(BLACK_HOLE) then BlackHole
    else if found == Some(CIRCUITRY) then Circuitry
    else TierDefault(IndexOf(found))
  }

  /** The intended dispatch agrees with the case table: a mode's own case if it has one,
      its tier's default otherwise, and the base default for a name that is not a mode. */
  lemma SelectBranchFollowsCases(found: Option<GenerativeMode>)
    ensures found.Some? && found.value in BespokeCases ==> SelectBranch(found) == BespokeCases[found.value]
    ensures found.Some? && found.value !in BespokeCases ==> SelectBranch(found) == TierDefault(Index(found.value))
    ensures found.None? ==> SelectBranch(found) == BaseDefault
  {
  }

  /** The bespoke modes whose `case` sits in a tier their index never reaches. */
  const UnreachableCases: set<GenerativeMode> := {GLITCH, STRIPES, BRUTALIST, FLOW, MATRIX, DNA, AURORA}

  /** As written, the seven unreachable cases are never selected: those modes fall to
      the default of the tier their index lands in, which differs from their own case. */
  lemma UnreachableCasesAsWritten(m: GenerativeMode)
    requires m in UnreachableCases
    ensures SelectBranchAsWritten(Some(m)) == TierDefault(Index(m))
    ensures SelectBranchAsWritten(Some(m)) != SelectBranch(Some(m))
  {
    match m
    case GLITCH =>
    case STRIPES =>
    case BRUTALIST =>
    case FLOW =>
    case MATRIX =>
    case DNA =>
    case AURORA =>
    case _ =>
  }

  /** Every other mode, and every name that is not a mode, is dispatched as written just
      as intended. */
  lemma AsWrittenAgreesOnOthers(found: Option<GenerativeMode>)
    requires found.None? || found.value !in UnreachableCases
    ensures SelectBranchAsWritten(found) == SelectBranch(found)
  {
    if found.Some? {
      match found.value
      case HALFTONE =>
      case VORTEX =>
      case ISOMETRIC =>
      case BLACK_HOLE =>
      case CIRCUITRY =>
      case _ =>
    }
  }

  /** Both halves together: the dispatch as written differs from the intended one exactly
      on the seven unreachable cases. */
  lemma AsWrittenSelection(found: Option<GenerativeMode>)
    ensures (found.Some? && found.value in UnreachableCases) <==>
              SelectBranchAsWritten(found) != SelectBranch(found)
  {
    if found.Some? && found.value in UnreachableCases {
      UnreachableCasesAsWritten(found.value);
    } else {
      AsWrittenAgreesOnOthers(found);
    }
  }

  /** Concretely: STRIPES (index 7) is styled by the base default, not as stripes. */
  lemma StripesAsWritten()
    ensures SelectBranchAsWritten(FromName("STRIPES")) == BaseDefault
    ensures SelectBranch(FromName("STRIPES")) == Stripes
  {
  }

  /** As written, no name ever reaches a rule that draws from the generator or moves a
      tile. */
  lemma AsWrittenNeverDrawsOrDisplaces(found: Option<GenerativeMode>)
    ensures !SelectBranchAsWritten(found).UsesGenerator()
    ensures !SelectBranchAsWritten(found).Displaces()
  {
    if found.Some? && found.value in UnreachableCases {
      UnreachableCasesAsWritten(found.value);
    } else {
      AsWrittenAgreesOnOthers(found);
    }
  }

  /** A name that is not a mode has index -1: both dispatches use the base default, and
      getNoise's frequency is shifted by -1 (JavaScript's `-1 % 10`). */
  lemma UnknownModeSelection(mode: string)
    requires FromName(mode).None?
    ensures IndexOf(FromName(mode)) == -1
    ensures SelectBranch(FromName(mode)) == BaseDefault
    ensures SelectBranchAsWritten(FromName(mode)) == BaseDefault
    ensures CustomFreq(4.0, IndexOf(FromName(mode))) == 3.0
  {
  }

  /** `(i + 0.5) / n`: the centre of cell i of n, as a fraction of the canvas side. */
  function Centre(i: int, n: nat): real
    requires n > 0
  {
    (i as real + 0.5) / n as real
  }

  /** What the rules read at cell (r, c) that does not depend on the canvas size, the
      gap or the scale: the normalised cell centre, the noise value there, and the
      centre's distance and angle from the middle of the canvas. */
  datatype Sample = Sample(nX: real, nY: real, val: real, dist: NonNegReal, angle: real)

  function SampleAt(math: MathLib, seed: int, idx: int, cols: nat, rows: nat, r: int, c: int): (s: Sample)
    requires cols > 0 && rows > 0
    ensures 0.0 <= s.val <= 1.0
    ensures s.nX == Centre(c, cols) && s.nY == Centre(r, rows)
  {
    var nX, nY := Centre(c, cols), Centre(r, rows);
    Sample(
      nX, nY,
      GetNoise(math, seed, idx, nX, nY, 4.0),
      math.sqrt((nX - 0.5) * (nX - 0.5) + (nY - 0.5) * (nY - 0.5)),
      math.atan2(nY - 0.5, nX - 0.5))
  }

  /** What every rule starts from at cell (r, c): the sample, the cell centre on the
      canvas, and the base size `(min(cellW, cellH) - gap) * scale`. */
  datatype Frame = Frame(sample: Sample, x: real, y: real, size: real)

  /** `Math.min(cellW, cellH)`: the shorter side of a cell. */
  function CellSide(inp: Input): real
  {
    Min(inp.width / SafeCount(inp.config.cols) as real, inp.height / SafeCount(inp.config.rows) as real)
  }

  function BaseSize(inp: Input): (size: real)
    ensures 0.0 <= inp.config.gap <= CellSide(inp) && 0.0 <= inp.config.scale ==>
              0.0 <= size <= CellSide(inp) * inp.config.scale
  {
    var size := (CellSide(inp) - inp.config.gap) * inp.config.scale;
    if 0.0 <= inp.config.gap <= CellSide(inp) && 0.0 <= inp.config.scale then
      ProductNonNegative(CellSide(inp) - inp.config.gap, inp.config.scale);
      ProductNonNegative(inp.config.gap, inp.config.scale);
      size
    else size
  }

  function FrameAt(inp: Input, idx: int, r: int, c: int): (f: Frame)
    ensures 0.0 <= f.sample.val <= 1.0
  {
    var cols, rows := SafeCount(inp.config.cols), SafeCount(inp.config.rows);
    var s := SampleAt(inp.math, inp.config.seed, idx, cols, rows, r, c);
    Frame(s, Centre(c, cols) * inp.width, Centre(r, rows) * inp.height, BaseSize(inp))
  }

  /** The frame of cell (r, c) is anchored at `(nX * width, nY * height)`. */
  lemma FrameCentre(inp: Input, idx: int, r: int, c: int)
    ensures FrameAt(inp, idx, r, c).x == Centre(c, SafeCount(inp.config.cols)) * inp.width
    ensures FrameAt(inp, idx, r, c).y == Centre(r, SafeCount(inp.config.rows)) * inp.height
  {
  }

  /** The tile shape each rule produces: some rules force one, the rest keep the
      configured shape. */
  function BranchShape(b: Branch, tileShape: TileShape): TileShape
  {
    match b
    case Halftone | Brutalist | Matrix => SQUARE
    case Isometric => TRIANGLE
    case Stripes | Aurora => LINE
    case _ => tileShape
  }

  /** The rules that leave the rotation at 0. */
  predicate KeepsRotation(b: Branch)
  {
    b.Halftone? || b.Brutalist? || b.Stripes? || b.Flow? || b.Dna? || b.Aurora? ||
    b.OrganicDefault? || b.Matrix?
  }

  /** The tile of a rule that does not draw from the generator, before the size clamp. */
  function Shade(inp: Input, b: Branch, idx: int, f: Frame): (p: GridPoint)
    requires !b.UsesGenerator()
    ensures p.shape == BranchShape(b, inp.config.tileShape)
    ensures KeepsRotation(b) ==> p.rotation == 0.0
    ensures !b.Displaces() ==> p.x == f.x && p.y == f.y
  {
    var math, shape, s := inp.math, inp.config.tileShape, f.sample;
    var intensity := s.val * s.val;
    match b
    case Halftone =>
      GridPoint(f.x, f.y, f.size * ((1.2 - s.dist * 2.0) * intensity * 2.0), 0.0, SQUARE)
    case Vortex =>
      GridPoint(f.x, f.y, f.size * intensity, s.angle * 180.0 / math.pi + s.val * 720.0, shape)
    case BaseDefault =>
      GridPoint(f.x, f.y, f.size, s.val * 360.0, shape)
    case Brutalist =>
      var onLine := FloatRem(s.nX, 0.2) < 0.05 || FloatRem(s.nY, 0.2) < 0.05;
      GridPoint(f.x, f.y, f.size * (if onLine then 4.0 else 0.1), 0.0, SQUARE)
    case Isometric =>
      GridPoint(f.x, f.y, f.size, 30.0 + (s.val * 3.0).Floor as real * 60.0, TRIANGLE)
    case Stripes =>
      GridPoint(f.x, f.y, f.size * (if math.sin(s.nX * 50.0) > 0.0 then 1.0 else 0.0), 0.0, LINE)
    case GeometricDefault =>
      GridPoint(f.x, f.y, f.size, (s.nX + s.nY) * 180.0, shape)
    case Flow =>
      var phase := s.val * math.pi * 4.0;
      GridPoint(f.x + math.cos(phase) * 30.0, f.y + math.sin(phase) * 30.0, f.size, 0.0, shape)
    case Dna =>
      GridPoint(f.x + math.sin(s.nY * 12.0 + idx as real) * 50.0, f.y,
                f.size * (0.5 + math.cos(s.nY * 12.0) * 0.5), 0.0, shape)
    case Aurora =>
      GridPoint(f.x, f.y + math.sin(s.nX * 10.0 + inp.config.seed as real) * 80.0,
                f.size * (intensity * 5.0), 0.0, LINE)
    case OrganicDefault =>
      GridPoint(f.x, f.y, f.size * (math.sin(s.dist * 20.0) + 1.0), 0.0, shape)
    case BlackHole =>
      GridPoint(f.x, f.y, f.size * (1.0 / (s.dist + 0.01) * 0.05), s.dist * 2000.0, shape)
    case Circuitry =>
      GridPoint(f.x, f.y, f.size * (if s.val > 0.5 then 2.5 else 0.1), (s.val * 4.0).Floor as real * 90.0, shape)
    case DigitalDefault =>
      var chaoticAngle := s.angle + idx as real * 0.5;
      GridPoint(f.x, f.y, f.size * (Abs(math.sin(s.dist * 100.0 + chaoticAngle)) * 2.0),
                s.val * 360.0 + idx as real * 10.0, shape)
  }

  /** `points.push({ ..., size: Math.max(0, size), ... })`. */
  function Emit(p: GridPoint): (q: GridPoint)
    ensures q.size >= 0.0
    ensures q.size == p.size || (p.size < 0.0 && q.size == 0.0)
    ensures q.x == p.x && q.y == p.y && q.rotation == p.rotation && q.shape == p.shape
  {
    p.(size := Max(0.0, p.size))
  }

  /** What generatePoints fixes once per call: the rule the mode selects and the mode
      index. */
  datatype Plan = Plan(branch: Branch, idx: int)

  /** The plan of a call, with the intended dispatch. */
  function PlanOf(mode: string): Plan
  {
    var found := FromName(mode);
    Plan(SelectBranch(found), IndexOf(found))
  }

  /** The plan of a call, with the dispatch as written. */
  function PlanAsWritten(mode: string): Plan
  {
    var found := FromName(mode);
    Plan(SelectBranchAsWritten(found), IndexOf(found))
  }

  /** A call with a mode's value string is planned with that mode's declaration index
      and the rule the mode selects. */
  lemma PlanOfName(m: GenerativeMode)
    ensures PlanAsWritten(Name(m)) == Plan(SelectBranchAsWritten(Some(m)), Index(m))
    ensures PlanOf(Name(m)) == Plan(SelectBranch(Some(m)), Index(m))
  {
    RoundTrip(m);
  }

  /** One tile and the generator state after it. */
  datatype Step = Step(point: GridPoint, state: int)

  /** The tile at row r, column c under the plan, with the generator in state st. */
  function Cell(inp: Input, plan: Plan, r: int, c: int, st: int): (s: Step)
    ensures s.point.size >= 0.0
    ensures s.point.shape == BranchShape(plan.branch, inp.config.tileShape)
    ensures KeepsRotation(plan.branch) ==> s.point.rotation == 0.0
    ensures !plan.branch.UsesGenerator() ==> s.state == st
    ensures plan.branch.Matrix? ==> s.state == StateAfter(st, 1)
    ensures plan.branch.Glitch? ==> s.state == StateAfter(st, 1) || s.state == StateAfter(st, 3)
    ensures !plan.branch.Displaces() ==> s.point.x == FrameAt(inp, plan.idx, r, c).x
    ensures !plan.branch.Displaces() ==> s.point.y == FrameAt(inp, plan.idx, r, c).y
  {
    var f := FrameAt(inp, plan.idx, r, c);
    match plan.branch
    case Matrix =>
      var s1 := NextState(st);
      var factor := if Draw(s1) > 0.9 then f.sample.val * 8.0 else 0.0;
      Step(Emit(GridPoint(f.x, f.y, f.size * factor, 0.0, SQUARE)), s1)
    case Glitch =>
      var s1 := NextState(st);
      if Draw(s1) > 0.8 then
        var s2 := NextState(s1);
        var s3 := NextState(s2);
        Step(Emit(GridPoint(f.x + (Draw(s2) - 0.5) * 100.0, f.y, f.size * 6.0, Draw(s3) * 360.0,
                            inp.config.tileShape)), s3)
      else
        Step(Emit(GridPoint(f.x, f.y, 0.0, 0.0, inp.config.tileShape)), s1)
    case _ =>
      Step(Emit(Shade(inp, plan.branch, plan.idx, f)), st)
  }

  /** The first k tiles in row-major order and the generator state after them. */
  datatype Progress = Progress(points: seq<GridPoint>, state: int)

  /** Visits cells in row-major order over `cols` columns, threading the generator state
      through `step` from the initial state `seed`; k is the number of cells visited. */
  function Scan(step: (int, int, int) -> Step, cols: nat, seed: int, k: nat): (p: Progress)
    requires cols > 0
    ensures |p.points| == k
  {
    if k == 0 then Progress([], seed)
    else
      var prev := Scan(step, cols, seed, k - 1);
      var next := step((k - 1) / cols, (k - 1) % cols, prev.state);
      Progress(prev.points + [next.point], next.state)
  }

  /** Tiles are appended, never rewritten: the first k tiles of a longer scan are the
      tiles of the scan of length k. */
  lemma {:induction false} ScanPrefix(step: (int, int, int) -> Step, cols: nat, seed: int, k: nat, n: nat)
    requires cols > 0 && k <= n
    ensures Scan(step, cols, seed, n).points[..k] == Scan(step, cols, seed, k).points
    decreases n
  {
    if k < n {
      ScanPrefix(step, cols, seed, k, n - 1);
      var p := Scan(step, cols, seed, n).points;
      assert p[..k] == p[..n - 1][..k];
    }
  }

  /** The tile at row r, column c of a scan of n >= r * cols + c + 1 cells is the step at
      (r, c) from the state the scan had reached there. */
  lemma ScanAt(step: (int, int, int) -> Step, cols: nat, seed: int, r: int, c: int, n: nat)
    requires cols > 0 && 0 <= r && 0 <= c < cols && r * cols + c < n
    ensures r * cols + c >= 0
    ensures Scan(step, cols, seed, n).points[r * cols + c]
            == step(r, c, Scan(step, cols, seed, r * cols + c).state).point
  {
    var k := r * cols + c;
    IndexInGrid(r, c, r + 1, cols);
    RowColumnOfIndex(r, c, cols);
    ScanPrefix(step, cols, seed, k + 1, n);
    assert Scan(step, cols, seed, n).points[k] == Scan(step, cols, seed, n).points[..k + 1][k];
  }

  /** The cell rule of a call, as the step of a scan. */
  function CellOf(inp: Input, plan: Plan): (int, int, int) -> Step
  {
    (r, c, st) => Cell(inp, plan, r, c, st)
  }

  /** The tiles of the first k cells under the plan. */
  function Run(inp: Input, plan: Plan, k: nat): (p: Progress)
    ensures |p.points| == k
  {
    Scan(CellOf(inp, plan), SafeCount(inp.config.cols), inp.config.seed, k)
  }

  /** The tiles generatePoints would return with the intended dispatch: one per cell,
      none of negative size. */
  function Generated(inp: Input): (points: seq<GridPoint>)
    ensures |points| == Total(inp)
    ensures forall i :: 0 <= i < |points| ==> points[i].size >= 0.0
  {
    RunInvariants(inp, PlanOf(inp.mode), Total(inp));
    Run(inp, PlanOf(inp.mode), Total(inp)).points
  }

  /** The tiles generatePoints returns as its dispatch is written: one per cell, none of
      negative size. */
  function GeneratedAsWritten(inp: Input): (points: seq<GridPoint>)
    ensures |points| == Total(inp)
    ensures forall i :: 0 <= i < |points| ==> points[i].size >= 0.0
  {
    RunInvariants(inp, PlanAsWritten(inp.mode), Total(inp));
    Run(inp, PlanAsWritten(inp.mode), Total(inp)).points
  }

  /** Computes one tile, drawing from `rng` where the rule asks for it. */
  method CellStep(inp: Input, plan: Plan, r: int, c: int, rng: Random) returns (p: GridPoint)
    modifies rng
    ensures Step(p, rng.seed) == Cell(inp, plan, r, c, old(rng.seed))
  {
    var f := FrameAt(inp, plan.idx, r, c);
    match plan.branch {
      case Matrix =>
        var d := rng.Next();
        var factor := if d > 0.9 then f.sample.val * 8.0 else 0.0;
        p := Emit(GridPoint(f.x, f.y, f.size * factor, 0.0, SQUARE));
      case Glitch =>
        var x, size, rot := f.x, f.size, 0.0;
        var d := rng.Next();
        if d > 0.8 {
          var dx := rng.Next();
          x := x + (dx - 0.5) * 100.0;
          size := size * 6.0;
          var dr := rng.Next();
          rot := dr * 360.0;
        } else {
          size := 0.0;
        }
        p := Emit(GridPoint(x, f.y, size, rot, inp.config.tileShape));
      case _ =>
        p := Emit(Shade(inp, plan.branch, plan.idx, f));
    }
  }

  /** The loop of generatePoints under a fixed plan: one tile per cell of the safe grid,
      rows outer and columns inner, all drawing from one generator seeded with
      `config.seed`. */
  method GenerateWithPlan(inp: Input, plan: Plan) returns (points: seq<GridPoint>)
    ensures points == Run(inp, plan, Total(inp)).points
  {
    assert Total(inp) == SafeCount(inp.config.rows) * SafeCount(inp.config.cols);
    var rng := new Random(inp.config.seed);
    var rows, cols := SafeCount(inp.config.rows), SafeCount(inp.config.cols);
    points := [];
    ghost var k := 0;
    var r := 0;
    while r < rows
      invariant 0 <= r <= rows && k == r * cols
      invariant Run(inp, plan, k) == Progress(points, rng.seed)
    {
      var c := 0;
      while c < cols
        invariant 0 <= c <= cols && k == r * cols + c
        invariant Run(inp, plan, k) == Progress(points, rng.seed)
      {
        ghost var before := rng.seed;
        var p := CellStep(inp, plan, r, c, rng);
        assert Run(inp, plan, k + 1) == Progress(points + [p], rng.seed) by {
          RunCell(inp, plan, r, c, k);
          assert Step(p, rng.seed) == Cell(inp, plan, r, c, before);
        }
        points := points + [p];
        c := c + 1;
        k := k + 1;
      }
      assert k == (r + 1) * cols by { NextRowStart(r, cols); }
      r := r + 1;
    }
    assert k == Total(inp);
  }

  /** `generatePoints(mode, width, height, config)` as written: every tile of the grid
      under the plan the written dispatch picks. */
  method GeneratePoints(mode: string, width: real, height: real, config: GenConfig, math: MathLib)
    returns (points: seq<GridPoint>)
    ensures points == GeneratedAsWritten(Input(mode, width, height, config, math))
    ensures |points| == SafeCount(config.rows) * SafeCount(config.cols)
    ensures forall i :: 0 <= i < |points| ==> points[i].size >= 0.0
  {
    var inp := Input(mode, width, height, config, math);
    points := GenerateWithPlan(inp, PlanAsWritten(mode));
  }

  /** generatePoints with the dispatch its switch statements are written for. */
  method GeneratePointsIntended(mode: string, width: real, height: real, config: GenConfig, math: MathLib)
    returns (points: seq<GridPoint>)
    ensures points == Generated(Input(mode, width, height, config, math))
    ensures |points| == SafeCount(config.rows) * SafeCount(config.cols)
    ensures forall i :: 0 <= i < |points| ==> points[i].size >= 0.0
  {
    var inp := Input(mode, width, height, config, math);
    points := GenerateWithPlan(inp, PlanOf(mode));
  }

  /** A run of k cells is the run of k - 1 cells followed by the tile of cell k - 1. */
  lemma RunStep(inp: Input, plan: Plan, k: nat)
    requires k > 0
    ensures var prev := Run(inp, plan, k - 1);
            var cols := SafeCount(inp.config.cols);
            var next := Cell(inp, plan, (k - 1) / cols, (k - 1) % cols, prev.state);
            Run(inp, plan, k) == Progress(prev.points + [next.point], next.state)
  {
  }

  /** The cell after the first r * cols + c cells is the one at row r, column c. */
  lemma RunCell(inp: Input, plan: Plan, r: nat, c: nat, k: nat)
    requires c < SafeCount(inp.config.cols) && k == r * SafeCount(inp.config.cols) + c
    ensures var prev := Run(inp, plan, k);
            var next := Cell(inp, plan, r, c, prev.state);
            Run(inp, plan, k + 1) == Progress(prev.points + [next.point], next.state)
  {
    var cols := SafeCount(inp.config.cols);
    RowColumnOfIndex(r, c, cols);
    assert k / cols == r && k % cols == c;
    RunStep(inp, plan, k + 1);
  }

  /** What holds of every tile of a run: the size is never negative, the shape is the
      rule's, rules that never rotate leave rotation 0, and rules that do not draw leave
      the generator in its seeded state. */
  lemma {:induction false} RunInvariants(inp: Input, plan: Plan, k: nat)
    ensures forall i :: 0 <= i < k ==> Run(inp, plan, k).points[i].size >= 0.0
    ensures forall i :: 0 <= i < k ==>
              Run(inp, plan, k).points[i].shape == BranchShape(plan.branch, inp.config.tileShape)
    ensures KeepsRotation(plan.branch) ==> forall i :: 0 <= i < k ==> Run(inp, plan, k).points[i].rotation == 0.0
    ensures !plan.branch.UsesGenerator() ==> Run(inp, plan, k).state == inp.config.seed
  {
    if k > 0 {
      RunInvariants(inp, plan, k - 1);
      RunStep(inp, plan, k);
      var prev := Run(inp, plan, k - 1).points;
      var all := Run(inp, plan, k).points;
      forall i | 0 <= i < k
        ensures all[i].size >= 0.0 && all[i].shape == BranchShape(plan.branch, inp.config.tileShape)
        ensures KeepsRotation(plan.branch) ==> all[i].rotation == 0.0
      {
        if i < k - 1 {
          assert all[i] == prev[i];
        }
      }
    }
  }

  /** The tile at row r, column c of a full run, for a rule that does not use the
      generator, is that cell's tile computed on its own. */
  lemma PointAt(inp: Input, plan: Plan, r: int, c: int)
    requires !plan.branch.UsesGenerator()
    requires 0 <= r < SafeCount(inp.config.rows) && 0 <= c < SafeCount(inp.config.cols)
    ensures 0 <= r * SafeCount(inp.config.cols) + c < Total(inp)
    ensures Run(inp, plan, Total(inp)).points[r * SafeCount(inp.config.cols) + c]
            == Cell(inp, plan, r, c, inp.config.seed).point
  {
    var rows, cols := SafeCount(inp.config.rows), SafeCount(inp.config.cols);
    IndexInGrid(r, c, rows, cols);
    RunInvariants(inp, plan, r * cols + c);
    ScanAt(CellOf(inp, plan), cols, inp.config.seed, r, c, Total(inp));
  }

  /** Under a rule that neither draws nor moves tiles, the tile at row r, column c of a
      full run sits at the centre of that cell. */
  lemma CentredTiles(inp: Input, plan: Plan, r: int, c: int)
    requires !plan.branch.UsesGenerator() && !plan.branch.Displaces()
    requires 0 <= r < SafeCount(inp.config.rows) && 0 <= c < SafeCount(inp.config.cols)
    ensures 0 <= r * SafeCount(inp.config.cols) + c < Total(inp)
    ensures Run(inp, plan, Total(inp)).points[r * SafeCount(inp.config.cols) + c].x
            == Centre(c, SafeCount(inp.config.cols)) * inp.width
    ensures Run(inp, plan, Total(inp)).points[r * SafeCount(inp.config.cols) + c].y
            == Centre(r, SafeCount(inp.config.rows)) * inp.height
  {
    PointAt(inp, plan, r, c);
    var p := Cell(inp, plan, r, c, inp.config.seed).point;
    var f := FrameAt(inp, plan.idx, r, c);
    assert p.x == f.x && p.y == f.y;
    FrameCentre(inp, plan.idx, r, c);
  }

  /** With the intended dispatch, every mode except FLOW, DNA, AURORA and GLITCH puts
      each tile at the centre of its cell. */
  lemma TilesAtCellCentres(inp: Input, r: int, c: int)
    requires !PlanOf(inp.mode).branch.UsesGenerator() && !PlanOf(inp.mode).branch.Displaces()
    requires 0 <= r < SafeCount(inp.config.rows) && 0 <= c < SafeCount(inp.config.cols)
    ensures 0 <= r * SafeCount(inp.config.cols) + c < |Generated(inp)|
    ensures Generated(inp)[r * SafeCount(inp.config.cols) + c].x
            == Centre(c, SafeCount(inp.config.cols)) * inp.width
    ensures Generated(inp)[r * SafeCount(inp.config.cols) + c].y
            == Centre(r, SafeCount(inp.config.rows)) * inp.height
  {
    CentredTiles(inp, PlanOf(inp.mode), r, c);
    assert Generated(inp) == Run(inp, PlanOf(inp.mode), Total(inp)).points;
  }

  /** As written, the generator is never advanced and every tile sits at its cell
      centre, whatever the mode: the rules that would draw or move tiles are the
      unreachable ones. */
  lemma AsWrittenUndisturbed(inp: Input, r: int, c: int)
    requires 0 <= r < SafeCount(inp.config.rows) && 0 <= c < SafeCount(inp.config.cols)
    ensures Run(inp, PlanAsWritten(inp.mode), Total(inp)).state == inp.config.seed
    ensures 0 <= r * SafeCount(inp.config.cols) + c < |GeneratedAsWritten(inp)|
    ensures GeneratedAsWritten(inp)[r * SafeCount(inp.config.cols) + c].x
            == Centre(c, SafeCount(inp.config.cols)) * inp.width
    ensures GeneratedAsWritten(inp)[r * SafeCount(inp.config.cols) + c].y
            == Centre(r, SafeCount(inp.config.rows)) * inp.height
  {
    var plan := PlanAsWritten(inp.mode);
    AsWrittenNeverDrawsOrDisplaces(FromName(inp.mode));
    RunInvariants(inp, plan, Total(inp));
    CentredTiles(inp, plan, r, c);
    assert GeneratedAsWritten(inp) == Run(inp, plan, Total(inp)).points;
  }

  /** As written, every tile has the configured shape except under HALFTONE, whose tiles
      are squares, and ISOMETRIC, whose tiles are triangles: the other rules that force a
      shape are unreachable. */
  lemma AsWrittenShapes(inp: Input)
    ensures forall i :: 0 <= i < |GeneratedAsWritten(inp)| ==>
              GeneratedAsWritten(inp)[i].shape ==
                if inp.mode == "HALFTONE" then SQUARE
                else if inp.mode == "ISOMETRIC" then TRIANGLE
                else inp.config.tileShape
  {
    var found := FromName(inp.mode);
    RunInvariants(inp, PlanAsWritten(inp.mode), Total(inp));
    AsWrittenBranchShape(found, inp.config.tileShape);
    Member_HALFTONE();
    Member_ISOMETRIC();
    FromNameIff(inp.mode, HALFTONE);
    FromNameIff(inp.mode, ISOMETRIC);
  }

  /** The rule the written dispatch selects forces a shape only for HALFTONE and
      ISOMETRIC. */
  lemma AsWrittenBranchShape(found: Option<GenerativeMode>, tileShape: TileShape)
    ensures BranchShape(SelectBranchAsWritten(found), tileShape) ==
              if found == Some(HALFTONE) then SQUARE
              else if found == Some(ISOMETRIC) then TRIANGLE
              else tileShape
  {
    if found.Some? && found.value in UnreachableCases {
      UnreachableCasesAsWritten(found.value);
    } else {
      AsWrittenAgreesOnOthers(found);
    }
  }

  /** As written, every mode with index 30 to 59 lays its tiles unrotated: the switch of
      that tier holds only rules that keep rotation 0. */
  lemma AsWrittenOrganicTierUnrotated(inp: Input, m: GenerativeMode)
    requires inp.mode == Name(m) && 30 <= Index(m) < 60
    ensures forall i :: 0 <= i < |GeneratedAsWritten(inp)| ==> GeneratedAsWritten(inp)[i].rotation == 0.0
  {
    var plan := PlanAsWritten(inp.mode);
    PlanOfName(m);
    OrganicTierKeepsRotation(m);
    RunInvariants(inp, plan, Total(inp));
  }

  /** Every rule of the organic switch keeps rotation 0. */
  lemma OrganicTierKeepsRotation(m: GenerativeMode)
    requires 30 <= Index(m) < 60
    ensures KeepsRotation(SelectBranchAsWritten(Some(m)))
  {
    var b := SelectBranchAsWritten(Some(m));
    assert IndexTier(IndexOf(Some(m))) == 2;
    assert b.Flow? || b.Dna? || b.Aurora? || b.OrganicDefault?;
  }

  /** For every mode whose case is reachable, and for every unknown name, the source as
      written and the intended dispatch produce the same tiles. */
  lemma AsWrittenAgreesElsewhere(inp: Input)
    requires FromName(inp.mode).None? || FromName(inp.mode).value !in UnreachableCases
    ensures GeneratedAsWritten(inp) == Generated(inp)
  {
    AsWrittenSelection(FromName(inp.mode));
  }

  /** The canvas-independent case of one cell: with the same sample, the rotation, the
      shape and the generator state come out the same whatever the canvas size, gap and
      scale. */
  lemma CellIgnoresCanvas(inp: Input, other: Input, plan: Plan, r: int, c: int, st: int)
    requires other.mode == inp.mode && other.math == inp.math
    requires other.config.cols == inp.config.cols && other.config.rows == inp.config.rows
    requires other.config.seed == inp.config.seed && other.config.tileShape == inp.config.tileShape
    ensures Cell(other, plan, r, c, st).state == Cell(inp, plan, r, c, st).state
    ensures Cell(other, plan, r, c, st).point.rotation == Cell(inp, plan, r, c, st).point.rotation
    ensures Cell(other, plan, r, c, st).point.shape == Cell(inp, plan, r, c, st).point.shape
  {
    assert FrameAt(other, plan.idx, r, c).sample == FrameAt(inp, plan.idx, r, c).sample;
  }

  /** Rotations, shapes and generator use do not depend on the canvas size, the gap or
      the scale: only positions and sizes do. */
  lemma {:induction false} RotationIgnoresCanvas(inp: Input, plan: Plan, k: nat,
                                                 width: real, height: real, gap: real, scale: real)
    ensures var other := inp.(width := width, height := height,
                              config := inp.config.(gap := gap, scale := scale));
            Run(other, plan, k).state == Run(inp, plan, k).state &&
            forall i :: 0 <= i < k ==>
              Run(other, plan, k).points[i].rotation == Run(inp, plan, k).points[i].rotation &&
              Run(other, plan, k).points[i].shape == Run(inp, plan, k).points[i].shape
  {
    var other := inp.(width := width, height := height,
                      config := inp.config.(gap := gap, scale := scale));
    if k > 0 {
      RotationIgnoresCanvas(inp, plan, k - 1, width, height, gap, scale);
      RunStep(inp, plan, k);
      RunStep(other, plan, k);
      var cols := SafeCount(inp.config.cols);
      var st := Run(inp, plan, k - 1).state;
      CellIgnoresCanvas(inp, other, plan, (k - 1) / cols, (k - 1) % cols, st);
      var a, b := Run(inp, plan, k).points, Run(other, plan, k).points;
      forall i | 0 <= i < k
        ensures b[i].rotation == a[i].rotation && b[i].shape == a[i].shape
      {
        if i < k - 1 {
          assert a[i] == Run(inp, plan, k - 1).points[i];
          assert b[i] == Run(other, plan, k - 1).points[i];
        }
      }
    }
  }
}
