/** The enumerations and records of types.ts.

    GenerativeMode is a string enum: every member's value is its own name, and the
    position of a member in `Object.values(GenerativeMode)` (its declaration index) is
    an input of the generator. Index, Name, AllModes and FromName pin that order. */
module Types {

  datatype Option<+T> = None | Some(value: T)

  /** The members of GenerativeMode, in declaration order. */
  datatype GenerativeMode =
    | HALFTONE | TILES | NOISE_MAP | VORTEX | WAVE
    | CELLULAR | GLITCH | STRIPES | CONCENTRIC | BRUTALIST
    | BINARY | KINETIC | FLOW | ORGANIC | MOSAIC
    | RADAR | SCANLINE | CHECKER | DIAMOND | CROSS
    | ZIGZAG | PULSE | ISOMETRIC | PRIMITIVE | VOID
    | SPIRAL | LATTICE | PIXELATE | FRACTURE | ORBIT
    | NEON | DUO_TONE | SKEW | MIRROR | TOPOLOGY
    | STRATIFIED | RECURSIVE | PARTICLE | METABALL | FLUX
    | PHASOR | INTERFERENCE | KALEIDOSCOPE | DOT_MATRIX | SHATTER
    | PLASMA | CRYSTAL | ORIGAMI | WEAVE | LABYRINTH
    | ECHO | MOIRE | VORONOI | FLUID | STRING_THEORY
    | ASCII | BLUEPRINT | SEISMIC | RETRO_CRT | MATRIX
    | VECTOR_FIELD | GRAVITY | ORBITALS | SUPERNOVA | QUASAR
    | NEBULA | SAWTOOTH | TRIANGULATION | LOW_POLY | URBAN_GRID
    | CIRCUITRY | DNA | MOLECULE | ATOMS | SPECTRUM
    | PRISM | CHROMATIC | DIFFUSION | STIPPLE | HATCHING
    | CROSS_HATCH | WOOD_GRAIN | MARBLE | SAND | WIND
    | RAIN | SNOW | FIRE | SMOKE | CLOUD
    | LIGHTNING | AURORA | SOLAR_FLARE | BLACK_HOLE | QUARTZ
    | OBSIDIAN | FROST | MAGMA | CORAL | FOSSIL
    | AMBER

  /** Number of members of GenerativeMode. */
  const ModeCount: nat := 101

  /** Declaration index of a member: its position in `Object.values(GenerativeMode)`. */
  function Index(m: GenerativeMode): (i: nat)
    ensures i < ModeCount
  {
    match m
    case HALFTONE => 0
    case TILES => 1
    case NOISE_MAP => 2
    case VORTEX => 3
    case WAVE => 4
    case CELLULAR => 5
    case GLITCH => 6
    case STRIPES => 7
    case CONCENTRIC => 8
    case BRUTALIST => 9
    case BINARY => 10
    case KINETIC => 11
    case FLOW => 12
    case ORGANIC => 13
    case MOSAIC => 14
    case RADAR => 15
    case SCANLINE => 16
    case CHECKER => 17
    case DIAMOND => 18
    case CROSS => 19
    case ZIGZAG => 20
    case PULSE => 21
    case ISOMETRIC => 22
    case PRIMITIVE => 23
    case VOID => 24
    case SPIRAL => 25
    case LATTICE => 26
    case PIXELATE => 27
    case FRACTURE => 28
    case ORBIT => 29
    case NEON => 30
    case DUO_TONE => 31
    case SKEW => 32
    case MIRROR => 33
    case TOPOLOGY => 34
    case STRATIFIED => 35
    case RECURSIVE => 36
    case PARTICLE => 37
    case METABALL => 38
    case FLUX => 39
    case PHASOR => 40
    case INTERFERENCE => 41
    case KALEIDOSCOPE => 42
    case DOT_MATRIX => 43
    case SHATTER => 44
    case PLASMA => 45
    case CRYSTAL => 46
    case ORIGAMI => 47
    case WEAVE => 48
    case LABYRINTH => 49
    case ECHO => 50
    case MOIRE => 51
    case VORONOI => 52
    case FLUID => 53
    case STRING_THEORY => 54
    case ASCII => 55
    case BLUEPRINT => 56
    case SEISMIC => 57
    case RETRO_CRT => 58
    case MATRIX => 59
    case VECTOR_FIELD => 60
    case GRAVITY => 61
    case ORBITALS => 62
    case SUPERNOVA => 63
    case QUASAR => 64
    case NEBULA => 65
    case SAWTOOTH => 66
    case TRIANGULATION => 67
    case LOW_POLY => 68
    case URBAN_GRID => 69
    case CIRCUITRY => 70
    case DNA => 71
    case MOLECULE => 72
    case ATOMS => 73
    case SPECTRUM => 74
    case PRISM => 75
    case CHROMATIC => 76
    case DIFFUSION => 77
    case STIPPLE => 78
    case HATCHING => 79
    case CROSS_HATCH => 80
    case WOOD_GRAIN => 81
    case MARBLE => 82
    case SAND => 83
    case WIND => 84
    case RAIN => 85
    case SNOW => 86
    case FIRE => 87
    case SMOKE => 88
    case CLOUD => 89
    case LIGHTNING => 90
    case AURORA => 91
    case SOLAR_FLARE => 92
    case BLACK_HOLE => 93
    case QUARTZ => 94
    case OBSIDIAN => 95
    case FROST => 96
    case MAGMA => 97
    case CORAL => 98
    case FOSSIL => 99
    case AMBER => 100
  }

  /** The enum value string of a member, which is its own name. */
  function Name(m: GenerativeMode): string
  {
    match m
    case HALFTONE => "HALFTONE"
    case TILES => "TILES"
    case NOISE_MAP => "NOISE_MAP"
    case VORTEX => "VORTEX"
    case WAVE => "WAVE"
    case CELLULAR => "CELLULAR"
    case GLITCH => "GLITCH"
    case STRIPES => "STRIPES"
    case CONCENTRIC => "CONCENTRIC"
    case BRUTALIST => "BRUTALIST"
    case BINARY => "BINARY"
    case KINETIC => "KINETIC"
    case FLOW => "FLOW"
    case ORGANIC => "ORGANIC"
    case MOSAIC => "MOSAIC"
    case RADAR => "RADAR"
    case SCANLINE => "SCANLINE"
    case CHECKER => "CHECKER"
    case DIAMOND => "DIAMOND"
    case CROSS => "CROSS"
    case ZIGZAG => "ZIGZAG"
    case PULSE => "PULSE"
    case ISOMETRIC => "ISOMETRIC"
    case PRIMITIVE => "PRIMITIVE"
    case VOID => "VOID"
    case SPIRAL => "SPIRAL"
    case LATTICE => "LATTICE"
    case PIXELATE => "PIXELATE"
    case FRACTURE => "FRACTURE"
    case ORBIT => "ORBIT"
    case NEON => "NEON"
    case DUO_TONE => "DUO_TONE"
    case SKEW => "SKEW"
    case MIRROR => "MIRROR"
    case TOPOLOGY => "TOPOLOGY"
    case STRATIFIED => "STRATIFIED"
    case RECURSIVE => "RECURSIVE"
    case PARTICLE => "PARTICLE"
    case METABALL => "METABALL"
    case FLUX => "FLUX"
    case PHASOR => "PHASOR"
    case INTERFERENCE => "INTERFERENCE"
    case KALEIDOSCOPE => "KALEIDOSCOPE"
    case DOT_MATRIX => "DOT_MATRIX"
    case SHATTER => "SHATTER"
    case PLASMA => "PLASMA"
    case CRYSTAL => "CRYSTAL"
    case ORIGAMI => "ORIGAMI"
    case WEAVE => "WEAVE"
    case LABYRINTH => "LABYRINTH"
    case ECHO => "ECHO"
    case MOIRE => "MOIRE"
    case VORONOI => "VORONOI"
    case FLUID => "FLUID"
    case STRING_THEORY => "STRING_THEORY"
    case ASCII => "ASCII"
    case BLUEPRINT => "BLUEPRINT"
    case SEISMIC => "SEISMIC"
    case RETRO_CRT => "RETRO_CRT"
    case MATRIX => "MATRIX"
    case VECTOR_FIELD => "VECTOR_FIELD"
    case GRAVITY => "GRAVITY"
    case ORBITALS => "ORBITALS"
    case SUPERNOVA => "SUPERNOVA"
    case QUASAR => "QUASAR"
    case NEBULA => "NEBULA"
    case SAWTOOTH => "SAWTOOTH"
    case TRIANGULATION => "TRIANGULATION"
    case LOW_POLY => "LOW_POLY"
    case URBAN_GRID => "URBAN_GRID"
    case CIRCUITRY => "CIRCUITRY"
    case DNA => "DNA"
    case MOLECULE => "MOLECULE"
    case ATOMS => "ATOMS"
    case SPECTRUM => "SPECTRUM"
    case PRISM => "PRISM"
    case CHROMATIC => "CHROMATIC"
    case DIFFUSION => "DIFFUSION"
    case STIPPLE => "STIPPLE"
    case HATCHING => "HATCHING"
    case CROSS_HATCH => "CROSS_HATCH"
    case WOOD_GRAIN => "WOOD_GRAIN"
    case MARBLE => "MARBLE"
    case SAND => "SAND"
    case WIND => "WIND"
    case RAIN => "RAIN"
    case SNOW => "SNOW"
    case FIRE => "FIRE"
    case SMOKE => "SMOKE"
    case CLOUD => "CLOUD"
    case LIGHTNING => "LIGHTNING"
    case AURORA => "AURORA"
    case SOLAR_FLARE => "SOLAR_FLARE"
    case BLACK_HOLE => "BLACK_HOLE"
    case QUARTZ => "QUARTZ"
    case OBSIDIAN => "OBSIDIAN"
    case FROST => "FROST"
    case MAGMA => "MAGMA"
    case CORAL => "CORAL"
    case FOSSIL => "FOSSIL"
    case AMBER => "AMBER"
  }

  /** The member at declaration index i (a binary search over the index range). */
  function ModeAt(i: nat): GenerativeMode
    requires i < ModeCount
  {
    if i < 50 then
      if i < 25 then
        if i < 12 then
          if i < 6 then
            if i < 3 then
              if i < 1 then
                HALFTONE
              else
                if i < 2 then
                  TILES
                else
                  NOISE_MAP
            else
              if i < 4 then
                VORTEX
              else
                if i < 5 then
                  WAVE
                else
                  CELLULAR
          else
            if i < 9 then
              if i < 7 then
                GLITCH
              else
                if i < 8 then
                  STRIPES
                else
                  CONCENTRIC
            else
              if i < 10 then
                BRUTALIST
              else
                if i < 11 then
                  BINARY
                else
                  KINETIC
        else
          if i < 18 then
            if i < 15 then
              if i < 13 then
                FLOW
              else
                if i < 14 then
                  ORGANIC
                else
                  MOSAIC
            else
              if i < 16 then
                RADAR
              else
                if i < 17 then
                  SCANLINE
                else
                  CHECKER
          else
            if i < 21 then
              if i < 19 then
                DIAMOND
              else
                if i < 20 then
                  CROSS
                else
                  ZIGZAG
            else
              if i < 23 then
                if i < 22 then
                  PULSE
                else
                  ISOMETRIC
              else
                if i < 24 then
                  PRIMITIVE
                else
                  VOID
      else
        if i < 37 then
          if i < 31 then
            if i < 28 then
              if i < 26 then
                SPIRAL
              else
                if i < 27 then
                  LATTICE
                else
                  PIXELATE
            else
              if i < 29 then
                FRACTURE
              else
                if i < 30 then
                  ORBIT
                else
                  NEON
          else
            if i < 34 then
              if i < 32 then
                DUO_TONE
              else
                if i < 33 then
                  SKEW
                else
                  MIRROR
            else
              if i < 35 then
                TOPOLOGY
              else
                if i < 36 then
                  STRATIFIED
                else
                  RECURSIVE
        else
          if i < 43 then
            if i < 40 then
              if i < 38 then
                PARTICLE
              else
                if i < 39 then
                  METABALL
                else
                  FLUX
            else
              if i < 41 then
                PHASOR
              else
                if i < 42 then
                  INTERFERENCE
                else
                  KALEIDOSCOPE
          else
            if i < 46 then
              if i < 44 then
                DOT_MATRIX
              else
                if i < 45 then
                  SHATTER
                else
                  PLASMA
            else
              if i < 48 then
                if i < 47 then
                  CRYSTAL
                else
                  ORIGAMI
              else
                if i < 49 then
                  WEAVE
                else
                  LABYRINTH
    else
      if i < 75 then
        if i < 62 then
          if i < 56 then
            if i < 53 then
              if i < 51 then
                ECHO
              else
                if i < 52 then
                  MOIRE
                else
                  VORONOI
            else
              if i < 54 then
                FLUID
              else
                if i < 55 then
                  STRING_THEORY
                else
                  ASCII
          else
            if i < 59 then
              if i < 57 then
                BLUEPRINT
              else
                if i < 58 then
                  SEISMIC
                else
                  RETRO_CRT
            else
              if i < 60 then
                MATRIX
              else
                if i < 61 then
                  VECTOR_FIELD
                else
                  GRAVITY
        else
          if i < 68 then
            if i < 65 then
              if i < 63 then
                ORBITALS
              else
                if i < 64 then
                  SUPERNOVA
                else
                  QUASAR
            else
              if i < 66 then
                NEBULA
              else
                if i < 67 then
                  SAWTOOTH
                else
                  TRIANGULATION
          else
            if i < 71 then
              if i < 69 then
                LOW_POLY
              else
                if i < 70 then
                  URBAN_GRID
                else
                  CIRCUITRY
            else
              if i < 73 then
                if i < 72 then
                  DNA
                else
                  MOLECULE
              else
                if i < 74 then
                  ATOMS
                else
                  SPECTRUM
      else
        if i < 88 then
          if i < 81 then
            if i < 78 then
              if i < 76 then
                PRISM
              else
                if i < 77 then
                  CHROMATIC
                else
                  DIFFUSION
            else
              if i < 79 then
                STIPPLE
              else
                if i < 80 then
                  HATCHING
                else
                  CROSS_HATCH
          else
            if i < 84 then
              if i < 82 then
                WOOD_GRAIN
              else
                if i < 83 then
                  MARBLE
                else
                  SAND
            else
              if i < 86 then
                if i < 85 then
                  WIND
                else
                  RAIN
              else
                if i < 87 then
                  SNOW
                else
                  FIRE
        else
          if i < 94 then
            if i < 91 then
              if i < 89 then
                SMOKE
              else
                if i < 90 then
                  CLOUD
                else
                  LIGHTNING
            else
              if i < 92 then
                AURORA
              else
                if i < 93 then
                  SOLAR_FLARE
                else
                  BLACK_HOLE
          else
            if i < 97 then
              if i < 95 then
                QUARTZ
              else
                if i < 96 then
                  OBSIDIAN
                else
                  FROST
            else
              if i < 99 then
                if i < 98 then
                  MAGMA
                else
                  CORAL
              else
                if i < 100 then
                  FOSSIL
                else
                  AMBER
  }

  /** `Object.values(GenerativeMode)`: every member, in declaration order. */
  const AllModes: seq<GenerativeMode> := seq(ModeCount, i requires 0 <= i < ModeCount => ModeAt(i))

  /** The member whose value string could be s, chosen by the first character of s and
      then by comparing s with the values that start with it. */
  function Candidate(s: string): Option<GenerativeMode>
  {
    if |s| == 0 then None
    else match s[0]
      case 'A' =>
        (match s
        case "ASCII" => Some(ASCII)
        case "ATOMS" => Some(ATOMS)
        case "AURORA" => Some(AURORA)
        case "AMBER" => Some(AMBER)
        case _ => None)
      case 'B' =>
        (match s
        case "BRUTALIST" => Some(BRUTALIST)
        case "BINARY" => Some(BINARY)
        case "BLUEPRINT" => Some(BLUEPRINT)
        case "BLACK_HOLE" => Some(BLACK_HOLE)
        case _ => None)
      case 'C' =>
        (match s
        case "CELLULAR" => Some(CELLULAR)
        case "CONCENTRIC" => Some(CONCENTRIC)
        case "CHECKER" => Some(CHECKER)
        case "CROSS" => Some(CROSS)
        case "CRYSTAL" => Some(CRYSTAL)
        case "CIRCUITRY" => Some(CIRCUITRY)
        case "CHROMATIC" => Some(CHROMATIC)
        case "CROSS_HATCH" => Some(CROSS_HATCH)
        case "CLOUD" => Some(CLOUD)
        case "CORAL" => Some(CORAL)
        case _ => None)
      case 'D' =>
        (match s
        case "DIAMOND" => Some(DIAMOND)
        case "DUO_TONE" => Some(DUO_TONE)
        case "DOT_MATRIX" => Some(DOT_MATRIX)
        case "DNA" => Some(DNA)
        case "DIFFUSION" => Some(DIFFUSION)
        case _ => None)
      case 'E' =>
        (match s
        case "ECHO" => Some(ECHO)
        case _ => None)
      case 'F' =>
        (match s
        case "FLOW" => Some(FLOW)
        case "FRACTURE" => Some(FRACTURE)
        case "FLUX" => Some(FLUX)
        case "FLUID" => Some(FLUID)
        case "FIRE" => Some(FIRE)
        case "FROST" => Some(FROST)
        case "FOSSIL" => Some(FOSSIL)
        case _ => None)
      case 'G' =>
        (match s
        case "GLITCH" => Some(GLITCH)
        case "GRAVITY" => Some(GRAVITY)
        case _ => None)
      case 'H' =>
        (match s
        case "HALFTONE" => Some(HALFTONE)
        case "HATCHING" => Some(HATCHING)
        case _ => None)
      case 'I' =>
        (match s
        case "ISOMETRIC" => Some(ISOMETRIC)
        case "INTERFERENCE" => Some(INTERFERENCE)
        case _ => None)
      case 'K' =>
        (match s
        case "KINETIC" => Some(KINETIC)
        case "KALEIDOSCOPE" => Some(KALEIDOSCOPE)
        case _ => None)
      case 'L' =>
        (match s
        case "LATTICE" => Some(LATTICE)
        case "LABYRINTH" => Some(LABYRINTH)
        case "LOW_POLY" => Some(LOW_POLY)
        case "LIGHTNING" => Some(LIGHTNING)
        case _ => None)
      case 'M' =>
        (match s
        case "MOSAIC" => Some(MOSAIC)
        case "MIRROR" => Some(MIRROR)
        case "METABALL" => Some(METABALL)
        case "MOIRE" => Some(MOIRE)
        case "MATRIX" => Some(MATRIX)
        case "MOLECULE" => Some(MOLECULE)
        case "MARBLE" => Some(MARBLE)
        case "MAGMA" => Some(MAGMA)
        case _ => None)
      case 'N' =>
        (match s
        case "NOISE_MAP" => Some(NOISE_MAP)
        case "NEON" => Some(NEON)
        case "NEBULA" => Some(NEBULA)
        case _ => None)
      case 'O' =>
        (match s
        case "ORGANIC" => Some(ORGANIC)
        case "ORBIT" => Some(ORBIT)
        case "ORIGAMI" => Some(ORIGAMI)
        case "ORBITALS" => Some(ORBITALS)
        case "OBSIDIAN" => Some(OBSIDIAN)
        case _ => None)
      case 'P' =>
        (match s
        case "PULSE" => Some(PULSE)
        case "PRIMITIVE" => Some(PRIMITIVE)
        case "PIXELATE" => Some(PIXELATE)
        case "PARTICLE" => Some(PARTICLE)
        case "PHASOR" => Some(PHASOR)
        case "PLASMA" => Some(PLASMA)
        case "PRISM" => Some(PRISM)
        case _ => None)
      case 'Q' =>
        (match s
        case "QUASAR" => Some(QUASAR)
        case "QUARTZ" => Some(QUARTZ)
        case _ => None)
      case 'R' =>
        (match s
        case "RADAR" => Some(RADAR)
        case "RECURSIVE" => Some(RECURSIVE)
        case "RETRO_CRT" => Some(RETRO_CRT)
        case "RAIN" => Some(RAIN)
        case _ => None)
      case 'S' =>
        (match s
        case "STRIPES" => Some(STRIPES)
        case "SCANLINE" => Some(SCANLINE)
        case "SPIRAL" => Some(SPIRAL)
        case "SKEW" => Some(SKEW)
        case "STRATIFIED" => Some(STRATIFIED)
        case "SHATTER" => Some(SHATTER)
        case "STRING_THEORY" => Some(STRING_THEORY)
        case "SEISMIC" => Some(SEISMIC)
        case "SUPERNOVA" => Some(SUPERNOVA)
        case "SAWTOOTH" => Some(SAWTOOTH)
        case "SPECTRUM" => Some(SPECTRUM)
        case "STIPPLE" => Some(STIPPLE)
        case "SAND" => Some(SAND)
        case "SNOW" => Some(SNOW)
        case "SMOKE" => Some(SMOKE)
        case "SOLAR_FLARE" => Some(SOLAR_FLARE)
        case _ => None)
      case 'T' =>
        (match s
        case "TILES" => Some(TILES)
        case "TOPOLOGY" => Some(TOPOLOGY)
        case "TRIANGULATION" => Some(TRIANGULATION)
        case _ => None)
      case 'U' =>
        (match s
        case "URBAN_GRID" => Some(URBAN_GRID)
        case _ => None)
      case 'V' =>
        (match s
        case "VORTEX" => Some(VORTEX)
        case "VOID" => Some(VOID)
        case "VORONOI" => Some(VORONOI)
        case "VECTOR_FIELD" => Some(VECTOR_FIELD)
        case _ => None)
      case 'W' =>
        (match s
        case "WAVE" => Some(WAVE)
        case "WEAVE" => Some(WEAVE)
        case "WOOD_GRAIN" => Some(WOOD_GRAIN)
        case "WIND" => Some(WIND)
        case _ => None)
      case 'Z' =>
        (match s
        case "ZIGZAG" => Some(ZIGZAG)
        case _ => None)
      case _ => None
  }

  /** Which member, if any, has the value string s. */
  function FromName(s: string): (r: Option<GenerativeMode>)
    ensures r.Some? ==> Name(r.value) == s
  {
    var c := Candidate(s);
    if c.Some? && Name(c.value) == s then c else None
  }


  /* The member table, member by member: for each member its declaration index, the
     member at that index, its value string, and what that string resolves to. Each row
     is its own lemma so that every proof unfolds the tables for one member only. */

  lemma Member_HALFTONE()
    ensures Index(HALFTONE) == 0 && ModeAt(0) == HALFTONE && Name(HALFTONE) == "HALFTONE" && FromName("HALFTONE") == Some(HALFTONE)
  {
  }

  lemma Member_TILES()
    ensures Index(TILES) == 1 && ModeAt(1) == TILES && Name(TILES) == "TILES" && FromName("TILES") == Some(TILES)
  {
  }

  lemma Member_NOISE_MAP()
    ensures Index(NOISE_MAP) == 2 && ModeAt(2) == NOISE_MAP && Name(NOISE_MAP) == "NOISE_MAP" && FromName("NOISE_MAP") == Some(NOISE_MAP)
  {
  }

  lemma Member_VORTEX()
    ensures Index(VORTEX) == 3 && ModeAt(3) == VORTEX && Name(VORTEX) == "VORTEX" && FromName("VORTEX") == Some(VORTEX)
  {
  }

  lemma Member_WAVE()
    ensures Index(WAVE) == 4 && ModeAt(4) == WAVE && Name(WAVE) == "WAVE" && FromName("WAVE") == Some(WAVE)
  {
  }

  lemma Member_CELLULAR()
    ensures Index(CELLULAR) == 5 && ModeAt(5) == CELLULAR && Name(CELLULAR) == "CELLULAR" && FromName("CELLULAR") == Some(CELLULAR)
  {
  }

  lemma Member_GLITCH()
    ensures Index(GLITCH) == 6 && ModeAt(6) == GLITCH && Name(GLITCH) == "GLITCH" && FromName("GLITCH") == Some(GLITCH)
  {
  }

  lemma Member_STRIPES()
    ensures Index(STRIPES) == 7 && ModeAt(7) == STRIPES && Name(STRIPES) == "STRIPES" && FromName("STRIPES") == Some(STRIPES)
  {
  }

  lemma Member_CONCENTRIC()
    ensures Index(CONCENTRIC) == 8 && ModeAt(8) == CONCENTRIC && Name(CONCENTRIC) == "CONCENTRIC" && FromName("CONCENTRIC") == Some(CONCENTRIC)
  {
  }

  lemma Member_BRUTALIST()
    ensures Index(BRUTALIST) == 9 && ModeAt(9) == BRUTALIST && Name(BRUTALIST) == "BRUTALIST" && FromName("BRUTALIST") == Some(BRUTALIST)
  {
  }

  lemma Member_BINARY()
    ensures Index(BINARY) == 10 && ModeAt(10) == BINARY && Name(BINARY) == "BINARY" && FromName("BINARY") == Some(BINARY)
  {
  }

  lemma Member_KINETIC()
    ensures Index(KINETIC) == 11 && ModeAt(11) == KINETIC && Name(KINETIC) == "KINETIC" && FromName("KINETIC") == Some(KINETIC)
  {
  }

  lemma Member_FLOW()
    ensures Index(FLOW) == 12 && ModeAt(12) == FLOW && Name(FLOW) == "FLOW" && FromName("FLOW") == Some(FLOW)
  {
  }

  lemma Member_ORGANIC()
    ensures Index(ORGANIC) == 13 && ModeAt(13) == ORGANIC && Name(ORGANIC) == "ORGANIC" && FromName("ORGANIC") == Some(ORGANIC)
  {
  }

  lemma Member_MOSAIC()
    ensures Index(MOSAIC) == 14 && ModeAt(14) == MOSAIC && Name(MOSAIC) == "MOSAIC" && FromName("MOSAIC") == Some(MOSAIC)
  {
  }

  lemma Member_RADAR()
    ensures Index(RADAR) == 15 && ModeAt(15) == RADAR && Name(RADAR) == "RADAR" && FromName("RADAR") == Some(RADAR)
  {
  }

  lemma Member_SCANLINE()
    ensures Index(SCANLINE) == 16 && ModeAt(16) == SCANLINE && Name(SCANLINE) == "SCANLINE" && FromName("SCANLINE") == Some(SCANLINE)
  {
  }

  lemma Member_CHECKER()
    ensures Index(CHECKER) == 17 && ModeAt(17) == CHECKER && Name(CHECKER) == "CHECKER" && FromName("CHECKER") == Some(CHECKER)
  {
  }

  lemma Member_DIAMOND()
    ensures Index(DIAMOND) == 18 && ModeAt(18) == DIAMOND && Name(DIAMOND) == "DIAMOND" && FromName("DIAMOND") == Some(DIAMOND)
  {
  }

  lemma Member_CROSS()
    ensures Index(CROSS) == 19 && ModeAt(19) == CROSS && Name(CROSS) == "CROSS" && FromName("CROSS") == Some(CROSS)
  {
  }

  lemma Member_ZIGZAG()
    ensures Index(ZIGZAG) == 20 && ModeAt(20) == ZIGZAG && Name(ZIGZAG) == "ZIGZAG" && FromName("ZIGZAG") == Some(ZIGZAG)
  {
  }

  lemma Member_PULSE()
    ensures Index(PULSE) == 21 && ModeAt(21) == PULSE && Name(PULSE) == "PULSE" && FromName("PULSE") == Some(PULSE)
  {
  }

  lemma Member_ISOMETRIC()
    ensures Index(ISOMETRIC) == 22 && ModeAt(22) == ISOMETRIC && Name(ISOMETRIC) == "ISOMETRIC" && FromName("ISOMETRIC") == Some(ISOMETRIC)
  {
  }

  lemma Member_PRIMITIVE()
    ensures Index(PRIMITIVE) == 23 && ModeAt(23) == PRIMITIVE && Name(PRIMITIVE) == "PRIMITIVE" && FromName("PRIMITIVE") == Some(PRIMITIVE)
  {
  }

  lemma Member_VOID()
    ensures Index(VOID) == 24 && ModeAt(24) == VOID && Name(VOID) == "VOID" && FromName("VOID") == Some(VOID)
  {
  }

  lemma Member_SPIRAL()
    ensures Index(SPIRAL) == 25 && ModeAt(25) == SPIRAL && Name(SPIRAL) == "SPIRAL" && FromName("SPIRAL") == Some(SPIRAL)
  {
  }

  lemma Member_LATTICE()
    ensures Index(LATTICE) == 26 && ModeAt(26) == LATTICE && Name(LATTICE) == "LATTICE" && FromName("LATTICE") == Some(LATTICE)
  {
  }

  lemma Member_PIXELATE()
    ensures Index(PIXELATE) == 27 && ModeAt(27) == PIXELATE && Name(PIXELATE) == "PIXELATE" && FromName("PIXELATE") == Some(PIXELATE)
  {
  }

  lemma Member_FRACTURE()
    ensures Index(FRACTURE) == 28 && ModeAt(28) == FRACTURE && Name(FRACTURE) == "FRACTURE" && FromName("FRACTURE") == Some(FRACTURE)
  {
  }

  lemma Member_ORBIT()
    ensures Index(ORBIT) == 29 && ModeAt(29) == ORBIT && Name(ORBIT) == "ORBIT" && FromName("ORBIT") == Some(ORBIT)
  {
  }

  lemma Member_NEON()
    ensures Index(NEON) == 30 && ModeAt(30) == NEON && Name(NEON) == "NEON" && FromName("NEON") == Some(NEON)
  {
  }

  lemma Member_DUO_TONE()
    ensures Index(DUO_TONE) == 31 && ModeAt(31) == DUO_TONE && Name(DUO_TONE) == "DUO_TONE" && FromName("DUO_TONE") == Some(DUO_TONE)
  {
  }

  lemma Member_SKEW()
    ensures Index(SKEW) == 32 && ModeAt(32) == SKEW && Name(SKEW) == "SKEW" && FromName("SKEW") == Some(SKEW)
  {
  }

  lemma Member_MIRROR()
    ensures Index(MIRROR) == 33 && ModeAt(33) == MIRROR && Name(MIRROR) == "MIRROR" && FromName("MIRROR") == Some(MIRROR)
  {
  }

  lemma Member_TOPOLOGY()
    ensures Index(TOPOLOGY) == 34 && ModeAt(34) == TOPOLOGY && Name(TOPOLOGY) == "TOPOLOGY" && FromName("TOPOLOGY") == Some(TOPOLOGY)
  {
  }

  lemma Member_STRATIFIED()
    ensures Index(STRATIFIED) == 35 && ModeAt(35) == STRATIFIED && Name(STRATIFIED) == "STRATIFIED" && FromName("STRATIFIED") == Some(STRATIFIED)
  {
  }

  lemma Member_RECURSIVE()
    ensures Index(RECURSIVE) == 36 && ModeAt(36) == RECURSIVE && Name(RECURSIVE) == "RECURSIVE" && FromName("RECURSIVE") == Some(RECURSIVE)
  {
  }

  lemma Member_PARTICLE()
    ensures Index(PARTICLE) == 37 && ModeAt(37) == PARTICLE && Name(PARTICLE) == "PARTICLE" && FromName("PARTICLE") == Some(PARTICLE)
  {
  }

  lemma Member_METABALL()
    ensures Index(METABALL) == 38 && ModeAt(38) == METABALL && Name(METABALL) == "METABALL" && FromName("METABALL") == Some(METABALL)
  {
  }

  lemma Member_FLUX()
    ensures Index(FLUX) == 39 && ModeAt(39) == FLUX && Name(FLUX) == "FLUX" && FromName("FLUX") == Some(FLUX)
  {
  }

  lemma Member_PHASOR()
    ensures Index(PHASOR) == 40 && ModeAt(40) == PHASOR && Name(PHASOR) == "PHASOR" && FromName("PHASOR") == Some(PHASOR)
  {
  }

  lemma Member_INTERFERENCE()
    ensures Index(INTERFERENCE) == 41 && ModeAt(41) == INTERFERENCE && Name(INTERFERENCE) == "INTERFERENCE" && FromName("INTERFERENCE") == Some(INTERFERENCE)
  {
  }

  lemma Member_KALEIDOSCOPE()
    ensures Index(KALEIDOSCOPE) == 42 && ModeAt(42) == KALEIDOSCOPE && Name(KALEIDOSCOPE) == "KALEIDOSCOPE" && FromName("KALEIDOSCOPE") == Some(KALEIDOSCOPE)
  {
  }

  lemma Member_DOT_MATRIX()
    ensures Index(DOT_MATRIX) == 43 && ModeAt(43) == DOT_MATRIX && Name(DOT_MATRIX) == "DOT_MATRIX" && FromName("DOT_MATRIX") == Some(DOT_MATRIX)
  {
  }

  lemma Member_SHATTER()
    ensures Index(SHATTER) == 44 && ModeAt(44) == SHATTER && Name(SHATTER) == "SHATTER" && FromName("SHATTER") == Some(SHATTER)
  {
  }

  lemma Member_PLASMA()
    ensures Index(PLASMA) == 45 && ModeAt(45) == PLASMA && Name(PLASMA) == "PLASMA" && FromName("PLASMA") == Some(PLASMA)
  {
  }

  lemma Member_CRYSTAL()
    ensures Index(CRYSTAL) == 46 && ModeAt(46) == CRYSTAL && Name(CRYSTAL) == "CRYSTAL" && FromName("CRYSTAL") == Some(CRYSTAL)
  {
  }

  lemma Member_ORIGAMI()
    ensures Index(ORIGAMI) == 47 && ModeAt(47) == ORIGAMI && Name(ORIGAMI) == "ORIGAMI" && FromName("ORIGAMI") == Some(ORIGAMI)
  {
  }

  lemma Member_WEAVE()
    ensures Index(WEAVE) == 48 && ModeAt(48) == WEAVE && Name(WEAVE) == "WEAVE" && FromName("WEAVE") == Some(WEAVE)
  {
  }

  lemma Member_LABYRINTH()
    ensures Index(LABYRINTH) == 49 && ModeAt(49) == LABYRINTH && Name(LABYRINTH) == "LABYRINTH" && FromName("LABYRINTH") == Some(LABYRINTH)
  {
  }

  lemma Member_ECHO()
    ensures Index(ECHO) == 50 && ModeAt(50) == ECHO && Name(ECHO) == "ECHO" && FromName("ECHO") == Some(ECHO)
  {
  }

  lemma Member_MOIRE()
    ensures Index(MOIRE) == 51 && ModeAt(51) == MOIRE && Name(MOIRE) == "MOIRE" && FromName("MOIRE") == Some(MOIRE)
  {
  }

  lemma Member_VORONOI()
    ensures Index(VORONOI) == 52 && ModeAt(52) == VORONOI && Name(VORONOI) == "VORONOI" && FromName("VORONOI") == Some(VORONOI)
  {
  }

  lemma Member_FLUID()
    ensures Index(FLUID) == 53 && ModeAt(53) == FLUID && Name(FLUID) == "FLUID" && FromName("FLUID") == Some(FLUID)
  {
  }

  lemma Member_STRING_THEORY()
    ensures Index(STRING_THEORY) == 54 && ModeAt(54) == STRING_THEORY && Name(STRING_THEORY) == "STRING_THEORY" && FromName("STRING_THEORY") == Some(STRING_THEORY)
  {
  }

  lemma Member_ASCII()
    ensures Index(ASCII) == 55 && ModeAt(55) == ASCII && Name(ASCII) == "ASCII" && FromName("ASCII") == Some(ASCII)
  {
  }

  lemma Member_BLUEPRINT()
    ensures Index(BLUEPRINT) == 56 && ModeAt(56) == BLUEPRINT && Name(BLUEPRINT) == "BLUEPRINT" && FromName("BLUEPRINT") == Some(BLUEPRINT)
  {
  }

  lemma Member_SEISMIC()
    ensures Index(SEISMIC) == 57 && ModeAt(57) == SEISMIC && Name(SEISMIC) == "SEISMIC" && FromName("SEISMIC") == Some(SEISMIC)
  {
  }

  lemma Member_RETRO_CRT()
    ensures Index(RETRO_CRT) == 58 && ModeAt(58) == RETRO_CRT && Name(RETRO_CRT) == "RETRO_CRT" && FromName("RETRO_CRT") == Some(RETRO_CRT)
  {
  }

  lemma Member_MATRIX()
    ensures Index(MATRIX) == 59 && ModeAt(59) == MATRIX && Name(MATRIX) == "MATRIX" && FromName("MATRIX") == Some(MATRIX)
  {
  }

  lemma Member_VECTOR_FIELD()
    ensures Index(VECTOR_FIELD) == 60 && ModeAt(60) == VECTOR_FIELD && Name(VECTOR_FIELD) == "VECTOR_FIELD" && FromName("VECTOR_FIELD") == Some(VECTOR_FIELD)
  {
  }

  lemma Member_GRAVITY()
    ensures Index(GRAVITY) == 61 && ModeAt(61) == GRAVITY && Name(GRAVITY) == "GRAVITY" && FromName("GRAVITY") == Some(GRAVITY)
  {
  }

  lemma Member_ORBITALS()
    ensures Index(ORBITALS) == 62 && ModeAt(62) == ORBITALS && Name(ORBITALS) == "ORBITALS" && FromName("ORBITALS") == Some(ORBITALS)
  {
  }

  lemma Member_SUPERNOVA()
    ensures Index(SUPERNOVA) == 63 && ModeAt(63) == SUPERNOVA && Name(SUPERNOVA) == "SUPERNOVA" && FromName("SUPERNOVA") == Some(SUPERNOVA)
  {
  }

  lemma Member_QUASAR()
    ensures Index(QUASAR) == 64 && ModeAt(64) == QUASAR && Name(QUASAR) == "QUASAR" && FromName("QUASAR") == Some(QUASAR)
  {
  }

  lemma Member_NEBULA()
    ensures Index(NEBULA) == 65 && ModeAt(65) == NEBULA && Name(NEBULA) == "NEBULA" && FromName("NEBULA") == Some(NEBULA)
  {
  }

  lemma Member_SAWTOOTH()
    ensures Index(SAWTOOTH) == 66 && ModeAt(66) == SAWTOOTH && Name(SAWTOOTH) == "SAWTOOTH" && FromName("SAWTOOTH") == Some(SAWTOOTH)
  {
  }

  lemma Member_TRIANGULATION()
    ensures Index(TRIANGULATION) == 67 && ModeAt(67) == TRIANGULATION && Name(TRIANGULATION) == "TRIANGULATION" && FromName("TRIANGULATION") == Some(TRIANGULATION)
  {
  }

  lemma Member_LOW_POLY()
    ensures Index(LOW_POLY) == 68 && ModeAt(68) == LOW_POLY && Name(LOW_POLY) == "LOW_POLY" && FromName("LOW_POLY") == Some(LOW_POLY)
  {
  }

  lemma Member_URBAN_GRID()
    ensures Index(URBAN_GRID) == 69 && ModeAt(69) == URBAN_GRID && Name(URBAN_GRID) == "URBAN_GRID" && FromName("URBAN_GRID") == Some(URBAN_GRID)
  {
  }

  lemma Member_CIRCUITRY()
    ensures Index(CIRCUITRY) == 70 && ModeAt(70) == CIRCUITRY && Name(CIRCUITRY) == "CIRCUITRY" && FromName("CIRCUITRY") == Some(CIRCUITRY)
  {
  }

  lemma Member_DNA()
    ensures Index(DNA) == 71 && ModeAt(71) == DNA && Name(DNA) == "DNA" && FromName("DNA") == Some(DNA)
  {
  }

  lemma Member_MOLECULE()
    ensures Index(MOLECULE) == 72 && ModeAt(72) == MOLECULE && Name(MOLECULE) == "MOLECULE" && FromName("MOLECULE") == Some(MOLECULE)
  {
  }

  lemma Member_ATOMS()
    ensures Index(ATOMS) == 73 && ModeAt(73) == ATOMS && Name(ATOMS) == "ATOMS" && FromName("ATOMS") == Some(ATOMS)
  {
  }

  lemma Member_SPECTRUM()
    ensures Index(SPECTRUM) == 74 && ModeAt(74) == SPECTRUM && Name(SPECTRUM) == "SPECTRUM" && FromName("SPECTRUM") == Some(SPECTRUM)
  {
  }

  lemma Member_PRISM()
    ensures Index(PRISM) == 75 && ModeAt(75) == PRISM && Name(PRISM) == "PRISM" && FromName("PRISM") == Some(PRISM)
  {
  }

  lemma Member_CHROMATIC()
    ensures Index(CHROMATIC) == 76 && ModeAt(76) == CHROMATIC && Name(CHROMATIC) == "CHROMATIC" && FromName("CHROMATIC") == Some(CHROMATIC)
  {
  }

  lemma Member_DIFFUSION()
    ensures Index(DIFFUSION) == 77 && ModeAt(77) == DIFFUSION && Name(DIFFUSION) == "DIFFUSION" && FromName("DIFFUSION") == Some(DIFFUSION)
  {
  }

  lemma Member_STIPPLE()
    ensures Index(STIPPLE) == 78 && ModeAt(78) == STIPPLE && Name(STIPPLE) == "STIPPLE" && FromName("STIPPLE") == Some(STIPPLE)
  {
  }

  lemma Member_HATCHING()
    ensures Index(HATCHING) == 79 && ModeAt(79) == HATCHING && Name(HATCHING) == "HATCHING" && FromName("HATCHING") == Some(HATCHING)
  {
  }

  lemma Member_CROSS_HATCH()
    ensures Index(CROSS_HATCH) == 80 && ModeAt(80) == CROSS_HATCH && Name(CROSS_HATCH) == "CROSS_HATCH" && FromName("CROSS_HATCH") == Some(CROSS_HATCH)
  {
  }

  lemma Member_WOOD_GRAIN()
    ensures Index(WOOD_GRAIN) == 81 && ModeAt(81) == WOOD_GRAIN && Name(WOOD_GRAIN) == "WOOD_GRAIN" && FromName("WOOD_GRAIN") == Some(WOOD_GRAIN)
  {
  }

  lemma Member_MARBLE()
    ensures Index(MARBLE) == 82 && ModeAt(82) == MARBLE && Name(MARBLE) == "MARBLE" && FromName("MARBLE") == Some(MARBLE)
  {
  }

  lemma Member_SAND()
    ensures Index(SAND) == 83 && ModeAt(83) == SAND && Name(SAND) == "SAND" && FromName("SAND") == Some(SAND)
  {
  }

  lemma Member_WIND()
    ensures Index(WIND) == 84 && ModeAt(84) == WIND && Name(WIND) == "WIND" && FromName("WIND") == Some(WIND)
  {
  }

  lemma Member_RAIN()
    ensures Index(RAIN) == 85 && ModeAt(85) == RAIN && Name(RAIN) == "RAIN" && FromName("RAIN") == Some(RAIN)
  {
  }

  lemma Member_SNOW()
    ensures Index(SNOW) == 86 && ModeAt(86) == SNOW && Name(SNOW) == "SNOW" && FromName("SNOW") == Some(SNOW)
  {
  }

  lemma Member_FIRE()
    ensures Index(FIRE) == 87 && ModeAt(87) == FIRE && Name(FIRE) == "FIRE" && FromName("FIRE") == Some(FIRE)
  {
  }

  lemma Member_SMOKE()
    ensures Index(SMOKE) == 88 && ModeAt(88) == SMOKE && Name(SMOKE) == "SMOKE" && FromName("SMOKE") == Some(SMOKE)
  {
  }

  lemma Member_CLOUD()
    ensures Index(CLOUD) == 89 && ModeAt(89) == CLOUD && Name(CLOUD) == "CLOUD" && FromName("CLOUD") == Some(CLOUD)
  {
  }

  lemma Member_LIGHTNING()
    ensures Index(LIGHTNING) == 90 && ModeAt(90) == LIGHTNING && Name(LIGHTNING) == "LIGHTNING" && FromName("LIGHTNING") == Some(LIGHTNING)
  {
  }

  lemma Member_AURORA()
    ensures Index(AURORA) == 91 && ModeAt(91) == AURORA && Name(AURORA) == "AURORA" && FromName("AURORA") == Some(AURORA)
  {
  }

  lemma Member_SOLAR_FLARE()
    ensures Index(SOLAR_FLARE) == 92 && ModeAt(92) == SOLAR_FLARE && Name(SOLAR_FLARE) == "SOLAR_FLARE" && FromName("SOLAR_FLARE") == Some(SOLAR_FLARE)
  {
  }

  lemma Member_BLACK_HOLE()
    ensures Index(BLACK_HOLE) == 93 && ModeAt(93) == BLACK_HOLE && Name(BLACK_HOLE) == "BLACK_HOLE" && FromName("BLACK_HOLE") == Some(BLACK_HOLE)
  {
  }

  lemma Member_QUARTZ()
    ensures Index(QUARTZ) == 94 && ModeAt(94) == QUARTZ && Name(QUARTZ) == "QUARTZ" && FromName("QUARTZ") == Some(QUARTZ)
  {
  }

  lemma Member_OBSIDIAN()
    ensures Index(OBSIDIAN) == 95 && ModeAt(95) == OBSIDIAN && Name(OBSIDIAN) == "OBSIDIAN" && FromName("OBSIDIAN") == Some(OBSIDIAN)
  {
  }

  lemma Member_FROST()
    ensures Index(FROST) == 96 && ModeAt(96) == FROST && Name(FROST) == "FROST" && FromName("FROST") == Some(FROST)
  {
  }

  lemma Member_MAGMA()
    ensures Index(MAGMA) == 97 && ModeAt(97) == MAGMA && Name(MAGMA) == "MAGMA" && FromName("MAGMA") == Some(MAGMA)
  {
  }

  lemma Member_CORAL()
    ensures Index(CORAL) == 98 && ModeAt(98) == CORAL && Name(CORAL) == "CORAL" && FromName("CORAL") == Some(CORAL)
  {
  }

  lemma Member_FOSSIL()
    ensures Index(FOSSIL) == 99 && ModeAt(99) == FOSSIL && Name(FOSSIL) == "FOSSIL" && FromName("FOSSIL") == Some(FOSSIL)
  {
  }

  lemma Member_AMBER()
    ensures Index(AMBER) == 100 && ModeAt(100) == AMBER && Name(AMBER) == "AMBER" && FromName("AMBER") == Some(AMBER)
  {
  }

  /** ModeAt undoes Index, and every member's value string resolves back to the member. */
  lemma RoundTrip(m: GenerativeMode)
    ensures ModeAt(Index(m)) == m
    ensures FromName(Name(m)) == Some(m)
  {
    match m
    case HALFTONE => Member_HALFTONE();
    case TILES => Member_TILES();
    case NOISE_MAP => Member_NOISE_MAP();
    case VORTEX => Member_VORTEX();
    case WAVE => Member_WAVE();
    case CELLULAR => Member_CELLULAR();
    case GLITCH => Member_GLITCH();
    case STRIPES => Member_STRIPES();
    case CONCENTRIC => Member_CONCENTRIC();
    case BRUTALIST => Member_BRUTALIST();
    case BINARY => Member_BINARY();
    case KINETIC => Member_KINETIC();
    case FLOW => Member_FLOW();
    case ORGANIC => Member_ORGANIC();
    case MOSAIC => Member_MOSAIC();
    case RADAR => Member_RADAR();
    case SCANLINE => Member_SCANLINE();
    case CHECKER => Member_CHECKER();
    case DIAMOND => Member_DIAMOND();
    case CROSS => Member_CROSS();
    case ZIGZAG => Member_ZIGZAG();
    case PULSE => Member_PULSE();
    case ISOMETRIC => Member_ISOMETRIC();
    case PRIMITIVE => Member_PRIMITIVE();
    case VOID => Member_VOID();
    case SPIRAL => Member_SPIRAL();
    case LATTICE => Member_LATTICE();
    case PIXELATE => Member_PIXELATE();
    case FRACTURE => Member_FRACTURE();
    case ORBIT => Member_ORBIT();
    case NEON => Member_NEON();
    case DUO_TONE => Member_DUO_TONE();
    case SKEW => Member_SKEW();
    case MIRROR => Member_MIRROR();
    case TOPOLOGY => Member_TOPOLOGY();
    case STRATIFIED => Member_STRATIFIED();
    case RECURSIVE => Member_RECURSIVE();
    case PARTICLE => Member_PARTICLE();
    case METABALL => Member_METABALL();
    case FLUX => Member_FLUX();
    case PHASOR => Member_PHASOR();
    case INTERFERENCE => Member_INTERFERENCE();
    case KALEIDOSCOPE => Member_KALEIDOSCOPE();
    case DOT_MATRIX => Member_DOT_MATRIX();
    case SHATTER => Member_SHATTER();
    case PLASMA => Member_PLASMA();
    case CRYSTAL => Member_CRYSTAL();
    case ORIGAMI => Member_ORIGAMI();
    case WEAVE => Member_WEAVE();
    case LABYRINTH => Member_LABYRINTH();
    case ECHO => Member_ECHO();
    case MOIRE => Member_MOIRE();
    case VORONOI => Member_VORONOI();
    case FLUID => Member_FLUID();
    case STRING_THEORY => Member_STRING_THEORY();
    case ASCII => Member_ASCII();
    case BLUEPRINT => Member_BLUEPRINT();
    case SEISMIC => Member_SEISMIC();
    case RETRO_CRT => Member_RETRO_CRT();
    case MATRIX => Member_MATRIX();
    case VECTOR_FIELD => Member_VECTOR_FIELD();
    case GRAVITY => Member_GRAVITY();
    case ORBITALS => Member_ORBITALS();
    case SUPERNOVA => Member_SUPERNOVA();
    case QUASAR => Member_QUASAR();
    case NEBULA => Member_NEBULA();
    case SAWTOOTH => Member_SAWTOOTH();
    case TRIANGULATION => Member_TRIANGULATION();
    case LOW_POLY => Member_LOW_POLY();
    case URBAN_GRID => Member_URBAN_GRID();
    case CIRCUITRY => Member_CIRCUITRY();
    case DNA => Member_DNA();
    case MOLECULE => Member_MOLECULE();
    case ATOMS => Member_ATOMS();
    case SPECTRUM => Member_SPECTRUM();
    case PRISM => Member_PRISM();
    case CHROMATIC => Member_CHROMATIC();
    case DIFFUSION => Member_DIFFUSION();
    case STIPPLE => Member_STIPPLE();
    case HATCHING => Member_HATCHING();
    case CROSS_HATCH => Member_CROSS_HATCH();
    case WOOD_GRAIN => Member_WOOD_GRAIN();
    case MARBLE => Member_MARBLE();
    case SAND => Member_SAND();
    case WIND => Member_WIND();
    case RAIN => Member_RAIN();
    case SNOW => Member_SNOW();
    case FIRE => Member_FIRE();
    case SMOKE => Member_SMOKE();
    case CLOUD => Member_CLOUD();
    case LIGHTNING => Member_LIGHTNING();
    case AURORA => Member_AURORA();
    case SOLAR_FLARE => Member_SOLAR_FLARE();
    case BLACK_HOLE => Member_BLACK_HOLE();
    case QUARTZ => Member_QUARTZ();
    case OBSIDIAN => Member_OBSIDIAN();
    case FROST => Member_FROST();
    case MAGMA => Member_MAGMA();
    case CORAL => Member_CORAL();
    case FOSSIL => Member_FOSSIL();
    case AMBER => Member_AMBER();
  }

  /** Index undoes ModeAt: the declaration indices are exactly 0 .. ModeCount - 1. */
  lemma IndexOfModeAt(i: nat)
    requires i < ModeCount
    ensures Index(ModeAt(i)) == i
  {
    if i < 50 {
      if i < 25 {
        if i < 12 {
          if i < 6 {
            if i < 3 {
              if i < 1 {
                Member_HALFTONE();
              } else {
                if i < 2 {
                  Member_TILES();
                } else {
                  Member_NOISE_MAP();
                }
              }
            } else {
              if i < 4 {
                Member_VORTEX();
              } else {
                if i < 5 {
                  Member_WAVE();
                } else {
                  Member_CELLULAR();
                }
              }
            }
          } else {
            if i < 9 {
              if i < 7 {
                Member_GLITCH();
              } else {
                if i < 8 {
                  Member_STRIPES();
                } else {
                  Member_CONCENTRIC();
                }
              }
            } else {
              if i < 10 {
                Member_BRUTALIST();
              } else {
                if i < 11 {
                  Member_BINARY();
                } else {
                  Member_KINETIC();
                }
              }
            }
          }
        } else {
          if i < 18 {
            if i < 15 {
              if i < 13 {
                Member_FLOW();
              } else {
                if i < 14 {
                  Member_ORGANIC();
                } else {
                  Member_MOSAIC();
                }
              }
            } else {
              if i < 16 {
                Member_RADAR();
              } else {
                if i < 17 {
                  Member_SCANLINE();
                } else {
                  Member_CHECKER();
                }
              }
            }
          } else {
            if i < 21 {
              if i < 19 {
                Member_DIAMOND();
              } else {
                if i < 20 {
                  Member_CROSS();
                } else {
                  Member_ZIGZAG();
                }
              }
            } else {
              if i < 23 {
                if i < 22 {
                  Member_PULSE();
                } else {
                  Member_ISOMETRIC();
                }
              } else {
                if i < 24 {
                  Member_PRIMITIVE();
                } else {
                  Member_VOID();
                }
              }
            }
          }
        }
      } else {
        if i < 37 {
          if i < 31 {
            if i < 28 {
              if i < 26 {
                Member_SPIRAL();
              } else {
                if i < 27 {
                  Member_LATTICE();
                } else {
                  Member_PIXELATE();
                }
              }
            } else {
              if i < 29 {
                Member_FRACTURE();
              } else {
                if i < 30 {
                  Member_ORBIT();
                } else {
                  Member_NEON();
                }
              }
            }
          } else {
            if i < 34 {
              if i < 32 {
                Member_DUO_TONE();
              } else {
                if i < 33 {
                  Member_SKEW();
                } else {
                  Member_MIRROR();
                }
              }
            } else {
              if i < 35 {
                Member_TOPOLOGY();
              } else {
                if i < 36 {
                  Member_STRATIFIED();
                } else {
                  Member_RECURSIVE();
                }
              }
            }
          }
        } else {
          if i < 43 {
            if i < 40 {
              if i < 38 {
                Member_PARTICLE();
              } else {
                if i < 39 {
                  Member_METABALL();
                } else {
                  Member_FLUX();
                }
              }
            } else {
              if i < 41 {
                Member_PHASOR();
              } else {
                if i < 42 {
                  Member_INTERFERENCE();
                } else {
                  Member_KALEIDOSCOPE();
                }
              }
            }
          } else {
            if i < 46 {
              if i < 44 {
                Member_DOT_MATRIX();
              } else {
                if i < 45 {
                  Member_SHATTER();
                } else {
                  Member_PLASMA();
                }
              }
            } else {
              if i < 48 {
                if i < 47 {
                  Member_CRYSTAL();
                } else {
                  Member_ORIGAMI();
                }
              } else {
                if i < 49 {
                  Member_WEAVE();
                } else {
                  Member_LABYRINTH();
                }
              }
            }
          }
        }
      }
    } else {
      if i < 75 {
        if i < 62 {
          if i < 56 {
            if i < 53 {
              if i < 51 {
                Member_ECHO();
              } else {
                if i < 52 {
                  Member_MOIRE();
                } else {
                  Member_VORONOI();
                }
              }
            } else {
              if i < 54 {
                Member_FLUID();
              } else {
                if i < 55 {
                  Member_STRING_THEORY();
                } else {
                  Member_ASCII();
                }
              }
            }
          } else {
            if i < 59 {
              if i < 57 {
                Member_BLUEPRINT();
              } else {
                if i < 58 {
                  Member_SEISMIC();
                } else {
                  Member_RETRO_CRT();
                }
              }
            } else {
              if i < 60 {
                Member_MATRIX();
              } else {
                if i < 61 {
                  Member_VECTOR_FIELD();
                } else {
                  Member_GRAVITY();
                }
              }
            }
          }
        } else {
          if i < 68 {
            if i < 65 {
              if i < 63 {
                Member_ORBITALS();
              } else {
                if i < 64 {
                  Member_SUPERNOVA();
                } else {
                  Member_QUASAR();
                }
              }
            } else {
              if i < 66 {
                Member_NEBULA();
              } else {
                if i < 67 {
                  Member_SAWTOOTH();
                } else {
                  Member_TRIANGULATION();
                }
              }
            }
          } else {
            if i < 71 {
              if i < 69 {
                Member_LOW_POLY();
              } else {
                if i < 70 {
                  Member_URBAN_GRID();
                } else {
                  Member_CIRCUITRY();
                }
              }
            } else {
              if i < 73 {
                if i < 72 {
                  Member_DNA();
                } else {
                  Member_MOLECULE();
                }
              } else {
                if i < 74 {
                  Member_ATOMS();
                } else {
                  Member_SPECTRUM();
                }
              }
            }
          }
        }
      } else {
        if i < 88 {
          if i < 81 {
            if i < 78 {
              if i < 76 {
                Member_PRISM();
              } else {
                if i < 77 {
                  Member_CHROMATIC();
                } else {
                  Member_DIFFUSION();
                }
              }
            } else {
              if i < 79 {
                Member_STIPPLE();
              } else {
                if i < 80 {
                  Member_HATCHING();
                } else {
                  Member_CROSS_HATCH();
                }
              }
            }
          } else {
            if i < 84 {
              if i < 82 {
                Member_WOOD_GRAIN();
              } else {
                if i < 83 {
                  Member_MARBLE();
                } else {
                  Member_SAND();
                }
              }
            } else {
              if i < 86 {
                if i < 85 {
                  Member_WIND();
                } else {
                  Member_RAIN();
                }
              } else {
                if i < 87 {
                  Member_SNOW();
                } else {
                  Member_FIRE();
                }
              }
            }
          }
        } else {
          if i < 94 {
            if i < 91 {
              if i < 89 {
                Member_SMOKE();
              } else {
                if i < 90 {
                  Member_CLOUD();
                } else {
                  Member_LIGHTNING();
                }
              }
            } else {
              if i < 92 {
                Member_AURORA();
              } else {
                if i < 93 {
                  Member_SOLAR_FLARE();
                } else {
                  Member_BLACK_HOLE();
                }
              }
            }
          } else {
            if i < 97 {
              if i < 95 {
                Member_QUARTZ();
              } else {
                if i < 96 {
                  Member_OBSIDIAN();
                } else {
                  Member_FROST();
                }
              }
            } else {
              if i < 99 {
                if i < 98 {
                  Member_MAGMA();
                } else {
                  Member_CORAL();
                }
              } else {
                if i < 100 {
                  Member_FOSSIL();
                } else {
                  Member_AMBER();
                }
              }
            }
          }
        }
      }
    }
  }

  /** Distinct members have distinct declaration indices. */
  lemma IndexInjective(a: GenerativeMode, b: GenerativeMode)
    requires Index(a) == Index(b)
    ensures a == b
  {
    RoundTrip(a);
    RoundTrip(b);
  }

  /** Distinct members have distinct value strings. */
  lemma NameInjective(a: GenerativeMode, b: GenerativeMode)
    requires Name(a) == Name(b)
    ensures a == b
  {
    RoundTrip(a);
    RoundTrip(b);
  }

  /** `Object.values(GenerativeMode)` lists every member exactly once, each at its
      declaration index. */
  lemma AllModesListsEachOnce(m: GenerativeMode)
    ensures |AllModes| == ModeCount
    ensures AllModes[Index(m)] == m
    ensures forall i :: 0 <= i < ModeCount && AllModes[i] == m ==> i == Index(m)
  {
    RoundTrip(m);
    forall i | 0 <= i < ModeCount && AllModes[i] == m
      ensures i == Index(m)
    {
      IndexOfModeAt(i);
    }
  }

  /** A string resolves to a member exactly when it is that member's value string. */
  lemma FromNameIff(s: string, m: GenerativeMode)
    ensures FromName(s) == Some(m) <==> Name(m) == s
  {
    RoundTrip(m);
  }

  /** The TileShape enum. */
  datatype TileShape = TRIANGLE | ARC | LINE | SQUARE

  /** One tile emitted by the generator. */
  datatype GridPoint = GridPoint(x: real, y: real, size: real, rotation: real, shape: TileShape)

  /** The settings of one collage slot. The mode is kept as the string the store holds:
      the AI suggestion path can store a string that is no member's value. */
  datatype SlotSettings = SlotSettings(
    mode: string,
    cols: int,
    rows: int,
    gap: real,
    scale: real,
    seed: int,
    bgColor: string,
    fgColor: string,
    text: string,
    textX: real,
    textY: real,
    textSize: real,
    textColor: string,
    textRotation: real,
    fontFamily: string)

  /** The whole design state of the store. */
  datatype DesignConfig = DesignConfig(
    slots: seq<SlotSettings>,
    activeSlot: int,
    canvasWidth: real,
    canvasHeight: real,
    tileShape: TileShape,
    showGrid: bool,
    showTypography: bool,
    grainIntensity: real,
    isAiLoading: bool,
    exportTransparent: bool)
}
