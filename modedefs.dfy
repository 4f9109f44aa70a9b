/** components/Sidebar.tsx: the mode menu entries `MODE_DEFS` and the lookup that turns
    a font name suggested by the AI into a CSS font-family value.

    Each menu entry shows the mode's value with underscores turned into spaces and an
    icon. The icon starts as Box and is then overwritten by every rule, in order, one of
    whose words occurs in the value, so the last matching rule wins. */
module ModeDefs {

  import opened Types

  /** The icons the menu uses. */
  datatype Icon = Box | Waves | Hexagon | Circle | Zap | Square | Target | Activity | Hash | Layers

  /** `s.includes(sub)`. */
  function Contains(s: string, sub: string): bool
  {
    if |sub| > |s| then false
    else s[..|sub|] == sub || (|s| > 0 && Contains(s[1..], sub))
  }

  /** sub occurs in s starting at position i. */
  predicate OccursAt(s: string, sub: string, i: int)
  {
    0 <= i <= |s| - |sub| && s[i..i + |sub|] == sub
  }

  /** Contains holds exactly when sub occurs at some position of s. */
  lemma {:induction false} ContainsIff(s: string, sub: string)
    ensures Contains(s, sub) <==> exists i :: OccursAt(s, sub, i)
    decreases |s|
  {
    if |sub| <= |s| && |s| > 0 {
      ContainsIff(s[1..], sub);
      if s[..|sub|] == sub {
        assert OccursAt(s, sub, 0);
      } else if Contains(s[1..], sub) {
        var i :| OccursAt(s[1..], sub, i);
        assert OccursAt(s, sub, i + 1);
      } else {
        forall i | OccursAt(s, sub, i)
          ensures OccursAt(s[1..], sub, i - 1)
        {
          assert i != 0;
        }
      }
    } else if |sub| <= |s| {
      assert OccursAt(s, sub, 0);
    }
  }

  /** One `if` of the icon chain: two words and the icon they select. */
  datatype IconRule = IconRule(first: string, second: string, icon: Icon)

  /** The number of rules in the icon chain. */
  const RuleCount: nat := 9

  /** The icon chain: rule k is the k-th `if`, in the order the rules are tried. */
  function Rule(k: nat): (r: IconRule)
    requires k < RuleCount
    ensures r.icon != Box
  {
    match k
    case 0 => IconRule("WAVE", "FLOW", Waves)
    case 1 => IconRule("CELL", "LATTICE", Hexagon)
    case 2 => IconRule("HALFT", "DOT", Circle)
    case 3 => IconRule("GLITCH", "SHATTER", Zap)
    case 4 => IconRule("BRUTAL", "TILES", Square)
    case 5 => IconRule("RADAR", "CONCEN", Target)
    case 6 => IconRule("PULSE", "KINET", Activity)
    case 7 => IconRule("BINARY", "CROSS", Hash)
    case 8 => IconRule("TOPOL", "STRAT", Layers)
  }

  /** Rule r fires for id when either of its words occurs in id. */
  predicate Fires(r: IconRule, id: string)
  {
    Contains(id, r.first) || Contains(id, r.second)
  }

  /** The icon left after running the first n rules of the chain on id. */
  function IconAfter(id: string, n: nat): Icon
    requires n <= RuleCount
  {
    if n == 0 then Box
    else if Fires(Rule(n - 1), id) then Rule(n - 1).icon
    else IconAfter(id, n - 1)
  }

  /** The icon of the menu entry for id: Box when no rule fires, and otherwise the icon
      of the last rule that fires. */
  function IconOf(id: string): (icon: Icon)
    ensures (forall k :: 0 <= k < RuleCount ==> !Fires(Rule(k), id)) ==> icon == Box
    ensures forall k :: LastFiring(id, k, RuleCount) ==> icon == Rule(k).icon
  {
    IconAfterLastMatch(id, RuleCount);
    IconAfter(id, RuleCount)
  }

  /** Rule k is the last of the first n rules that fires for id. */
  predicate LastFiring(id: string, k: int, n: nat)
    requires n <= RuleCount
  {
    0 <= k < n && Fires(Rule(k), id) && forall j :: k < j < n ==> !Fires(Rule(j), id)
  }

  /** After the first n rules the icon is that of the last of them that fires, or Box if
      none does. */
  lemma {:induction false} IconAfterLastMatch(id: string, n: nat)
    requires n <= RuleCount
    ensures (forall k :: 0 <= k < n ==> !Fires(Rule(k), id)) ==> IconAfter(id, n) == Box
    ensures forall k :: LastFiring(id, k, n) ==> IconAfter(id, n) == Rule(k).icon
  {
    if n > 0 {
      IconAfterLastMatch(id, n - 1);
    }
  }

  /** The icon chain as the menu runs it: start from Box and let every rule that fires
      overwrite the icon. */
  method IconFor(id: string) returns (icon: Icon)
    ensures icon == IconOf(id)
  {
    icon := Box;
    var k := 0;
    while k < RuleCount
      invariant 0 <= k <= RuleCount
      invariant icon == IconAfter(id, k)
    {
      var rule := Rule(k);
      if Contains(id, rule.first) || Contains(id, rule.second) {
        icon := rule.icon;
      }
      k := k + 1;
    }
  }

  /** If rule k fires, some rule at or after k is the last of the first n to fire. */
  lemma {:induction false} LastFiringExists(id: string, k: nat, n: nat)
    requires k < n <= RuleCount && Fires(Rule(k), id)
    ensures exists last :: k <= last && LastFiring(id, last, n)
  {
    if Fires(Rule(n - 1), id) {
      assert LastFiring(id, n - 1, n);
    } else {
      LastFiringExists(id, k, n - 1);
      var last :| k <= last && LastFiring(id, last, n - 1);
      assert LastFiring(id, last, n);
    }
  }

  /** Distinct rules select distinct icons. */
  lemma RuleIconsDistinct(a: nat, b: nat)
    requires a < RuleCount && b < RuleCount && a != b
    ensures Rule(a).icon != Rule(b).icon
  {
  }

  /** A rule's icon never survives a later rule that fires: the later rule, or one after
      it, overwrites it. */
  lemma LaterRuleWins(id: string, j: nat, k: nat)
    requires j < k < RuleCount && Fires(Rule(k), id)
    ensures IconOf(id) != Rule(j).icon && IconOf(id) != Box
  {
    LastFiringExists(id, k, RuleCount);
    var last :| k <= last && LastFiring(id, last, RuleCount);
    RuleIconsDistinct(last, j);
  }

  /** A word with a character that s lacks does not occur in s. */
  lemma MissingCharacter(s: string, word: string, k: nat)
    requires k < |word| && word[k] !in s
    ensures !Contains(s, word)
  {
    forall i | 0 <= i <= |s| - |word|
      ensures !OccursAt(s, word, i)
    {
      assert s[i..i + |word|][k] == s[i + k];
    }
    ContainsIff(s, word);
  }

  /** Position w.0 of rule k's first word and position w.1 of its second hold characters
      that id lacks. */
  predicate Lacks(id: string, k: nat, w: (nat, nat))
    requires k < RuleCount
  {
    w.0 < |Rule(k).first| && Rule(k).first[w.0] !in id &&
    w.1 < |Rule(k).second| && Rule(k).second[w.1] !in id
  }

  /** Rules from .. from + |ws| - 1 all stay silent for id, given for each a missing
      character of each of its words. */
  lemma {:induction false} SilentRules(id: string, from: nat, ws: seq<(nat, nat)>)
    requires from + |ws| <= RuleCount
    requires forall t :: 0 <= t < |ws| ==> Lacks(id, from + t, ws[t])
    ensures forall j :: from <= j < from + |ws| ==> !Fires(Rule(j), id)
    decreases |ws|
  {
    if |ws| > 0 {
      assert Lacks(id, from, ws[0]);
      MissingCharacter(id, Rule(from).first, ws[0].0);
      MissingCharacter(id, Rule(from).second, ws[0].1);
      SilentRules(id, from + 1, ws[1..]);
    }
  }

  /** Rule k fires for id when one of its words occurs at position i of id. */
  lemma RuleFires(id: string, k: nat, i: int)
    requires k < RuleCount
    requires OccursAt(id, Rule(k).first, i) || OccursAt(id, Rule(k).second, i)
    ensures Fires(Rule(k), id)
  {
    ContainsIff(id, Rule(k).first);
    ContainsIff(id, Rule(k).second);
  }

  /** No rule after HALFT fires for "HALFTONE": each of their words has a letter it
      lacks. */
  lemma HalftoneSilent(id: string)
    requires id == "HALFTONE"
    ensures forall j :: 3 <= j < RuleCount ==> !Fires(Rule(j), id)
  {
    SilentRules(id, 3, [(0, 0), (0, 1), (0, 0), (0, 0), (0, 0), (2, 0)]);
  }

  /** HALFTONE's entry shows Circle: HALFT fires and no later rule does. */
  lemma HalftoneIcon(id: string)
    requires id == Name(HALFTONE)
    ensures IconOf(id) == Circle
  {
    Member_HALFTONE();
    RuleFires(id, 2, 0);
    HalftoneSilent(id);
    assert LastFiring(id, 2, RuleCount);
  }

  /** STRAT does not occur in "CROSS_HATCH": every letter of it does, but no S is
      followed by a T. */
  lemma NoStratInCrossHatch(id: string)
    requires id == "CROSS_HATCH"
    ensures !Contains(id, Rule(8).second)
  {
    forall i | 0 <= i <= |id| - 5
      ensures !OccursAt(id, Rule(8).second, i)
    {
      assert id[i..i + 5][0] == id[i] && id[i..i + 5][1] == id[i + 1];
    }
    ContainsIff(id, Rule(8).second);
  }

  /** CROSS_HATCH's entry shows Hash: CROSS fires, and the last rule does not, since
      TOPOL has a P and STRAT never occurs. */
  lemma CrossHatchIcon(id: string)
    requires id == Name(CROSS_HATCH)
    ensures IconOf(id) == Hash
  {
    Member_CROSS_HATCH();
    RuleFires(id, 7, 0);
    MissingCharacter(id, Rule(8).first, 2);
    NoStratInCrossHatch(id);
    assert LastFiring(id, 7, RuleCount);
  }

  /** STRATIFIED's entry shows Layers: STRAT belongs to the last rule. */
  lemma StratifiedIcon(id: string)
    requires id == Name(STRATIFIED)
    ensures IconOf(id) == Layers
  {
    Member_STRATIFIED();
    RuleFires(id, 8, 0);
    assert LastFiring(id, 8, RuleCount);
  }

  /** No rule fires for "MATRIX": each rule's words have a letter it lacks. */
  lemma MatrixSilent(id: string)
    requires id == "MATRIX"
    ensures forall j :: 0 <= j < RuleCount ==> !Fires(Rule(j), id)
  {
    SilentRules(id, 0, [(0, 0), (0, 0), (0, 0), (0, 0), (0, 3)]);
    MatrixSilentLater(id);
  }

  /** The rules from 5 on stay silent for "MATRIX". */
  lemma MatrixSilentLater(id: string)
    requires id == "MATRIX"
    ensures forall j :: 5 <= j < RuleCount ==> !Fires(Rule(j), id)
  {
    SilentRules(id, 5, [(2, 0), (0, 0), (0, 0), (1, 0)]);
  }

  /** MATRIX's entry keeps Box. */
  lemma MatrixIcon(id: string)
    requires id == Name(MATRIX)
    ensures IconOf(id) == Box
  {
    Member_MATRIX();
    MatrixSilent(id);
  }

  /** Every occurrence of character a in s replaced by b, every other character kept. */
  function ReplaceChar(s: string, a: char, b: char): (r: string)
    ensures |r| == |s|
    ensures forall i :: 0 <= i < |s| ==> r[i] == (if s[i] == a then b else s[i])
  {
    if |s| == 0 then []
    else [if s[0] == a then b else s[0]] + ReplaceChar(s[1..], a, b)
  }

  /** `id.replace(/_/g, ' ')`: a label has the value's length and no underscore left. */
  function Label(id: string): (shown: string)
    ensures |shown| == |id| && '_' !in shown
  {
    ReplaceChar(id, '_', ' ')
  }

  /** A value without spaces is read back from its label by turning spaces into
      underscores. */
  lemma LabelShape(id: string)
    ensures ' ' !in id ==> ReplaceChar(Label(id), ' ', '_') == id
  {
    var r := Label(id);
    if ' ' !in id {
      assert ReplaceChar(r, ' ', '_') == id;
    }
  }

  /** One menu entry. */
  datatype ModeDef = ModeDef(id: string, labelText: string, icon: Icon)

  /** The menu entry for value id. */
  function Entry(id: string): ModeDef
  {
    ModeDef(id, Label(id), IconOf(id))
  }

  /** The entries for a list of modes, in the list's order; `MODE_DEFS` is
      `ModeDefList(AllModes)`. */
  function ModeDefList(modes: seq<GenerativeMode>): (defs: seq<ModeDef>)
    ensures |defs| == |modes|
    ensures forall i :: 0 <= i < |modes| ==>
      defs[i].id == Name(modes[i]) && defs[i].labelText == Label(defs[i].id) && defs[i].icon == IconOf(defs[i].id)
  {
    seq(|modes|, i requires 0 <= i < |modes| => Entry(Name(modes[i])))
  }

  /** `MODE_DEFS`: one entry per mode, each at its mode's declaration index, with
      pairwise distinct ids and labels free of underscores. */
  lemma ModeDefsOfAllModes(m: GenerativeMode)
    ensures |ModeDefList(AllModes)| == ModeCount
    ensures ModeDefList(AllModes)[Index(m)].id == Name(m)
    ensures ModeDefList(AllModes)[Index(m)].icon == IconOf(Name(m))
    ensures forall i, j :: 0 <= i < j < ModeCount ==> ModeDefList(AllModes)[i].id != ModeDefList(AllModes)[j].id
    ensures forall i :: 0 <= i < ModeCount ==> '_' !in ModeDefList(AllModes)[i].labelText
  {
    AllModesListsEachOnce(m);
    var defs := ModeDefList(AllModes);
    forall i, j | 0 <= i < j < ModeCount
      ensures defs[i].id != defs[j].id
    {
      if defs[i].id == defs[j].id {
        NameInjective(AllModes[i], AllModes[j]);
        IndexOfModeAt(i);
        IndexOfModeAt(j);
      }
    }
  }

  /** One entry of `GOOGLE_FONTS`. */
  datatype Font = Font(name: string, value: string)

  const GoogleFonts: seq<Font> := [
    Font("Space Grotesk", "'Space Grotesk', sans-serif"),
    Font("Inter", "'Inter', sans-serif"),
    Font("Roboto Mono", "'Roboto Mono', monospace"),
    Font("Montserrat", "'Montserrat', sans-serif"),
    Font("Syne", "'Syne', sans-serif"),
    Font("Unbounded", "'Unbounded', sans-serif"),
    Font("Bebas Neue", "'Bebas Neue', sans-serif")
  ]

  /** `fonts.find(f => f.name === name)`: the first font with that name. */
  function FindFont(fonts: seq<Font>, name: string): (r: Option<Font>)
    ensures r.None? <==> forall i :: 0 <= i < |fonts| ==> fonts[i].name != name
    ensures r.Some? ==> exists i :: FirstNamed(fonts, name, i) && r.value == fonts[i]
  {
    if |fonts| == 0 then None
    else if fonts[0].name == name then assert FirstNamed(fonts, name, 0); Some(fonts[0])
    else
      var r := FindFont(fonts[1..], name);
      if r.Some? then
        var i :| FirstNamed(fonts[1..], name, i) && r.value == fonts[1..][i];
        assert FirstNamed(fonts, name, i + 1);
        r
      else r
  }

  /** Font i is the first in fonts named name. */
  predicate FirstNamed(fonts: seq<Font>, name: string, i: int)
  {
    0 <= i < |fonts| && fonts[i].name == name && forall j :: 0 <= j < i ==> fonts[j].name != name
  }

  /** The font family stored from a suggestion: the value of the first font of the list
      whose name matches exactly, or the suggestion unchanged. */
  function ResolveIn(fonts: seq<Font>, fontFamily: string): (r: string)
    ensures (forall i :: 0 <= i < |fonts| ==> fonts[i].name != fontFamily) ==> r == fontFamily
    ensures forall i :: FirstNamed(fonts, fontFamily, i) ==> r == fonts[i].value
  {
    var found := FindFont(fonts, fontFamily);
    if found.Some? then found.value.value else fontFamily
  }

  /** When no value in the list is also a name in it, resolving twice is resolving once. */
  lemma ResolveInIdempotent(fonts: seq<Font>, fontFamily: string)
    requires forall i, j :: 0 <= i < |fonts| && 0 <= j < |fonts| ==> fonts[i].value != fonts[j].name
    ensures ResolveIn(fonts, ResolveIn(fonts, fontFamily)) == ResolveIn(fonts, fontFamily)
  {
  }

  /** Every font's value starts with a quote and no font's name does. */
  lemma FontQuoted(k: nat)
    requires k < |GoogleFonts|
    ensures |GoogleFonts[k].value| > 0 && GoogleFonts[k].value[0] == '\''
    ensures |GoogleFonts[k].name| > 0 && GoogleFonts[k].name[0] != '\''
  {
  }

  /** The AI's font suggestion resolved against `GOOGLE_FONTS`: a listed name becomes
      its quoted CSS value, anything else is kept as suggested. */
  function ResolveFont(fontFamily: string): (r: string)
    ensures (forall i :: 0 <= i < |GoogleFonts| ==> GoogleFonts[i].name != fontFamily) ==> r == fontFamily
    ensures forall i :: FirstNamed(GoogleFonts, fontFamily, i) ==> r == GoogleFonts[i].value
  {
    ResolveIn(GoogleFonts, fontFamily)
  }

  /** No value of `GOOGLE_FONTS` is one of its names, so resolving a suggestion twice is
      resolving it once. */
  lemma ResolveFontIdempotent(fontFamily: string)
    ensures ResolveFont(ResolveFont(fontFamily)) == ResolveFont(fontFamily)
  {
    forall i, j | 0 <= i < |GoogleFonts| && 0 <= j < |GoogleFonts|
      ensures GoogleFonts[i].value != GoogleFonts[j].name
    {
      FontQuoted(i);
      FontQuoted(j);
    }
    ResolveInIdempotent(GoogleFonts, fontFamily);
  }
}
