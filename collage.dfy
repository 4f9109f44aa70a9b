/** components/CanvasPreview.tsx: the collage layout, the export dimensions and the
    test that decides whether a tile is drawn.

    The collage puts the active slot in a main panel covering the left 70% of the canvas
    and stacks the remaining slots of 0..4, in ascending order, in a column of quarter-
    height panels on the right 30%. */
module Collage {

  import opened Types
  import opened Generator

  /** One panel of the collage: which slot it shows and where. */
  datatype LayoutItem = LayoutItem(slotIdx: int, x: real, y: real, w: real, h: real, isMain: bool)

  /** 0, 1, ..., n - 1. */
  function Upto(n: nat): (r: seq<int>)
    ensures |r| == n
    ensures forall i :: 0 <= i < n ==> r[i] == i
  {
    if n == 0 then [] else Upto(n - 1) + [n - 1]
  }

  /** The slot indices the collage knows about, `[0, 1, 2, 3, 4]`. */
  const SlotIndices: seq<int> := Upto(5)

  /** `xs.filter(i => i !== a)`. */
  function Without(xs: seq<int>, a: int): (r: seq<int>)
    ensures |r| <= |xs|
  {
    if |xs| == 0 then []
    else (if xs[0] != a then [xs[0]] else []) + Without(xs[1..], a)
  }

  /** The slots shown in the side column. */
  function Others(activeSlot: int): seq<int>
  {
    Without(SlotIndices, activeSlot)
  }

  /** Filtering out a value that does not occur changes nothing. */
  lemma {:induction false} WithoutAbsent(xs: seq<int>, a: int)
    requires a !in xs
    ensures Without(xs, a) == xs
  {
    if |xs| > 0 {
      assert xs == [xs[0]] + xs[1..];
      WithoutAbsent(xs[1..], a);
    }
  }

  /** Filtering out a value that occurs once, at position k, removes that position. */
  lemma {:induction false} WithoutOnce(xs: seq<int>, a: int, k: int)
    requires 0 <= k < |xs| && xs[k] == a
    requires forall i :: 0 <= i < |xs| && i != k ==> xs[i] != a
    ensures Without(xs, a) == xs[..k] + xs[k + 1..]
  {
    if k == 0 {
      WithoutAbsent(xs[1..], a);
    } else {
      WithoutOnce(xs[1..], a, k - 1);
      assert xs[1..][..k - 1] + xs[1..][k..] == xs[1..k] + xs[k + 1..];
      assert xs[..k] == [xs[0]] + xs[1..k];
    }
  }

  /** With a slot of 0..4 active, the side column shows the other four slots in
      ascending order; with any other active index it shows all five. */
  lemma OthersOfActive(activeSlot: int)
    ensures 0 <= activeSlot < 5 ==>
      Others(activeSlot) == SlotIndices[..activeSlot] + SlotIndices[activeSlot + 1..]
    ensures 0 <= activeSlot < 5 ==>
      forall i :: 0 <= i < 4 ==> Others(activeSlot)[i] == (if i < activeSlot then i else i + 1)
    ensures !(0 <= activeSlot < 5) ==> Others(activeSlot) == SlotIndices
  {
    if 0 <= activeSlot < 5 {
      WithoutOnce(SlotIndices, activeSlot, activeSlot);
    } else {
      WithoutAbsent(SlotIndices, activeSlot);
    }
  }

  /** The main panel: the active slot at the origin, 70% of the width, full height. */
  function MainItem(canvasWidth: real, canvasHeight: real, activeSlot: int): LayoutItem
  {
    LayoutItem(activeSlot, 0.0, 0.0, canvasWidth * 0.7, canvasHeight, true)
  }

  /** The i-th panel of the side column, showing slot s. */
  function SideItem(s: int, i: int, canvasWidth: real, canvasHeight: real): LayoutItem
  {
    LayoutItem(s, canvasWidth * 0.7, i as real * (canvasHeight / 4.0), canvasWidth * 0.3, canvasHeight / 4.0, false)
  }

  /** The layout `collageLayout` computes: the main panel, then one side panel per
      other slot. */
  function Layout(canvasWidth: real, canvasHeight: real, activeSlot: int): (l: seq<LayoutItem>)
    ensures |l| == 1 + |Others(activeSlot)|
  {
    var others := Others(activeSlot);
    [MainItem(canvasWidth, canvasHeight, activeSlot)]
      + seq(|others|, i requires 0 <= i < |others| => SideItem(others[i], i, canvasWidth, canvasHeight))
  }

  /** `collageLayout`: pushes the main panel, then walks the other slots pushing one side
      panel each. */
  method CollageLayout(canvasWidth: real, canvasHeight: real, activeSlot: int) returns (layout: seq<LayoutItem>)
    ensures layout == Layout(canvasWidth, canvasHeight, activeSlot)
  {
    var mainWidth := canvasWidth * 0.7;
    var sideWidth := canvasWidth * 0.3;
    var sideHeight := canvasHeight / 4.0;
    layout := [];
    var others := Others(activeSlot);
    layout := layout + [LayoutItem(activeSlot, 0.0, 0.0, mainWidth, canvasHeight, true)];
    var i := 0;
    while i < |others|
      invariant 0 <= i <= |others|
      invariant |layout| == i + 1
      invariant layout[0] == MainItem(canvasWidth, canvasHeight, activeSlot)
      invariant forall j :: 0 <= j < i ==> layout[j + 1] == SideItem(others[j], j, canvasWidth, canvasHeight)
    {
      layout := layout + [LayoutItem(others[i], mainWidth, i as real * sideHeight, sideWidth, sideHeight, false)];
      i := i + 1;
    }
  }

  /** The slot index of every panel, in layout order. */
  function Shown(l: seq<LayoutItem>): (r: seq<int>)
    ensures |r| == |l|
  {
    seq(|l|, i requires 0 <= i < |l| => l[i].slotIdx)
  }

  /** The layout shows the active index first, then the side column's slots. */
  lemma ShownLayout(w: real, h: real, a: int)
    ensures Shown(Layout(w, h, a)) == [a] + Others(a)
  {
    var l := Layout(w, h, a);
    var others := Others(a);
    forall i | 1 <= i < |l|
      ensures Shown(l)[i] == others[i - 1]
    {
      assert l[i] == SideItem(others[i - 1], i - 1, w, h);
    }
  }

  /** Moving the element at position k to the front rearranges a sequence. */
  lemma MoveToFront(xs: seq<int>, k: int)
    requires 0 <= k < |xs|
    ensures multiset([xs[k]] + (xs[..k] + xs[k + 1..])) == multiset(xs)
  {
    assert xs == xs[..k] + [xs[k]] + xs[k + 1..];
  }

  /** With a slot of 0..4 active, that slot followed by the side column's slots is a
      rearrangement of 0..4. */
  lemma OthersPermutation(a: int)
    requires 0 <= a < 5
    ensures multiset([a] + Others(a)) == multiset(SlotIndices)
  {
    OthersOfActive(a);
    MoveToFront(SlotIndices, a);
  }

  /** With a slot of 0..4 active the layout has five panels: the main panel first, then
      the other slots in ascending order, each slot shown exactly once. */
  lemma LayoutOfActive(w: real, h: real, a: int)
    requires 0 <= a < 5
    ensures var l := Layout(w, h, a);
      && |l| == 5
      && l[0] == LayoutItem(a, 0.0, 0.0, w * 0.7, h, true)
      && (forall i :: 1 <= i < 5 ==> l[i].slotIdx == (if i - 1 < a then i - 1 else i))
      && multiset(Shown(l)) == multiset(SlotIndices)
  {
    OthersOfActive(a);
    ShownLayout(w, h, a);
    OthersPermutation(a);
    var l := Layout(w, h, a);
    forall i | 1 <= i < 5
      ensures l[i].slotIdx == (if i - 1 < a then i - 1 else i)
    {
      assert Shown(l)[i] == l[i].slotIdx;
    }
  }

  /** With an active index outside 0..4 nothing is filtered out: six panels, the main
      one showing that index and the side column all five slots, the last of them
      starting at the bottom edge of the canvas. */
  lemma LayoutOfOutOfRange(w: real, h: real, a: int)
    requires !(0 <= a < 5)
    ensures var l := Layout(w, h, a);
      && |l| == 6
      && l[0].slotIdx == a
      && (forall i :: 1 <= i < 6 ==> l[i].slotIdx == i - 1)
      && l[5].y == h
  {
    OthersOfActive(a);
    var l := Layout(w, h, a);
    forall i | 1 <= i < 6
      ensures l[i].slotIdx == i - 1
    {
      assert l[i] == SideItem(Others(a)[i - 1], i - 1, w, h);
    }
    assert l[5] == SideItem(4, 4, w, h);
  }

  /** The panels split the canvas width: the main panel covers the left of the canvas
      at full height, every side panel sits at its right edge, and the main and side
      widths add up to the canvas width. */
  lemma LayoutTiles(w: real, h: real, a: int)
    ensures var l := Layout(w, h, a);
      && |l| >= 5
      && l[0].x == 0.0 && l[0].y == 0.0 && l[0].w + l[1].w == w && l[0].h == h
      && (forall i :: 1 <= i < |l| ==> !l[i].isMain && l[i].x == l[0].w && l[i].w == l[1].w)
  {
    OthersOfActive(a);
  }

  /** The side panels are stacked without gaps from y = 0, each starting where the
      previous one ends; with a slot of 0..4 active the last one ends at the canvas
      height. */
  lemma LayoutStacks(w: real, h: real, a: int)
    ensures var l := Layout(w, h, a);
      && |l| >= 5
      && l[1].y == 0.0
      && (forall i :: 1 <= i < |l| - 1 ==> l[i + 1].y == l[i].y + l[i].h)
      && (0 <= a < 5 ==> |l| == 5 && l[4].y + l[4].h == h)
  {
    OthersOfActive(a);
    var l := Layout(w, h, a);
    forall i | 1 <= i < |l| - 1
      ensures l[i + 1].y == l[i].y + l[i].h
    {
      SideStack(w, h, a, i);
    }
    assert l[1] == SideItem(Others(a)[0], 0, w, h);
    if 0 <= a < 5 {
      assert l[4] == SideItem(Others(a)[3], 3, w, h);
    }
  }

  /** Side panel i + 1 starts where side panel i ends. */
  lemma SideStack(w: real, h: real, a: int, i: int)
    requires 1 <= i < |Layout(w, h, a)| - 1
    ensures Layout(w, h, a)[i + 1].y == Layout(w, h, a)[i].y + Layout(w, h, a)[i].h
  {
    var others := Others(a);
    assert Layout(w, h, a)[i] == SideItem(others[i - 1], i - 1, w, h);
    assert Layout(w, h, a)[i + 1] == SideItem(others[i], i, w, h);
    assert i as real * (h / 4.0) == (i - 1) as real * (h / 4.0) + h / 4.0;
  }

  /** What `processExport` is asked to export. */
  datatype ExportTarget = Master | Slot(idx: int)

  /** The factor between the preview and the exported image. */
  const QualityScale: real := 4.0

  /** `collageLayout.find(li => li.slotIdx === idx)`: the first panel showing slot idx. */
  function Find(l: seq<LayoutItem>, idx: int): (r: Option<LayoutItem>)
    ensures r.Some? ==> r.value in l && r.value.slotIdx == idx
    ensures r.None? <==> forall i :: 0 <= i < |l| ==> l[i].slotIdx != idx
  {
    if |l| == 0 then None
    else if l[0].slotIdx == idx then Some(l[0])
    else Find(l[1..], idx)
  }

  /** The size of the exported image: four times the canvas for the whole collage, four
      times the panel for one slot. A slot the layout does not show has no panel, and
      the export fails (the source reads a field of `undefined`): None. */
  function ExportSize(canvasWidth: real, canvasHeight: real, activeSlot: int, target: ExportTarget): (r: Option<(real, real)>)
    ensures target.Master? ==> r == Some((canvasWidth * QualityScale, canvasHeight * QualityScale))
    ensures target.Slot? ==>
      var item := Find(Layout(canvasWidth, canvasHeight, activeSlot), target.idx);
      r.Some? <==> item.Some?
  {
    match target
    case Master => Some((canvasWidth * QualityScale, canvasHeight * QualityScale))
    case Slot(idx) =>
      var item := Find(Layout(canvasWidth, canvasHeight, activeSlot), idx);
      if item.None? then None else Some((item.value.w * QualityScale, item.value.h * QualityScale))
  }

  /** Only single-slot exports honour the transparent-background switch. */
  function ExportTransparent(exportTransparent: bool, target: ExportTarget): (r: bool)
    ensures r <==> exportTransparent && target.Slot?
  {
    exportTransparent && target != Master
  }

  /** With a slot of 0..4 active, exporting that slot gives 2.8 times the canvas width
      by 4 times its height. */
  lemma ExportActiveSlot(w: real, h: real, a: int)
    requires 0 <= a < 5
    ensures ExportSize(w, h, a, Slot(a)) == Some((w * 2.8, h * 4.0))
  {
    assert Layout(w, h, a)[0] == MainItem(w, h, a);
  }

  /** With a slot of 0..4 active, panel j >= 1 is side panel j - 1 and shows slot j - 1
      below the active slot and slot j from it on. */
  lemma SidePanel(w: real, h: real, a: int, j: int)
    requires 0 <= a < 5 && 1 <= j < 5
    ensures Layout(w, h, a)[j] == SideItem(if j - 1 < a then j - 1 else j, j - 1, w, h)
  {
    OthersOfActive(a);
  }

  /** With a slot of 0..4 active, exporting another slot of 0..4 gives 1.2 times the
      canvas width by its full height. */
  lemma ExportSideSlot(w: real, h: real, a: int, idx: int)
    requires 0 <= a < 5 && 0 <= idx < 5 && idx != a
    ensures ExportSize(w, h, a, Slot(idx)) == Some((w * 1.2, h))
  {
    var l := Layout(w, h, a);
    var j := if idx < a then idx + 1 else idx;
    forall i | 0 <= i < j
      ensures l[i].slotIdx != idx
    {
      if i > 0 {
        SidePanel(w, h, a, i);
      }
    }
    SidePanel(w, h, a, j);
    FindFirst(l, idx, j);
    ExportOfSidePanel(w, h, a, idx, j - 1);
  }

  /** A slot found in a side panel exports at four times the side panel's size. */
  lemma ExportOfSidePanel(w: real, h: real, a: int, idx: int, k: int)
    requires Find(Layout(w, h, a), idx) == Some(SideItem(idx, k, w, h))
    ensures ExportSize(w, h, a, Slot(idx)) == Some((w * 1.2, h))
  {
  }

  /** Exporting an index the layout does not show fails: with a slot of 0..4 active,
      that is every index outside 0..4. */
  lemma ExportMissingSlot(w: real, h: real, a: int, idx: int)
    requires 0 <= a < 5 && !(0 <= idx < 5)
    ensures ExportSize(w, h, a, Slot(idx)).None?
  {
    var l := Layout(w, h, a);
    ShownLayout(w, h, a);
    OthersOfActive(a);
    forall i | 0 <= i < |l|
      ensures l[i].slotIdx != idx
    {
      assert l[i].slotIdx == Shown(l)[i];
    }
  }

  /** Find returns the panel at j when j is the only position showing idx from the
      start up to j. */
  lemma {:induction false} FindFirst(l: seq<LayoutItem>, idx: int, j: int)
    requires 0 <= j < |l| && l[j].slotIdx == idx
    requires forall i :: 0 <= i < j ==> l[i].slotIdx != idx
    ensures Find(l, idx) == Some(l[j])
  {
    if j > 0 {
      FindFirst(l[1..], idx, j - 1);
    }
  }

  /** The test at the top of `drawShape`: a tile is drawn only if its size exceeds
      0.001. */
  predicate Drawn(p: GridPoint)
  {
    p.size > 0.001
  }

  /** The clamp of the size at zero never changes whether a tile is drawn, and a tile
      that is drawn has a positive size. */
  lemma ClampInvisible(p: GridPoint)
    ensures Drawn(Emit(p)) <==> Drawn(p)
    ensures Drawn(Emit(p)) ==> Emit(p).size > 0.0
  {
  }
}
