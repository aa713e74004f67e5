/**
 * What the alignment promises about lines of cells: which item of a line is
 * the one closest to the axis, where that item and the others end up, and
 * that a line is laid out independently of the items on other lines.
 */
module LineProperties {
  import opened Options
  import opened Geometry
  import opened AlignedCollectionViewFlowLayout

  // ---------------------------------------------------------------------------
  // Where the closest item and the other items go
  // ---------------------------------------------------------------------------

  /** The closest item of a line is flush with the axis; nothing but its x origin moves. */
  lemma ClosestItemIsFlushWithAxis(layout: FlowLayout, p: IndexPath)
    requires p in layout.defaultFrames && AlignmentAxis(layout).Some?
    requires RepresentsClosestItemToAlignmentAxis(layout, p, layout.defaultFrames[p])
    ensures LayoutAttributesForItem(layout, p).Some?
    ensures SameExceptX(LayoutAttributesForItem(layout, p).value, layout.defaultFrames[p])
    ensures layout.cellAlignment == Left ==>
      LayoutAttributesForItem(layout, p).value.x == layout.sectionInset.left
    ensures layout.cellAlignment == Right ==>
      var r := LayoutAttributesForItem(layout, p).value;
      r.x + r.w == layout.collectionView.value.width - layout.sectionInset.right
  {
  }

  /**
   * Any other item is placed next to its neighbour's aligned frame, the
   * inter-item spacing apart; nothing but its x origin moves.
   */
  lemma InteriorItemAbutsNeighbour(layout: FlowLayout, p: IndexPath)
    requires p in layout.defaultFrames && AlignmentAxis(layout).Some?
    requires !RepresentsClosestItemToAlignmentAxis(layout, p, layout.defaultFrames[p])
    ensures LayoutAttributesForItem(layout, p).Some?
    ensures SameExceptX(LayoutAttributesForItem(layout, p).value, layout.defaultFrames[p])
    ensures layout.cellAlignment == Left ==>
      LayoutAttributesBefore(layout, p).Some? &&
      LayoutAttributesForItem(layout, p).value.x ==
        LayoutAttributesBefore(layout, p).value.MaxX() + layout.minimumInteritemSpacing
    ensures layout.cellAlignment == Right ==>
      var r := LayoutAttributesForItem(layout, p).value;
      LayoutAttributesAfter(layout, p).Some? &&
      r.x + r.w == LayoutAttributesAfter(layout, p).value.MinX() - layout.minimumInteritemSpacing
  {
  }

  /**
   * Left alignment before the width is known: the same-line test always
   * fails, so every item the base layout knows is moved to the left inset.
   */
  lemma LeftWithoutWidthIsFlush(layout: FlowLayout, p: IndexPath)
    requires layout.cellAlignment == Left && layout.collectionView.None?
    requires p in layout.defaultFrames
    ensures LayoutAttributesForItem(layout, p) == Some(layout.defaultFrames[p].(x := layout.sectionInset.left))
  {
  }

  /**
   * Right alignment before the width is known: a single item has no
   * position, so each record of a batch keeps the base layout's frame.
   */
  lemma RightWithoutWidthKeepsDefaults(layout: FlowLayout, attributes: LayoutAttributes)
    requires layout.cellAlignment == Right && layout.collectionView.None?
    ensures LayoutAttributesForItem(layout, attributes.indexPath).None?
    ensures SetFrame(layout, attributes) == attributes
  {
  }

  // ---------------------------------------------------------------------------
  // Lines described by the base layout's default frames
  // ---------------------------------------------------------------------------

  /**
   * Item `j` of the run of `ws` items from `start` in `section`: the base
   * layout has a frame for it, of width `ws[j] > 0`, and from the second item
   * on that frame overlaps the previous item's frame vertically (items of a
   * line may differ in height and be centred in it).
   */
  predicate ItemOfLine(layout: FlowLayout, section: int, start: int, ws: seq<int>, j: int)
    requires 0 <= j < |ws|
  {
    var p := IndexPath(section, start + j);
    var previous := IndexPath(section, start + j - 1);
    p in layout.defaultFrames && ws[j] > 0 && layout.defaultFrames[p].w == ws[j] &&
    (j > 0 ==> previous in layout.defaultFrames &&
               !VerticallyApart(layout.defaultFrames[previous], layout.defaultFrames[p]))
  }

  /** The item at `p` starts a line: no item before it, or the one before it lies on another line. */
  predicate StartsLine(layout: FlowLayout, p: IndexPath) {
    var previous := IndexPath(p.section, p.item - 1);
    p.item <= 0 || p !in layout.defaultFrames || previous !in layout.defaultFrames ||
    VerticallyApart(layout.defaultFrames[previous], layout.defaultFrames[p])
  }

  /** The item at `p` ends a line: no item after it, or the one after it lies on another line. */
  predicate EndsLine(layout: FlowLayout, p: IndexPath) {
    var next := IndexPath(p.section, p.item + 1);
    layout.collectionView.None? || p.item >= layout.collectionView.value.numberOfItems(p.section) - 1 ||
    p !in layout.defaultFrames || next !in layout.defaultFrames ||
    VerticallyApart(layout.defaultFrames[next], layout.defaultFrames[p])
  }

  /** Under left alignment the first item of a line is the closest item. */
  lemma StartOfLineIsClosest(layout: FlowLayout, p: IndexPath)
    requires layout.cellAlignment == Left && p in layout.defaultFrames && StartsLine(layout, p)
    ensures RepresentsClosestItemToAlignmentAxis(layout, p, layout.defaultFrames[p])
  {
    var before := LayoutAttributesBefore(layout, p);
    if before.Some? && layout.collectionView.Some? {
      assert VerticallyApart(before.value, layout.defaultFrames[p]);
      ApartNeverIntersect(LineFrame(layout, layout.collectionView.value.width, layout.defaultFrames[p]), before.value);
    }
  }

  /** Under right alignment the last item of a line is the closest item. */
  lemma EndOfLineIsClosest(layout: FlowLayout, p: IndexPath)
    requires layout.cellAlignment == Right && p in layout.defaultFrames && EndsLine(layout, p)
    ensures RepresentsClosestItemToAlignmentAxis(layout, p, layout.defaultFrames[p])
  {
    var after := LayoutAttributesAfter(layout, p);
    if after.Some? && layout.collectionView.Some? {
      assert VerticallyApart(after.value, layout.defaultFrames[p]);
      ApartNeverIntersect(LineFrame(layout, layout.collectionView.value.width, layout.defaultFrames[p]), after.value);
    }
  }

  /** Where item `k` of a left-aligned line starts, relative to the axis: the widths and spacings before it. */
  function PackedOffset(ws: seq<int>, spacing: int, k: nat): int
    requires k <= |ws|
  {
    if k == 0 then 0 else PackedOffset(ws, spacing, k - 1) + ws[k - 1] + spacing
  }

  /** Where item `k` of a right-aligned line ends, relative to the axis: the widths and spacings after it. */
  function TrailingExtent(ws: seq<int>, spacing: int, k: nat): int
    requires k < |ws|
    decreases |ws| - k
  {
    if k == |ws| - 1 then 0 else TrailingExtent(ws, spacing, k + 1) + ws[k + 1] + spacing
  }

  lemma {:induction false} PackedOffsetGrows(ws: seq<int>, spacing: int, i: nat, j: nat)
    requires i <= j <= |ws| && spacing >= 0
    requires forall k :: 0 <= k < |ws| ==> ws[k] > 0
    ensures 0 <= PackedOffset(ws, spacing, i) <= PackedOffset(ws, spacing, j)
    decreases j
  {
    if j > i {
      PackedOffsetGrows(ws, spacing, i, j - 1);
    } else if i > 0 {
      PackedOffsetGrows(ws, spacing, i - 1, i - 1);
    }
  }

  lemma {:induction false} TrailingExtentShrinks(ws: seq<int>, spacing: int, i: nat, j: nat)
    requires i <= j < |ws| && spacing >= 0
    requires forall k :: 0 <= k < |ws| ==> ws[k] > 0
    ensures 0 <= TrailingExtent(ws, spacing, j) <= TrailingExtent(ws, spacing, i)
    decreases |ws| - i
  {
    if i < j {
      TrailingExtentShrinks(ws, spacing, i + 1, j);
    } else if j < |ws| - 1 {
      TrailingExtentShrinks(ws, spacing, j + 1, j + 1);
    }
  }

  /** Every item of its widths `ws` has positive width. */
  lemma LineWidthsPositive(layout: FlowLayout, section: int, start: int, ws: seq<int>)
    requires forall j :: 0 <= j < |ws| ==> ItemOfLine(layout, section, start, ws, j)
    ensures forall j :: 0 <= j < |ws| ==> ws[j] > 0
  {
    forall j | 0 <= j < |ws| ensures ws[j] > 0 {
      assert ItemOfLine(layout, section, start, ws, j);
    }
  }

  /**
   * A left-aligned line packs from the left inset. Take consecutive items
   * whose default frames overlap vertically pairwise, whose first item
   * starts a line, and that fit the content width once packed. Then item k
   * starts at the left inset plus the widths and spacings before it, and
   * keeps its default y, width and height.
   */
  lemma {:induction false} LeftLinePacking(
    layout: FlowLayout, section: int, start: nat, ws: seq<int>, k: nat)
    requires layout.cellAlignment == Left && layout.collectionView.Some?
    requires layout.minimumInteritemSpacing >= 0
    requires forall j :: 0 <= j < |ws| ==> ItemOfLine(layout, section, start, ws, j)
    requires StartsLine(layout, IndexPath(section, start))
    requires k < |ws|
    requires PackedOffset(ws, layout.minimumInteritemSpacing, |ws| - 1) <
      layout.collectionView.value.width - layout.sectionInset.left - layout.sectionInset.right
    ensures IndexPath(section, start + k) in layout.defaultFrames
    ensures LayoutAttributesForItem(layout, IndexPath(section, start + k)) ==
      Some(layout.defaultFrames[IndexPath(section, start + k)].(
        x := layout.sectionInset.left + PackedOffset(ws, layout.minimumInteritemSpacing, k)))
    decreases k
  {
    var spacing := layout.minimumInteritemSpacing;
    var p := IndexPath(section, start + k);
    assert ItemOfLine(layout, section, start, ws, k);
    var attributes := layout.defaultFrames[p];
    if k == 0 {
      StartOfLineIsClosest(layout, p);
    } else {
      var previous := IndexPath(section, start + k - 1);
      LeftLinePacking(layout, section, start, ws, k - 1);
      assert ItemOfLine(layout, section, start, ws, k - 1);
      LineWidthsPositive(layout, section, start, ws);
      PackedOffsetGrows(ws, spacing, k - 1, |ws| - 1);
      var before := layout.defaultFrames[previous].(x := layout.sectionInset.left + PackedOffset(ws, spacing, k - 1));
      assert LayoutAttributesBefore(layout, p) == Some(before);
      assert IsFrameInSameLine(layout, attributes, before);
      assert !RepresentsClosestItemToAlignmentAxis(layout, p, attributes);
    }
  }

  /**
   * A right-aligned line packs from the right axis: the mirror case. The
   * line's last item ends a line, and item k ends at the width minus the
   * right inset minus the widths and spacings after it.
   */
  lemma {:induction false} RightLinePacking(
    layout: FlowLayout, section: int, start: nat, ws: seq<int>, k: nat)
    requires layout.cellAlignment == Right && layout.collectionView.Some?
    requires layout.minimumInteritemSpacing >= 0
    requires forall j :: 0 <= j < |ws| ==> ItemOfLine(layout, section, start, ws, j)
    requires start + |ws| <= layout.collectionView.value.numberOfItems(section)
    requires EndsLine(layout, IndexPath(section, start + |ws| - 1))
    requires k < |ws|
    requires TrailingExtent(ws, layout.minimumInteritemSpacing, 0) <
      layout.collectionView.value.width - layout.sectionInset.left - layout.sectionInset.right
    ensures IndexPath(section, start + k) in layout.defaultFrames
    ensures LayoutAttributesForItem(layout, IndexPath(section, start + k)) ==
      var axis := layout.collectionView.value.width - layout.sectionInset.right;
      Some(layout.defaultFrames[IndexPath(section, start + k)].(
        x := axis - TrailingExtent(ws, layout.minimumInteritemSpacing, k) - ws[k]))
    decreases |ws| - k
  {
    var spacing := layout.minimumInteritemSpacing;
    var axis := layout.collectionView.value.width - layout.sectionInset.right;
    var p := IndexPath(section, start + k);
    assert ItemOfLine(layout, section, start, ws, k);
    var attributes := layout.defaultFrames[p];
    if k == |ws| - 1 {
      EndOfLineIsClosest(layout, p);
    } else {
      var next := IndexPath(section, start + k + 1);
      RightLinePacking(layout, section, start, ws, k + 1);
      assert ItemOfLine(layout, section, start, ws, k + 1);
      LineWidthsPositive(layout, section, start, ws);
      TrailingExtentShrinks(ws, spacing, 0, k + 1);
      var after := layout.defaultFrames[next].(x := axis - TrailingExtent(ws, spacing, k + 1) - ws[k + 1]);
      assert LayoutAttributesAfter(layout, p) == Some(after);
      assert IsFrameInSameLine(layout, attributes, after);
      assert !RepresentsClosestItemToAlignmentAxis(layout, p, attributes);
    }
  }

  // ---------------------------------------------------------------------------
  // Lines are laid out independently of each other
  // ---------------------------------------------------------------------------

  /** Two layouts with the same alignment, insets, spacing and width (and item count for `section`). */
  predicate SameConfiguration(a: FlowLayout, b: FlowLayout, section: int) {
    a.cellAlignment == b.cellAlignment && a.sectionInset == b.sectionInset &&
    a.minimumInteritemSpacing == b.minimumInteritemSpacing &&
    (a.collectionView.Some? <==> b.collectionView.Some?) &&
    (a.collectionView.Some? ==>
       a.collectionView.value.width == b.collectionView.value.width &&
       a.collectionView.value.numberOfItems(section) == b.collectionView.value.numberOfItems(section))
  }

  /** The base layouts of `a` and `b` report the same default frame (or none) for `p`. */
  predicate SameDefault(a: FlowLayout, b: FlowLayout, p: IndexPath) {
    (p in a.defaultFrames <==> p in b.defaultFrames) &&
    (p in a.defaultFrames ==> a.defaultFrames[p] == b.defaultFrames[p])
  }

  /**
   * Under left alignment, the frame of an item depends only on the default
   * frames of the items from its line's first item up to itself: what the
   * base layout reports for any other item leaves it unchanged.
   */
  lemma {:induction false} LeftLineIsolation(a: FlowLayout, b: FlowLayout, section: int, start: int, item: int)
    requires a.cellAlignment == Left && SameConfiguration(a, b, section)
    requires start <= item
    requires forall j :: start <= j <= item ==> SameDefault(a, b, IndexPath(section, j))
    requires StartsLine(a, IndexPath(section, start)) && StartsLine(b, IndexPath(section, start))
    ensures LayoutAttributesForItem(a, IndexPath(section, item)) == LayoutAttributesForItem(b, IndexPath(section, item))
    decreases item - start
  {
    var p := IndexPath(section, item);
    assert SameDefault(a, b, p);
    if p in a.defaultFrames {
      var attributes := a.defaultFrames[p];
      if item == start {
        StartOfLineIsClosest(a, p);
        StartOfLineIsClosest(b, p);
      } else {
        if item > 0 {
          LeftLineIsolation(a, b, section, start, item - 1);
        }
        assert LayoutAttributesBefore(a, p) == LayoutAttributesBefore(b, p);
        assert RepresentsClosestItemToAlignmentAxis(a, p, attributes) ==
               RepresentsClosestItemToAlignmentAxis(b, p, attributes);
      }
    }
  }

  /**
   * Under right alignment, the frame of an item depends only on the default
   * frames of the items from itself up to its line's last item.
   */
  lemma {:induction false} RightLineIsolation(a: FlowLayout, b: FlowLayout, section: int, item: int, end: int)
    requires a.cellAlignment == Right && SameConfiguration(a, b, section)
    requires item <= end
    requires forall j :: item <= j <= end ==> SameDefault(a, b, IndexPath(section, j))
    requires EndsLine(a, IndexPath(section, end)) && EndsLine(b, IndexPath(section, end))
    ensures LayoutAttributesForItem(a, IndexPath(section, item)) == LayoutAttributesForItem(b, IndexPath(section, item))
    decreases end - item
  {
    var p := IndexPath(section, item);
    assert SameDefault(a, b, p);
    if p in a.defaultFrames && a.collectionView.Some? {
      var attributes := a.defaultFrames[p];
      if item == end {
        EndOfLineIsClosest(a, p);
        EndOfLineIsClosest(b, p);
      } else {
        if item < a.collectionView.value.numberOfItems(section) - 1 {
          RightLineIsolation(a, b, section, item + 1, end);
        }
        assert LayoutAttributesAfter(a, p) == LayoutAttributesAfter(b, p);
        assert RepresentsClosestItemToAlignmentAxis(a, p, attributes) ==
               RepresentsClosestItemToAlignmentAxis(b, p, attributes);
      }
    }
  }

  // ---------------------------------------------------------------------------
  // One line of three tags
  // ---------------------------------------------------------------------------

  /**
   * A 300-point wide collection view with insets of 10 and a spacing of 8,
   * holding in section 0 three items of widths 80, 60 and 100 and heights
   * 40, 30 and 40 on one line. The base layout spreads them across the
   * line and centres the lower one vertically.
   */
  predicate ThreeTagLayout(layout: FlowLayout) {
    layout.collectionView.Some? && layout.collectionView.value.width == 300 &&
    layout.collectionView.value.numberOfItems(0) == 3 &&
    layout.sectionInset == SectionInset(10, 10) && layout.minimumInteritemSpacing == 8 &&
    layout.defaultFrames == map[IndexPath(0, 0) := Frame(10, 0, 80, 40),
                                IndexPath(0, 1) := Frame(110, 5, 60, 30),
                                IndexPath(0, 2) := Frame(190, 0, 100, 40)]
  }

  lemma ThreeTagsInLine(layout: FlowLayout)
    requires ThreeTagLayout(layout)
    ensures forall j :: 0 <= j < 3 ==> ItemOfLine(layout, 0, 0, [80, 60, 100], j)
  {
    forall j | 0 <= j < 3 ensures ItemOfLine(layout, 0, 0, [80, 60, 100], j) {
      assert j == 0 || j == 1 || j == 2;
    }
  }

  /** Left-aligned, the three tags start at 10, 98 and 166. */
  lemma LeftAlignedThreeTags(layout: FlowLayout)
    requires ThreeTagLayout(layout) && layout.cellAlignment == Left
    ensures LayoutAttributesForItem(layout, IndexPath(0, 0)) == Some(Frame(10, 0, 80, 40))
    ensures LayoutAttributesForItem(layout, IndexPath(0, 1)) == Some(Frame(98, 5, 60, 30))
    ensures LayoutAttributesForItem(layout, IndexPath(0, 2)) == Some(Frame(166, 0, 100, 40))
  {
    var ws := [80, 60, 100];
    ThreeTagsInLine(layout);
    assert PackedOffset(ws, 8, 1) == 88 && PackedOffset(ws, 8, 2) == 156;
    LeftLinePacking(layout, 0, 0, ws, 0);
    LeftLinePacking(layout, 0, 0, ws, 1);
    LeftLinePacking(layout, 0, 0, ws, 2);
  }

  /** Right-aligned, the last tag ends at 290 and the others end at 182 and 114. */
  lemma RightAlignedThreeTags(layout: FlowLayout)
    requires ThreeTagLayout(layout) && layout.cellAlignment == Right
    ensures LayoutAttributesForItem(layout, IndexPath(0, 2)) == Some(Frame(190, 0, 100, 40))
    ensures LayoutAttributesForItem(layout, IndexPath(0, 1)) == Some(Frame(122, 5, 60, 30))
    ensures LayoutAttributesForItem(layout, IndexPath(0, 0)) == Some(Frame(34, 0, 80, 40))
  {
    var ws := [80, 60, 100];
    ThreeTagsInLine(layout);
    assert TrailingExtent(ws, 8, 1) == 108 && TrailingExtent(ws, 8, 0) == 176;
    assert EndsLine(layout, IndexPath(0, 0 + |ws| - 1));
    RightLinePacking(layout, 0, 0, ws, 0);
    RightLinePacking(layout, 0, 0, ws, 1);
    RightLinePacking(layout, 0, 0, ws, 2);
  }
}
