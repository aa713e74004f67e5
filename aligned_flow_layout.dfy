/**
 * A flow layout that aligns the cells of each line to the left or to the
 * right edge, like ragged-right or ragged-left text.
 *
 * The base flow layout is abstracted as data: the default frame it computes
 * for each index path, and the collection view it lays out (its width and
 * the number of items per section), which may not be known yet. The layout
 * re-derives, for every item, whether it is the item of its line closest to
 * the alignment axis, and moves it to the axis or next to its already
 * aligned neighbour. Only the x origin of a frame ever changes.
 */
module AlignedCollectionViewFlowLayout {
  import opened Options
  import opened Geometry

  /** An alignment for UI elements. */
  datatype HorizontalAlignment = Left | Right

  /** A vertical axis against which items are aligned, and on which side of it. */
  datatype HorizontalAlignmentAxis = HorizontalAlignmentAxis(alignment: HorizontalAlignment, xPosition: int)

  datatype IndexPath = IndexPath(section: int, item: int)

  /** What the layout reads of its collection view. */
  datatype CollectionView = CollectionView(width: int, numberOfItems: int -> int)

  datatype SectionInset = SectionInset(left: int, right: int)

  datatype ElementCategory = Cell | SupplementaryView | DecorationView

  /** One layout attributes record, reduced to the fields this layout reads or writes. */
  datatype LayoutAttributes = LayoutAttributes(indexPath: IndexPath, category: ElementCategory, frame: Frame)

  /**
   * The layout's state: its configuration, the collection view (absent
   * before the layout is attached to one) and the default frames the base
   * flow layout computes for single items (an index path without an entry is
   * one the base layout has no attributes for).
   */
  datatype FlowLayout = FlowLayout(
    cellAlignment: HorizontalAlignment,
    collectionView: Option<CollectionView>,
    sectionInset: SectionInset,
    minimumInteritemSpacing: int,
    defaultFrames: map<IndexPath, Frame>)

  /** The axis to which cells are aligned; absent for right alignment while the width is unknown. */
  function AlignmentAxis(layout: FlowLayout): (r: Option<HorizontalAlignmentAxis>)
    ensures r.Some? ==> r.value.alignment == layout.cellAlignment
    ensures layout.cellAlignment == Left ==> r == Some(HorizontalAlignmentAxis(Left, layout.sectionInset.left))
    ensures layout.cellAlignment == Right ==>
      (r.None? <==> layout.collectionView.None?) &&
      (r.Some? ==> r.value.xPosition == layout.collectionView.value.width - layout.sectionInset.right)
  {
    match layout.cellAlignment
    case Left => Some(HorizontalAlignmentAxis(Left, layout.sectionInset.left))
    case Right =>
      match layout.collectionView
      case None => None
      case Some(view) => Some(HorizontalAlignmentAxis(Right, view.width - layout.sectionInset.right))
  }

  /**
   * How many neighbour lookups can still follow from `p` toward the axis:
   * the items before `p` for left alignment, the items after it (up to the
   * section's item count) for right alignment. It bounds the recursion.
   */
  function StepsTowardAxis(layout: FlowLayout, p: IndexPath): nat {
    match layout.cellAlignment
    case Left => if p.item > 0 then p.item else 0
    case Right =>
      match layout.collectionView
      case None => 0
      case Some(view) =>
        var count := view.numberOfItems(p.section);
        if p.item < count - 1 then count - 1 - p.item else 0
  }

  /** The frame for the item at `p`, aligned; absent when the base layout has none or the axis is unknown. */
  function LayoutAttributesForItem(layout: FlowLayout, p: IndexPath): (r: Option<Frame>)
    ensures r.Some? <==> p in layout.defaultFrames && AlignmentAxis(layout).Some?
    ensures r.Some? ==> SameExceptX(r.value, layout.defaultFrames[p])
    decreases StepsTowardAxis(layout, p), 2
  {
    if p !in layout.defaultFrames then None
    else
      match AlignmentAxis(layout)
      case None => None
      case Some(axis) =>
        var attributes := layout.defaultFrames[p];
        if RepresentsClosestItemToAlignmentAxis(layout, p, attributes) then
          Some(AlignToAlignmentAxis(attributes, axis))
        else
          Some(AlignToAdjacentItem(layout, p, attributes))
  }

  /** The aligned frame of the item before `p` in its section, if there is one. */
  function LayoutAttributesBefore(layout: FlowLayout, p: IndexPath): (r: Option<Frame>)
    ensures r.Some? <==>
      p.item > 0 && IndexPath(p.section, p.item - 1) in layout.defaultFrames && AlignmentAxis(layout).Some?
    ensures r.Some? ==> SameExceptX(r.value, layout.defaultFrames[IndexPath(p.section, p.item - 1)])
    decreases if p.item > 0 then StepsTowardAxis(layout, IndexPath(p.section, p.item - 1)) + 1 else 0, 0
  {
    if p.item > 0 then LayoutAttributesForItem(layout, IndexPath(p.section, p.item - 1)) else None
  }

  /** The aligned frame of the item after `p` in its section, if there is one and the item count is known. */
  function LayoutAttributesAfter(layout: FlowLayout, p: IndexPath): (r: Option<Frame>)
    ensures r.Some? <==>
      layout.collectionView.Some? && p.item < layout.collectionView.value.numberOfItems(p.section) - 1 &&
      IndexPath(p.section, p.item + 1) in layout.defaultFrames && AlignmentAxis(layout).Some?
    ensures r.Some? ==> SameExceptX(r.value, layout.defaultFrames[IndexPath(p.section, p.item + 1)])
    decreases
      if layout.collectionView.Some? && p.item < layout.collectionView.value.numberOfItems(p.section) - 1
      then StepsTowardAxis(layout, IndexPath(p.section, p.item + 1)) + 1 else 0,
      0
  {
    match layout.collectionView
    case None => None
    case Some(view) =>
      if p.item < view.numberOfItems(p.section) - 1 then
        LayoutAttributesForItem(layout, IndexPath(p.section, p.item + 1))
      else None
  }

  /** The rectangle covering the line of `first`: the content width, at `first`'s height. */
  function LineFrame(layout: FlowLayout, width: int, first: Frame): (r: Frame)
    ensures r.MinY() == first.MinY() && r.MaxY() == first.MaxY()
    ensures width - layout.sectionInset.left - layout.sectionInset.right >= 0 ==>
      r.MinX() == layout.sectionInset.left && r.MaxX() == width - layout.sectionInset.right
  {
    Frame(layout.sectionInset.left, first.y, width - layout.sectionInset.left - layout.sectionInset.right, first.h)
  }

  /** Whether `second` lies in the line of `first`; false while the width is unknown. */
  function IsFrameInSameLine(layout: FlowLayout, first: Frame, second: Frame): (r: bool)
    ensures layout.collectionView.None? ==> !r
    ensures r ==> first.MinY() < second.MaxY() && second.MinY() < first.MaxY()
    ensures layout.collectionView.Some? ==>
      (r <==> Intersects(LineFrame(layout, layout.collectionView.value.width, first), second))
  {
    match layout.collectionView
    case None => false
    case Some(view) => Intersects(LineFrame(layout, view.width, first), second)
  }

  /**
   * Whether the item at `p`, at frame `attributes`, is the item of its line
   * closest to the axis. An item without a neighbour toward the axis always
   * is. An item with one is exactly when the width is unknown or the
   * neighbour's aligned frame does not meet the rectangle that spans the
   * content width at the item's height.
   */
  function RepresentsClosestItemToAlignmentAxis(layout: FlowLayout, p: IndexPath, attributes: Frame): (r: bool)
    ensures layout.cellAlignment == Left && p.item <= 0 ==> r
    ensures layout.cellAlignment == Right ==>
      (layout.collectionView.None? || p.item >= layout.collectionView.value.numberOfItems(p.section) - 1) ==> r
    ensures
      var neighbor :=
        match layout.cellAlignment
        case Left => LayoutAttributesBefore(layout, p)
        case Right => LayoutAttributesAfter(layout, p);
      neighbor.Some? ==>
        (r <==>
          match layout.collectionView
          case None => true
          case Some(view) =>
            var left := layout.sectionInset.left;
            !Intersects(Frame(left, attributes.y, view.width - left - layout.sectionInset.right, attributes.h),
                        neighbor.value))
    decreases StepsTowardAxis(layout, p), 1
  {
    var neighbor :=
      match layout.cellAlignment
      case Left => LayoutAttributesBefore(layout, p)
      case Right => LayoutAttributesAfter(layout, p);
    match neighbor
    case Some(n) => !IsFrameInSameLine(layout, attributes, n)
    case None => true
  }

  /** Moves `attributes` next to the axis: its left edge on a left axis, its right edge on a right one. */
  function AlignToAlignmentAxis(attributes: Frame, axis: HorizontalAlignmentAxis): (r: Frame)
    ensures SameExceptX(r, attributes)
    ensures axis.alignment == Left ==> r.x == axis.xPosition
    ensures axis.alignment == Right ==> r.x + r.w == axis.xPosition
  {
    match axis.alignment
    case Left => attributes.(x := axis.xPosition)
    case Right => attributes.(x := axis.xPosition - attributes.w)
  }

  /** Moves `attributes` next to its aligned neighbour toward the axis, with the inter-item spacing between them. */
  function AlignToAdjacentItem(layout: FlowLayout, p: IndexPath, attributes: Frame): (r: Frame)
    ensures SameExceptX(r, attributes)
    ensures layout.cellAlignment == Left ==>
      match LayoutAttributesBefore(layout, p)
      case Some(before) => r.x == before.MaxX() + layout.minimumInteritemSpacing
      case None => r == attributes
    ensures layout.cellAlignment == Right ==>
      match LayoutAttributesAfter(layout, p)
      case Some(after) => r.x + r.w == after.MinX() - layout.minimumInteritemSpacing
      case None => r == attributes
    decreases StepsTowardAxis(layout, p), 1
  {
    var spacing := layout.minimumInteritemSpacing;
    match layout.cellAlignment
    case Left =>
      (match LayoutAttributesBefore(layout, p)
       case Some(before) => attributes.(x := before.MaxX() + spacing)
       case None => attributes)
    case Right =>
      (match LayoutAttributesAfter(layout, p)
       case Some(after) => attributes.(x := after.MinX() - spacing - attributes.w)
       case None => attributes)
  }

  /** The attributes record with its frame replaced by the aligned one; other categories pass through. */
  function SetFrame(layout: FlowLayout, attributes: LayoutAttributes): (r: LayoutAttributes)
    ensures r.indexPath == attributes.indexPath && r.category == attributes.category
    ensures attributes.category != Cell ==> r == attributes
    ensures attributes.category == Cell ==>
      r.frame == match LayoutAttributesForItem(layout, attributes.indexPath)
                 case Some(aligned) => aligned
                 case None => attributes.frame
  {
    if attributes.category == Cell then
      match LayoutAttributesForItem(layout, attributes.indexPath)
      case Some(aligned) => attributes.(frame := aligned)
      case None => attributes
    else attributes
  }

  /**
   * The attributes of all elements in a region: the base layout's records,
   * copied into a fresh array whose cell records are then aligned in place.
   */
  method LayoutAttributesForElements(layout: FlowLayout, base: Option<seq<LayoutAttributes>>)
    returns (r: Option<seq<LayoutAttributes>>)
    ensures r.None? <==> base.None?
    ensures r.Some? ==> |r.value| == |base.value|
    ensures r.Some? ==> forall i :: 0 <= i < |r.value| ==> r.value[i] == SetFrame(layout, base.value[i])
  {
    if base.None? {
      return None;
    }
    var elements := base.value;
    var copies := new LayoutAttributes[|elements|](i requires 0 <= i < |elements| => elements[i]);
    for i := 0 to copies.Length
      invariant forall j :: 0 <= j < i ==> copies[j] == SetFrame(layout, elements[j])
      invariant forall j :: i <= j < copies.Length ==> copies[j] == elements[j]
    {
      copies[i] := SetFrame(layout, copies[i]);
    }
    return Some(copies[..]);
  }
}
