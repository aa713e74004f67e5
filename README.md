# Aligned collection view flow layout, modelled in Dafny

`AlignedCollectionViewFlowLayout` is a flow layout that places the cells of
each line flush left or flush right, like ragged-right or ragged-left text.
The base flow layout computes a default frame for every item (spread across
the line, or centred when an item is alone on its line). This layout then
decides, for every item, whether it is the item of its line closest to the
alignment axis:

- the closest item is moved onto the axis;
- every other item is moved next to its neighbour toward the axis, the
  minimum inter-item spacing apart.

The neighbour's frame is the neighbour's own *aligned* frame. So the
position of an item is defined by recursion along its section: toward item 0
for left alignment, toward the last item for right alignment.

The model has three modules:

- `Geometry` (`geometry.dfy`): frames on integer coordinates, their
  standardised edges and the intersection test. `Options` holds `Option`.
- `AlignedCollectionViewFlowLayout` (`aligned_flow_layout.dfy`): the layout.
  The base flow layout and the collection view are inputs, held in the value
  `FlowLayout`:
  - the default frame per index path (an index path without an entry is one
    the base layout has no attributes for);
  - the collection view, absent before the layout is attached to one. When
    present it gives the width and the number of items per section;
  - the cell alignment, the left and right section insets and the minimum
    inter-item spacing.

  The single-item positioner and its helpers are mutually recursive
  functions. The `decreases` clauses count the items left between an index
  path and the end of its section toward the axis, which proves that the
  recursion ends. The batch adapter is a method. It copies the base layout's
  records into a fresh array and aligns the cell records in place in a loop.
- `LineProperties` (`line_properties.dfy`): what the alignment promises about
  lines:
  - which item of a line is the closest one;
  - that the closest item is flush with the axis;
  - that the other items abut their neighbours;
  - that a line whose default frames overlap vertically, item by item, packs exactly
    from the axis (left: inset, inset + w0 + s, ...; right: mirrored);
  - that a line's frames do not depend on the items of other lines;
  - a worked three-item example for both alignments.

Behaviour of the code worth knowing:

- The row test compares the item's line rectangle with the neighbour's
  *aligned* frame, because the neighbour lookups (lines 145 and 161) call
  the overridden single-item method. The model does the same.
- When the axis cannot be resolved (right alignment, width unknown),
  `layoutAttributesForItem(at:)` returns nil (lines 101-104), not the default
  frame. The default frame survives only in the batch path, because
  `setFrame` keeps a record's frame when the single-item path gives nothing
  (`RightWithoutWidthKeepsDefaults`).
- Right-aligned, a line of widths 80, 60 and 100 (width 300, insets 10,
  spacing 8) ends at 290, 182 and 114. Each right edge is the next item's
  left edge minus the spacing (`RightAlignedThreeTags`).
- With left alignment and no collection view, the same-line test is always
  false. So every item is moved to the left inset (`LeftWithoutWidthIsFlush`).
- Intersection is strict: rectangles that only touch along an edge do not
  intersect. Edges are those of the standardised rectangle, so negative
  sizes are handled as Core Graphics does.

## Model

| member | source | states |
|---|---|---|
| `AlignedCollectionViewFlowLayout.AlignmentAxis` | AlignedCollectionViewFlowLayout.swift:61-71 | The axis has the configured alignment. It is at the left inset for left alignment. For right alignment it is at width minus right inset, and absent exactly when the collection view (its width) is unknown. |
| `AlignedCollectionViewFlowLayout.LayoutAttributesForItem` | AlignedCollectionViewFlowLayout.swift:76-114 | A frame is returned iff the base layout has attributes for the index path and the axis resolves. In every other case nothing is returned, never the default frame. A returned frame differs from the default frame only in its x origin. |
| `AlignedCollectionViewFlowLayout.LayoutAttributesBefore` | AlignedCollectionViewFlowLayout.swift:139-149 | The left neighbour exists iff item > 0, the base layout knows item − 1 of the same section, and the axis resolves. Its frame is item − 1's default frame moved only in x. |
| `AlignedCollectionViewFlowLayout.LayoutAttributesAfter` | AlignedCollectionViewFlowLayout.swift:152-165 | The right neighbour exists iff the item count is known, item < count − 1, the base layout knows item + 1 of the same section, and the axis resolves. Its frame is item + 1's default frame moved only in x. |
| `AlignedCollectionViewFlowLayout.LineFrame` | AlignedCollectionViewFlowLayout.swift:179-184 | The line rectangle has the item's vertical extent. When the content width is not negative, it spans from the left inset to width minus right inset. |
| `AlignedCollectionViewFlowLayout.IsFrameInSameLine` | AlignedCollectionViewFlowLayout.swift:175-186 | False while the width is unknown. Otherwise true iff the second frame intersects the first frame's line rectangle. Being on the same line implies the two frames overlap vertically. |
| `AlignedCollectionViewFlowLayout.AlignToAlignmentAxis` | AlignedCollectionViewFlowLayout.swift:237-244 | Only x changes. Left axis: the left edge is on the axis. Right axis: x + w is on the axis. |
| `AlignedCollectionViewFlowLayout.AlignToAdjacentItem` | AlignedCollectionViewFlowLayout.swift:248-260 | Only x changes. Left: x == the previous item's aligned maxX + spacing. Right: x + w == the next item's aligned minX − spacing. With no neighbour the frame is left unchanged. |
| `AlignedCollectionViewFlowLayout.SetFrame` | AlignedCollectionViewFlowLayout.swift:129-136 | Index path and category are kept. Non-cell records are unchanged. A cell record takes the single-item frame, or keeps its own frame when the single-item path returns nothing. |
| `AlignedCollectionViewFlowLayout.LayoutAttributesForElements` | AlignedCollectionViewFlowLayout.swift:116-123 | Absent iff the base result is absent. Otherwise it has the base result's length, and entry i is entry i of the base result after `SetFrame`, so order is kept and headers and decorations pass through. |
| `AlignedCollectionViewFlowLayout.RepresentsClosestItemToAlignmentAxis` | AlignedCollectionViewFlowLayout.swift:209-234 | With no neighbour toward the axis the item is the closest one: item ≤ 0 for left alignment; for right alignment item ≥ count − 1, or any item when the item count is unknown. An item with an aligned neighbour is the closest one iff the width is unknown or the neighbour's aligned frame does not intersect (left inset, item y, width − left − right, item h). |
| `LineProperties.ClosestItemIsFlushWithAxis` | AlignedCollectionViewFlowLayout.swift:106-108 | The closest item gets x == left inset under left alignment, and x + w == width − right inset under right alignment. y, w and h are the default frame's. |
| `LineProperties.InteriorItemAbutsNeighbour` | AlignedCollectionViewFlowLayout.swift:109-111 | Any other item has a neighbour. Left: x == neighbour's aligned maxX + spacing. Right: x + w == neighbour's aligned minX − spacing. y, w and h are the default frame's. |
| `LineProperties.LeftWithoutWidthIsFlush` | AlignedCollectionViewFlowLayout.swift:175-178 | Left alignment without a collection view moves every known item to the left inset and changes nothing else. |
| `LineProperties.RightWithoutWidthKeepsDefaults` | AlignedCollectionViewFlowLayout.swift:130-135 | Right alignment without a width gives no single-item frame, and the batch keeps every record exactly as the base layout gave it. |
| `LineProperties.StartOfLineIsClosest` | AlignedCollectionViewFlowLayout.swift:215-229 | Under left alignment, an item whose predecessor is missing or lies vertically apart from it is the closest item. |
| `LineProperties.EndOfLineIsClosest` | AlignedCollectionViewFlowLayout.swift:215-229 | Under right alignment, an item that is last in its section, or whose successor is missing or lies vertically apart from it, is the closest item. |
| `LineProperties.LeftLinePacking` | AlignedCollectionViewFlowLayout.swift:76-114 | Take a left-aligned line: consecutive items with widths ws > 0 whose default frames overlap vertically pair by pair (they may differ in height and be centred), whose first item starts a line, and that fits the content width once packed. Item k is its default frame with x = left inset + Σ_{j<k}(ws[j] + spacing). |
| `LineProperties.RightLinePacking` | AlignedCollectionViewFlowLayout.swift:76-114 | The mirror case for a right-aligned line whose last item ends a line and lies within the section's item count. Item k is its default frame moved so that it ends at width − right inset − Σ_{j>k}(ws[j] + spacing). |
| `LineProperties.LeftLineIsolation` | AlignedCollectionViewFlowLayout.swift:139-149 | Under left alignment, an item's frame depends only on the defaults from its line's first item up to itself. Two layouts that agree there give it the same frame. |
| `LineProperties.RightLineIsolation` | AlignedCollectionViewFlowLayout.swift:152-165 | Under right alignment, an item's frame depends only on the defaults from itself up to its line's last item. |
| `LineProperties.LeftAlignedThreeTags` | AlignedCollectionViewFlowLayout.swift:237-254 | Widths 80, 60, 100 (the middle one lower and centred), width 300, insets 10, spacing 8, left alignment: the items start at 10, 98 and 166. |
| `LineProperties.RightAlignedThreeTags` | AlignedCollectionViewFlowLayout.swift:241-258 | The same line under right alignment: the items end at 290, 182 and 114. |

## Left out

- The base flow layout (`UICollectionViewFlowLayout` and its `super` calls) is abstracted as inputs. These are the map of default frames per index path, and the collection view's width and per-section item counts. How it wraps lines and spreads items is not modelled.
- The base layout's region query is an input of the batch method (`base`). The method does not relate it to the per-item default frames.
- `CGFloat` arithmetic is replaced by exact integers: no rounding.
- `CGRect.intersects` comes from a library whose edge cases are not visible here. It is modelled as strict overlap of interiors, so touching edges do not intersect.
- Layout attributes are reduced to index path, category and frame. Alpha, transform, z-index and the rest are untouched by this layout and left out.
- `LayoutAttributesForItem` returns only the frame of the attributes object it creates.
- `NSCopying` copies are not modelled, because values in the model are immutable. The batch method's fresh array is the copied array.
- Calling the positioner twice on unchanged state gives the same frame. This holds by construction, since the model is a function.
- A section inset supplied per section through the delegate is not read by this code. The model has one inset pair.
- The example application (`Example/AlignedCollectionViewFlowLayout/CollectionViewController.swift`) and `Package.swift` are not part of this model. They hold a demo UI and build metadata.
- Header and decoration layout is the base layout's job. Those records only pass through the batch method.
- Concurrency: the layout is used from one thread, so there is nothing to model.
