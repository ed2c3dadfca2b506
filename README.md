# RWBlueLibrary carousel, modelled in Dafny

RWBlueLibrary is a music-library screen: a horizontally scrolling strip of
album covers (`HorizontalScrollerView`) above a table with the details of the
current album (`ViewController`). This project models both.

- `geometry.dfy` (module `Geometry`): the Core Graphics geometry the carousel
  uses. Points, sizes and rectangles have `real` coordinates. Containment is
  half-open, like `CGRect.contains`. Intersection is taken to mean shared
  interior area, so rectangles that only touch do not intersect (see
  "## Left out").
- `horizontal_scroller.dfy` (module `Scroller`): the carousel. The class
  `HorizontalScrollerView` has these fields:
  - `contentViews`, the owned views;
  - the scroll view's `contentSize` and `contentOffset`;
  - `boundsWidth`, the viewport width;
  - `height`, the container height;
  - `delegateAttached`, whether a delegate is set;
  - a ghost `events` log of delegate notifications (`DidSelect`) and scroll
    requests (`ScrolledTo`).

  The module also has the layout functions (`ItemFrame`, `ContentWidth`,
  `Layout`), the two first-match searches (`FirstContaining`,
  `FirstIntersecting`) and the layout, tap and snap lemmas. The constants are
  Padding = 10, Dimensions = 100 and Offset = 100. Item `i` gets the frame
  `(Offset + Padding + i*(Dimensions + 2*Padding), Padding, Dimensions,
  Dimensions)`.
- `view_controller.dfy` (module `Library`): the screen. It is the carousel's
  data source (`AlbumSource`, `AlbumViewFor`) and its delegate
  (`DidSelectViewAt`). It also handles the detail table (`ShowDataForAlbum`,
  `NumberOfRowsInSection`). This module states the highlight rule: exactly
  the view of the current album is highlighted.
- `wrappers.dfy` (module `Wrappers`): `Option`, the model of Swift optionals.

The data source is passed to `Reload` as an `Option<DataSource>`. `None`
means no data source is attached. A `DataSource` gives a count and a view for
each index, as the data source answers at the time of the reload. Item views
are values `ContentView(id, frame, highlighted)`. The `highlighted` flag
stands for the `AlbumView` that the screen gets with a forced cast. The screen
toggles it through the carousel's `contentViews`.

Two facts of the layout that follow from the code's `xValue` steps:
- Consecutive items are `Dimensions + 2*Padding` = 120 apart.
- The content width is `2*Offset + n*Stride`, where `Stride` = 120. For
  n = 0 that is `2*Offset` = 200.

## Model

| member | source | states |
|---|---|---|
| `Scroller.HorizontalScrollerView.constructor` | RWBlueLibrary/HorizontalScrollerView.swift:27-36 | A new carousel holds no views and has zero content size and offset. It has no delegate and an empty event log. |
| `Scroller.HorizontalScrollerView.Reload` | RWBlueLibrary/HorizontalScrollerView.swift:79-96 | With no data source, neither the views nor the content size change. Otherwise the views are the data source's views in index order, each with the frame of its index. The content size is `(ContentWidth(n), height)`. The loop keeps `xValue == Offset + i*Stride`. |
| `Scroller.HorizontalScrollerView.ViewAt` | RWBlueLibrary/HorizontalScrollerView.swift:75-77 | Returns the view held at `index`. The caller must pass `0 <= index < count`; anything else is a programming error in the source. |
| `Scroller.HorizontalScrollerView.ScrollToView` | RWBlueLibrary/HorizontalScrollerView.swift:58-63 | Requires a valid index. Sets the offset to `(frame.midX - boundsWidth/2, 0)` and logs that one scroll. The views do not change. |
| `Scroller.HorizontalScrollerView.NotifyDelegate` | RWBlueLibrary/HorizontalScrollerView.swift:71 | Logs `DidSelect(index)` if a delegate is attached; otherwise nothing happens (optional chaining). |
| `Scroller.HorizontalScrollerView.IndexOfViewContaining` | RWBlueLibrary/HorizontalScrollerView.swift:67 | The linear `index(where:)` scan returns the first index whose frame contains the point, or none. |
| `Scroller.HorizontalScrollerView.ScrollerTapped` | RWBlueLibrary/HorizontalScrollerView.swift:65-73 | No frame contains the tap: nothing happens, no event and no scroll. Otherwise, with `k` the first hit, the delegate is notified once with `k`, then the viewport centres `k`, in that order. |
| `Scroller.HorizontalScrollerView.IndexOfViewIntersecting` | RWBlueLibrary/HorizontalScrollerView.swift:100 | The snap's linear scan returns the first index whose frame intersects the probe, or none. |
| `Scroller.HorizontalScrollerView.CenterCurrentView` | RWBlueLibrary/HorizontalScrollerView.swift:98-106 | Probe `(midX, 0, Padding, height)`, first intersecting item `k`. If there is none, nothing happens. Otherwise the viewport centres `k`, then the delegate is notified with `k`, in that order. |
| `Scroller.HorizontalScrollerView.ScrollViewDidEndDragging` | RWBlueLibrary/HorizontalScrollerView.swift:110-114 | A drag end that will decelerate changes nothing. One that will not decelerate snaps. |
| `Scroller.HorizontalScrollerView.ScrollViewDidEndDecelerating` | RWBlueLibrary/HorizontalScrollerView.swift:116-118 | A deceleration end always snaps. |
| `Scroller.FirstContaining` | RWBlueLibrary/HorizontalScrollerView.swift:67 | First-match semantics of the tap search. The result is none exactly when no frame contains the point. Otherwise it is an index whose frame contains the point, and no earlier frame does. |
| `Scroller.FirstIntersecting` | RWBlueLibrary/HorizontalScrollerView.swift:100 | First-match semantics of the snap search, for intersection with the probe. |
| `Scroller.ItemSpacing` | RWBlueLibrary/HorizontalScrollerView.swift:85-91 | Consecutive item frames are exactly `Dimensions + 2*Padding` apart, with a `2*Padding` gap. Every frame is `Dimensions` square at `y = Padding`. |
| `Scroller.ItemOrder` | RWBlueLibrary/HorizontalScrollerView.swift:85-91 | For `i < j`, item `i` ends at least `2*Padding` before item `j` begins. So x-positions strictly increase with the index. |
| `Scroller.ItemFramesDisjoint` | RWBlueLibrary/HorizontalScrollerView.swift:89 | Two different item frames share no point and do not intersect. |
| `Scroller.LayoutGeometry` | RWBlueLibrary/HorizontalScrollerView.swift:85-93 | After a reload, view `i` has frame `ItemFrame(i)` and the identity and highlight the data source gave it. Two data sources with the same count produce the same frames. So two reloads with an unchanged data source give identical geometry. |
| `Scroller.ContentMargins` | RWBlueLibrary/HorizontalScrollerView.swift:85-95 | The content width is `2*Offset` for no items. The space after the last item equals the space before the first (`Offset + Padding`). Every item lies inside the content. |
| `Scroller.TapSelectsItemUnderPoint` | RWBlueLibrary/HorizontalScrollerView.swift:65-73 | On a laid-out carousel, a tap inside item `k` resolves to exactly `k`, because frames are disjoint. |
| `Scroller.ProbeMeetsAtMostOneItem` | RWBlueLibrary/HorizontalScrollerView.swift:99-100 | The probe is `Padding` wide, narrower than the `2*Padding` gap, so it meets at most one item. |
| `Scroller.SnapKeepsCenteredItem` | RWBlueLibrary/HorizontalScrollerView.swift:58-62 | Centring item `k` puts its centre at the viewport midpoint. A snap from there selects `k` again, so snapping is stable, provided the container is taller than `Padding`. |
| `Scroller.SnapNeedsHeight` | RWBlueLibrary/HorizontalScrollerView.swift:99-100 | If the container is shorter than `Padding`, the probe ends strictly above the top edge of every item. So no snap ever happens, whether or not touching edges count as intersecting. |
| `Scroller.GapNoSnap` | RWBlueLibrary/HorizontalScrollerView.swift:99-102 | A settled scroll does not always snap. If the probe lies strictly inside the gap between two neighbouring items, no item meets it and nothing happens. |
| `Library.AlbumViewFor` | RWBlueLibrary/ViewController.swift:124-129 | The view for index `i` has id `i` and is highlighted exactly when `i` is the current album index. |
| `Library.ReloadHighlightsCurrentAlbum` | RWBlueLibrary/ViewController.swift:119-129 | A reload with the screen as data source yields one view per album, in album order, view `i` with id `i`. Exactly one view, the current album's, is highlighted when the index is in range, and none otherwise. |
| `Library.ReselectEffect` | RWBlueLibrary/ViewController.swift:110-114 | Re-selection leaves the new view highlighted and the old one cleared; the new one wins if they are the same. No other view and no frame changes. |
| `Library.ReselectKeepsSingleHighlight` | RWBlueLibrary/ViewController.swift:110-115 | If at most the view at the old index was highlighted, exactly the view at the new index is highlighted afterwards. |
| `Library.ViewController.constructor` | RWBlueLibrary/ViewController.swift:44-46 | The current album index starts at 0, with no album data and no albums. |
| `Library.ViewController.NumberOfViews` | RWBlueLibrary/ViewController.swift:120-122 | The carousel count is the album count. |
| `Library.ViewController.NumberOfRowsInSection` | RWBlueLibrary/ViewController.swift:88-94 | No rows when no album is shown. Otherwise one row per entry of the shown album's data. |
| `Library.ViewController.ShowDataForAlbum` | RWBlueLibrary/ViewController.swift:75-84 | An in-range index shows that album's table representation. Any other index, negative or too large, clears it without faulting. The row count follows. |
| `Library.ViewController.HighlightAlbum` | RWBlueLibrary/ViewController.swift:110-114 | Sets the highlight of the view held at `index` and changes nothing else. |
| `Library.ViewController.DidSelectViewAt` | RWBlueLibrary/ViewController.swift:109-116 | Requires both indices to be valid. Afterwards the views are the old views re-selected from the old index to the new one. The current index is the new one and the album data follows it. If at most the old view was highlighted, exactly the new one is. |
| `Library.ViewController.ViewDidLoad` | RWBlueLibrary/ViewController.swift:48-56 | Takes the albums, attaches the delegate and reloads with the screen as data source. Then the carousel holds one view per album, each at its item frame, and the content size is `(ContentWidth(albums), height)`. Exactly the current album's view is highlighted, and the current album's data is shown. |

## Left out

- Auto Layout constraints, the gesture-recogniser set-up, `addSubview` and
  `removeFromSuperview` are UIKit plumbing. A view is attached when it is in
  `contentViews`.
- Scroll animation and the `animated` flag: only the target offset is
  modelled. UIKit does not clamp `setContentOffset`, and neither does the model.
- The delegate is not called back from inside the carousel. A selection is a
  `DidSelect` entry in the log, and `Library.ViewController.DidSelectViewAt`
  models the screen's handler on its own.
- Views are values, not shared objects. The screen changes a highlight by
  updating the carousel's `contentViews` (`HighlightAlbum`), not through an
  aliased `AlbumView` reference. The `as! AlbumView` casts cannot fail here.
- `Library.AlbumViewFor` does not read `allAlbums[index]`: the album is used
  only for its cover URL, which is not modelled. So the source's trap on an
  out-of-range index is absent. `Reload` asks only for indices below the count.
- `DataSource.count` is a `nat`. A negative count, which would trap in the
  source's `0..<n`, cannot be expressed. The screen's count is always an
  album count.
- Album loading through the library singleton, cover-image fetching and
  drawing: the albums are a parameter of `ViewDidLoad`.
- State restoration (`encodeRestorableState`, `decodeRestorableState`), the
  `viewDidAppear` scroll, cell dequeuing and labels in `cellForRowAt`, and
  `tableView.reloadData()`.
- Intersection is modelled as shared interior area: rectangles that only
  touch do not intersect. This is an assumption about Core Graphics'
  `CGRect.intersects`, not something the program fixes. It decides two edge
  cases of the snap. One is a container exactly `Padding` tall, whose probe
  touches the top of every item. The other is a viewport midpoint exactly at
  an item's right edge. Under a reading where touching counts, both would
  snap, and the model does not.
- SnapNeedsHeight: stated only for a container strictly shorter than
  `Padding`, where the result does not depend on how touching edges are read.
- Coordinates are exact reals, not `CGFloat`. Rectangles are assumed to have
  non-negative sizes, so `CGRect` standardisation is not modelled.
