/**
 * The carousel: a horizontally scrolling strip of fixed-size item views
 * that a data source fills on `Reload`, that resolves taps to an item by a
 * first-match hit test, and that snaps to the item under the viewport's
 * midpoint once a scroll gesture settles.
 */
module Scroller {
  import opened Wrappers
  import opened Geometry

  /** Layout constants of the carousel. */
  const Padding: real := 10.0
  const Dimensions: real := 100.0
  const Offset: real := 100.0

  /** Distance from the left edge of one item to the left edge of the next. */
  const Stride: real := Dimensions + 2.0 * Padding

  /**
   * An item view as the carousel sees it: an identity, the frame the
   * carousel assigns, and the highlight flag the owning screen toggles.
   */
  datatype ContentView = ContentView(id: nat, frame: Rect, highlighted: bool)

  /** What the carousel does to the outside world: tell the delegate of a selection, or scroll the viewport. */
  datatype Event = DidSelect(index: nat) | ScrolledTo(offset: Point)

  /** The data source at the moment of a reload: how many items, and the view for each index. */
  datatype DataSource = DataSource(count: nat, viewAt: nat -> ContentView)

  /** The frame the carousel gives the item at `index`. */
  function ItemFrame(index: nat): Rect {
    Rect(Offset + Padding + (index as real) * Stride, Padding, Dimensions, Dimensions)
  }

  /** The width of the scrollable content for `count` items. */
  function ContentWidth(count: nat): real {
    Offset + (count as real) * Stride + Offset
  }

  /** What `Reload` holds afterwards: the views of `source` in index order, each with its item frame. */
  function Layout(source: DataSource): seq<ContentView> {
    seq(source.count, i requires 0 <= i < source.count => source.viewAt(i).(frame := ItemFrame(i)))
  }

  /** Every held view sits at the frame of its index. */
  predicate Framed(views: seq<ContentView>) {
    forall i :: 0 <= i < |views| ==> views[i].frame == ItemFrame(i)
  }

  /** The content offset that puts the centre of `frame` at the middle of a viewport `boundsWidth` wide. */
  function CenteringOffset(frame: Rect, boundsWidth: real): Point {
    Point(frame.MidX() - boundsWidth / 2.0, 0.0)
  }

  /** The snap probe: `Padding` wide, starting at the viewport's horizontal midpoint, as tall as the container. */
  function SnapProbe(contentOffset: Point, boundsWidth: real, height: real): Rect {
    Rect(contentOffset.x + boundsWidth / 2.0, 0.0, Padding, height)
  }

  /** The first view (in sequence order) whose frame contains `p`, if any. */
  function FirstContaining(views: seq<ContentView>, p: Point): (r: Option<nat>)
    ensures r.None? <==> forall j :: 0 <= j < |views| ==> !views[j].frame.Contains(p)
    ensures r.Some? ==> r.value < |views| && views[r.value].frame.Contains(p)
    ensures r.Some? ==> forall j :: 0 <= j < r.value ==> !views[j].frame.Contains(p)
  {
    if |views| == 0 then None
    else if views[0].frame.Contains(p) then Some(0)
    else match FirstContaining(views[1..], p)
      case None => None
      case Some(k) => Some(k + 1)
  }

  /** The first view (in sequence order) whose frame intersects `probe`, if any. */
  function FirstIntersecting(views: seq<ContentView>, probe: Rect): (r: Option<nat>)
    ensures r.None? <==> forall j :: 0 <= j < |views| ==> !views[j].frame.Intersects(probe)
    ensures r.Some? ==> r.value < |views| && views[r.value].frame.Intersects(probe)
    ensures r.Some? ==> forall j :: 0 <= j < r.value ==> !views[j].frame.Intersects(probe)
  {
    if |views| == 0 then None
    else if views[0].frame.Intersects(probe) then Some(0)
    else match FirstIntersecting(views[1..], probe)
      case None => None
      case Some(k) => Some(k + 1)
  }

  /** Consecutive items are `Stride` apart, with a gap of `2 * Padding` between them. */
  lemma ItemSpacing(index: nat)
    ensures ItemFrame(index + 1).x - ItemFrame(index).x == Dimensions + 2.0 * Padding
    ensures ItemFrame(index + 1).x - ItemFrame(index).MaxX() == 2.0 * Padding
    ensures ItemFrame(index).width == Dimensions && ItemFrame(index).height == Dimensions
    ensures ItemFrame(index).y == Padding
  {
  }

  /** An earlier item ends at least `2 * Padding` before a later one begins. */
  lemma ItemOrder(i: nat, j: nat)
    requires i < j
    ensures ItemFrame(i).MaxX() + 2.0 * Padding <= ItemFrame(j).x
  {
  }

  /** Two different items share no point, so a tap lies in at most one item. */
  lemma ItemFramesDisjoint(i: nat, j: nat, p: Point)
    requires i != j
    ensures !(ItemFrame(i).Contains(p) && ItemFrame(j).Contains(p))
    ensures !ItemFrame(i).Intersects(ItemFrame(j))
  {
    if i < j { ItemOrder(i, j); } else { ItemOrder(j, i); }
  }

  /** `Reload`'s geometry depends only on the item count: each view gets the frame of its index. */
  lemma LayoutGeometry(source: DataSource, other: DataSource)
    requires other.count == source.count
    ensures Framed(Layout(source))
    ensures |Layout(source)| == source.count
    ensures forall i :: 0 <= i < source.count ==> Layout(source)[i].frame == Layout(other)[i].frame
    ensures forall i :: 0 <= i < source.count ==>
              Layout(source)[i].id == source.viewAt(i).id &&
              Layout(source)[i].highlighted == source.viewAt(i).highlighted
  {
  }

  /**
   * The content is as wide as the items plus a leading and a trailing
   * margin of `Offset + Padding` each; an empty carousel is `2 * Offset` wide.
   */
  lemma ContentMargins(count: nat)
    ensures count == 0 ==> ContentWidth(count) == 2.0 * Offset
    ensures count > 0 ==> ContentWidth(count) - ItemFrame(count - 1).MaxX() == Offset + Padding
    ensures ItemFrame(0).x == Offset + Padding
    ensures forall i: nat :: i < count ==> 0.0 <= ItemFrame(i).x && ItemFrame(i).MaxX() <= ContentWidth(count)
  {
    if count > 0 {
      forall i: nat | i < count
        ensures 0.0 <= ItemFrame(i).x && ItemFrame(i).MaxX() <= ContentWidth(count)
      {
        if i < count - 1 { ItemOrder(i, count - 1); }
      }
    }
  }

  /** On a laid-out carousel a tap inside item `k` selects exactly `k`. */
  lemma TapSelectsItemUnderPoint(views: seq<ContentView>, k: nat, p: Point)
    requires Framed(views) && k < |views|
    requires views[k].frame.Contains(p)
    ensures FirstContaining(views, p) == Some(k)
  {
    var r := FirstContaining(views, p);
    if r != Some(k) {
      ItemFramesDisjoint(r.value, k, p);
    }
  }

  /** On a laid-out carousel the snap probe, being narrower than the gap between items, meets at most one item. */
  lemma ProbeMeetsAtMostOneItem(views: seq<ContentView>, contentOffset: Point, boundsWidth: real, height: real, i: nat, j: nat)
    requires Framed(views) && i < j < |views|
    ensures !(views[i].frame.Intersects(SnapProbe(contentOffset, boundsWidth, height)) &&
              views[j].frame.Intersects(SnapProbe(contentOffset, boundsWidth, height)))
  {
    ItemOrder(i, j);
  }

  /**
   * Centring item `k` puts its centre at the viewport's midpoint, and a snap
   * from there selects `k` again, provided the container is taller than the
   * top padding.
   */
  lemma SnapKeepsCenteredItem(views: seq<ContentView>, k: nat, boundsWidth: real, height: real)
    requires Framed(views) && k < |views|
    requires height > Padding
    ensures SnapProbe(CenteringOffset(views[k].frame, boundsWidth), boundsWidth, height).x == views[k].frame.MidX()
    ensures FirstIntersecting(views, SnapProbe(CenteringOffset(views[k].frame, boundsWidth), boundsWidth, height)) == Some(k)
  {
    var probe := SnapProbe(CenteringOffset(views[k].frame, boundsWidth), boundsWidth, height);
    assert views[k].frame == ItemFrame(k);
    assert probe == Rect(ItemFrame(k).MidX(), 0.0, Padding, height);
    assert views[k].frame.Intersects(probe);
    var r := FirstIntersecting(views, probe);
    if r.value < k {
      assert views[r.value].frame == ItemFrame(r.value);
      ItemOrder(r.value, k);
    }
  }

  /**
   * A container shorter than the top padding never snaps: the probe ends
   * strictly above every item, so no reading of intersection lets them meet.
   */
  lemma SnapNeedsHeight(views: seq<ContentView>, contentOffset: Point, boundsWidth: real, height: real)
    requires Framed(views)
    requires height < Padding
    ensures FirstIntersecting(views, SnapProbe(contentOffset, boundsWidth, height)) == None
  {
    var probe := SnapProbe(contentOffset, boundsWidth, height);
    forall j | 0 <= j < |views| ensures !views[j].frame.Intersects(probe) {
      assert views[j].frame == ItemFrame(j);
    }
  }

  /**
   * A settled scroll does not always snap: when the probe lies strictly
   * inside the gap between items `i` and `i + 1`, no item meets it and the
   * viewport stays where it is.
   */
  lemma GapNoSnap(views: seq<ContentView>, contentOffset: Point, boundsWidth: real, height: real, i: nat)
    requires Framed(views) && i + 1 < |views|
    requires ItemFrame(i).MaxX() < SnapProbe(contentOffset, boundsWidth, height).x
    requires SnapProbe(contentOffset, boundsWidth, height).MaxX() < ItemFrame(i + 1).x
    ensures FirstIntersecting(views, SnapProbe(contentOffset, boundsWidth, height)) == None
  {
    var probe := SnapProbe(contentOffset, boundsWidth, height);
    forall j | 0 <= j < |views| ensures !views[j].frame.Intersects(probe) {
      assert views[j].frame == ItemFrame(j);
      if j < i {
        ItemOrder(j, i);
      } else if i + 1 < j {
        ItemOrder(i + 1, j);
      }
    }
  }

  class HorizontalScrollerView {
    /** The views the carousel owns, in data-source index order. */
    var contentViews: seq<ContentView>
    /** The scroll view's content size and content offset. */
    var contentSize: Size
    var contentOffset: Point
    /** The scroll view's bounds width and the container's height (the scroll view fills the container). */
    var boundsWidth: real
    var height: real
    /** Whether a delegate is attached to receive selections. */
    var delegateAttached: bool
    /** Every delegate notification and scroll request, oldest first. */
    ghost var events: seq<Event>

    constructor (width: real, height: real)
      ensures contentViews == [] && contentSize == Size(0.0, 0.0) && contentOffset == Point(0.0, 0.0)
      ensures boundsWidth == width && this.height == height
      ensures !delegateAttached && events == []
    {
      contentViews := [];
      contentSize := Size(0.0, 0.0);
      contentOffset := Point(0.0, 0.0);
      boundsWidth := width;
      this.height := height;
      delegateAttached := false;
      events := [];
    }

    /** Centres the view at `index` in the viewport. */
    method ScrollToView(index: int)
      requires 0 <= index < |contentViews|
      modifies this`contentOffset, this`events
      ensures contentOffset == CenteringOffset(contentViews[index].frame, boundsWidth)
      ensures events == old(events) + [ScrolledTo(contentOffset)]
    {
      var centralView := contentViews[index];
      var targetOffsetX := centralView.frame.MidX() - boundsWidth / 2.0;
      contentOffset := Point(targetOffsetX, 0.0);
      events := events + [ScrolledTo(contentOffset)];
    }

    /** Tells the delegate, if one is attached, that `index` was selected. */
    method NotifyDelegate(index: nat)
      modifies this`events
      ensures events == old(events) + (if delegateAttached then [DidSelect(index)] else [])
    {
      if delegateAttached {
        events := events + [DidSelect(index)];
      }
    }

    /** The linear search of the tap handler: the index of the first view whose frame contains `location`. */
    method IndexOfViewContaining(location: Point) returns (index: Option<nat>)
      ensures index == FirstContaining(contentViews, location)
    {
      var i := 0;
      while i < |contentViews|
        invariant 0 <= i <= |contentViews|
        invariant forall j :: 0 <= j < i ==> !contentViews[j].frame.Contains(location)
      {
        if contentViews[i].frame.Contains(location) {
          return Some(i);
        }
        i := i + 1;
      }
      return None;
    }

    /** A tap at `location` (in content coordinates). */
    method ScrollerTapped(location: Point)
      modifies this`contentOffset, this`events
      ensures FirstContaining(contentViews, location).None? ==>
                contentOffset == old(contentOffset) && events == old(events)
      ensures FirstContaining(contentViews, location).Some? ==>
                var k := FirstContaining(contentViews, location).value;
                contentOffset == CenteringOffset(contentViews[k].frame, boundsWidth) &&
                events == old(events) + (if delegateAttached then [DidSelect(k)] else []) + [ScrolledTo(contentOffset)]
    {
      var found := IndexOfViewContaining(location);
      if found.None? {
        return;
      }
      var index := found.value;
      NotifyDelegate(index);
      ScrollToView(index);
    }

    /** Returns the view at `index`; an index out of range is a programming error. */
    method ViewAt(index: int) returns (view: ContentView)
      requires 0 <= index < |contentViews|
      ensures view == contentViews[index]
    {
      view := contentViews[index];
    }

    /**
     * Rebuilds the carousel from `dataSource`; with no data source attached
     * nothing changes.
     */
    method Reload(dataSource: Option<DataSource>)
      modifies this`contentViews, this`contentSize
      ensures dataSource.None? ==> contentViews == old(contentViews) && contentSize == old(contentSize)
      ensures dataSource.Some? ==> contentViews == Layout(dataSource.value)
      ensures dataSource.Some? ==> contentSize == Size(ContentWidth(dataSource.value.count), height)
    {
      if dataSource.None? {
        return;
      }
      var source := dataSource.value;
      var xValue := Offset;
      var views: seq<ContentView> := [];
      var index := 0;
      while index < source.count
        invariant 0 <= index <= source.count
        invariant xValue == Offset + (index as real) * Stride
        invariant |views| == index
        invariant forall j :: 0 <= j < index ==> views[j] == source.viewAt(j).(frame := ItemFrame(j))
      {
        xValue := xValue + Padding;
        var view := source.viewAt(index);
        view := view.(frame := Rect(xValue, Padding, Dimensions, Dimensions));
        views := views + [view];
        xValue := xValue + Dimensions + Padding;
        index := index + 1;
      }
      contentViews := views;
      contentSize := Size(xValue + Offset, height);
    }

    /** The linear search of the snap: the index of the first view whose frame intersects `probe`. */
    method IndexOfViewIntersecting(probe: Rect) returns (index: Option<nat>)
      ensures index == FirstIntersecting(contentViews, probe)
    {
      var i := 0;
      while i < |contentViews|
        invariant 0 <= i <= |contentViews|
        invariant forall j :: 0 <= j < i ==> !contentViews[j].frame.Intersects(probe)
      {
        if contentViews[i].frame.Intersects(probe) {
          return Some(i);
        }
        i := i + 1;
      }
      return None;
    }

    /** What a snap does: centre the first item under the probe, then report it to the delegate. */
    twostate predicate Snapped()
      reads this
    {
      var hit := FirstIntersecting(old(contentViews), SnapProbe(old(contentOffset), old(boundsWidth), old(height)));
      && contentViews == old(contentViews)
      && (hit.None? ==> contentOffset == old(contentOffset) && events == old(events))
      && (hit.Some? ==>
            hit.value < |contentViews| &&
            contentOffset == CenteringOffset(contentViews[hit.value].frame, boundsWidth) &&
            events == old(events) + [ScrolledTo(contentOffset)] + (if delegateAttached then [DidSelect(hit.value)] else []))
    }

    /** Snaps the viewport to the item under its horizontal midpoint. */
    method CenterCurrentView()
      modifies this`contentOffset, this`events
      ensures Snapped()
    {
      var centerRect := SnapProbe(contentOffset, boundsWidth, height);
      var found := IndexOfViewIntersecting(centerRect);
      if found.None? {
        return;
      }
      var selectedIndex := found.value;
      ScrollToView(selectedIndex);
      NotifyDelegate(selectedIndex);
    }

    /** The end of a drag: snap now unless the scroll view will keep decelerating. */
    method ScrollViewDidEndDragging(decelerate: bool)
      modifies this`contentOffset, this`events
      ensures decelerate ==> contentOffset == old(contentOffset) && events == old(events)
      ensures !decelerate ==> Snapped()
    {
      if !decelerate {
        CenterCurrentView();
      }
    }

    /** The end of a deceleration: always snap. */
    method ScrollViewDidEndDecelerating()
      modifies this`contentOffset, this`events
      ensures Snapped()
    {
      CenterCurrentView();
    }
  }
}
