/**
 * The album-browsing screen: it feeds the carousel one album view per album,
 * keeps exactly the view of the current album highlighted, and shows the
 * current album's details in a table.
 */
module Library {
  import opened Wrappers
  import opened Geometry
  import opened Scroller

  /** One row of an album's detail table. */
  datatype AlbumData = AlbumData(title: string, value: string)

  /** An album, of which the screen only uses its cover and its table representation. */
  datatype Album = Album(coverUrl: string, tableRepresentation: seq<AlbumData>)

  /** The frame an album view is created with, before the carousel places it. */
  const AlbumViewFrame: Rect := Rect(0.0, 0.0, 100.0, 100.0)

  /** The view the screen hands the carousel for `index`: highlighted exactly when it shows the current album. */
  function AlbumViewFor(index: nat, currentAlbumIndex: int): (view: ContentView)
    ensures view.id == index
    ensures view.highlighted <==> index == currentAlbumIndex
  {
    ContentView(index, AlbumViewFrame, currentAlbumIndex == index)
  }

  /** The screen in its data-source role, for a library of `albumCount` albums. */
  function AlbumSource(albumCount: nat, currentAlbumIndex: int): DataSource {
    DataSource(albumCount, (index: nat) => AlbumViewFor(index, currentAlbumIndex))
  }

  /** The indices of the highlighted views. */
  function HighlightedIndices(views: seq<ContentView>): set<nat> {
    set i: nat | i < |views| && views[i].highlighted
  }

  /** The highlight state in which exactly the current album's view is highlighted, if it exists. */
  predicate HighlightsOnly(views: seq<ContentView>, currentAlbumIndex: int) {
    HighlightedIndices(views) == if 0 <= currentAlbumIndex < |views| then {currentAlbumIndex} else {}
  }

  /** The views after un-highlighting `previous` and then highlighting `index`. */
  function Reselect(views: seq<ContentView>, previous: nat, index: nat): (after: seq<ContentView>)
    requires previous < |views| && index < |views|
  {
    var cleared := views[previous := views[previous].(highlighted := false)];
    cleared[index := cleared[index].(highlighted := true)]
  }

  /**
   * A reload with the screen as data source yields one view per album, each
   * carrying its album's index as id, and highlights only the current album's view.
   */
  lemma ReloadHighlightsCurrentAlbum(albumCount: nat, currentAlbumIndex: int)
    ensures |Layout(AlbumSource(albumCount, currentAlbumIndex))| == albumCount
    ensures forall i :: 0 <= i < albumCount ==> Layout(AlbumSource(albumCount, currentAlbumIndex))[i].id == i
    ensures HighlightsOnly(Layout(AlbumSource(albumCount, currentAlbumIndex)), currentAlbumIndex)
  {
    var views := Layout(AlbumSource(albumCount, currentAlbumIndex));
    var expected: set<nat> := if 0 <= currentAlbumIndex < albumCount then {currentAlbumIndex} else {};
    forall i: nat ensures i in HighlightedIndices(views) <==> i in expected {
      if i < albumCount {
        assert views[i] == AlbumViewFor(i, currentAlbumIndex).(frame := ItemFrame(i));
      }
    }
    assert HighlightedIndices(views) == expected;
  }

  /**
   * Re-selection clears the old view, highlights the new one (which wins when
   * they coincide), and touches no other view and no frame.
   */
  lemma ReselectEffect(views: seq<ContentView>, previous: nat, index: nat)
    requires previous < |views| && index < |views|
    ensures |Reselect(views, previous, index)| == |views|
    ensures Reselect(views, previous, index)[index].highlighted
    ensures previous != index ==> !Reselect(views, previous, index)[previous].highlighted
    ensures forall i :: 0 <= i < |views| && i != previous && i != index ==>
              Reselect(views, previous, index)[i] == views[i]
    ensures forall i :: 0 <= i < |views| ==>
              Reselect(views, previous, index)[i].frame == views[i].frame &&
              Reselect(views, previous, index)[i].id == views[i].id
    ensures Framed(views) ==> Framed(Reselect(views, previous, index))
  {
  }

  /**
   * When at most the view at `previous` was highlighted, exactly the view at
   * `index` is highlighted after re-selection.
   */
  lemma ReselectKeepsSingleHighlight(views: seq<ContentView>, previous: nat, index: nat)
    requires previous < |views| && index < |views|
    requires HighlightedIndices(views) <= {previous}
    ensures HighlightedIndices(Reselect(views, previous, index)) == {index}
  {
    var after := Reselect(views, previous, index);
    forall i: nat ensures i in HighlightedIndices(after) <==> i == index {
      if i < |views| && i != previous && i != index {
        assert i !in HighlightedIndices(views);
      }
    }
  }

  class ViewController {
    var currentAlbumIndex: int
    var currentAlbumData: Option<seq<AlbumData>>
    var allAlbums: seq<Album>
    /** The carousel outlet. */
    var horizontalScrollerView: HorizontalScrollerView

    constructor (scroller: HorizontalScrollerView)
      ensures currentAlbumIndex == 0 && currentAlbumData == None && allAlbums == []
      ensures horizontalScrollerView == scroller
    {
      currentAlbumIndex := 0;
      currentAlbumData := None;
      allAlbums := [];
      horizontalScrollerView := scroller;
    }

    /** The carousel's item count: one per album. */
    function NumberOfViews(): (count: nat)
      reads this
      ensures count == |allAlbums|
    {
      |allAlbums|
    }

    /** The detail table's row count: none when no album is shown, else one per entry of the album. */
    function NumberOfRowsInSection(section: int): (rows: nat)
      reads this
      ensures currentAlbumData.None? ==> rows == 0
      ensures currentAlbumData.Some? ==> rows == |currentAlbumData.value|
    {
      match currentAlbumData
      case None => 0
      case Some(albumData) => |albumData|
    }

    /** Shows the details of album `index`, or nothing when `index` is not a valid album index. */
    method ShowDataForAlbum(index: int)
      modifies this`currentAlbumData
      ensures 0 <= index < |allAlbums| ==> currentAlbumData == Some(allAlbums[index].tableRepresentation)
      ensures !(0 <= index < |allAlbums|) ==> currentAlbumData == None
      ensures NumberOfRowsInSection(0) == if 0 <= index < |allAlbums| then |allAlbums[index].tableRepresentation| else 0
    {
      if index < |allAlbums| && index > -1 {
        var album := allAlbums[index];
        currentAlbumData := Some(album.tableRepresentation);
      } else {
        currentAlbumData := None;
      }
    }

    /** Sets the highlight of the album view the carousel holds at `index`. */
    method HighlightAlbum(index: int, on: bool)
      requires 0 <= index < |horizontalScrollerView.contentViews|
      modifies horizontalScrollerView`contentViews
      ensures horizontalScrollerView.contentViews ==
                old(horizontalScrollerView.contentViews)[index := old(horizontalScrollerView.contentViews)[index].(highlighted := on)]
    {
      var views := horizontalScrollerView.contentViews;
      horizontalScrollerView.contentViews := views[index := views[index].(highlighted := on)];
    }

    /** The carousel reports that the user selected the album at `index`. */
    method DidSelectViewAt(index: int)
      requires 0 <= currentAlbumIndex < |horizontalScrollerView.contentViews|
      requires 0 <= index < |horizontalScrollerView.contentViews|
      modifies this`currentAlbumIndex, this`currentAlbumData, horizontalScrollerView`contentViews
      ensures horizontalScrollerView.contentViews ==
                Reselect(old(horizontalScrollerView.contentViews), old(currentAlbumIndex), index)
      ensures currentAlbumIndex == index
      ensures 0 <= index < |allAlbums| ==> currentAlbumData == Some(allAlbums[index].tableRepresentation)
      ensures !(0 <= index < |allAlbums|) ==> currentAlbumData == None
      ensures old(HighlightedIndices(horizontalScrollerView.contentViews)) <= {old(currentAlbumIndex)} ==>
                HighlightsOnly(horizontalScrollerView.contentViews, currentAlbumIndex)
    {
      ghost var before := horizontalScrollerView.contentViews;
      HighlightAlbum(currentAlbumIndex, false);
      currentAlbumIndex := index;
      HighlightAlbum(currentAlbumIndex, true);
      ShowDataForAlbum(index);
      if HighlightedIndices(before) <= {old(currentAlbumIndex)} {
        ReselectKeepsSingleHighlight(before, old(currentAlbumIndex), index);
      }
    }

    /**
     * Loading the screen: take the albums from the library, attach the screen
     * as data source and delegate, reload the carousel and show the current
     * album.
     */
    method ViewDidLoad(albums: seq<Album>)
      modifies this`allAlbums, this`currentAlbumData,
               horizontalScrollerView`contentViews, horizontalScrollerView`contentSize,
               horizontalScrollerView`delegateAttached
      ensures allAlbums == albums && horizontalScrollerView.delegateAttached
      ensures horizontalScrollerView.contentViews == Layout(AlbumSource(|albums|, currentAlbumIndex))
      ensures horizontalScrollerView.contentSize == Size(ContentWidth(|albums|), horizontalScrollerView.height)
      ensures HighlightsOnly(horizontalScrollerView.contentViews, currentAlbumIndex)
      ensures Framed(horizontalScrollerView.contentViews)
      ensures 0 <= currentAlbumIndex < |albums| ==> currentAlbumData == Some(albums[currentAlbumIndex].tableRepresentation)
      ensures !(0 <= currentAlbumIndex < |albums|) ==> currentAlbumData == None
    {
      allAlbums := albums;
      horizontalScrollerView.delegateAttached := true;
      horizontalScrollerView.Reload(Some(AlbumSource(NumberOfViews(), currentAlbumIndex)));
      ReloadHighlightsCurrentAlbum(|albums|, currentAlbumIndex);
      LayoutGeometry(AlbumSource(|albums|, currentAlbumIndex), AlbumSource(|albums|, currentAlbumIndex));
      ShowDataForAlbum(currentAlbumIndex);
    }
  }
}
