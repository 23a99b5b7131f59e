/**
 * The sample application's content pane (MusicContentPaneViewModel.cs):
 * four observable collections, one per kind of content, that are cleared
 * and refilled in place from a content response.
 */
module MusicContentPane {
  import opened Wrappers
  import opened ContentLists

  /** An ObservableCollection, reduced to the two operations the pane uses. */
  class ObservableCollection {
    var items: seq<Content>

    constructor ()
      ensures items == []
    {
      items := [];
    }

    method Clear()
      modifies this
      ensures items == []
    {
      items := [];
    }

    method Add(item: Content)
      modifies this
      ensures items == old(items) + [item]
    {
      items := items + [item];
    }
  }

  /** `contentResponse?.Tracks?.Items` and its three siblings, null when the response or the list is. */
  function NullableItems(response: Option<ContentResponse>, kind: ContentKind): Option<seq<Content>> {
    if response.Some? && ListOfKind(response.value, kind).Some? then ListOfKind(response.value, kind).value.items else None
  }

  /** What the pane shows for one kind after displaying `response`: nothing when the response, the list or its items are null. */
  function Displayed(response: Option<ContentResponse>, kind: ContentKind): (shown: seq<Content>)
    ensures response.None? ==> shown == []
    ensures response.Some? ==> shown == ItemsOf(ListOfKind(response.value, kind))
  {
    var items := NullableItems(response, kind);
    if items.Some? then items.value else []
  }

  /** Across its four collections, read in the order of GetAllContentLists, the pane shows exactly the response's top-level content. */
  lemma PaneShowsTopLevelContent(response: ContentResponse)
    ensures Displayed(Some(response), ArtistContent) + Displayed(Some(response), AlbumContent)
          + Displayed(Some(response), TrackContent) + Displayed(Some(response), PlaylistContent)
         == GetAllTopLevelContent(response)
  {
  }

  class MusicContentPaneViewModel {
    var tracks: ObservableCollection
    var albums: ObservableCollection
    var artists: ObservableCollection
    var playlists: ObservableCollection

    /** The four collections are distinct objects, so filling one leaves the others alone. */
    predicate Valid()
      reads this
    {
      && tracks != albums && tracks != artists && tracks != playlists
      && albums != artists && albums != playlists
      && artists != playlists
    }

    constructor ()
      ensures Valid()
      ensures fresh(tracks) && fresh(albums) && fresh(artists) && fresh(playlists)
      ensures tracks.items == [] && albums.items == [] && artists.items == [] && playlists.items == []
    {
      tracks := new ObservableCollection();
      albums := new ObservableCollection();
      artists := new ObservableCollection();
      playlists := new ObservableCollection();
    }

    /** Replaces the contents of the four collections with the matching lists of `response`. */
    method DisplayMusicContent(response: Option<ContentResponse>)
      requires Valid()
      modifies tracks, albums, artists, playlists
      ensures Valid()
      ensures tracks.items == Displayed(response, TrackContent)
      ensures albums.items == Displayed(response, AlbumContent)
      ensures artists.items == Displayed(response, ArtistContent)
      ensures playlists.items == Displayed(response, PlaylistContent)
      ensures response.Some? ==> artists.items + albums.items + tracks.items + playlists.items == GetAllTopLevelContent(response.value)
    {
      ResetMusicContent();
      AddMusicContent(NullableItems(response, TrackContent), tracks);
      AddMusicContent(NullableItems(response, AlbumContent), albums);
      AddMusicContent(NullableItems(response, ArtistContent), artists);
      AddMusicContent(NullableItems(response, PlaylistContent), playlists);
      if response.Some? {
        PaneShowsTopLevelContent(response.value);
      }
    }

    /** Appends every item of `contentList`, in order, to `target` and touches nothing else; a null list adds nothing. */
    method AddMusicContent(contentList: Option<seq<Content>>, target: ObservableCollection)
      modifies target
      ensures target.items == old(target.items) + if contentList.Some? then contentList.value else []
    {
      if contentList.Some? {
        var list := contentList.value;
        for i := 0 to |list|
          invariant target.items == old(target.items) + list[..i]
        {
          assert list[..i + 1] == list[..i] + [list[i]];
          target.Add(list[i]);
        }
        assert list[..|list|] == list;
      } else {
        assert old(target.items) + [] == target.items;
      }
    }

    /** Empties the four collections. */
    method ResetMusicContent()
      requires Valid()
      modifies tracks, albums, artists, playlists
      ensures tracks.items == [] && albums.items == [] && artists.items == [] && playlists.items == []
    {
      tracks.Clear();
      albums.Clear();
      artists.Clear();
      playlists.Clear();
    }
  }
}
