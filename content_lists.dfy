/**
 * The four result lists of a content response and the helpers the tests
 * use to walk them (TestBaseExtensions.cs): GetAllContentLists yields the
 * lists in a fixed order, GetAllTopLevelContent drops the absent ones and
 * concatenates the items of the rest.
 */
module ContentLists {
  import opened Wrappers

  datatype ContentKind = ArtistContent | AlbumContent | TrackContent | PlaylistContent

  /** A catalog or collection item; only what the helpers and the sample pane look at. */
  datatype Content = Content(kind: ContentKind, id: string, name: string)

  /** A page of results; `items` is None when the service left the list out. */
  datatype PaginatedList = PaginatedList(items: Option<seq<Content>>, continuationToken: Option<string>)

  /** The four result lists of a ContentResponse, each of which may be null. */
  datatype ContentResponse = ContentResponse(
    artists: Option<PaginatedList>,
    albums: Option<PaginatedList>,
    tracks: Option<PaginatedList>,
    playlists: Option<PaginatedList>)

  /** The list of a response that holds items of the given kind. */
  function ListOfKind(response: ContentResponse, kind: ContentKind): Option<PaginatedList> {
    match kind
    case ArtistContent => response.artists
    case AlbumContent => response.albums
    case TrackContent => response.tracks
    case PlaylistContent => response.playlists
  }

  /** The order in which GetAllContentLists yields the lists. */
  const ListOrder: seq<ContentKind> := [ArtistContent, AlbumContent, TrackContent, PlaylistContent]

  /** GetAllContentLists: the four lists, absent ones included, in the order Artists, Albums, Tracks, Playlists. */
  function GetAllContentLists(response: ContentResponse): (lists: seq<Option<PaginatedList>>)
    ensures |lists| == |ListOrder| == 4
    ensures forall i :: 0 <= i < 4 ==> lists[i] == ListOfKind(response, ListOrder[i])
  {
    [response.artists, response.albums, response.tracks, response.playlists]
  }

  /** `c?.ReadOnlyItems != null`. */
  predicate HasItems(list: Option<PaginatedList>) {
    list.Some? && list.value.items.Some?
  }

  /** The Where step: the lists that are present and carry items, in their original order. */
  function WhereHasItems(lists: seq<Option<PaginatedList>>): (kept: seq<PaginatedList>)
    ensures |kept| <= |lists|
    ensures forall i :: 0 <= i < |kept| ==> kept[i].items.Some?
  {
    if lists == [] then []
    else if HasItems(lists[0]) then [lists[0].value] + WhereHasItems(lists[1..])
    else WhereHasItems(lists[1..])
  }

  /** The SelectMany step: the items of each list, one list after the other. */
  function SelectItems(lists: seq<PaginatedList>): seq<Content>
    requires forall i :: 0 <= i < |lists| ==> lists[i].items.Some?
  {
    if lists == [] then [] else lists[0].items.value + SelectItems(lists[1..])
  }

  /**
   * GetAllTopLevelContent: the Where and SelectMany steps over the four
   * lists, which yield the artists' items, then the albums', the tracks'
   * and the playlists'.
   */
  function GetAllTopLevelContent(response: ContentResponse): (content: seq<Content>)
    ensures content
         == ItemsOf(response.artists) + ItemsOf(response.albums) + ItemsOf(response.tracks) + ItemsOf(response.playlists)
  {
    FlattenInOrder(response);
    SelectItems(WhereHasItems(GetAllContentLists(response)))
  }

  /** The items a possibly absent list contributes: none when it or its items are null. */
  function ItemsOf(list: Option<PaginatedList>): (items: seq<Content>)
    ensures HasItems(list) ==> items == list.value.items.value
    ensures !HasItems(list) ==> items == []
  {
    if HasItems(list) then list.value.items.value else []
  }

  /** The reference reading of Where followed by SelectMany: each list's items, absent lists giving none. */
  function AllItems(lists: seq<Option<PaginatedList>>): seq<Content> {
    if lists == [] then [] else ItemsOf(lists[0]) + AllItems(lists[1..])
  }

  /** Filtering out the lists without items and concatenating the rest is concatenating every list's items. */
  lemma {:induction false} WhereThenSelect(lists: seq<Option<PaginatedList>>)
    ensures SelectItems(WhereHasItems(lists)) == AllItems(lists)
    decreases |lists|
  {
    if lists != [] {
      WhereThenSelect(lists[1..]);
      if HasItems(lists[0]) {
        var rest := WhereHasItems(lists[1..]);
        assert ([lists[0].value] + rest)[1..] == rest;
      } else {
        assert ItemsOf(lists[0]) + AllItems(lists[1..]) == AllItems(lists[1..]);
      }
    }
  }

  /** The number of lists Where keeps is the number that carry items. */
  function CountWithItems(lists: seq<Option<PaginatedList>>): nat {
    if lists == [] then 0 else (if HasItems(lists[0]) then 1 else 0) + CountWithItems(lists[1..])
  }

  lemma {:induction false} WhereKeepsListsWithItems(lists: seq<Option<PaginatedList>>)
    ensures |WhereHasItems(lists)| == CountWithItems(lists)
    ensures forall p :: p in WhereHasItems(lists) <==> Some(p) in lists && p.items.Some?
    decreases |lists|
  {
    if lists != [] {
      WhereKeepsListsWithItems(lists[1..]);
      assert lists == [lists[0]] + lists[1..];
    }
  }

  /** Filtering and flattening the four lists gives their items one kind after the other. */
  lemma FlattenInOrder(response: ContentResponse)
    ensures SelectItems(WhereHasItems(GetAllContentLists(response)))
         == ItemsOf(response.artists) + ItemsOf(response.albums) + ItemsOf(response.tracks) + ItemsOf(response.playlists)
  {
    var lists := GetAllContentLists(response);
    WhereThenSelect(lists);
    var a, b, c, d := ItemsOf(response.artists), ItemsOf(response.albums), ItemsOf(response.tracks), ItemsOf(response.playlists);
    assert lists[3..][1..] == [];
    assert AllItems(lists[3..]) == d + [] == d;
    assert lists[2..][1..] == lists[3..];
    assert AllItems(lists[2..]) == c + d;
    assert lists[1..][1..] == lists[2..];
    assert AllItems(lists[1..]) == b + (c + d);
    assert AllItems(lists) == a + (b + (c + d));
    assert a + (b + (c + d)) == a + b + c + d;
  }

  /** Its length is the sum of the item counts of the lists that carry items. */
  lemma TopLevelContentCount(response: ContentResponse)
    ensures |GetAllTopLevelContent(response)|
         == |ItemsOf(response.artists)| + |ItemsOf(response.albums)| + |ItemsOf(response.tracks)| + |ItemsOf(response.playlists)|
  {
  }

  /** An item is top-level content exactly when it is among the items of one of the four lists. */
  lemma TopLevelContentMembership(response: ContentResponse, c: Content)
    ensures c in GetAllTopLevelContent(response) <==>
      (c in ItemsOf(response.artists) || c in ItemsOf(response.albums) ||
       c in ItemsOf(response.tracks) || c in ItemsOf(response.playlists))
  {
  }

  /** A response whose four lists are all absent or empty has no top-level content. */
  lemma NoListsNoContent(response: ContentResponse)
    requires forall list :: list in GetAllContentLists(response) ==> ItemsOf(list) == []
    ensures GetAllTopLevelContent(response) == []
  {
    var lists := GetAllContentLists(response);
    assert lists[0] == response.artists && lists[1] == response.albums;
    assert lists[2] == response.tracks && lists[3] == response.playlists;
  }
}
