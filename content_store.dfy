/**
 * The content store (src/state/contentStore.ts): the mock home rows, the
 * detail lookup with its fallback record and field defaulting, and the
 * loading/error flags of the two fetch actions.
 *
 * The values the source draws from `Math.random` (ratings, durations, the
 * release year and the fallback record's type) are parameters, and so is
 * whether an exception is raised inside an action's `try` block.
 */
module Content {
  import opened Wrappers
  import opened Strings

  datatype ContentType = Movie | Series | Live

  /** `ContentItem`; the optional fields of the source are `Option`s. */
  datatype ContentItem = ContentItem(
    id: string,
    title: string,
    imageUrl: string,
    kind: ContentType,
    genre: Option<string>,
    description: Option<string>,
    duration: Option<int>,
    rating: Option<real>)

  datatype ContentRow = ContentRow(id: string, title: string, items: seq<ContentItem>)

  /** Number of items in each mock row. */
  const RowLength: nat := 10

  /** Number of episodes in a series' details. */
  const EpisodeCount: nat := 8

  const HomeError := "Failed to load content. Please try again."
  const DetailsError := "Failed to load content details. Please try again."
  const NoDescription := "No description available."

  /** The mock featured item. */
  function FeaturedContent(): ContentItem {
    ContentItem("featured1", "Featured Title", "https://via.placeholder.com/1280x720", Movie,
                Some("Action"), Some("This is a featured movie with an exciting plot."),
                Some(120), Some(4.5))
  }

  /** The rating drawn for item `i` of the row with the given id (`3 + Math.random() * 2`). */
  type Rating = (string, nat) -> real

  function TrendingKind(i: nat): ContentType {
    if i % 3 == 0 then Series else Movie
  }

  function RecommendedKind(i: nat): ContentType {
    if i % 2 == 0 then Movie else Series
  }

  /** Item `i` of a mock row: id `${rowId}-${i}`, one-based number in title and image text. */
  function MockItem(rowId: string, titleText: string, imageText: string, i: nat,
                    kind: ContentType, rating: Option<real>): (item: ContentItem)
    ensures item.id == rowId + "-" + NatToString(i)
    ensures item.kind == kind && item.rating == rating
    ensures item.genre.None? && item.description.None? && item.duration.None?
  {
    ContentItem(rowId + "-" + NatToString(i),
                titleText + NatToString(i + 1),
                "https://via.placeholder.com/400x225?text=" + imageText + "+" + NatToString(i + 1),
                kind, None, None, None, rating)
  }

  /** A row built like the mock rows: ten items, item `i` with id `${row.id}-${i}`. */
  predicate IsMockRow(row: ContentRow) {
    && |row.items| == RowLength
    && forall i :: 0 <= i < RowLength ==> row.items[i].id == row.id + "-" + NatToString(i)
  }

  /** `Array(10).fill(0).map((_, i) => ...)` for one row. */
  function MockRow(rowId: string, title: string, titleText: string, imageText: string,
                   kind: nat -> ContentType, rating: nat -> Option<real>): (row: ContentRow)
    ensures row.id == rowId && row.title == title && IsMockRow(row)
    ensures forall i :: 0 <= i < RowLength ==>
              row.items[i] == MockItem(rowId, titleText, imageText, i, kind(i), rating(i))
  {
    var items := seq(RowLength, i requires 0 <= i < RowLength =>
                       MockItem(rowId, titleText, imageText, i, kind(i), rating(i)));
    assert forall i :: 0 <= i < RowLength ==>
             items[i] == MockItem(rowId, titleText, imageText, i, kind(i), rating(i));
    assert forall i :: 0 <= i < RowLength ==> items[i].id == rowId + "-" + NatToString(i);
    ContentRow(rowId, title, items)
  }

  /**
   * The rows a successful `fetchHomeContent` stores: four rows in the order
   * trending, recommended, new, live, each of ten items with ids `${rowId}-${i}`.
   */
  function MockRows(rating: Rating): (rows: seq<ContentRow>)
    ensures |rows| == 4
    ensures rows[0].id == "trending" && rows[1].id == "recommended"
    ensures rows[2].id == "new" && rows[3].id == "live"
    ensures forall q :: 0 <= q < |rows| ==> IsMockRow(rows[q]) && |rows[q].id| > 0
    ensures forall q, q' :: 0 <= q < q' < |rows| ==> rows[q].id[0] != rows[q'].id[0]
  {
    [MockRow("trending", "Trending Now", "Trending Title ", "Trending",
             TrendingKind, (i: nat) => Some(rating("trending", i))),
     MockRow("recommended", "Recommended For You", "Recommended Title ", "Recommended",
             RecommendedKind, (i: nat) => Some(rating("recommended", i))),
     MockRow("new", "New Releases", "New Release ", "New",
             _ => Movie, (i: nat) => Some(rating("new", i))),
     MockRow("live", "Live Now", "Live Channel ", "Live",
             _ => Live, _ => None)]
  }

  /** The item type rules of the four mock rows. */
  lemma MockRowKinds(rating: Rating, i: nat)
    requires i < RowLength
    ensures MockRows(rating)[0].items[i].kind == Series <==> i % 3 == 0
    ensures MockRows(rating)[0].items[i].kind != Live
    ensures MockRows(rating)[1].items[i].kind == Movie <==> i % 2 == 0
    ensures MockRows(rating)[1].items[i].kind != Live
    ensures MockRows(rating)[2].items[i].kind == Movie
    ensures MockRows(rating)[3].items[i].kind == Live
  {
  }

  /** Items of the first three rows carry their drawn rating; live channels have none. */
  lemma MockRowRatings(rating: Rating, i: nat)
    requires i < RowLength
    ensures MockRows(rating)[0].items[i].rating == Some(rating("trending", i))
    ensures MockRows(rating)[1].items[i].rating == Some(rating("recommended", i))
    ensures MockRows(rating)[2].items[i].rating == Some(rating("new", i))
    ensures MockRows(rating)[3].items[i].rating.None?
  {
  }

  /** `items.find(item => item.id === id)`: the first item with that id. */
  function FindInItems(items: seq<ContentItem>, id: string): (found: Option<ContentItem>)
    ensures found.Some? ==> found.value in items && found.value.id == id
    ensures found.None? <==> forall k :: 0 <= k < |items| ==> items[k].id != id
    decreases |items|
  {
    if items == [] then None
    else if items[0].id == id then Some(items[0])
    else FindInItems(items[1..], id)
  }

  /** The item at position `k` is found when it is the first one with that id. */
  lemma {:induction false} FindInItemsFirst(items: seq<ContentItem>, id: string, k: nat)
    requires k < |items| && items[k].id == id
    requires forall j :: 0 <= j < k ==> items[j].id != id
    ensures FindInItems(items, id) == Some(items[k])
    decreases k
  {
    if k > 0 {
      FindInItemsFirst(items[1..], id, k - 1);
    }
  }

  /** What `find` returns sits at a position no earlier item with that id precedes. */
  lemma {:induction false} FindInItemsIndex(items: seq<ContentItem>, id: string) returns (k: nat)
    requires FindInItems(items, id).Some?
    ensures k < |items| && items[k] == FindInItems(items, id).value
    ensures forall j :: 0 <= j < k ==> items[j].id != id
    decreases |items|
  {
    if items[0].id == id {
      k := 0;
    } else {
      var k' := FindInItemsIndex(items[1..], id);
      k := k' + 1;
    }
  }

  /** The search of `fetchContentDetails`: rows in order, the first match within the first row that has one. */
  function FindInRows(rows: seq<ContentRow>, id: string): (found: Option<ContentItem>)
    ensures found.Some? ==> found.value.id == id
    ensures found.None? <==>
              forall r, k :: 0 <= r < |rows| && 0 <= k < |rows[r].items| ==> rows[r].items[k].id != id
    decreases |rows|
  {
    if rows == [] then None
    else
      match FindInItems(rows[0].items, id)
      case Some(item) => Some(item)
      case None => FindInRows(rows[1..], id)
  }

  /** The first match, scanning rows in order and items in order, is what is found. */
  lemma {:induction false} FindInRowsFirst(rows: seq<ContentRow>, id: string, r: nat, k: nat)
    requires r < |rows| && k < |rows[r].items| && rows[r].items[k].id == id
    requires forall q, j :: 0 <= q < r && 0 <= j < |rows[q].items| ==> rows[q].items[j].id != id
    requires forall j :: 0 <= j < k ==> rows[r].items[j].id != id
    ensures FindInRows(rows, id) == Some(rows[r].items[k])
    decreases r
  {
    if r == 0 {
      FindInItemsFirst(rows[0].items, id, k);
    } else {
      assert FindInItems(rows[0].items, id).None?;
      FindInRowsFirst(rows[1..], id, r - 1, k);
    }
  }

  /** The `for ... of` loop of `fetchContentDetails`, which stops at the first row with a match. */
  method LookupContent(rows: seq<ContentRow>, contentId: string) returns (found: Option<ContentItem>)
    ensures found == FindInRows(rows, contentId)
  {
    found := None;
    for i := 0 to |rows|
      invariant found.None?
      invariant FindInRows(rows, contentId) == FindInRows(rows[i..], contentId)
    {
      found := FindInItems(rows[i].items, contentId);
      assert rows[i..][1..] == rows[i + 1..];
      if found.Some? {
        break;
      }
    }
  }

  /** Ids of different items of one mock row differ. */
  lemma MockIdsDistinct(rowId: string, i: nat, j: nat)
    requires rowId + "-" + NatToString(i) == rowId + "-" + NatToString(j)
    ensures i == j
  {
    var n := |rowId| + 1;
    assert NatToString(i) == (rowId + "-" + NatToString(i))[n..];
    assert NatToString(j) == (rowId + "-" + NatToString(j))[n..];
    NatToStringInjective(i, j);
  }

  /**
   * In rows built like the mock rows whose ids start with different letters,
   * looking up `${rowId}-${i}` finds item `i` of that row.
   */
  lemma MockIdsAreFound(rows: seq<ContentRow>, r: nat, i: nat)
    requires r < |rows| && i < RowLength
    requires forall q :: 0 <= q < |rows| ==> IsMockRow(rows[q]) && |rows[q].id| > 0
    requires |rows[r].items| == RowLength
    requires forall q, q' :: 0 <= q < q' < |rows| ==> rows[q].id[0] != rows[q'].id[0]
    ensures FindInRows(rows, rows[r].id + "-" + NatToString(i)) == Some(rows[r].items[i])
  {
    var id := rows[r].id + "-" + NatToString(i);
    assert id[0] == rows[r].id[0];
    forall q, j | 0 <= q < r && 0 <= j < |rows[q].items|
      ensures rows[q].items[j].id != id
    {
      assert rows[q].items[j].id == rows[q].id + "-" + NatToString(j);
      assert rows[q].items[j].id[0] == rows[q].id[0];
    }
    forall j | 0 <= j < i
      ensures rows[r].items[j].id != id
    {
      if rows[r].items[j].id == id {
        MockIdsDistinct(rows[r].id, j, i);
      }
    }
    FindInRowsFirst(rows, id, r, i);
  }

  /** After a successful home fetch, looking up the id of any mock item finds exactly that item. */
  lemma MockItemsAreFound(rating: Rating, r: nat, i: nat)
    requires r < 4 && i < RowLength
    ensures FindInRows(MockRows(rating), MockRows(rating)[r].id + "-" + NatToString(i))
            == Some(MockRows(rating)[r].items[i])
  {
    MockIdsAreFound(MockRows(rating), r, i);
  }

  datatype Episode = Episode(id: string, title: string, duration: int, thumbnail: string)

  /** The random draws of one `fetchContentDetails` call. */
  datatype DetailDraws = DetailDraws(
    fallbackIsMovie: bool,
    fallbackDuration: int,
    fallbackRating: real,
    releaseYear: int,
    episodeDuration: nat -> int)

  /** The record made up when no row holds the requested id. */
  function Fallback(contentId: string, draws: DetailDraws): ContentItem {
    ContentItem(contentId, "Content " + contentId,
                "https://via.placeholder.com/1280x720?text=Content+" + contentId,
                if draws.fallbackIsMovie then Movie else Series,
                Some("Drama"), Some("This is a detailed description of the content."),
                Some(draws.fallbackDuration), Some(draws.fallbackRating))
  }

  /** `description || 'No description available.'`: a missing or empty description is replaced. */
  function DescriptionOrDefault(description: Option<string>): (text: string)
    ensures text != ""
    ensures description.Some? && description.value != "" ==> text == description.value
    ensures description.None? || description.value == "" ==> text == NoDescription
  {
    if description.Some? && description.value != "" then description.value else NoDescription
  }

  /** The eight episodes of a series, with ids `${contentId}-ep-${i}` and titles `Episode ${i + 1}`. */
  function Episodes(contentId: string, draws: DetailDraws): (episodes: seq<Episode>)
    ensures |episodes| == EpisodeCount
    ensures forall i :: 0 <= i < EpisodeCount ==>
              episodes[i].id == contentId + "-ep-" + NatToString(i) &&
              episodes[i].title == "Episode " + NatToString(i + 1)
  {
    seq(EpisodeCount, i requires 0 <= i < EpisodeCount =>
      Episode(contentId + "-ep-" + NatToString(i), "Episode " + NatToString(i + 1),
              draws.episodeDuration(i),
              "https://via.placeholder.com/400x225?text=Episode+" + NatToString(i + 1)))
  }

  /** No two episodes of one series share an id. */
  lemma EpisodeIdsDistinct(contentId: string, draws: DetailDraws, i: nat, j: nat)
    requires i < EpisodeCount && j < EpisodeCount && i != j
    ensures Episodes(contentId, draws)[i].id != Episodes(contentId, draws)[j].id
  {
    var episodes := Episodes(contentId, draws);
    if episodes[i].id == episodes[j].id {
      var n := |contentId| + 4;
      assert NatToString(i) == episodes[i].id[n..];
      assert NatToString(j) == episodes[j].id[n..];
      NatToStringInjective(i, j);
    }
  }

  /** What is stored in `selectedContent`: a list item, or one enriched by `fetchContentDetails`. */
  datatype Selection =
    | Listed(item: ContentItem)
    | Detailed(item: ContentItem, cast: seq<string>, director: string, releaseYear: int,
               episodes: Option<seq<Episode>>)

  /** The record `fetchContentDetails` builds from the item it found (or made up). */
  function WithDetails(found: ContentItem, contentId: string, draws: DetailDraws): Selection {
    Detailed(found.(description := Some(DescriptionOrDefault(found.description))),
             ["Actor 1", "Actor 2", "Actor 3"], "Director Name", draws.releaseYear,
             if found.kind == Series then Some(Episodes(contentId, draws)) else None)
  }

  /** The details `fetchContentDetails(contentId)` selects, given the rows currently stored. */
  function ContentDetails(rows: seq<ContentRow>, contentId: string, draws: DetailDraws): Selection {
    var found := match FindInRows(rows, contentId)
                 case Some(item) => item
                 case None => Fallback(contentId, draws);
    WithDetails(found, contentId, draws)
  }

  /**
   * Details of an item held in the rows keep all its fields except the
   * description, which gets its default when missing or empty; episodes are
   * present exactly for a series, eight of them.
   */
  lemma DetailsOfListedItem(rows: seq<ContentRow>, contentId: string, draws: DetailDraws, item: ContentItem)
    requires FindInRows(rows, contentId) == Some(item)
    ensures var d := ContentDetails(rows, contentId, draws);
            && d.Detailed?
            && d.item.(description := item.description) == item
            && d.item.id == contentId
            && d.item.description == Some(DescriptionOrDefault(item.description))
            && (d.episodes.Some? <==> item.kind == Series)
            && (d.episodes.Some? ==> |d.episodes.value| == EpisodeCount)
  {
  }

  /** An id no row holds gets the fallback record: that id, title `Content ${id}`, genre Drama. */
  lemma DetailsOfUnknownItem(rows: seq<ContentRow>, contentId: string, draws: DetailDraws)
    requires forall r, k :: 0 <= r < |rows| && 0 <= k < |rows[r].items| ==> rows[r].items[k].id != contentId
    ensures var d := ContentDetails(rows, contentId, draws);
            && d.Detailed?
            && d.item.id == contentId
            && d.item.title == "Content " + contentId
            && d.item.genre == Some("Drama")
            && d.item.description == Some("This is a detailed description of the content.")
            && (d.episodes.Some? <==> !draws.fallbackIsMovie)
  {
  }

  /** Example: after the home fetch, `trending-0` is a series, so its details list eight episodes. */
  lemma FirstTrendingItemHasEpisodes(rating: Rating, draws: DetailDraws)
    ensures var d := ContentDetails(MockRows(rating), "trending-0", draws);
            d.Detailed? && d.episodes.Some? && |d.episodes.value| == EpisodeCount
            && d.item.description == Some(NoDescription)
  {
    var rows := MockRows(rating);
    var id := rows[0].id + "-" + NatToString(0);
    assert id == "trending-0";
    MockItemsAreFound(rating, 0, 0);
    var item := rows[0].items[0];
    assert item.kind == Series && item.description.None?;
    DetailsOfListedItem(rows, id, draws, item);
  }

  /** The store object. */
  class ContentStore {
    var featuredContent: Option<ContentItem>
    var contentRows: seq<ContentRow>
    var selectedContent: Option<Selection>
    var isLoading: bool
    var error: Option<string>

    constructor ()
      ensures featuredContent == None && contentRows == [] && selectedContent == None
      ensures !isLoading && error == None
    {
      featuredContent := None;
      contentRows := [];
      selectedContent := None;
      isLoading := false;
      error := None;
    }

    /** The first `set` of both fetch actions. */
    method BeginLoading()
      modifies this
      ensures isLoading && error == None
      ensures featuredContent == old(featuredContent) && contentRows == old(contentRows)
      ensures selectedContent == old(selectedContent)
    {
      isLoading := true;
      error := None;
    }

    /**
     * What `fetchHomeContent` does once its simulated delay is over. Other
     * actions may run between `BeginLoading` and this step.
     */
    method ResolveHomeContent(thrown: bool, rating: Rating)
      modifies this
      ensures !isLoading && selectedContent == old(selectedContent)
      ensures thrown ==> error == Some(HomeError)
      ensures thrown ==> featuredContent == old(featuredContent) && contentRows == old(contentRows)
      ensures !thrown ==> error == old(error)
      ensures !thrown ==> featuredContent == Some(FeaturedContent()) && contentRows == MockRows(rating)
    {
      if thrown {
        isLoading := false;
        error := Some(HomeError);
      } else {
        featuredContent := Some(FeaturedContent());
        contentRows := MockRows(rating);
        isLoading := false;
      }
    }

    /** `fetchHomeContent` run to completion without interleaving. */
    method FetchHomeContent(thrown: bool, rating: Rating)
      modifies this
      ensures !isLoading && selectedContent == old(selectedContent)
      ensures thrown ==> error == Some(HomeError)
      ensures thrown ==> featuredContent == old(featuredContent) && contentRows == old(contentRows)
      ensures !thrown ==> error == None
      ensures !thrown ==> featuredContent == Some(FeaturedContent()) && contentRows == MockRows(rating)
    {
      BeginLoading();
      ResolveHomeContent(thrown, rating);
    }

    /** `fetchContentDetails(contentId)`; the rows and featured item are only read. */
    method FetchContentDetails(contentId: string, thrown: bool, draws: DetailDraws)
      modifies this
      ensures !isLoading
      ensures featuredContent == old(featuredContent) && contentRows == old(contentRows)
      ensures thrown ==> error == Some(DetailsError) && selectedContent == old(selectedContent)
      ensures !thrown ==> error == None
      ensures !thrown ==> selectedContent == Some(ContentDetails(old(contentRows), contentId, draws))
    {
      BeginLoading();
      if thrown {
        isLoading := false;
        error := Some(DetailsError);
        return;
      }
      var found := LookupContent(contentRows, contentId);
      var item := if found.Some? then found.value else Fallback(contentId, draws);
      selectedContent := Some(WithDetails(item, contentId, draws));
      isLoading := false;
    }

    /** `selectContent(content)`: only `selectedContent` changes. */
    method SelectContent(content: ContentItem)
      modifies this`selectedContent
      ensures selectedContent == Some(Listed(content))
    {
      selectedContent := Some(Listed(content));
    }
  }
}
