/**
 * The catalog side of the root component (src/App.js): the records the
 * remote service returns, the records the viewer keeps, how a parsed response
 * body is unwrapped by `fetchVideoList` and by `handleSearch`, and the values
 * the view derives from the current selection.
 */
module VideoCatalog {
  import opened Wrappers

  /** Origin of the remote service; every request and media URL starts with it. */
  const Origin := "https://clip-cast-server.onrender.com"
  /** Prefix the viewer puts before a stored file name to form a video's relative URL. */
  const VideosPath := "/videos/"
  /** Path of the endpoint returning `{videos: [...]}`. */
  const ListPath := "/api/videos"
  /** Path prefix of the search endpoint; the raw query follows it unencoded. */
  const SearchPrefix := "/api/search?q="
  /** MIME type the player is given for every source. */
  const Mp4 := "video/mp4"

  /** A record as the service sends it: `{_id, title, filename, description}`. */
  datatype RawVideo = RawVideo(rawId: string, title: string, filename: string, description: string)

  /** A record as the viewer stores it: `{id, name, url, description}`. */
  datatype Video = Video(id: string, name: string, url: string, description: string)

  /**
   * A parsed JSON body, reduced to the shapes the handlers tell apart.
   * `Object` stands for an object whose `videos` property is the given value
   * (`Undefined` when the property is missing); `Scalar` is any string,
   * number or boolean.
   */
  datatype JsValue =
    | Undefined
    | Null
    | Scalar
    | Array(records: seq<RawVideo>)
    | Object(videos: JsValue)

  /** Outcome of `fetch(...).then(r => r.json())`: a rejected promise, or the parsed body. */
  datatype Response = Failure | Body(data: JsValue)

  /** The old and new catalog state that the response handlers replace. */
  datatype Catalog = Catalog(videos: seq<Video>, current: Option<Video>)

  /** A source entry handed to the player. */
  datatype Source = Source(src: string, mime: string)

  // ---------------------------------------------------------------------
  // Record mapping

  function ToVideo(r: RawVideo): Video {
    Video(r.rawId, r.title, VideosPath + r.filename, r.description)
  }

  /** The `.map` both handlers apply to the records they receive. */
  function MapRecords(raws: seq<RawVideo>): (vs: seq<Video>)
    ensures |vs| == |raws|
    ensures forall i :: 0 <= i < |raws| ==>
      vs[i].id == raws[i].rawId && vs[i].name == raws[i].title &&
      vs[i].url == VideosPath + raws[i].filename && vs[i].description == raws[i].description
  {
    if raws == [] then [] else [ToVideo(raws[0])] + MapRecords(raws[1..])
  }

  /** Recovers the service's record from a stored one, if its URL has the expected prefix. */
  function RecordOf(v: Video): Option<RawVideo> {
    if VideosPath <= v.url then Some(RawVideo(v.id, v.name, v.url[|VideosPath|..], v.description))
    else None
  }

  /** Recovers the service's records from a stored list, in order. */
  function UnmapRecords(vs: seq<Video>): Option<seq<RawVideo>> {
    if vs == [] then Some([])
    else match (RecordOf(vs[0]), UnmapRecords(vs[1..]))
      case (Some(r), Some(rest)) => Some([r] + rest)
      case _ => None
  }

  /** The mapping loses nothing: the raw records can be read back from the stored list. */
  lemma {:induction false} UnmapAfterMap(raws: seq<RawVideo>)
    ensures UnmapRecords(MapRecords(raws)) == Some(raws)
  {
    if raws != [] {
      var vs := MapRecords(raws);
      assert vs[1..] == MapRecords(raws[1..]);
      UnmapAfterMap(raws[1..]);
      assert (VideosPath + raws[0].filename)[|VideosPath|..] == raws[0].filename;
      assert RecordOf(vs[0]) == Some(raws[0]);
      assert [raws[0]] + raws[1..] == raws;
    }
  }

  /** Two records get the same URL only when they name the same file. */
  lemma UrlDeterminesFilename(a: string, b: string)
    requires VideosPath + a == VideosPath + b
    ensures a == b
  {
    assert a == (VideosPath + a)[|VideosPath|..];
    assert b == (VideosPath + b)[|VideosPath|..];
  }

  // ---------------------------------------------------------------------
  // Unwrapping a response body

  /**
   * Reading `data.videos`: None when reading the property throws (on `null`
   * or `undefined`), otherwise the property's value.
   */
  function VideosOf(data: JsValue): (field: Option<JsValue>)
    ensures field.None? <==> data.Undefined? || data.Null?
    ensures data.Object? ==> field == Some(data.videos)
  {
    match data
    case Undefined => None
    case Null => None
    case Object(v) => Some(v)
    case _ => Some(Undefined)
  }

  /**
   * The list `fetchVideoList` stores, or None when its callback throws before
   * storing anything (a rejected request, a body without an array `videos`).
   */
  function FetchedList(resp: Response): (r: Option<seq<Video>>)
    ensures r.Some? <==> resp.Body? && resp.data.Object? && resp.data.videos.Array?
    ensures r.Some? ==> r.value == MapRecords(resp.data.videos.records)
  {
    if resp.Failure? then None
    else match VideosOf(resp.data)
      case Some(Array(records)) => Some(MapRecords(records))
      case _ => None
  }

  /** The path `handleSearch` requests: the full list for an empty query, else the search endpoint. */
  function SearchPath(query: string): (path: string)
    ensures path == ListPath <==> query == ""
    ensures query != "" ==> SearchPrefix <= path && path[|SearchPrefix|..] == query
  {
    if query != "" then SearchPrefix + query else ListPath
  }

  /**
   * The list `handleSearch` stores, or None when it stores nothing. A
   * non-empty query takes the body as the list; an empty one unwraps
   * `data.videos`. Anything that is not an array becomes the empty list.
   */
  function SearchedList(query: string, resp: Response): (r: Option<seq<Video>>)
    ensures resp.Failure? ==> r.None?
    ensures resp.Body? && query != "" ==>
      r == Some(if resp.data.Array? then MapRecords(resp.data.records) else [])
    ensures resp.Body? && query == "" ==> (r.None? <==> resp.data.Undefined? || resp.data.Null?)
    ensures query == "" && FetchedList(resp).Some? ==> r == FetchedList(resp)
    ensures query == "" && r.Some? && FetchedList(resp).None? ==> r == Some([])
  {
    if resp.Failure? then None
    else
      var unwrapped: Option<JsValue> := if query != "" then Some(resp.data) else VideosOf(resp.data);
      match unwrapped
      case None => None
      case Some(Array(records)) => Some(MapRecords(records))
      case Some(_) => Some([])
  }

  // ---------------------------------------------------------------------
  // State transitions of the two response handlers

  /** The selection is empty or one of the listed records. */
  predicate SelectionListed(c: Catalog) {
    c.current.None? || c.current.value in c.videos
  }

  /** Effect of `fetchVideoList`'s callback on the catalog. */
  function AfterFetch(c: Catalog, resp: Response): (r: Catalog)
    ensures FetchedList(resp).None? ==> r == c
    ensures FetchedList(resp).Some? ==> r.videos == FetchedList(resp).value
    ensures r.videos != [] && FetchedList(resp).Some? ==> r.current == Some(r.videos[0])
    ensures r.videos == [] ==> r.current == c.current
  {
    match FetchedList(resp)
    case None => c
    case Some(vs) => Catalog(vs, if |vs| > 0 then Some(vs[0]) else c.current)
  }

  /** Effect of `handleSearch`'s callback on the catalog. */
  function AfterSearch(c: Catalog, query: string, resp: Response): (r: Catalog)
    ensures SearchedList(query, resp).None? ==> r == c
    ensures SearchedList(query, resp).Some? ==> r.videos == SearchedList(query, resp).value
    ensures SearchedList(query, resp).Some? ==> SelectionListed(r)
    ensures SearchedList(query, resp).Some? ==> (r.current.None? <==> r.videos == [])
    ensures SearchedList(query, resp).Some? && r.videos != [] ==> r.current == Some(r.videos[0])
    ensures resp.Body? && query != "" && !resp.data.Array? ==> r == Catalog([], None)
  {
    match SearchedList(query, resp)
    case None => c
    case Some(vs) => Catalog(vs, if |vs| > 0 then Some(vs[0]) else None)
  }

  /**
   * An empty query refreshes the catalog as `fetchVideoList` does when the
   * service returns records; then they differ only in the selection left
   * after an empty list (the search clears it, the fetch keeps it). On an
   * answer without an array `videos`, the fetch changes nothing while the
   * search either changes nothing (the body is null) or clears the catalog.
   */
  lemma EmptySearchIsRefresh(c: Catalog, resp: Response)
    ensures FetchedList(resp).Some? ==> AfterSearch(c, "", resp).videos == AfterFetch(c, resp).videos
    ensures FetchedList(resp).Some? && FetchedList(resp).value != [] ==>
      AfterSearch(c, "", resp) == AfterFetch(c, resp)
    ensures FetchedList(resp).Some? && FetchedList(resp).value == [] ==>
      AfterSearch(c, "", resp).current == None && AfterFetch(c, resp).current == c.current
    ensures FetchedList(resp).None? ==>
      AfterFetch(c, resp) == c &&
      (AfterSearch(c, "", resp) == c || AfterSearch(c, "", resp) == Catalog([], None))
  {
  }

  /**
   * A successful fetch of a non-empty list always leaves a listed selection,
   * whatever the selection was; an empty list can leave a stale one.
   */
  lemma FetchSelectionListed(c: Catalog, resp: Response)
    requires FetchedList(resp).Some? && FetchedList(resp).value != []
    ensures SelectionListed(AfterFetch(c, resp))
  {
  }

  // ---------------------------------------------------------------------
  // Values the view derives from the state

  /**
   * Whether a title in the list is rendered with the `highlighted` class:
   * exactly when the player's one source is that title's URL at the origin.
   */
  predicate Highlighted(current: Option<Video>, title: Video)
    ensures Highlighted(current, title) <==> PlayerSources(current) == [Source(Origin + title.url, Mp4)]
  {
    OriginDeterminesUrl(if current.Some? then current.value.url else "", title.url);
    current.Some? && current.value.url == title.url
  }

  /** Two media URLs are equal only when the relative URLs are. */
  lemma OriginDeterminesUrl(a: string, b: string)
    ensures Origin + a == Origin + b ==> a == b
  {
    assert a == (Origin + a)[|Origin|..];
    assert b == (Origin + b)[|Origin|..];
  }

  /** The `sources` option handed to the player. */
  function PlayerSources(current: Option<Video>): (srcs: seq<Source>)
    ensures srcs == [] <==> current.None?
    ensures current.Some? ==> srcs == [Source(Origin + current.value.url, Mp4)]
  {
    if current.Some? then [Source(Origin + current.value.url, Mp4)] else []
  }

  /**
   * When the service's file names are distinct, at most one title of the
   * stored list is highlighted, whatever the selection.
   */
  lemma AtMostOneHighlighted(raws: seq<RawVideo>, current: Option<Video>, i: nat, j: nat)
    requires forall a, b :: 0 <= a < b < |raws| ==> raws[a].filename != raws[b].filename
    requires i < |raws| && j < |raws|
    requires Highlighted(current, MapRecords(raws)[i]) && Highlighted(current, MapRecords(raws)[j])
    ensures i == j
  {
    var vs := MapRecords(raws);
    UrlDeterminesFilename(raws[i].filename, raws[j].filename);
  }

  /**
   * After a fetch that returns records, the first record is both highlighted
   * and played, from the origin followed by `/videos/` and its file name.
   */
  lemma FetchPlaysFirst(c: Catalog, resp: Response)
    requires FetchedList(resp).Some? && FetchedList(resp).value != []
    ensures var after := AfterFetch(c, resp);
      Highlighted(after.current, after.videos[0]) &&
      PlayerSources(after.current) ==
        [Source(Origin + VideosPath + resp.data.videos.records[0].filename, Mp4)]
  {
    var after := AfterFetch(c, resp);
    assert after.current.value.url == VideosPath + resp.data.videos.records[0].filename;
    assert Origin + (VideosPath + resp.data.videos.records[0].filename)
        == Origin + VideosPath + resp.data.videos.records[0].filename;
  }
}
