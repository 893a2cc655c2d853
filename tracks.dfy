/**
 * Track records and the catalog adapters that build them. The external
 * catalogs (YouTube keyword search, ytdl video info, the Spotify Web API)
 * are abstract functions; `None` stands for a request that rejected, which
 * every adapter absorbs into "no result".
 */
module Tracks {
  import opened Wrappers
  import opened Strings
  import opened Helpers

  /**
   * A song record: a full track as the adapters build it, or the
   * title/url pair that the radio path stores as the current song.
   */
  datatype Song =
    | Track(title: string, url: string, duration: string, thumbnail: Option<string>,
            source: string, artist: string, id: string, album: Option<string>)
    | RadioStream(title: string, url: string)

  /** One item of a YouTube keyword search (`id`, `title`, `length.simpleText`, first thumbnail). */
  datatype VideoItem = VideoItem(id: string, title: string, lengthText: Option<string>, thumbnail: Option<string>)

  /** The `videoDetails` of a ytdl info request; the length is a whole number of seconds. */
  datatype VideoDetails = VideoDetails(videoId: string, title: string, lengthSeconds: nat, thumbnail: Option<string>)

  /** A Spotify track object: artists in order, the Spotify URL, the album's name and first image. */
  datatype SpotifyTrack = SpotifyTrack(id: string, name: string, artists: seq<string>, spotifyUrl: string,
                                       durationMs: nat, albumName: string, albumImage: Option<string>)

  /** The external collaborators, as functions of their arguments. */
  datatype Catalog = Catalog(
    keywordSearch: (string, nat) -> Option<seq<VideoItem>>,    // YoutubeSearchApi.GetListByKeyword(query, false, limit)
    videoInfo: string -> Option<VideoDetails>,                 // ytdl.getInfo(url)
    spotifyTrack: string -> Option<SpotifyTrack>,              // spotifyApi.getTrack(id)
    spotifySearch: (string, nat) -> Option<seq<SpotifyTrack>>, // spotifyApi.searchTracks(query, {limit})
    streamFails: string -> bool)                               // ytdl(url) / createAudioResource throws

  const WatchUrlPrefix: string := "https://www.youtube.com/watch?v="
  const YouTube: string := "YouTube"
  const Spotify: string := "Spotify"
  const UnknownDuration: string := "Unknown"

  /** The default limits of `searchYouTube`/`searchSpotify` and of `searchAll`. */
  const SearchLimit: nat := 5
  const SearchAllLimit: nat := 3

  // ---------------------------------------------------------------------
  // Record builders

  /** The record built from a keyword-search item. */
  function VideoRecord(item: VideoItem): (s: Song)
    ensures s.Track? && s.source == YouTube && s.album.None?
    ensures s.title == item.title && s.id == item.id && s.thumbnail == item.thumbnail
    ensures s.url == WatchUrlPrefix + item.id && IsYouTubeUrl(s.url)
    ensures item.lengthText.Some? && item.lengthText.value != "" ==> s.duration == item.lengthText.value
    ensures s.duration == UnknownDuration <==> item.lengthText.None? || item.lengthText.value in {"", UnknownDuration}
    ensures s.artist == ExtractArtistFromTitle(item.title)
  {
    var url := WatchUrlPrefix + item.id;
    assert url[..|WatchUrlPrefix|] == WatchUrlPrefix;
    assert url[12..23] == WatchUrlPrefix[12..23] == "youtube.com";
    assert OccursAt(url, "youtube.com", 12);
    var duration := match item.lengthText
      case Some(t) => if t != "" then t else UnknownDuration
      case None => UnknownDuration;
    Track(item.title, url, duration, item.thumbnail, YouTube, ExtractArtistFromTitle(item.title), item.id, None)
  }

  /** The record built from ytdl's video details: the URL is kept verbatim. */
  function InfoRecord(url: string, d: VideoDetails): (s: Song)
    ensures s.Track? && s.source == YouTube && s.album.None? && s.url == url
    ensures s.title == d.title && s.id == d.videoId && s.thumbnail == d.thumbnail
    ensures s.duration == FormatDuration(d.lengthSeconds)
    ensures s.artist == ExtractArtistFromTitle(d.title)
  {
    Track(d.title, url, FormatDuration(d.lengthSeconds), d.thumbnail, YouTube, ExtractArtistFromTitle(d.title), d.videoId, None)
  }

  /** The record built from a Spotify track: the first artist and the album name. */
  function SpotifyRecord(t: SpotifyTrack): (s: Song)
    requires |t.artists| > 0
    ensures s.Track? && s.source == Spotify && s.url == t.spotifyUrl && s.title == t.name
    ensures s.artist == t.artists[0] && s.album == Some(t.albumName) && s.id == t.id
    ensures s.duration == FormatDuration(t.durationMs / 1000)
  {
    Track(t.name, t.spotifyUrl, FormatDuration(t.durationMs / 1000), t.albumImage, Spotify, t.artists[0], t.id, Some(t.albumName))
  }

  // ---------------------------------------------------------------------
  // Search adapters

  /** `searchYouTube(query, limit)`: every item as a record, in catalog order; a rejected request gives `[]`. */
  function SearchYouTube(cat: Catalog, query: string, limit: nat): (r: seq<Song>)
    ensures cat.keywordSearch(query, limit).None? ==> r == []
    ensures cat.keywordSearch(query, limit).Some? ==>
      var items := cat.keywordSearch(query, limit).value;
      |r| == |items| && forall k :: 0 <= k < |r| ==> r[k] == VideoRecord(items[k])
    ensures forall k :: 0 <= k < |r| ==> r[k].Track? && r[k].source == YouTube
  {
    match cat.keywordSearch(query, limit)
    case None => []
    case Some(items) => seq(|items|, k requires 0 <= k < |items| => VideoRecord(items[k]))
  }

  /** `searchYouTubeSingle(query)`: the first item of a one-result search, if any. */
  function SearchYouTubeSingle(cat: Catalog, query: string): (r: Option<Song>)
    ensures r.Some? <==> cat.keywordSearch(query, 1).Some? && |cat.keywordSearch(query, 1).value| > 0
    ensures r.Some? ==> r.value == VideoRecord(cat.keywordSearch(query, 1).value[0])
    ensures r.Some? ==> r.value.Track? && r.value.source == YouTube
  {
    match cat.keywordSearch(query, 1)
    case None => None
    case Some(items) => if |items| == 0 then None else Some(VideoRecord(items[0]))
  }

  /**
   * `searchSpotify(query, limit)`: every track as a record, in catalog order.
   * A track without artists makes the mapping throw, which the adapter turns
   * into `[]` for the whole batch.
   */
  function SearchSpotify(cat: Catalog, query: string, limit: nat): (r: seq<Song>)
    ensures cat.spotifySearch(query, limit).None? ==> r == []
    ensures cat.spotifySearch(query, limit).Some? ==>
      var items := cat.spotifySearch(query, limit).value;
      && ((exists k :: 0 <= k < |items| && items[k].artists == []) ==> r == [])
      && ((forall k :: 0 <= k < |items| ==> items[k].artists != []) ==>
            |r| == |items| && forall k :: 0 <= k < |r| ==> r[k] == SpotifyRecord(items[k]))
    ensures forall k :: 0 <= k < |r| ==> r[k].Track? && r[k].source == Spotify
  {
    match cat.spotifySearch(query, limit)
    case None => []
    case Some(items) =>
      if exists k :: 0 <= k < |items| && items[k].artists == [] then []
      else seq(|items|, k requires 0 <= k < |items| => SpotifyRecord(items[k]))
  }

  /** `search(query, source)`: Spotify when asked for by name, YouTube otherwise. */
  function Search(cat: Catalog, query: string, source: string): (r: seq<Song>)
    ensures source == "spotify" ==> r == SearchSpotify(cat, query, SearchLimit)
    ensures source != "spotify" ==> r == SearchYouTube(cat, query, SearchLimit)
  {
    if source == "spotify" then SearchSpotify(cat, query, SearchLimit) else SearchYouTube(cat, query, SearchLimit)
  }

  datatype MultiSearch = MultiSearch(youtube: seq<Song>, spotify: seq<Song>, total: nat)

  /** The limit `searchAll` uses: the one given, or 3 when the caller leaves it out. */
  function EffectiveLimit(limit: Option<nat>): nat {
    if limit.Some? then limit.value else SearchAllLimit
  }

  /**
   * `searchAll(query, limit = 3)`: both catalogs with the same limit, and
   * the summed count.
   */
  function SearchAll(cat: Catalog, query: string, limit: Option<nat>): (r: MultiSearch)
    ensures var l := if limit.Some? then limit.value else 3;
      && r.youtube == SearchYouTube(cat, query, l)
      && r.spotify == SearchSpotify(cat, query, l)
    ensures r.total == |r.youtube| + |r.spotify|
  {
    var yt := SearchYouTube(cat, query, EffectiveLimit(limit));
    var sp := SearchSpotify(cat, query, EffectiveLimit(limit));
    MultiSearch(yt, sp, |yt| + |sp|)
  }

  /** A rejected request in one catalog leaves that slot empty and the other catalog's results intact. */
  lemma SearchAllAbsorbsFailure(cat: Catalog, query: string, limit: Option<nat>)
    ensures var l := EffectiveLimit(limit);
      cat.keywordSearch(query, l).None? ==>
        SearchAll(cat, query, limit) == MultiSearch([], SearchSpotify(cat, query, l), |SearchSpotify(cat, query, l)|)
    ensures var l := EffectiveLimit(limit);
      cat.spotifySearch(query, l).None? ==>
        SearchAll(cat, query, limit) == MultiSearch(SearchYouTube(cat, query, l), [], |SearchYouTube(cat, query, l)|)
  {
  }

  // ---------------------------------------------------------------------
  // URL look-ups

  /** `getYouTubeInfo(url)`. */
  function GetYouTubeInfo(cat: Catalog, url: string): (r: Option<Song>)
    ensures r.Some? <==> cat.videoInfo(url).Some?
    ensures r.Some? ==> r.value == InfoRecord(url, cat.videoInfo(url).value)
  {
    match cat.videoInfo(url)
    case None => None
    case Some(d) => Some(InfoRecord(url, d))
  }

  /**
   * `getSpotifyTrack(url)`: the Spotify track named by the URL, re-found on
   * YouTube by "<first artist> <name>". No extractable id, a rejected
   * request or a track without artists give `None`.
   */
  function GetSpotifyTrack(cat: Catalog, url: string): (r: Option<Song>)
    ensures ExtractSpotifyId(url).None? ==> r.None?
    ensures ExtractSpotifyId(url).Some? ==>
      var t := cat.spotifyTrack(ExtractSpotifyId(url).value);
      r == if t.None? || t.value.artists == [] then None
           else SearchYouTubeSingle(cat, t.value.artists[0] + " " + t.value.name)
    ensures r.Some? ==> r.value.Track? && r.value.source == YouTube
  {
    match ExtractSpotifyId(url)
    case None => None
    case Some(id) =>
      match cat.spotifyTrack(id)
      case None => None
      case Some(t) =>
        if t.artists == [] then None else SearchYouTubeSingle(cat, t.artists[0] + " " + t.name)
  }

  // ---------------------------------------------------------------------
  // The look-up choice of `play`

  datatype Lookup =
    | Found(song: Song)
    | NotFound
    | SourceHintFault   // the undefined `playFromSource` is called: a TypeError

  /** JavaScript truthiness of an optional string. */
  predicate Truthy(o: Option<string>) {
    o.Some? && o.value != ""
  }

  /**
   * The branch order of `play`'s look-up: a Spotify URL first, then a
   * YouTube URL (kept verbatim), then a source hint (always a fault), then a
   * single keyword search. Every track found is a YouTube record.
   */
  function Resolve(cat: Catalog, query: string, source: Option<string>): (r: Lookup)
    ensures r.Found? ==> r.song.Track? && r.song.source == YouTube
    ensures r.SourceHintFault? <==> !IsSpotifyUrl(query) && !IsYouTubeUrl(query) && Truthy(source)
    ensures IsSpotifyUrl(query) ==> (r.Found? <==> GetSpotifyTrack(cat, query).Some?)
    ensures IsSpotifyUrl(query) && r.Found? ==> r.song == GetSpotifyTrack(cat, query).value
    ensures !IsSpotifyUrl(query) && IsYouTubeUrl(query) ==>
      && (r.Found? <==> cat.videoInfo(query).Some?)
      && (r.Found? ==> r.song == InfoRecord(query, cat.videoInfo(query).value) && r.song.url == query)
    ensures !IsSpotifyUrl(query) && !IsYouTubeUrl(query) && !Truthy(source) ==>
      && (r.Found? <==> SearchYouTubeSingle(cat, query).Some?)
      && (r.Found? ==> r.song == SearchYouTubeSingle(cat, query).value)
  {
    if IsSpotifyUrl(query) then
      match GetSpotifyTrack(cat, query) case Some(s) => Found(s) case None => NotFound
    else if IsYouTubeUrl(query) then
      match GetYouTubeInfo(cat, query) case Some(s) => Found(s) case None => NotFound
    else if Truthy(source) then SourceHintFault
    else
      match SearchYouTubeSingle(cat, query) case Some(s) => Found(s) case None => NotFound
  }

  /** A Spotify URL without "track/<alphanumerics>" is not found, never a fault. */
  lemma MalformedSpotifyUrlNotFound(cat: Catalog, query: string, source: Option<string>)
    requires IsSpotifyUrl(query)
    requires forall i :: !TrackIdAt(query, i)
    ensures Resolve(cat, query, source) == NotFound
  {
    ExtractSpotifyIdSpec(query);
  }
}
