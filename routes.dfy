// server/routes.ts: the proxy server in front of the JioSaavn API. Upstream
// answers are untyped JSON, so they are `Json` values here; normalising them
// may throw a TypeError (a property read on null, `filter` or `map` on
// something that is not an array), which the route handlers catch and answer
// with 500. Query parameters are absent or a single string. The HTTP server
// itself, the HTML sign-in page and logging are not modelled.

module Routes {
  import opened Text
  import opened Js
  import opened Lists

  /** `TIMEOUT_MS`: the upstream request is aborted after 12 seconds (a `FetchError`). */
  const TimeoutMs := 12000

  // ---- normalisers ---------------------------------------------------------------------

  datatype NImage = NImage(quality: Json, url: Json)

  /** One element of an image or download list: `{ quality: img.quality || "", url: img.link || img.url || "" }`. */
  function ImageEntry(img: Json): Outcome<NImage> {
    if Nullish(img) then Throws
    else Returns(NImage(Or(Get(img, "quality"), JStr("")), Or(Or(Get(img, "link"), Get(img, "url")), JStr(""))))
  }

  /** `normalizeImage(images)`. */
  function NormalizeImage(images: Json): Outcome<seq<NImage>> {
    if images.JStr? then Returns([NImage(JStr("500x500"), images)])
    else if !images.JArr? then Returns([])
    else MapAll(images.items, ImageEntry)
  }

  /**
   * A string becomes one 500x500 entry, anything else that is not an array
   * becomes the empty list, and an array keeps its length with each url
   * taken from `link`, else `url`, else "". Only a null element throws.
   */
  lemma NormalizeImageRules(images: Json)
    ensures images.JStr? ==> NormalizeImage(images) == Returns([NImage(JStr("500x500"), images)])
    ensures !images.JStr? && !images.JArr? ==> NormalizeImage(images) == Returns([])
    ensures images.JArr? ==>
      (NormalizeImage(images).Returns? <==> forall i :: 0 <= i < |images.items| ==> !Nullish(images.items[i]))
    ensures images.JArr? && NormalizeImage(images).Returns? ==>
      |NormalizeImage(images).value| == |images.items| &&
      forall i :: 0 <= i < |images.items| ==>
        var img := images.items[i];
        NormalizeImage(images).value[i].url ==
          (if Truthy(Get(img, "link")) then Get(img, "link") else if Truthy(Get(img, "url")) then Get(img, "url") else JStr(""))
  {
  }

  /** An artist entry; `role` is only kept in the `all` list. */
  datatype NArtist = NArtist(id: Json, name: Json, role: Option<Json>, image: seq<NImage>, url: Json)

  function ArtistEntry(a: Json, withRole: bool): Outcome<NArtist> {
    if Nullish(a) then Throws
    else
      var image := NormalizeImage(Or(Get(a, "image"), JArr([])));
      if image.Throws? then Throws
      else Returns(NArtist(Or(Get(a, "id"), JStr("")), Or(Get(a, "name"), JStr("")),
        if withRole then Some(Or(Get(a, "role"), JStr(""))) else None, image.value, Or(Get(a, "url"), JStr(""))))
  }

  predicate IsPrimary(a: Json) {
    Get(a, "role") == JStr("Singer") || Get(a, "role") == JStr("Primary Artists")
  }

  /** The artists credited as primary: singers and primary artists, or everyone when there are none. */
  function Credited(artists: seq<Json>): (r: seq<Json>)
    ensures |Filter(artists, IsPrimary)| > 0 ==> forall a :: a in r <==> a in artists && IsPrimary(a)
    ensures |Filter(artists, IsPrimary)| == 0 ==> r == artists
  {
    var primary := Filter(artists, IsPrimary);
    if |primary| > 0 then primary else artists
  }

  datatype NSong = NSong(
    id: Json,
    name: Json,
    kind: Json,
    year: string,
    duration: Json,
    language: Json,
    hasLyrics: Json,
    albumId: Json,
    albumName: Json,
    albumUrl: Json,
    primary: seq<NArtist>,
    featured: seq<NArtist>,
    all: seq<NArtist>,
    image: seq<NImage>,
    downloadUrl: seq<NImage>)

  /** `song.artist_map?.artists || []`. */
  function ArtistsOf(song: Json): Json {
    Or(Get(Get(song, "artist_map"), "artists"), JArr([]))
  }

  /** `song.download_url || song.downloadUrl || []`. */
  function DownloadsOf(song: Json): Json {
    Or(Or(Get(song, "download_url"), Get(song, "downloadUrl")), JArr([]))
  }

  /** `typeof song.year === "string" ? song.year : String(song.year || "")`. */
  function YearOf(song: Json): string {
    var y := Get(song, "year");
    if y.JStr? then y.s else ToStr(Or(y, JStr("")))
  }

  /** `typeof song.album === "string" ? song.album : (song.album?.name || "")`. */
  function AlbumNameOf(song: Json): Json {
    var a := Get(song, "album");
    if a.JStr? then a else Or(Get(a, "name"), JStr(""))
  }

  /** `normalizeSong(song)`: None is the `null` it returns for a falsy song. */
  function NormalizeSong(song: Json): Outcome<Option<NSong>> {
    if !Truthy(song) then Returns(None)
    else
      var artists := ArtistsOf(song);
      if !artists.JArr? || exists i :: 0 <= i < |artists.items| && Nullish(artists.items[i]) then Throws
      else
        var primary := MapAll(Credited(artists.items), a => ArtistEntry(a, false));
        var all := MapAll(artists.items, a => ArtistEntry(a, true));
        var image := NormalizeImage(Or(Get(song, "image"), JArr([])));
        var downloads := DownloadsOf(song);
        var dl := if downloads.JArr? then MapAll(downloads.items, ImageEntry) else Throws;
        if primary.Throws? || all.Throws? || image.Throws? || dl.Throws? then Throws
        else Returns(Some(NSong(
          Get(song, "id"),
          Or(Get(song, "name"), JStr("")),
          Or(Get(song, "type"), JStr("song")),
          YearOf(song),
          Or(Get(song, "duration"), JNum(0)),
          Or(Get(song, "language"), JStr("")),
          Or(Get(song, "has_lyrics"), JBool(false)),
          Or(Get(song, "album_id"), JStr("")),
          AlbumNameOf(song),
          Or(Get(song, "album_url"), JStr("")),
          primary.value, [], all.value, image.value, dl.value)))
  }

  /**
   * A falsy song normalises to null. Otherwise the result credits the
   * primary artists (everyone when there are none), lists every artist
   * under `all`, never has featured artists, gives a missing duration as 0,
   * a non-string year as its string form (a year of 0 as ""), and takes its download list from
   * `download_url`, else `downloadUrl`, entry for entry.
   */
  lemma NormalizeSongRules(song: Json)
    ensures !Truthy(song) ==> NormalizeSong(song) == Returns(None)
    ensures NormalizeSong(song).Returns? && Truthy(song) ==>
      var n := NormalizeSong(song).value.value;
      var artists := ArtistsOf(song).items;
      n.featured == [] &&
      |n.all| == |artists| &&
      |n.primary| == |Credited(artists)| &&
      (forall i :: 0 <= i < |n.primary| ==> n.primary[i].role.None?) &&
      (forall i :: 0 <= i < |n.all| ==> n.all[i].role.Some?) &&
      (!Truthy(Get(song, "duration")) ==> n.duration == JNum(0)) &&
      (Get(song, "year").JNum? && Get(song, "year").n != 0 ==> n.year == IntToString(Get(song, "year").n)) &&
      (!Truthy(Get(song, "year")) ==> n.year == "") &&
      |n.downloadUrl| == |DownloadsOf(song).items| &&
      (Truthy(Get(song, "download_url")) ==> DownloadsOf(song) == Get(song, "download_url"))
    ensures Truthy(song) && !ArtistsOf(song).JArr? ==> NormalizeSong(song) == Throws
    ensures Truthy(song) && Truthy(DownloadsOf(song)) && !DownloadsOf(song).JArr? ==> NormalizeSong(song) == Throws
  {
    if NormalizeSong(song).Returns? && Truthy(song) {
      NormalizedArtists(song);
      NormalizedFields(song);
    }
  }

  /** The artist lists of a normalised song: primary entries without a role, all entries with one. */
  lemma NormalizedArtists(song: Json)
    requires Truthy(song) && NormalizeSong(song).Returns?
    ensures NormalizeSong(song).value.Some?
    ensures var n := NormalizeSong(song).value.value;
      var artists := ArtistsOf(song).items;
      |n.all| == |artists| &&
      |n.primary| == |Credited(artists)| &&
      (forall i :: 0 <= i < |n.primary| ==> n.primary[i].role.None?) &&
      (forall i :: 0 <= i < |n.all| ==> n.all[i].role.Some?)
  {
    var n := NormalizeSong(song).value.value;
    var artists := ArtistsOf(song).items;
    assert forall i :: 0 <= i < |n.primary| ==> n.primary[i] == ArtistEntry(Credited(artists)[i], false).value;
    assert forall i :: 0 <= i < |n.all| ==> n.all[i] == ArtistEntry(artists[i], true).value;
  }

  /** The scalar fields and the download list of a normalised song. */
  lemma NormalizedFields(song: Json)
    requires Truthy(song) && NormalizeSong(song).Returns?
    ensures NormalizeSong(song).value.Some?
    ensures var n := NormalizeSong(song).value.value;
      n.featured == [] &&
      (!Truthy(Get(song, "duration")) ==> n.duration == JNum(0)) &&
      (Get(song, "year").JNum? && Get(song, "year").n != 0 ==> n.year == IntToString(Get(song, "year").n)) &&
      (!Truthy(Get(song, "year")) ==> n.year == "") &&
      |n.downloadUrl| == |DownloadsOf(song).items| &&
      (Truthy(Get(song, "download_url")) ==> DownloadsOf(song) == Get(song, "download_url"))
  {
  }

  datatype NPlaylist = NPlaylist(
    id: Json,
    name: Json,
    kind: Json,
    image: seq<NImage>,
    url: Json,
    songCount: Json,
    language: Json,
    description: Json,
    songs: Option<seq<NSong>>)

  /** `Array.isArray(playlist.songs) ? playlist.songs.map(normalizeSong).filter(Boolean) : undefined`. */
  function PlaylistSongs(songs: Json): Outcome<Option<seq<NSong>>> {
    if !songs.JArr? then Returns(None)
    else
      var mapped := MapAll(songs.items, NormalizeSong);
      if mapped.Throws? then Throws else Returns(Some(Somes(mapped.value)))
  }

  /** `normalizePlaylist(playlist)`: None is the `null` it returns for a falsy playlist. */
  function NormalizePlaylist(p: Json): Outcome<Option<NPlaylist>> {
    if !Truthy(p) then Returns(None)
    else
      var image := NormalizeImage(Or(Get(p, "image"), JArr([])));
      var songs := PlaylistSongs(Get(p, "songs"));
      if image.Throws? || songs.Throws? then Throws
      else Returns(Some(NPlaylist(
        Get(p, "id"),
        Or(Get(p, "name"), JStr("")),
        Or(Get(p, "type"), JStr("playlist")),
        image.value,
        Or(Get(p, "url"), JStr("")),
        Or(Or(Get(p, "songCount"), Get(p, "song_count")), JNum(0)),
        Or(Get(p, "language"), JStr("")),
        Or(Or(Get(p, "description"), Get(p, "header_desc")), JStr("")),
        songs.value)))
  }

  /**
   * A falsy playlist normalises to null; otherwise `songs` is undefined
   * unless the source has an array, in which case it holds the normalised
   * songs with the null ones dropped, and the song count falls back from
   * `songCount` to `song_count` to 0.
   */
  lemma NormalizePlaylistRules(p: Json)
    ensures !Truthy(p) ==> NormalizePlaylist(p) == Returns(None)
    ensures Truthy(p) && NormalizePlaylist(p).Returns? ==>
      var n := NormalizePlaylist(p).value.value;
      (n.songs.Some? <==> Get(p, "songs").JArr?) &&
      (n.songs.Some? ==> (|n.songs.value| <= |Get(p, "songs").items| &&
        forall s :: s in n.songs.value <==>
          exists i :: 0 <= i < |Get(p, "songs").items| && NormalizeSong(Get(p, "songs").items[i]) == Returns(Some(s)))) &&
      (Truthy(Get(p, "songCount")) ==> n.songCount == Get(p, "songCount")) &&
      (!Truthy(Get(p, "songCount")) && Truthy(Get(p, "song_count")) ==> n.songCount == Get(p, "song_count")) &&
      (!Truthy(Get(p, "songCount")) && !Truthy(Get(p, "song_count")) ==> n.songCount == JNum(0))
  {
    if Truthy(p) && NormalizePlaylist(p).Returns? && Get(p, "songs").JArr? {
      var items := Get(p, "songs").items;
      var mapped := MapAll(items, NormalizeSong).value;
      forall s
        ensures Some(s) in mapped <==> exists i :: 0 <= i < |items| && NormalizeSong(items[i]) == Returns(Some(s))
      {
        if Some(s) in mapped {
          var i :| 0 <= i < |mapped| && mapped[i] == Some(s);
          assert NormalizeSong(items[i]) == Returns(Some(s));
        }
      }
    }
  }

  // ---- the upstream call -------------------------------------------------------------

  /** How the upstream request ended: it threw (network error, the timeout's abort), answered non-ok, or answered ok with a body (None when it is not JSON). */
  datatype FetchReply = FetchError | NotOk | Body(json: Option<Json>)

  /** `apiFetch`: the payload of a successful answer, or None (`null`); it never throws. */
  function ApiFetch(reply: FetchReply): Option<Json> {
    match reply
    case Body(Some(d)) =>
      if Nullish(d) then None
      else if Get(d, "status") == JStr("Success") || Truthy(Get(d, "success")) then Some(Or(Get(d, "data"), d))
      else None
    case _ => None
  }

  /**
   * A payload comes back exactly for an ok JSON object whose status is
   * "Success" or whose success field is truthy; it is its `data` field when
   * that is truthy, else the whole object, and is never falsy.
   */
  lemma ApiFetchRules(reply: FetchReply)
    ensures ApiFetch(reply).Some? <==>
      reply.Body? && reply.json.Some? && reply.json.value.JObj? &&
      (Get(reply.json.value, "status") == JStr("Success") || Truthy(Get(reply.json.value, "success")))
    ensures ApiFetch(reply).Some? ==> Truthy(ApiFetch(reply).value)
    ensures ApiFetch(reply).Some? && Truthy(Get(reply.json.value, "data")) ==> ApiFetch(reply).value == Get(reply.json.value, "data")
  {
  }

  /** The reply `apiFetch` sees when the upstream takes `elapsedMs`: from the timeout on, the abort makes the fetch throw. */
  function Arrive(elapsedMs: nat, reply: FetchReply): FetchReply {
    if elapsedMs >= TimeoutMs then FetchError else reply
  }

  /** An upstream slower than 12 seconds gives null; a faster one is taken as it answered. */
  lemma TimeoutRules(elapsedMs: nat, reply: FetchReply)
    ensures elapsedMs >= TimeoutMs ==> ApiFetch(Arrive(elapsedMs, reply)) == None
    ensures elapsedMs < TimeoutMs ==> ApiFetch(Arrive(elapsedMs, reply)) == ApiFetch(reply)
  {
  }

  // ---- route handlers -------------------------------------------------------------------

  datatype Request = Request(endpoint: string, params: seq<(string, string)>)

  datatype Response<+T> = BadRequest(error: string) | Unavailable | InternalError | Success(data: T)

  function StatusCode<T>(r: Response<T>): int {
    match r
    case BadRequest(_) => 400
    case Unavailable => 503
    case InternalError => 500
    case Success(_) => 200
  }

  /** The upstream request a handler made, if any, and its answer. */
  datatype Routed<+T> = Routed(request: Option<Request>, response: Response<T>)

  predicate Missing(q: Option<string>) {
    q.None? || q.value == ""
  }

  /** `GET /auth/google-mobile`: the page is built for the given returnUrl, which must not be empty. */
  function GoogleMobile(returnUrl: Option<string>): Response<string> {
    if Missing(returnUrl) then BadRequest("Missing returnUrl parameter") else Success(returnUrl.value)
  }

  /** The normalised songs of a list, null ones dropped; a missing list gives none. */
  function SongList(results: Json): Outcome<seq<NSong>> {
    if !results.JArr? then Returns([])
    else
      var mapped := MapAll(results.items, NormalizeSong);
      if mapped.Throws? then Throws else Returns(Somes(mapped.value))
  }

  function PlaylistList(results: Json): Outcome<seq<NPlaylist>> {
    if !results.JArr? then Returns([])
    else
      var mapped := MapAll(results.items, NormalizePlaylist);
      if mapped.Throws? then Throws else Returns(Somes(mapped.value))
  }

  /** The shared shape of the handlers: 400 before any request, 503 on no payload, 500 when normalising throws. */
  function Answer<T>(req: Request, reply: FetchReply, normalise: Json -> Outcome<T>): Routed<T> {
    var data := ApiFetch(reply);
    if data.None? then Routed(Some(req), Unavailable)
    else
      var out := normalise(data.value);
      if out.Throws? then Routed(Some(req), InternalError) else Routed(Some(req), Success(out.value))
  }

  /** `GET /api/jiosaavn/search/songs`. */
  function SearchSongs(query: Option<string>, limit: Option<string>, reply: FetchReply): Routed<seq<NSong>> {
    if Missing(query) then Routed(None, BadRequest("Query parameter is required"))
    else Answer(Request("/search/songs", [("q", query.value), ("limit", limit.GetOr("20"))]), reply, d => SongList(Get(d, "results")))
  }

  /** `GET /api/jiosaavn/search/playlists`. */
  function SearchPlaylists(query: Option<string>, limit: Option<string>, reply: FetchReply): Routed<seq<NPlaylist>> {
    if Missing(query) then Routed(None, BadRequest("Query parameter is required"))
    else Answer(Request("/search/playlists", [("q", query.value), ("limit", limit.GetOr("20"))]), reply, d => PlaylistList(Get(d, "results")))
  }

  /** `GET /api/jiosaavn/playlists`. */
  function GetPlaylist(id: Option<string>, reply: FetchReply): Routed<Option<NPlaylist>> {
    if Missing(id) then Routed(None, BadRequest("Playlist id parameter is required"))
    else Answer(Request("/playlist", [("id", id.value)]), reply, NormalizePlaylist)
  }

  /** A song payload is a list of songs or a single song. */
  function SongsPayload(d: Json): Outcome<seq<NSong>> {
    if d.JArr? then SongList(d)
    else
      var one := NormalizeSong(d);
      if one.Throws? then Throws else Returns(Somes([one.value]))
  }

  /** `GET /api/jiosaavn/songs`. */
  function GetSongs(id: Option<string>, reply: FetchReply): Routed<seq<NSong>> {
    if Missing(id) then Routed(None, BadRequest("Song id parameter is required"))
    else Answer(Request("/song", [("id", id.value)]), reply, SongsPayload)
  }

  /** `GET /api/jiosaavn/search/all`: the payload as it came. */
  function SearchAll(query: Option<string>, reply: FetchReply): Routed<Json> {
    if Missing(query) then Routed(None, BadRequest("Query parameter is required"))
    else Answer(Request("/search", [("q", query.value)]), reply, d => Returns(d))
  }

  /**
   * A missing or empty parameter is answered with 400 before any upstream
   * request; otherwise the request carries the parameter (and the limit,
   * 20 by default) and an upstream failure is answered with 503.
   */
  lemma RouteGuards(query: Option<string>, limit: Option<string>, reply: FetchReply)
    ensures Missing(query) ==>
      SearchSongs(query, limit, reply).request.None? && StatusCode(SearchSongs(query, limit, reply).response) == 400 &&
      SearchPlaylists(query, limit, reply).request.None? && StatusCode(SearchPlaylists(query, limit, reply).response) == 400 &&
      GetPlaylist(query, reply).request.None? && StatusCode(GetPlaylist(query, reply).response) == 400 &&
      GetSongs(query, reply).request.None? && StatusCode(GetSongs(query, reply).response) == 400 &&
      SearchAll(query, reply).request.None? && StatusCode(SearchAll(query, reply).response) == 400
    ensures !Missing(query) ==>
      SearchSongs(query, limit, reply).request == Some(Request("/search/songs", [("q", query.value), ("limit", limit.GetOr("20"))])) &&
      GetSongs(query, reply).request == Some(Request("/song", [("id", query.value)]))
    ensures !Missing(query) && ApiFetch(reply).None? ==>
      StatusCode(SearchSongs(query, limit, reply).response) == 503 &&
      StatusCode(SearchPlaylists(query, limit, reply).response) == 503 &&
      StatusCode(GetPlaylist(query, reply).response) == 503 &&
      StatusCode(GetSongs(query, reply).response) == 503 &&
      StatusCode(SearchAll(query, reply).response) == 503
    ensures !Missing(query) && ApiFetch(reply).Some? ==>
      SearchAll(query, reply).response == Success(ApiFetch(reply).value)
  {
  }

  /** A single-song payload that normalises gives exactly that song; a playlist payload is never answered with null. */
  lemma PayloadShapes(id: Option<string>, reply: FetchReply)
    ensures (!Missing(id) && ApiFetch(reply).Some? && !ApiFetch(reply).value.JArr? &&
      NormalizeSong(ApiFetch(reply).value).Returns?) ==>
      GetSongs(id, reply).response == Success([NormalizeSong(ApiFetch(reply).value).value.value])
    ensures GetPlaylist(id, reply).response.Success? ==> GetPlaylist(id, reply).response.data.Some?
  {
    ApiFetchRules(reply);
    if !Missing(id) && ApiFetch(reply).Some? && !ApiFetch(reply).value.JArr? && NormalizeSong(ApiFetch(reply).value).Returns? {
      var one := NormalizeSong(ApiFetch(reply).value).value;
      assert [one][1..] == [];
      assert Somes([one]) == [one.value];
    }
  }
}
