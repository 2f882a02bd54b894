// hooks/useAndroidAuto.ts: the bridge to the Android Auto media browser. A
// module-level cache of songs lets a car's "play this item" request find the
// song again; the request is answered by loading every playable cached song
// into the native player and starting at the requested one. The native
// player and the media-browser module are logs of the calls they receive;
// whether the app runs on Android and whether the player library loaded are
// fixed at construction.

module AndroidAuto {
  import opened Text
  import opened Js
  import opened Lists

  /**
   * A song or catalog entry as the bridge reads it: every field it looks
   * at, each a string or absent, except the numeric ones.
   */
  datatype Item = Item(
    id: Option<string>,
    altId: Option<string>,
    title: Option<string>,
    name: Option<string>,
    artist: Option<string>,
    artistName: Option<string>,
    album: Option<string>,
    albumName: Option<string>,
    audioUrl: Option<string>,
    url: Option<string>,
    uri: Option<string>,
    coverUrl: Option<string>,
    artwork: Option<string>,
    artworkUrl: Option<string>,
    duration: Num,
    subtitle: Option<string>,
    description: Option<string>,
    songCount: Num)

  /** `a || b` where `a` is a string or undefined. */
  function OrText(a: Option<string>, b: string): (r: string)
    ensures a.Some? && a.value != "" ==> r == a.value
    ensures !(a.Some? && a.value != "") ==> r == b
  {
    if a.Some? && a.value != "" then a.value else b
  }

  function TrimOpt(a: Option<string>): Option<string> {
    if a.Some? then Some(Trim(a.value)) else None
  }

  // ---- tracks and the player queue ---------------------------------------------------

  datatype Track = Track(id: Option<string>, url: string, title: Option<string>, artist: Option<string>, artwork: string, duration: int)

  /** `songToTrack(song)`. */
  function SongToTrack(s: Item): Track {
    Track(
      s.id,
      OrText(TrimOpt(s.audioUrl), OrText(TrimOpt(s.url), "")),
      s.title,
      s.artist,
      OrText(s.coverUrl, OrText(s.artwork, OrText(s.artworkUrl, ""))),
      OrZero(s.duration))
  }

  /** The filter of `playFromMediaId`: `(s.audioUrl || s.url)` is present and not blank. */
  predicate Playable(s: Item) {
    Trim(OrText(s.audioUrl, OrText(s.url, ""))) != ""
  }

  /** A playable song becomes a track with a url. */
  lemma PlayableHasUrl(s: Item)
    requires Playable(s)
    ensures SongToTrack(s).url != ""
  {
    if s.audioUrl.Some? && s.audioUrl.value != "" {
      assert Trim(s.audioUrl.value) != "";
    } else {
      assert OrText(s.audioUrl, OrText(s.url, "")) == OrText(s.url, "");
      if s.audioUrl.Some? {
        TrimEmptyIffBlank(s.audioUrl.value);
        assert Trim("") == "";
      }
    }
  }

  function HasId(id: string): Item -> bool {
    (s: Item) => s.id == Some(id)
  }

  datatype Cmd = Reset | Add(tracks: seq<Track>) | Skip(index: int) | Play | Pause | SkipToNext | SkipToPrevious | Stop | SeekTo(position: int)

  /** The songs `playFromMediaId` loads: the playable cached songs, in cache order. */
  function ValidSongs(cache: seq<Item>): seq<Item> {
    Filter(cache, Playable)
  }

  /** The tracks loaded into the player. */
  function Tracks(valid: seq<Item>): (r: seq<Track>)
    ensures |r| == |valid| && forall i :: 0 <= i < |valid| ==> r[i] == SongToTrack(valid[i])
  {
    seq(|valid|, i requires 0 <= i < |valid| => SongToTrack(valid[i]))
  }

  /** `targetIdx >= 0 ? targetIdx : 0`. */
  function StartIndex(valid: seq<Item>, mediaId: string): int {
    var targetIdx := FindIndex(valid, HasId(mediaId));
    if targetIdx >= 0 then targetIdx else 0
  }

  /** The calls `playFromMediaId` makes when none of them fails: none for an unknown id. */
  function PlayFromMediaIdCommands(cache: seq<Item>, mediaId: string): seq<Cmd> {
    if FindIndex(cache, HasId(mediaId)) == -1 then []
    else
      var valid := ValidSongs(cache);
      [Reset, Add(Tracks(valid)), Skip(StartIndex(valid, mediaId)), Play]
  }

  /** An id not in the cache issues nothing; a cached one resets, loads, skips and plays, in that order. */
  lemma PlayFromMediaIdShape(cache: seq<Item>, mediaId: string)
    ensures (forall k :: 0 <= k < |cache| ==> cache[k].id != Some(mediaId)) ==> PlayFromMediaIdCommands(cache, mediaId) == []
    ensures (exists k :: 0 <= k < |cache| && cache[k].id == Some(mediaId)) ==>
      PlayFromMediaIdCommands(cache, mediaId) ==
        [Reset, Add(Tracks(ValidSongs(cache))), Skip(StartIndex(ValidSongs(cache), mediaId)), Play]
  {
    if exists k :: 0 <= k < |cache| && cache[k].id == Some(mediaId) {
      var k :| 0 <= k < |cache| && cache[k].id == Some(mediaId);
      assert HasId(mediaId)(cache[k]);
    }
  }

  /** The queue holds exactly the playable cached songs, each as a track with a url. */
  lemma TracksArePlayable(cache: seq<Item>)
    ensures forall s :: s in ValidSongs(cache) <==> s in cache && Playable(s)
    ensures |Tracks(ValidSongs(cache))| == |ValidSongs(cache)|
    ensures forall i :: 0 <= i < |ValidSongs(cache)| ==>
      Tracks(ValidSongs(cache))[i].url != "" && Tracks(ValidSongs(cache))[i].id == ValidSongs(cache)[i].id
  {
    var valid := ValidSongs(cache);
    forall i | 0 <= i < |valid|
      ensures Tracks(valid)[i].url != ""
    {
      assert valid[i] in valid;
      PlayableHasUrl(valid[i]);
    }
  }

  /**
   * The player starts at the first queued song with the requested id, or at
   * the first track when that song is not playable.
   */
  lemma StartIndexRules(valid: seq<Item>, mediaId: string)
    ensures 0 <= StartIndex(valid, mediaId) && (|valid| > 0 ==> StartIndex(valid, mediaId) < |valid|)
    ensures (exists k :: 0 <= k < |valid| && valid[k].id == Some(mediaId)) ==>
      (valid[StartIndex(valid, mediaId)].id == Some(mediaId) &&
      forall j :: 0 <= j < StartIndex(valid, mediaId) ==> valid[j].id != Some(mediaId))
    ensures (forall k :: 0 <= k < |valid| ==> valid[k].id != Some(mediaId)) ==> StartIndex(valid, mediaId) == 0
  {
    if exists k :: 0 <= k < |valid| && valid[k].id == Some(mediaId) {
      var k :| 0 <= k < |valid| && valid[k].id == Some(mediaId);
      assert HasId(mediaId)(valid[k]);
    }
  }

  /** The playback commands the car can send, each mapped to one player call; anything else is ignored. */
  function CommandFor(command: string): Option<Cmd> {
    if command == "play" then Some(Play)
    else if command == "pause" then Some(Pause)
    else if command == "next" then Some(SkipToNext)
    else if command == "previous" then Some(SkipToPrevious)
    else if command == "stop" then Some(Stop)
    else None
  }

  lemma CommandForRules(a: string, b: string)
    ensures CommandFor(a).Some? <==> a in {"play", "pause", "next", "previous", "stop"}
    ensures CommandFor(a).Some? && CommandFor(a) == CommandFor(b) ==> a == b
  {
  }

  // ---- what the media browser is given -----------------------------------------------

  datatype BrowseSong = BrowseSong(id: string, title: string, artist: string, album: string, url: string, artwork: string, duration: int)
  datatype BrowsePlaylist = BrowsePlaylist(id: string, title: string, subtitle: string)
  datatype BrowseAlbum = BrowseAlbum(id: string, title: string, artist: string)

  datatype Update =
    | TrendingSongs(songs: seq<BrowseSong>)
    | Playlists(playlists: seq<BrowsePlaylist>)
    | Albums(albums: seq<BrowseAlbum>)
    | PlaylistSongs(playlistId: string, songs: seq<BrowseSong>)

  function BrowseId(item: Item): string {
    OrText(item.id, OrText(item.altId, ""))
  }

  function BrowseTitle(item: Item): string {
    OrText(item.title, OrText(item.name, ""))
  }

  function ToBrowseSong(item: Item): BrowseSong {
    BrowseSong(
      BrowseId(item),
      BrowseTitle(item),
      OrText(item.artist, OrText(item.artistName, "")),
      OrText(item.album, OrText(item.albumName, "")),
      OrText(item.audioUrl, OrText(item.url, OrText(item.uri, ""))),
      OrText(item.coverUrl, OrText(item.artwork, OrText(item.artworkUrl, ""))),
      OrZero(item.duration))
  }

  /** The subtitle falls back to the description, then to "<songCount or 0> songs". */
  function ToBrowsePlaylist(item: Item): BrowsePlaylist {
    BrowsePlaylist(BrowseId(item), BrowseTitle(item),
      OrText(item.subtitle, OrText(item.description, IntToString(OrZero(item.songCount)) + " songs")))
  }

  function ToBrowseAlbum(item: Item): BrowseAlbum {
    BrowseAlbum(BrowseId(item), BrowseTitle(item), OrText(item.artist, OrText(item.artistName, "")))
  }

  function BrowseSongs(items: seq<Item>): (r: seq<BrowseSong>)
    ensures |r| == |items| && forall i :: 0 <= i < |items| ==> r[i] == ToBrowseSong(items[i])
  {
    seq(|items|, i requires 0 <= i < |items| => ToBrowseSong(items[i]))
  }

  /** `a || ""` (or a longer chain ending in "") gives "" only when no alternative is a non-empty text. */
  predicate NoText(a: Option<string>) {
    a.None? || a.value == ""
  }

  /**
   * The browser gets one entry per song, in order. Each field takes the
   * first non-empty alternative of its chain, so it is empty exactly when
   * all of them are: the id (id, _id), the title (title, name), the artist
   * (artist, artistName), the album (album, albumName), the url (audioUrl,
   * url, uri) and the artwork (coverUrl, artwork, artworkUrl); a missing
   * duration is 0.
   */
  lemma BrowseSongRules(items: seq<Item>)
    ensures |BrowseSongs(items)| == |items|
    ensures forall i :: 0 <= i < |items| ==> var e := BrowseSongs(items)[i]; var it := items[i];
      (!NoText(it.id) ==> e.id == it.id.value) &&
      (e.id == "" <==> NoText(it.id) && NoText(it.altId)) &&
      (e.title == "" <==> NoText(it.title) && NoText(it.name)) &&
      (e.artist == "" <==> NoText(it.artist) && NoText(it.artistName)) &&
      (e.album == "" <==> NoText(it.album) && NoText(it.albumName)) &&
      (e.url == "" <==> NoText(it.audioUrl) && NoText(it.url) && NoText(it.uri)) &&
      (!NoText(it.audioUrl) ==> e.url == it.audioUrl.value) &&
      (e.artwork == "" <==> NoText(it.coverUrl) && NoText(it.artwork) && NoText(it.artworkUrl)) &&
      (!it.duration.Int? ==> e.duration == 0)
  {
  }

  function CachedIds(cache: seq<Item>): set<Option<string>> {
    set s | s in cache :: s.id
  }

  /** The cache after `syncPlaylistSongs`: the songs whose id was not cached before are appended. */
  function AfterSyncPlaylist(cache: seq<Item>, songs: seq<Item>): seq<Item> {
    cache + Filter(songs, (s: Item) => s.id !in CachedIds(cache))
  }

  /**
   * Syncing a playlist keeps the cached songs first and in order, adds
   * exactly the songs with an id not cached before, and a second sync of
   * the same songs adds nothing.
   */
  lemma SyncPlaylistRules(cache: seq<Item>, songs: seq<Item>)
    ensures AfterSyncPlaylist(cache, songs)[..|cache|] == cache
    ensures forall s :: s in AfterSyncPlaylist(cache, songs) <==> s in cache || (s in songs && s.id !in CachedIds(cache))
    ensures AfterSyncPlaylist(AfterSyncPlaylist(cache, songs), songs) == AfterSyncPlaylist(cache, songs)
  {
    var after := AfterSyncPlaylist(cache, songs);
    var p := (s: Item) => s.id !in CachedIds(after);
    forall s | s in songs
      ensures !p(s)
    {
      if s.id !in CachedIds(cache) {
        assert s in after;
      } else {
        var t :| t in cache && t.id == s.id;
        assert t in after;
      }
    }
    FilterNone(songs, p);
  }

  /** Filtering with a predicate that holds nowhere gives the empty list. */
  lemma {:induction false} FilterNone(s: seq<Item>, p: Item -> bool)
    requires forall x :: x in s ==> !p(x)
    ensures Filter(s, p) == []
    decreases |s|
  {
    if |s| > 0 {
      assert s[0] in s;
      FilterNone(s[1..], p);
    }
  }

  // ---- the bridge ---------------------------------------------------------------------

  class Bridge {
    const isAndroid: bool
    /** Whether `react-native-track-player` could be loaded. */
    const hasPlayer: bool
    /** `songCacheRef.current`. */
    var cache: seq<Item>
    /** Calls received by the native player, in order. */
    var commands: seq<Cmd>
    /** Calls received by the media-browser module, in order. */
    var updates: seq<Update>

    constructor(isAndroid: bool, hasPlayer: bool)
      ensures this.isAndroid == isAndroid && this.hasPlayer == hasPlayer
      ensures cache == [] && commands == [] && updates == []
    {
      this.isAndroid := isAndroid;
      this.hasPlayer := hasPlayer;
      cache := [];
      commands := [];
      updates := [];
    }

    /** The playback-command listener. */
    method OnPlaybackCommand(command: string)
      modifies this
      ensures commands == old(commands) + (if hasPlayer && CommandFor(command).Some? then [CommandFor(command).value] else [])
      ensures cache == old(cache) && updates == old(updates)
    {
      if !hasPlayer {
        return;
      }
      var c := CommandFor(command);
      if c.Some? {
        commands := commands + [c.value];
      }
    }

    /**
     * The play-from-media-id listener. `failing` is the position of the
     * player call that throws, if one does: the calls after it are not made
     * and the error is swallowed.
     */
    method OnPlayFromMediaId(mediaId: string, failing: Option<nat>)
      modifies this
      ensures var all := PlayFromMediaIdCommands(old(cache), mediaId);
        commands == old(commands) + (if !hasPlayer then [] else if failing.Some? && failing.value < |all| then all[..failing.value + 1] else all)
      ensures cache == old(cache) && updates == old(updates)
    {
      if !hasPlayer {
        return;
      }
      var songs := cache;
      var idx := FindIndex(songs, HasId(mediaId));
      if idx == -1 {
        return;
      }
      var validSongs := Filter(songs, Playable);
      var targetIdx := FindIndex(validSongs, HasId(mediaId));
      var calls := [Reset, Add(seq(|validSongs|, i requires 0 <= i < |validSongs| => SongToTrack(validSongs[i]))),
        Skip(if targetIdx >= 0 then targetIdx else 0), Play];
      assert calls == PlayFromMediaIdCommands(songs, mediaId);
      Issue(calls, failing);
    }

    /** Sends `calls` to the player one by one; the call at index `failing` throws and ends the run. */
    method Issue(calls: seq<Cmd>, failing: Option<nat>)
      modifies this
      ensures commands == old(commands) + (if failing.Some? && failing.value < |calls| then calls[..failing.value + 1] else calls)
      ensures cache == old(cache) && updates == old(updates)
    {
      var n := 0;
      while n < |calls|
        invariant 0 <= n <= |calls|
        invariant commands == old(commands) + calls[..n]
        invariant failing.Some? ==> n <= failing.value
        invariant cache == old(cache) && updates == old(updates)
      {
        commands := commands + [calls[n]];
        n := n + 1;
        assert calls[..n] == calls[..n - 1] + [calls[n - 1]];
        if failing == Some(n - 1) {
          return;
        }
      }
      assert calls[..n] == calls;
    }

    /** The seek listener. */
    method OnSeekTo(position: int)
      modifies this
      ensures commands == old(commands) + (if hasPlayer then [SeekTo(position)] else [])
      ensures cache == old(cache) && updates == old(updates)
    {
      if hasPlayer {
        commands := commands + [SeekTo(position)];
      }
    }

    /**
     * `syncMusicData(data)`: on Android, a non-empty trending list replaces
     * the cache and is published; non-empty playlist and album lists are
     * published. Absent lists are None.
     */
    method SyncMusicData(trending: Option<seq<Item>>, playlists: Option<seq<Item>>, albums: Option<seq<Item>>)
      modifies this
      ensures cache == (if isAndroid && trending.Some? && |trending.value| > 0 then trending.value else old(cache))
      ensures !isAndroid ==> updates == old(updates)
      ensures isAndroid ==> (updates == old(updates)
        + (if trending.Some? && |trending.value| > 0 then [TrendingSongs(BrowseSongs(trending.value))] else [])
        + (if playlists.Some? && |playlists.value| > 0
           then [Playlists(seq(|playlists.value|, i requires 0 <= i < |playlists.value| => ToBrowsePlaylist(playlists.value[i])))] else [])
        + (if albums.Some? && |albums.value| > 0
           then [Albums(seq(|albums.value|, i requires 0 <= i < |albums.value| => ToBrowseAlbum(albums.value[i])))] else []))
      ensures commands == old(commands)
    {
      if !isAndroid {
        return;
      }
      if trending.Some? && |trending.value| > 0 {
        cache := trending.value;
        updates := updates + [TrendingSongs(BrowseSongs(trending.value))];
      }
      if playlists.Some? && |playlists.value| > 0 {
        var ps := playlists.value;
        updates := updates + [Playlists(seq(|ps|, i requires 0 <= i < |ps| => ToBrowsePlaylist(ps[i])))];
      }
      if albums.Some? && |albums.value| > 0 {
        var al := albums.value;
        updates := updates + [Albums(seq(|al|, i requires 0 <= i < |al| => ToBrowseAlbum(al[i])))];
      }
    }

    /** `syncPlaylistSongs(playlistId, songs)`. */
    method SyncPlaylistSongs(playlistId: string, songs: seq<Item>)
      modifies this
      ensures cache == (if isAndroid then AfterSyncPlaylist(old(cache), songs) else old(cache))
      ensures updates == old(updates) + (if isAndroid then [PlaylistSongs(playlistId, BrowseSongs(songs))] else [])
      ensures commands == old(commands)
    {
      if !isAndroid {
        return;
      }
      var existingIds := set s | s in cache :: s.id;
      var newSongs := Filter(songs, (s: Item) => s.id !in existingIds);
      cache := cache + newSongs;
      updates := updates + [PlaylistSongs(playlistId, BrowseSongs(songs))];
    }
  }
}
