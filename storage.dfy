// lib/storage.ts: the device-local library kept in AsyncStorage under five
// keys (liked ids, liked song records, user playlists, recently played,
// settings). Each key is a slot holding a decoded JSON document; the
// operations read a slot with a fallback, change the list, and write it back.

module Storage {
  import opened Text
  import opened Lists
  import opened MusicData

  // ---- getJSON / setJSON ---------------------------------------------------------

  /**
   * What reading one key yields: nothing stored (or the empty string),
   * a read or parse failure, or a decoded document.
   */
  datatype Slot<T> = Absent | Unreadable | Present(value: T)

  /** `getJSON(key, fallback)`: the stored document, or the fallback when the key is missing or unreadable. */
  function GetJSON<T>(slot: Slot<T>, fallback: T): T {
    if slot.Present? then slot.value else fallback
  }

  /** `setJSON(key, value)`: a failed write is swallowed and leaves the key as it was. */
  function SetJSON<T>(slot: Slot<T>, value: T, writeOk: bool): Slot<T> {
    if writeOk then Present(value) else slot
  }

  /** A successful write reads back as the written value; a failed one changes nothing. */
  lemma GetAfterSet<T>(slot: Slot<T>, value: T, fallback: T)
    ensures GetJSON(SetJSON(slot, value, true), fallback) == value
    ensures GetJSON(SetJSON(slot, value, false), fallback) == GetJSON(slot, fallback)
  {
  }

  // ---- records -------------------------------------------------------------------

  datatype RecentKind = PlaylistKind | JioSaavnPlaylistKind | SongKind

  /** The `data` payload of a recently-played entry. */
  datatype RecentData = NoData | SongData(song: Song) | PlaylistData(playlist: Playlist)

  datatype RecentItem = RecentItem(
    id: string, name: string, imageUrl: string, kind: RecentKind, lastPlayed: int, data: RecentData)

  /** The argument of `addRecentlyPlayed`: an entry without its time stamp. */
  datatype NewRecent = NewRecent(id: string, name: string, imageUrl: string, kind: RecentKind, data: RecentData)

  datatype UserPlaylist = UserPlaylist(
    id: string, name: string, description: string, coverUrl: string,
    songs: seq<Song>, createdAt: int, updatedAt: int)

  datatype Quality = Low | Medium | High

  datatype Settings = Settings(
    streamingQuality: Quality,
    downloadQuality: Quality,
    equalizer: map<string, int>,
    equalizerEnabled: bool,
    crossfade: int,
    gapless: bool,
    normalizeVolume: bool)

  /** `Partial<AppSettings>`: `None` is a field that was not given. */
  datatype SettingsPatch = SettingsPatch(
    streamingQuality: Option<Quality>,
    downloadQuality: Option<Quality>,
    equalizer: Option<map<string, int>>,
    equalizerEnabled: Option<bool>,
    crossfade: Option<int>,
    gapless: Option<bool>,
    normalizeVolume: Option<bool>)

  const DefaultSettings: Settings := Settings(
    High, High,
    map["60Hz" := 0, "150Hz" := 0, "400Hz" := 0, "1KHz" := 0, "2.4KHz" := 0, "15KHz" := 0],
    false, 0, true, false)

  // ---- liked songs -----------------------------------------------------------------

  function WithoutId(ids: seq<string>, id: string): seq<string> {
    Filter(ids, (x: string) => x != id)
  }

  function WithoutSong(songs: seq<Song>, id: string): seq<Song> {
    Filter(songs, (s: Song) => s.id != id)
  }

  /**
   * `removeLikedSong` leaves no entry with the id in either list; every other
   * entry stays as often as it was there, and in its order: removing from a
   * list is removing from each of its two parts, wherever it is cut.
   */
  lemma RemoveLikedRemovesAll(ids: seq<string>, songs: seq<Song>, id: string)
    ensures id !in WithoutId(ids, id)
    ensures multiset(WithoutId(ids, id)) == multiset(ids)[id := 0]
    ensures forall s :: multiset(WithoutSong(songs, id))[s] == if s.id == id then 0 else multiset(songs)[s]
    ensures forall k :: 0 <= k <= |ids| ==> WithoutId(ids, id) == WithoutId(ids[..k], id) + WithoutId(ids[k..], id)
    ensures forall k :: 0 <= k <= |songs| ==> WithoutSong(songs, id) == WithoutSong(songs[..k], id) + WithoutSong(songs[k..], id)
  {
    var keepId := (x: string) => x != id;
    var keepSong := (s: Song) => s.id != id;
    FilterCounts(ids, keepId);
    FilterCounts(songs, keepSong);
    FilterSplits(ids, keepId);
    FilterSplits(songs, keepSong);
  }

  /** Liking a song that was not liked and then unliking it restores both lists. */
  lemma {:induction false} LikeThenUnlike(ids: seq<string>, songs: seq<Song>, song: Song)
    requires song.id !in ids
    requires forall s :: s in songs ==> s.id != song.id
    ensures WithoutId([song.id] + ids, song.id) == ids
    ensures WithoutSong([song] + songs, song.id) == songs
  {
    assert ([song.id] + ids)[1..] == ids;
    assert ([song] + songs)[1..] == songs;
    FilterAll(ids, (x: string) => x != song.id);
    FilterAll(songs, (s: Song) => s.id != song.id);
  }

  // ---- user playlists ----------------------------------------------------------------

  /** The id `createUserPlaylist` builds from the clock and a random suffix. */
  function PlaylistId(now: int, suffix: string): (id: string)
    ensures IsPrefix("user_", id)
  {
    "user_" + IntToString(now) + "_" + suffix
  }

  function WithoutPlaylist(pls: seq<UserPlaylist>, id: string): seq<UserPlaylist> {
    Filter(pls, (p: UserPlaylist) => p.id != id)
  }

  /** `deleteUserPlaylist` removes exactly the playlists with that id. */
  lemma DeletePlaylistRemovesExactly(pls: seq<UserPlaylist>, id: string)
    ensures forall p :: p in WithoutPlaylist(pls, id) <==> p in pls && p.id != id
  {
  }

  /** Creating a playlist under a fresh id and deleting it again restores the list. */
  lemma {:induction false} CreateThenDelete(pls: seq<UserPlaylist>, p: UserPlaylist)
    requires forall q :: q in pls ==> q.id != p.id
    ensures WithoutPlaylist([p] + pls, p.id) == pls
  {
    assert ([p] + pls)[1..] == pls;
    FilterAll(pls, (q: UserPlaylist) => q.id != p.id);
  }

  function PlaylistIndex(pls: seq<UserPlaylist>, id: string): (i: int)
    ensures -1 <= i < |pls|
    ensures i >= 0 ==> pls[i].id == id && forall j :: 0 <= j < i ==> pls[j].id != id
    ensures i == -1 <==> forall j :: 0 <= j < |pls| ==> pls[j].id != id
  {
    FindIndex(pls, (p: UserPlaylist) => p.id == id)
  }

  predicate HasSong(songs: seq<Song>, id: string) {
    exists k :: 0 <= k < |songs| && songs[k].id == id
  }

  /**
   * The playlists `addSongToPlaylist` writes, or None when it returns
   * without writing (unknown playlist, or the song is already in it).
   */
  function AddSong(pls: seq<UserPlaylist>, pid: string, song: Song, now: int): Option<seq<UserPlaylist>> {
    var idx := PlaylistIndex(pls, pid);
    if idx == -1 then None
    else if HasSong(pls[idx].songs, song.id) then None
    else
      var p := pls[idx];
      var cover := if p.coverUrl == "" && song.coverUrl != "" then song.coverUrl else p.coverUrl;
      Some(pls[idx := p.(songs := p.songs + [song], updatedAt := now, coverUrl := cover)])
  }

  /** What `addSongToPlaylist` does to the first playlist with that id, and that it touches nothing else. */
  lemma AddSongEffect(pls: seq<UserPlaylist>, pid: string, song: Song, now: int)
    ensures AddSong(pls, pid, song, now).None? <==>
      PlaylistIndex(pls, pid) == -1 || HasSong(pls[PlaylistIndex(pls, pid)].songs, song.id)
    ensures AddSong(pls, pid, song, now).Some? ==>
      var r := AddSong(pls, pid, song, now).value;
      var i := PlaylistIndex(pls, pid);
      |r| == |pls| &&
      (forall j :: 0 <= j < |pls| && j != i ==> r[j] == pls[j]) &&
      r[i].id == pid && r[i].name == pls[i].name && r[i].description == pls[i].description &&
      r[i].songs == pls[i].songs + [song] &&
      r[i].createdAt == pls[i].createdAt && r[i].updatedAt == now &&
      (r[i].coverUrl == if pls[i].coverUrl == "" && song.coverUrl != "" then song.coverUrl else pls[i].coverUrl)
  {
  }

  /** Adding the same song to the same playlist a second time writes nothing. */
  lemma AddSongTwice(pls: seq<UserPlaylist>, pid: string, song: Song, now: int, later: int)
    requires AddSong(pls, pid, song, now).Some?
    ensures AddSong(AddSong(pls, pid, song, now).value, pid, song, later).None?
  {
    var i := PlaylistIndex(pls, pid);
    var r := AddSong(pls, pid, song, now).value;
    assert forall j :: 0 <= j < |r| ==> r[j].id == pls[j].id;
    assert PlaylistIndex(r, pid) == i;
    assert r[i].songs[|r[i].songs| - 1] == song;
  }

  /** The playlists `removeSongFromPlaylist` writes, or None for an unknown playlist. */
  function RemoveSong(pls: seq<UserPlaylist>, pid: string, songId: string, now: int): Option<seq<UserPlaylist>> {
    var idx := PlaylistIndex(pls, pid);
    if idx == -1 then None
    else Some(pls[idx := pls[idx].(songs := WithoutSong(pls[idx].songs, songId), updatedAt := now)])
  }

  /**
   * Filtering an id out of a song list drops exactly the songs with that id
   * and keeps every other song as often as it was there, in its order: the
   * removal from a list is the removal from each of its parts, wherever it is cut.
   */
  lemma WithoutSongRules(songs: seq<Song>, id: string)
    ensures forall s :: s in WithoutSong(songs, id) <==> s in songs && s.id != id
    ensures forall s :: multiset(WithoutSong(songs, id))[s] == if s.id == id then 0 else multiset(songs)[s]
    ensures forall k :: 0 <= k <= |songs| ==> WithoutSong(songs, id) == WithoutSong(songs[..k], id) + WithoutSong(songs[k..], id)
  {
    var keep := (s: Song) => s.id != id;
    FilterCounts(songs, keep);
    FilterSplits(songs, keep);
  }

  /**
   * `removeSongFromPlaylist` filters the id out of that one playlist's songs,
   * keeping the other songs with their multiplicity and order, stamps it, and
   * keeps its other fields and every other playlist.
   */
  lemma RemoveSongEffect(pls: seq<UserPlaylist>, pid: string, songId: string, now: int)
    ensures RemoveSong(pls, pid, songId, now).None? <==> PlaylistIndex(pls, pid) == -1
    ensures RemoveSong(pls, pid, songId, now).Some? ==>
      var r := RemoveSong(pls, pid, songId, now).value;
      var i := PlaylistIndex(pls, pid);
      |r| == |pls| &&
      (forall j :: 0 <= j < |pls| && j != i ==> r[j] == pls[j]) &&
      r[i].id == pid && r[i].name == pls[i].name && r[i].description == pls[i].description &&
      r[i].coverUrl == pls[i].coverUrl && r[i].createdAt == pls[i].createdAt && r[i].updatedAt == now &&
      r[i].songs == WithoutSong(pls[i].songs, songId) &&
      (forall s :: s in r[i].songs <==> s in pls[i].songs && s.id != songId) &&
      (forall s :: multiset(r[i].songs)[s] == if s.id == songId then 0 else multiset(pls[i].songs)[s])
  {
    var i := PlaylistIndex(pls, pid);
    if i != -1 {
      WithoutSongRules(pls[i].songs, songId);
    }
  }

  // ---- recently played -----------------------------------------------------------------

  const RecentLimit: nat := 30

  function Stamp(item: NewRecent, now: int): RecentItem {
    RecentItem(item.id, item.name, item.imageUrl, item.kind, now, item.data)
  }

  function WithoutRecent(items: seq<RecentItem>, id: string): seq<RecentItem> {
    Filter(items, (i: RecentItem) => i.id != id)
  }

  /** The list `addRecentlyPlayed` writes. */
  function AddRecent(items: seq<RecentItem>, item: NewRecent, now: int): seq<RecentItem> {
    SliceTo([Stamp(item, now)] + WithoutRecent(items, item.id), RecentLimit)
  }

  predicate UniqueIds(items: seq<RecentItem>) {
    forall i, j :: 0 <= i < j < |items| ==> items[i].id != items[j].id
  }

  lemma {:induction false} WithoutRecentKeepsUnique(items: seq<RecentItem>, id: string)
    requires UniqueIds(items)
    ensures UniqueIds(WithoutRecent(items, id))
    decreases |items|
  {
    if |items| > 0 {
      var p := (i: RecentItem) => i.id != id;
      var rest := WithoutRecent(items[1..], id);
      WithoutRecentKeepsUnique(items[1..], id);
      if p(items[0]) {
        assert WithoutRecent(items, id) == [items[0]] + rest;
        forall k | 0 <= k < |rest|
          ensures rest[k].id != items[0].id
        {
          assert rest[k] in items[1..];
        }
      }
    }
  }

  /**
   * `addRecentlyPlayed` puts the stamped item first, drops every earlier
   * entry with its id, keeps the other entries in their order, caps the list
   * at 30, and keeps ids unique.
   */
  lemma AddRecentShape(items: seq<RecentItem>, item: NewRecent, now: int)
    ensures var r := AddRecent(items, item, now);
      1 <= |r| <= RecentLimit &&
      r[0] == Stamp(item, now) &&
      (forall k :: 1 <= k < |r| ==> r[k].id != item.id) &&
      IsPrefixOf(r[1..], WithoutRecent(items, item.id))
    ensures UniqueIds(items) ==> UniqueIds(AddRecent(items, item, now))
  {
    var rest := WithoutRecent(items, item.id);
    var all := [Stamp(item, now)] + rest;
    var r := AddRecent(items, item, now);
    var n := JsIndex(|all|, RecentLimit);
    assert 1 <= n <= RecentLimit;
    assert r == all[..n];
    assert r[0] == Stamp(item, now);
    assert r[1..] == rest[..n - 1];
    forall k | 1 <= k < |r|
      ensures r[k].id != item.id
    {
      assert r[k] == rest[k - 1];
      assert rest[k - 1] in rest;
    }
    if UniqueIds(items) {
      WithoutRecentKeepsUnique(items, item.id);
      forall i, j | 0 <= i < j < |r|
        ensures r[i].id != r[j].id
      {
        if i > 0 {
          assert r[i] == rest[i - 1] && r[j] == rest[j - 1];
        }
      }
    }
  }

  predicate IsPrefixOf<T(==)>(p: seq<T>, s: seq<T>) {
    |p| <= |s| && s[..|p|] == p
  }

  // ---- settings ------------------------------------------------------------------------

  /** `{ ...current, ...patch }`. */
  function Merge(s: Settings, p: SettingsPatch): Settings {
    Settings(
      p.streamingQuality.GetOr(s.streamingQuality),
      p.downloadQuality.GetOr(s.downloadQuality),
      p.equalizer.GetOr(s.equalizer),
      p.equalizerEnabled.GetOr(s.equalizerEnabled),
      p.crossfade.GetOr(s.crossfade),
      p.gapless.GetOr(s.gapless),
      p.normalizeVolume.GetOr(s.normalizeVolume))
  }

  const NoChange: SettingsPatch := SettingsPatch(None, None, None, None, None, None, None)

  /** Fields given in the patch take its value; the others keep theirs; a second save of the same patch changes nothing. */
  lemma MergeOverlays(s: Settings, p: SettingsPatch)
    ensures Merge(s, p).streamingQuality == if p.streamingQuality.Some? then p.streamingQuality.value else s.streamingQuality
    ensures Merge(s, p).downloadQuality == if p.downloadQuality.Some? then p.downloadQuality.value else s.downloadQuality
    ensures Merge(s, p).equalizer == if p.equalizer.Some? then p.equalizer.value else s.equalizer
    ensures Merge(s, p).equalizerEnabled == if p.equalizerEnabled.Some? then p.equalizerEnabled.value else s.equalizerEnabled
    ensures Merge(s, p).crossfade == if p.crossfade.Some? then p.crossfade.value else s.crossfade
    ensures Merge(s, p).gapless == if p.gapless.Some? then p.gapless.value else s.gapless
    ensures Merge(s, p).normalizeVolume == if p.normalizeVolume.Some? then p.normalizeVolume.value else s.normalizeVolume
    ensures Merge(s, NoChange) == s
    ensures Merge(Merge(s, p), p) == Merge(s, p)
  {
  }

  // ---- the stored library --------------------------------------------------------------

  /** The five stored keys at one moment. */
  datatype Library = Library(
    likedIds: Slot<seq<string>>,
    likedData: Slot<seq<Song>>,
    playlists: Slot<seq<UserPlaylist>>,
    recent: Slot<seq<RecentItem>>,
    settings: Slot<Settings>)

  /** The recently-played entry the player records for a song it starts loading. */
  function SongEntry(song: Song): NewRecent {
    NewRecent(song.id, song.title, song.coverUrl, SongKind, SongData(song))
  }

  /** The recently-played key after the player starts loading `played` (nothing when None). */
  function RecentAfter(recent: Slot<seq<RecentItem>>, played: Option<Song>, now: int): Slot<seq<RecentItem>> {
    if played.None? then recent else Present(AddRecent(GetJSON(recent, []), SongEntry(played.value), now))
  }

  class LocalLibrary {
    var likedIds: Slot<seq<string>>
    var likedData: Slot<seq<Song>>
    var playlists: Slot<seq<UserPlaylist>>
    var recent: Slot<seq<RecentItem>>
    var settings: Slot<Settings>

    function Snapshot(): Library
      reads this
    {
      Library(likedIds, likedData, playlists, recent, settings)
    }

    /** A fresh install: every key is missing. */
    constructor()
      ensures Snapshot() == Library(Absent, Absent, Absent, Absent, Absent)
    {
      likedIds := Absent;
      likedData := Absent;
      playlists := Absent;
      recent := Absent;
      settings := Absent;
    }

    /** `getLikedSongIds`. */
    function LikedIds(): seq<string>
      reads this
    {
      GetJSON(likedIds, [])
    }

    /** `getLikedSongsData`. */
    function LikedSongs(): seq<Song>
      reads this
    {
      GetJSON(likedData, [])
    }

    /** `isLikedSong`. */
    predicate IsLikedSong(id: string)
      reads this
    {
      id in LikedIds()
    }

    /** `getUserPlaylists`. */
    function Playlists(): seq<UserPlaylist>
      reads this
    {
      GetJSON(playlists, [])
    }

    /** `getRecentlyPlayed`. */
    function RecentlyPlayed(): seq<RecentItem>
      reads this
    {
      GetJSON(recent, [])
    }

    /** `getSettings`. */
    function CurrentSettings(): Settings
      reads this
    {
      GetJSON(settings, DefaultSettings)
    }

    /** `addLikedSong`: a no-op when the id is liked already, otherwise the id and the song go first. */
    method AddLikedSong(song: Song)
      modifies this
      ensures Snapshot() == if song.id in old(LikedIds()) then old(Snapshot())
        else old(Snapshot()).(likedIds := Present([song.id] + old(LikedIds())),
                              likedData := Present([song] + old(LikedSongs())))
      ensures IsLikedSong(song.id)
    {
      var ids := LikedIds();
      var data := LikedSongs();
      if song.id !in ids {
        ids := [song.id] + ids;
        data := [song] + data;
        likedIds := SetJSON(likedIds, ids, true);
        likedData := SetJSON(likedData, data, true);
      }
    }

    /** `removeLikedSong`: both lists are filtered and written back. */
    method RemoveLikedSong(id: string)
      modifies this
      ensures Snapshot() == old(Snapshot()).(likedIds := Present(WithoutId(old(LikedIds()), id)),
                                             likedData := Present(WithoutSong(old(LikedSongs()), id)))
      ensures !IsLikedSong(id)
    {
      var ids := LikedIds();
      var data := LikedSongs();
      likedIds := SetJSON(likedIds, WithoutId(ids, id), true);
      likedData := SetJSON(likedData, WithoutSong(data, id), true);
    }

    /** `createUserPlaylist`: a playlist with no songs and no cover goes first. */
    method CreateUserPlaylist(name: string, description: Option<string>, now: int, suffix: string)
      returns (p: UserPlaylist)
      modifies this
      ensures p == UserPlaylist(PlaylistId(now, suffix), name, description.GetOr(""), "", [], now, now)
      ensures Snapshot() == old(Snapshot()).(playlists := Present([p] + old(Playlists())))
    {
      var pls := Playlists();
      p := UserPlaylist(PlaylistId(now, suffix), name, description.GetOr(""), "", [], now, now);
      pls := [p] + pls;
      playlists := SetJSON(playlists, pls, true);
    }

    /** `deleteUserPlaylist`. */
    method DeleteUserPlaylist(id: string)
      modifies this
      ensures Snapshot() == old(Snapshot()).(playlists := Present(WithoutPlaylist(old(Playlists()), id)))
    {
      var pls := Playlists();
      playlists := SetJSON(playlists, WithoutPlaylist(pls, id), true);
    }

    /** `addSongToPlaylist`. */
    method AddSongToPlaylist(pid: string, song: Song, now: int)
      modifies this
      ensures Snapshot() == match AddSong(old(Playlists()), pid, song, now)
        case None => old(Snapshot())
        case Some(pls) => old(Snapshot()).(playlists := Present(pls))
    {
      var pls := Playlists();
      var idx := PlaylistIndex(pls, pid);
      if idx == -1 {
        return;
      }
      if Any(pls[idx].songs, (s: Song) => s.id == song.id) {
        return;
      }
      var p := pls[idx];
      p := p.(songs := p.songs + [song]);
      p := p.(updatedAt := now);
      if p.coverUrl == "" && song.coverUrl != "" {
        p := p.(coverUrl := song.coverUrl);
      }
      pls := pls[idx := p];
      playlists := SetJSON(playlists, pls, true);
    }

    /** `removeSongFromPlaylist`. */
    method RemoveSongFromPlaylist(pid: string, songId: string, now: int)
      modifies this
      ensures Snapshot() == match RemoveSong(old(Playlists()), pid, songId, now)
        case None => old(Snapshot())
        case Some(pls) => old(Snapshot()).(playlists := Present(pls))
    {
      var pls := Playlists();
      var idx := PlaylistIndex(pls, pid);
      if idx == -1 {
        return;
      }
      var p := pls[idx].(songs := WithoutSong(pls[idx].songs, songId));
      p := p.(updatedAt := now);
      playlists := SetJSON(playlists, pls[idx := p], true);
    }

    /** `addRecentlyPlayed`. */
    method AddRecentlyPlayed(item: NewRecent, now: int)
      modifies this
      ensures Snapshot() == old(Snapshot()).(recent := Present(AddRecent(old(RecentlyPlayed()), item, now)))
    {
      var items := RecentlyPlayed();
      var filtered := WithoutRecent(items, item.id);
      filtered := [Stamp(item, now)] + filtered;
      recent := SetJSON(recent, SliceTo(filtered, RecentLimit), true);
    }

    /** `saveSettings`. */
    method SaveSettings(patch: SettingsPatch)
      modifies this
      ensures Snapshot() == old(Snapshot()).(settings := Present(Merge(old(CurrentSettings()), patch)))
    {
      var current := CurrentSettings();
      settings := SetJSON(settings, Merge(current, patch), true);
    }
  }
}
