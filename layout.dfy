// The root layout's start-up work: on Android it collects trending songs and
// playlists from the application's own music API and public playlists from
// Firestore, turns them into Android Auto browse entries, pre-registers the
// songs of each Firestore playlist and hands everything to the bridge; on every
// platform it sends a visitor who is neither signed in nor a guest to the
// login screen.

module Layout {
  import opened Text
  import opened Js
  import opened Lists
  import Routes
  import Firestore

  // ---- trending songs ---------------------------------------------------------

  /** A trending song as handed to Android Auto. */
  datatype TrendingSong = TrendingSong(
    id: Json,
    title: Json,
    artist: string,
    album: Json,
    audioUrl: Json,
    coverUrl: Json,
    duration: Json)

  /**
   * `list.find(i => i.quality === q)?.url || list[list.length - 1]?.url || ''`:
   * the url of the first entry of the wanted quality, else the last entry's url.
   */
  function PickUrl(list: seq<Routes.NImage>, quality: string): Json {
    var k := FindIndex(list, (i: Routes.NImage) => i.quality == JStr(quality));
    var found := if k >= 0 then list[k].url else JUndefined;
    var last := if |list| > 0 then list[|list| - 1].url else JUndefined;
    Or(Or(found, last), JStr(""))
  }

  /**
   * The first entry of the wanted quality wins when its url is set; without
   * such an entry the last entry's url is used; an empty list gives "". The
   * result is always "" or one of the urls in the list.
   */
  lemma PickUrlRules(list: seq<Routes.NImage>, quality: string)
    ensures forall k :: (0 <= k < |list| && list[k].quality == JStr(quality) && Truthy(list[k].url) &&
      (forall j :: 0 <= j < k ==> list[j].quality != JStr(quality))) ==> PickUrl(list, quality) == list[k].url
    ensures (forall k :: 0 <= k < |list| ==> list[k].quality != JStr(quality)) && |list| > 0 ==>
      PickUrl(list, quality) == Or(list[|list| - 1].url, JStr(""))
    ensures |list| == 0 ==> PickUrl(list, quality) == JStr("")
    ensures PickUrl(list, quality) == JStr("") || exists k :: 0 <= k < |list| && PickUrl(list, quality) == list[k].url
  {
    var p := (i: Routes.NImage) => i.quality == JStr(quality);
    var k := FindIndex(list, p);
    forall k' | 0 <= k' < |list| && list[k'].quality == JStr(quality) && Truthy(list[k'].url) &&
      (forall j :: 0 <= j < k' ==> list[j].quality != JStr(quality))
      ensures PickUrl(list, quality) == list[k'].url
    {
      assert p(list[k']);
      assert k == k';
    }
  }

  /** How `Array.prototype.join` shows a value: null and undefined become "". */
  function JoinText(j: Json): string {
    if Nullish(j) then "" else ToStr(j)
  }

  /**
   * `s.artists?.primary?.map(a => a.name).join(', ') || s.subtitle || 'Unknown Artist'`;
   * a song from the music API has no `subtitle`, so an empty join falls to the default.
   */
  function ArtistNames(s: Routes.NSong): (r: string)
    ensures r != ""
    ensures |s.primary| == 0 ==> r == "Unknown Artist"
  {
    var joined := Join(seq(|s.primary|, i requires 0 <= i < |s.primary| => JoinText(s.primary[i].name)), ", ");
    if joined != "" then joined else "Unknown Artist"
  }

  /** The record built for one song (`s.title` is absent on the API's songs, so the title is `s.name || ''`). */
  function TrendingOf(s: Routes.NSong): TrendingSong {
    TrendingSong(
      Or(s.id, JStr("")),
      Or(s.name, JStr("")),
      ArtistNames(s),
      Or(s.albumName, JStr("")),
      PickUrl(s.downloadUrl, "320kbps"),
      PickUrl(s.image, "500x500"),
      Or(s.duration, JNum(0)))
  }

  predicate HasDownloads(s: Routes.NSong) {
    |s.downloadUrl| > 0
  }

  /** The final `.filter(s => s.id && s.audioUrl)`. */
  predicate Playable(t: TrendingSong) {
    Truthy(t.id) && Truthy(t.audioUrl)
  }

  function TrendingOfAll(songs: seq<Routes.NSong>): (r: seq<TrendingSong>)
    ensures |r| == |songs|
    ensures forall i :: 0 <= i < |songs| ==> r[i] == TrendingOf(songs[i])
  {
    seq(|songs|, i requires 0 <= i < |songs| => TrendingOf(songs[i]))
  }

  /** The trending list built from the search results. */
  function Trending(raw: seq<Routes.NSong>): seq<TrendingSong> {
    Filter(TrendingOfAll(Filter(raw, HasDownloads)), Playable)
  }

  /**
   * Every trending entry has an id and an audio url and comes from a result
   * with at least one download; every such result whose record has both is
   * kept; the list is never longer than the results.
   */
  lemma TrendingRules(raw: seq<Routes.NSong>)
    ensures |Trending(raw)| <= |raw|
    ensures forall t :: t in Trending(raw) ==>
      Playable(t) && exists s :: s in raw && HasDownloads(s) && t == TrendingOf(s)
    ensures forall s :: s in raw && HasDownloads(s) && Playable(TrendingOf(s)) ==> TrendingOf(s) in Trending(raw)
  {
    var withDownloads := Filter(raw, HasDownloads);
    var mapped := TrendingOfAll(withDownloads);
    forall t | t in Trending(raw)
      ensures Playable(t) && exists s :: s in raw && HasDownloads(s) && t == TrendingOf(s)
    {
      var i :| 0 <= i < |mapped| && mapped[i] == t;
      assert withDownloads[i] in withDownloads;
    }
    forall s | s in raw && HasDownloads(s) && Playable(TrendingOf(s))
      ensures TrendingOf(s) in Trending(raw)
    {
      var i :| 0 <= i < |withDownloads| && withDownloads[i] == s;
      assert mapped[i] == TrendingOf(s);
    }
  }

  /** A result with an id and a download whose last url is set always reaches Android Auto. */
  lemma TrendingKeepsPlayableSongs(raw: seq<Routes.NSong>, s: Routes.NSong)
    requires s in raw && Truthy(s.id) && HasDownloads(s) && Truthy(s.downloadUrl[|s.downloadUrl| - 1].url)
    ensures TrendingOf(s) in Trending(raw)
    ensures TrendingOf(s).id == s.id
  {
    assert Truthy(TrendingOf(s).audioUrl);
    TrendingRules(raw);
  }

  // ---- JioSaavn playlists -----------------------------------------------------

  /** A playlist entry as handed to Android Auto. */
  datatype BrowseEntry = BrowseEntry(id: Json, title: Json, subtitle: string)

  /**
   * `songCount > 0`: a number compares directly, a string is converted first
   * (so "50" counts and "abc" does not), `true` is 1; anything else is not
   * greater than 0.
   */
  predicate PositiveCount(count: Json) {
    match count
    case JNum(n) => n > 0
    case JStr(s) => ToNumber(s).Int? && ToNumber(s).i > 0
    case JBool(b) => b
    case _ => false
  }

  /** `{ id: p.id || '', title: p.name || p.title || '', subtitle: `${p.songCount || 0} songs` }`. */
  function SaavnEntry(p: Routes.NPlaylist): BrowseEntry {
    BrowseEntry(Or(p.id, JStr("")), Or(p.name, JStr("")), ToStr(Or(p.songCount, JNum(0))) + " songs")
  }

  predicate HasSongCount(p: Routes.NPlaylist) {
    PositiveCount(p.songCount)
  }

  predicate HasId(e: BrowseEntry) {
    Truthy(e.id)
  }

  function SaavnEntries(playlists: seq<Routes.NPlaylist>): (r: seq<BrowseEntry>)
    ensures |r| == |playlists|
    ensures forall i :: 0 <= i < |playlists| ==> r[i] == SaavnEntry(playlists[i])
  {
    seq(|playlists|, i requires 0 <= i < |playlists| => SaavnEntry(playlists[i]))
  }

  /** The playlists with songs, capped at twelve, as entries that have an id. */
  function SaavnPlaylists(raw: seq<Routes.NPlaylist>): seq<BrowseEntry> {
    Filter(SaavnEntries(SliceTo(Filter(raw, HasSongCount), 12)), HasId)
  }

  /**
   * At most twelve entries, each with an id and built from a result whose
   * song count is positive; when the first twelve such results all have ids,
   * every one of them is shown.
   */
  lemma SaavnPlaylistsRules(raw: seq<Routes.NPlaylist>)
    ensures |SaavnPlaylists(raw)| <= 12
    ensures forall e :: e in SaavnPlaylists(raw) ==>
      HasId(e) && exists p :: p in raw && HasSongCount(p) && e == SaavnEntry(p)
    ensures var counted := Filter(raw, HasSongCount);
      (forall i :: 0 <= i < |counted| && i < 12 ==> Truthy(counted[i].id)) ==>
        SaavnPlaylists(raw) == SaavnEntries(SliceTo(counted, 12))
  {
    var counted := Filter(raw, HasSongCount);
    var capped := SliceTo(counted, 12);
    var entries := SaavnEntries(capped);
    forall e | e in SaavnPlaylists(raw)
      ensures HasId(e) && exists p :: p in raw && HasSongCount(p) && e == SaavnEntry(p)
    {
      var i :| 0 <= i < |entries| && entries[i] == e;
      assert capped[i] in counted;
    }
    if forall i :: 0 <= i < |counted| && i < 12 ==> Truthy(counted[i].id) {
      forall e | e in entries ensures HasId(e) {
        var i :| 0 <= i < |entries| && entries[i] == e;
        assert capped[i] == counted[i];
      }
      FilterAll(entries, HasId);
    }
  }

  // ---- Firestore public playlists ---------------------------------------------

  /** A public playlist document: its id and its stored fields. */
  datatype PublicPlaylist = PublicPlaylist(docId: string, data: map<string, Json>)

  /** `{ id: doc.id, ...doc.data() }`: a stored `id` field overrides the document id. */
  function DocOf(p: PublicPlaylist): Json {
    JObj(map["id" := JStr(p.docId)] + p.data)
  }

  lemma DocOfId(p: PublicPlaylist)
    ensures "id" !in p.data ==> Get(DocOf(p), "id") == JStr(p.docId)
    ensures "id" in p.data ==> Get(DocOf(p), "id") == p.data["id"]
    ensures forall k :: k in p.data ==> Get(DocOf(p), k) == p.data[k]
  {
  }

  /** `value.length` for a string or an array. */
  function LengthOf(j: Json): Option<nat> {
    match j
    case JStr(s) => Some(|s|)
    case JArr(items) => Some(|items|)
    case _ => None
  }

  /** `fp.songs && fp.songs.length > 0`. */
  predicate HasSongs(fp: Json) {
    var songs := Get(fp, "songs");
    Truthy(songs) && LengthOf(songs).Some? && LengthOf(songs).value > 0
  }

  /** A Firestore playlist entry together with the songs carried for registration. */
  datatype FsEntry = FsEntry(id: string, title: Json, subtitle: string, songs: seq<Firestore.LocalSong>)

  const FirestorePrefix: string := "firestore_"

  /**
   * The entry for one playlist that has songs: the id is prefixed, the title
   * defaults to "My Playlist", the subtitle counts the songs and names the
   * creator (default "Mavrixfy"); converting the songs may throw.
   */
  function FsEntryOf(fp: Json): Outcome<FsEntry>
    requires HasSongs(fp)
  {
    var songs := Firestore.PlaylistToLocalSongs(fp);
    if songs.Throws? then Throws
    else Returns(FsEntry(
      FirestorePrefix + ToStr(Get(fp, "id")),
      Or(Get(fp, "name"), JStr("My Playlist")),
      IntToString(LengthOf(Get(fp, "songs")).value) + " songs · " +
        ToStr(Or(Get(Get(fp, "createdBy"), "name"), JStr("Mavrixfy"))),
      songs.value))
  }

  /** `FsEntryOf` on the playlists that have songs, or the failure of the first that throws. */
  function FsEntriesOf(docs: seq<Json>): (r: Outcome<seq<FsEntry>>)
    requires forall i :: 0 <= i < |docs| ==> HasSongs(docs[i])
    ensures r.Returns? <==> forall i :: 0 <= i < |docs| ==> FsEntryOf(docs[i]).Returns?
    ensures r.Returns? ==> |r.value| == |docs| && forall i :: 0 <= i < |docs| ==> r.value[i] == FsEntryOf(docs[i]).value
    decreases |docs|
  {
    if |docs| == 0 then Returns([])
    else
      var rest := FsEntriesOf(docs[1..]);
      assert forall i :: 1 <= i < |docs| ==> docs[i] == docs[1..][i - 1];
      if FsEntryOf(docs[0]).Throws? || rest.Throws? then Throws
      else Returns([FsEntryOf(docs[0]).value] + rest.value)
  }

  function Docs(pubs: seq<PublicPlaylist>): (r: seq<Json>)
    ensures |r| == |pubs|
  {
    seq(|pubs|, i requires 0 <= i < |pubs| => DocOf(pubs[i]))
  }

  /** The Firestore entries; a conversion that throws is caught and leaves none. */
  function FirestoreEntries(pubs: seq<PublicPlaylist>): seq<FsEntry> {
    var withSongs := Filter(Docs(pubs), HasSongs);
    assert forall i :: 0 <= i < |withSongs| ==> withSongs[i] in withSongs;
    var mapped := FsEntriesOf(withSongs);
    if mapped.Throws? then [] else mapped.value
  }

  /** A converted playlist has a prefixed id and at least one song. */
  lemma FsEntryOfRules(d: Json)
    requires HasSongs(d) && FsEntryOf(d).Returns?
    ensures IsPrefix(FirestorePrefix, FsEntryOf(d).value.id)
    ensures |FsEntryOf(d).value.songs| > 0
  {
    var songs := Get(d, "songs");
    assert songs.JArr?;
    assert |Firestore.PlaylistToLocalSongs(d).value| == |songs.items|;
  }

  /**
   * Every Firestore entry has a prefixed id and at least one song; when no
   * conversion throws there is one entry per public playlist with songs, and
   * when one throws there are none.
   */
  lemma FirestoreEntriesRules(pubs: seq<PublicPlaylist>)
    ensures forall e :: e in FirestoreEntries(pubs) ==> IsPrefix(FirestorePrefix, e.id) && |e.songs| > 0
    ensures var withSongs := Filter(Docs(pubs), HasSongs);
      (forall d :: d in withSongs ==> FsEntryOf(d).Returns?) ==> |FirestoreEntries(pubs)| == |withSongs|
    ensures var withSongs := Filter(Docs(pubs), HasSongs);
      (exists d :: d in withSongs && FsEntryOf(d).Throws?) ==> FirestoreEntries(pubs) == []
  {
    var withSongs := Filter(Docs(pubs), HasSongs);
    assert forall i :: 0 <= i < |withSongs| ==> withSongs[i] in withSongs;
    var mapped := FsEntriesOf(withSongs);
    if mapped.Returns? {
      forall e | e in FirestoreEntries(pubs) ensures IsPrefix(FirestorePrefix, e.id) && |e.songs| > 0 {
        var i :| 0 <= i < |mapped.value| && mapped.value[i] == e;
        FsEntryOfRules(withSongs[i]);
      }
    }
  }

  // ---- registering Firestore playlist songs ---------------------------------------

  /** The `syncPlaylistSongs(fp.id, fp._songs)` calls the registration makes, in order. */
  function Registrations(entries: seq<FsEntry>): (r: seq<(string, seq<Firestore.LocalSong>)>)
    ensures |r| <= |entries|
    decreases |entries|
  {
    if |entries| == 0 then []
    else
      var rest := Registrations(entries[1..]);
      if |entries[0].songs| > 0 then [(entries[0].id, entries[0].songs)] + rest else rest
  }

  /** `firestorePlaylists.forEach(fp => { if (fp._songs?.length > 0) syncPlaylistSongs(fp.id, fp._songs) })`. */
  method RegisterPlaylistSongs(entries: seq<FsEntry>) returns (calls: seq<(string, seq<Firestore.LocalSong>)>)
    ensures calls == Registrations(entries)
  {
    calls := [];
    var i := |entries|;
    while i > 0
      invariant 0 <= i <= |entries|
      invariant calls == Registrations(entries[i..])
    {
      i := i - 1;
      assert entries[i..][1..] == entries[i + 1..];
      if |entries[i].songs| > 0 {
        calls := [(entries[i].id, entries[i].songs)] + calls;
      }
    }
    assert entries[0..] == entries;
  }

  /** When every entry carries songs, each entry is registered once, in order, under its own id. */
  lemma {:induction false} RegistrationsOfFilled(entries: seq<FsEntry>)
    requires forall e :: e in entries ==> |e.songs| > 0
    ensures |Registrations(entries)| == |entries|
    ensures forall i :: 0 <= i < |entries| ==> Registrations(entries)[i] == (entries[i].id, entries[i].songs)
    decreases |entries|
  {
    if |entries| > 0 {
      assert forall e :: e in entries[1..] ==> e in entries;
      RegistrationsOfFilled(entries[1..]);
      assert entries[0] in entries;
    }
  }

  /** Every Firestore playlist that becomes an entry has its songs registered. */
  lemma EveryFirestorePlaylistRegistered(pubs: seq<PublicPlaylist>)
    ensures |Registrations(FirestoreEntries(pubs))| == |FirestoreEntries(pubs)|
    ensures forall i :: 0 <= i < |FirestoreEntries(pubs)| ==>
      Registrations(FirestoreEntries(pubs))[i] == (FirestoreEntries(pubs)[i].id, FirestoreEntries(pubs)[i].songs)
  {
    FirestoreEntriesRules(pubs);
    RegistrationsOfFilled(FirestoreEntries(pubs));
  }

  // ---- merging and handing over -------------------------------------------------

  /** `({ _songs, ...rest }) => rest`. */
  function Stripped(e: FsEntry): BrowseEntry {
    BrowseEntry(JStr(e.id), e.title, e.subtitle)
  }

  /** Firestore playlists first, then the JioSaavn ones. */
  function AllPlaylists(fs: seq<FsEntry>, saavn: seq<BrowseEntry>): (r: seq<BrowseEntry>)
    ensures |r| == |fs| + |saavn|
    ensures forall i :: 0 <= i < |fs| ==> r[i] == Stripped(fs[i])
    ensures r[|fs|..] == saavn
  {
    seq(|fs|, i requires 0 <= i < |fs| => Stripped(fs[i])) + saavn
  }

  /**
   * The prefix keeps the two kinds apart: no Firestore entry shares its id
   * with a JioSaavn playlist whose id does not start with "firestore_".
   */
  lemma FirestoreIdsDisjoint(fs: seq<FsEntry>, saavn: seq<BrowseEntry>, i: nat, j: nat)
    requires forall e :: e in fs ==> IsPrefix(FirestorePrefix, e.id)
    requires i < |fs| && j < |saavn|
    requires !(saavn[j].id.JStr? && IsPrefix(FirestorePrefix, saavn[j].id.s))
    ensures AllPlaylists(fs, saavn)[i].id != AllPlaylists(fs, saavn)[|fs| + j].id
  {
    assert fs[i] in fs;
    assert AllPlaylists(fs, saavn)[|fs| + j] == AllPlaylists(fs, saavn)[|fs|..][j];
  }

  /** What `syncMusicData` receives. */
  datatype MusicData = MusicData(trending: seq<TrendingSong>, playlists: seq<BrowseEntry>)

  /** A request to the music API: it threw (network failure), answered not ok, or gave its results. */
  datatype Fetched<+T> = FetchThrew | NotOk | Ok(results: T)

  function ResultsOr<T>(f: Fetched<seq<T>>): seq<T> {
    if f.Ok? then f.results else []
  }

  /** The data handed to Android Auto, or nothing when both lists are empty. */
  function MusicDataFor(trending: seq<TrendingSong>, playlists: seq<BrowseEntry>): (r: Option<MusicData>)
    ensures r.Some? <==> |trending| > 0 || |playlists| > 0
    ensures r.Some? ==> r.value.trending == trending && r.value.playlists == playlists
  {
    if |trending| > 0 || |playlists| > 0 then Some(MusicData(trending, playlists)) else None
  }

  /**
   * `syncAndroidAutoData`: nothing happens off Android or when either request
   * to the music API throws; otherwise the Firestore playlists' songs are
   * registered and the merged data is handed over when there is any.
   */
  method SyncAndroidAutoData(isAndroid: bool, songs: Fetched<seq<Routes.NSong>>,
                             playlists: Fetched<seq<Routes.NPlaylist>>, pubs: seq<PublicPlaylist>)
    returns (registered: seq<(string, seq<Firestore.LocalSong>)>, synced: Option<MusicData>)
    ensures !isAndroid || songs.FetchThrew? || playlists.FetchThrew? ==> registered == [] && synced == None
    ensures isAndroid && !songs.FetchThrew? && !playlists.FetchThrew? ==>
      registered == Registrations(FirestoreEntries(pubs)) &&
      synced == MusicDataFor(Trending(ResultsOr(songs)),
        AllPlaylists(FirestoreEntries(pubs), SaavnPlaylists(ResultsOr(playlists))))
  {
    registered, synced := [], None;
    if !isAndroid || songs.FetchThrew? {
      return;
    }
    var trending := Trending(ResultsOr(songs));
    if playlists.FetchThrew? {
      return;
    }
    var saavn := SaavnPlaylists(ResultsOr(playlists));
    var fs := FirestoreEntries(pubs);
    registered := RegisterPlaylistSongs(fs);
    synced := MusicDataFor(trending, AllPlaylists(fs, saavn));
  }

  // ---- the sign-in guard ----------------------------------------------------------

  /** Whether the guard sends the visitor to the login screen. */
  predicate MustLogIn(loading: bool, isAuthenticated: bool, isGuest: bool, segments: seq<string>) {
    !loading && !(isAuthenticated || isGuest) && !(|segments| > 0 && segments[0] == "login")
  }

  /** The router the guard drives; `replaced` lists the paths passed to `router.replace`. */
  class RootNavigation {
    var replaced: seq<string>

    constructor()
      ensures replaced == []
    {
      replaced := [];
    }

    /** The effect that runs whenever loading, the sign-in state or the route changes. */
    method AuthGuard(loading: bool, isAuthenticated: bool, isGuest: bool, segments: seq<string>)
      modifies this
      ensures replaced == old(replaced) + (if MustLogIn(loading, isAuthenticated, isGuest, segments) then ["/login"] else [])
    {
      if loading {
        return;
      }
      var isLoginScreen := |segments| > 0 && segments[0] == "login";
      if !(isAuthenticated || isGuest) && !isLoginScreen {
        replaced := replaced + ["/login"];
      }
    }
  }

  /**
   * Nobody is redirected while the session loads, a signed-in user or guest
   * never is, and once on the login screen the guard stays quiet; a signed-out
   * visitor anywhere else always is.
   */
  lemma AuthGuardRules(loading: bool, isAuthenticated: bool, isGuest: bool, segments: seq<string>)
    ensures loading ==> !MustLogIn(loading, isAuthenticated, isGuest, segments)
    ensures isAuthenticated || isGuest ==> !MustLogIn(loading, isAuthenticated, isGuest, segments)
    ensures !MustLogIn(loading, isAuthenticated, isGuest, ["login"] + segments)
    ensures !loading && !isAuthenticated && !isGuest && (|segments| == 0 || segments[0] != "login") ==>
      MustLogIn(loading, isAuthenticated, isGuest, segments)
  {
  }
}
