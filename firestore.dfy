// lib/firestore.ts: the liked-songs collection `users/{userId}/likedSongs` of
// each user and the conversion of a shared playlist's songs. The document
// store is a map from user to that user's documents, listed in the order a
// read returns them; whether the database is configured and whether each
// read or write succeeds are inputs. Every function catches its errors and
// answers with its fallback.

module Firestore {
  import opened Text
  import opened Js
  import opened Lists
  import opened MusicData

  // ---- shared playlists ----------------------------------------------------------------

  datatype LocalSong = LocalSong(id: Json, title: Json, artist: Json, coverUrl: Json, audioUrl: Json, duration: Json, album: Json)

  /** One song of `firestorePlaylistToLocalSongs`; reading a field of null throws. */
  function LocalSongOf(song: Json): Outcome<LocalSong> {
    if Nullish(song) then Throws
    else Returns(LocalSong(
      Or(Or(Get(song, "id"), Get(song, "songId")), JStr("")),
      Or(Or(Get(song, "title"), Get(song, "name")), JStr("")),
      Or(Or(Get(song, "artist"), Get(song, "artists")), JStr("")),
      Or(Or(Or(Get(song, "coverUrl"), Get(song, "image")), Get(song, "imageUrl")), JStr("")),
      Or(Or(Get(song, "audioUrl"), Get(song, "url")), JStr("")),
      Or(Get(song, "duration"), JNum(0)),
      Or(Get(song, "album"), JStr(""))))
  }

  /** `firestorePlaylistToLocalSongs(playlist)`. */
  function PlaylistToLocalSongs(playlist: Json): Outcome<seq<LocalSong>> {
    if !Truthy(playlist) || !Truthy(Get(playlist, "songs")) then Returns([])
    else if !Get(playlist, "songs").JArr? then Throws
    else MapAll(Get(playlist, "songs").items, LocalSongOf)
  }

  /**
   * No playlist or no songs gives the empty list; otherwise the songs are
   * converted one for one, in order, with the id taken from `id`, else
   * `songId`, else "", the audio from `audioUrl`, else `url`, else "", and a
   * missing duration as 0.
   */
  lemma PlaylistToLocalSongsRules(playlist: Json)
    ensures !Truthy(playlist) || !Truthy(Get(playlist, "songs")) ==> PlaylistToLocalSongs(playlist) == Returns([])
    ensures Truthy(playlist) && Get(playlist, "songs").JArr? && PlaylistToLocalSongs(playlist).Returns? ==>
      var songs := Get(playlist, "songs").items;
      var r := PlaylistToLocalSongs(playlist).value;
      |r| == |songs| &&
      forall i :: 0 <= i < |songs| ==>
        (r[i].id == if Truthy(Get(songs[i], "id")) then Get(songs[i], "id")
          else if Truthy(Get(songs[i], "songId")) then Get(songs[i], "songId") else JStr("")) &&
        (r[i].audioUrl == if Truthy(Get(songs[i], "audioUrl")) then Get(songs[i], "audioUrl")
          else if Truthy(Get(songs[i], "url")) then Get(songs[i], "url") else JStr("")) &&
        (!Truthy(Get(songs[i], "duration")) ==> r[i].duration == JNum(0))
    ensures Truthy(playlist) && Get(playlist, "songs").JArr? ==>
      (PlaylistToLocalSongs(playlist).Returns? <==> forall i :: 0 <= i < |Get(playlist, "songs").items| ==> !Nullish(Get(playlist, "songs").items[i]))
  {
    if Truthy(playlist) && Get(playlist, "songs").JArr? && PlaylistToLocalSongs(playlist).Returns? {
      var songs := Get(playlist, "songs").items;
      assert Truthy(Get(playlist, "songs"));
      assert forall i :: 0 <= i < |songs| ==> PlaylistToLocalSongs(playlist).value[i] == LocalSongOf(songs[i]).value;
    }
  }

  // ---- liked-song documents ------------------------------------------------------------

  datatype LikedDoc = LikedDoc(docId: string, data: Json)

  /** The document `addLikedSongToFirestore` writes; `now` is the server timestamp. */
  function LikedData(song: Song, now: int): Json {
    JObj(map[
      "id" := JStr(song.id),
      "title" := JStr(song.title),
      "artist" := JStr(song.artist),
      "albumName" := Or(JStr(song.album), JStr("")),
      "imageUrl" := JStr(song.coverUrl),
      "audioUrl" := JStr(song.audioUrl),
      "duration" := Or(JNum(song.duration), JNum(0)),
      "year" := JStr(""),
      "likedAt" := JNum(now),
      "source" := JStr("mavrixfy")])
  }

  predicate HasDoc(docs: seq<LikedDoc>, id: string) {
    exists k :: 0 <= k < |docs| && docs[k].docId == id
  }

  /** Document ids are unique within a collection. */
  predicate UniqueDocIds(docs: seq<LikedDoc>) {
    forall i, j :: 0 <= i < j < |docs| ==> docs[i].docId != docs[j].docId
  }

  /** The collection after a successful `addLikedSongToFirestore`: unchanged when the document exists. */
  function AfterAdd(docs: seq<LikedDoc>, song: Song, now: int): seq<LikedDoc> {
    if HasDoc(docs, song.id) then docs else docs + [LikedDoc(song.id, LikedData(song, now))]
  }

  function WithoutDoc(docs: seq<LikedDoc>, id: string): (r: seq<LikedDoc>)
    ensures forall d :: d in r <==> d in docs && d.docId != id
  {
    Filter(docs, (d: LikedDoc) => d.docId != id)
  }

  /** Whether a document is the song: by its document id or by the id stored in it. */
  predicate Matches(d: LikedDoc, songId: string) {
    d.docId == songId || Get(d.data, "id") == JStr(songId)
  }

  /** The document id the scan of `removeLikedSongFromFirestore` ends with: that of the last match. */
  function LastMatch(docs: seq<LikedDoc>, songId: string): (r: Option<string>)
    ensures r.None? <==> forall k :: 0 <= k < |docs| ==> !Matches(docs[k], songId)
    ensures r.Some? ==> exists k :: (0 <= k < |docs| && Matches(docs[k], songId) && docs[k].docId == r.value &&
      forall j :: k < j < |docs| ==> !Matches(docs[j], songId))
    decreases |docs|
  {
    if |docs| == 0 then None
    else if Matches(docs[|docs| - 1], songId) then Some(docs[|docs| - 1].docId)
    else
      var r := LastMatch(docs[..|docs| - 1], songId);
      assert forall k :: 0 <= k < |docs| - 1 ==> docs[..|docs| - 1][k] == docs[k];
      r
  }

  /** The document `removeLikedSongFromFirestore` deletes, if any. */
  function RemoveTarget(docs: seq<LikedDoc>, songId: string): Option<string> {
    if HasDoc(docs, songId) then Some(songId)
    else
      var found := LastMatch(docs, songId);
      if found.Some? && found.value != "" && found.value != songId then found else None
  }

  /** Adding a song that is already liked changes nothing, so adding twice is adding once; ids stay unique. */
  lemma AddIdempotent(docs: seq<LikedDoc>, song: Song, now: int, later: int)
    requires UniqueDocIds(docs)
    ensures HasDoc(AfterAdd(docs, song, now), song.id)
    ensures AfterAdd(AfterAdd(docs, song, now), song, later) == AfterAdd(docs, song, now)
    ensures UniqueDocIds(AfterAdd(docs, song, now))
  {
    var a := AfterAdd(docs, song, now);
    if !HasDoc(docs, song.id) {
      assert a[|docs|].docId == song.id;
    }
  }

  /** Removing a song just added to a collection that did not have it gives back the collection. */
  lemma AddThenRemove(docs: seq<LikedDoc>, song: Song, now: int)
    requires !HasDoc(docs, song.id)
    ensures RemoveTarget(AfterAdd(docs, song, now), song.id) == Some(song.id)
    ensures WithoutDoc(AfterAdd(docs, song, now), song.id) == docs
  {
    var added := docs + [LikedDoc(song.id, LikedData(song, now))];
    assert added[|docs|].docId == song.id;
    FilterAppend(docs, [LikedDoc(song.id, LikedData(song, now))], (d: LikedDoc) => d.docId != song.id);
    FilterAll(docs, (d: LikedDoc) => d.docId != song.id);
  }

  /**
   * The document keyed by the song id is the one removed; without it, the
   * last document storing that id is removed; with neither, nothing is.
   */
  lemma RemoveTargetRules(docs: seq<LikedDoc>, songId: string)
    ensures HasDoc(docs, songId) ==> RemoveTarget(docs, songId) == Some(songId)
    ensures !HasDoc(docs, songId) && RemoveTarget(docs, songId).Some? ==>
      exists k :: 0 <= k < |docs| && docs[k].docId == RemoveTarget(docs, songId).value &&
        Get(docs[k].data, "id") == JStr(songId) && forall j :: k < j < |docs| ==> !Matches(docs[j], songId)
    ensures (forall k :: 0 <= k < |docs| ==> !Matches(docs[k], songId)) ==> RemoveTarget(docs, songId).None?
  {
  }

  /** An entry of `getLikedSongsFromFirestore`. */
  datatype LikedSong = LikedSong(
    id: string,
    title: Json,
    artist: Json,
    coverUrl: Json,
    audioUrl: Json,
    duration: Json,
    album: Json,
    addedAt: Json,
    source: Json,
    spotifyId: Json,
    spotifyUrl: Json,
    trackId: Json,
    albumId: Json)

  function LikedSongOf(d: LikedDoc): LikedSong {
    var data := d.data;
    LikedSong(
      d.docId,
      Or(Or(Get(data, "title"), Get(data, "name")), JStr("")),
      Or(Or(Get(data, "artist"), Get(data, "artists")), JStr("")),
      Or(Or(Or(Get(data, "imageUrl"), Get(data, "coverUrl")), Get(data, "image")), JStr("")),
      Or(Or(Or(Get(data, "audioUrl"), Get(data, "url")), Get(data, "previewUrl")), JStr("")),
      Or(Get(data, "duration"), JNum(0)),
      Or(Or(Get(data, "album"), Get(data, "albumName")), JStr("")),
      Or(Or(Get(data, "likedAt"), Get(data, "addedAt")), Get(data, "syncedAt")),
      Get(data, "source"), Get(data, "spotifyId"), Get(data, "spotifyUrl"), Get(data, "trackId"), Get(data, "albumId"))
  }

  /** The liked songs of a listing: documents with an empty id are skipped. */
  function LikedSongsOf(docs: seq<LikedDoc>): (r: seq<LikedSong>)
    ensures |r| <= |docs|
    ensures forall s :: s in r ==> s.id != ""
    decreases |docs|
  {
    if |docs| == 0 then []
    else
      var rest := LikedSongsOf(docs[..|docs| - 1]);
      var d := docs[|docs| - 1];
      if d.docId == "" then rest else rest + [LikedSongOf(d)]
  }

  /** Whether a document stores `likedAt`, the field the ordered query sorts on. */
  predicate HasLikedAt(d: LikedDoc) {
    Get(d.data, "likedAt") != JUndefined
  }

  /**
   * The documents `query(likedSongsRef, orderBy('likedAt', 'desc'))` returns:
   * Firestore leaves out every document without the ordered field. The
   * descending order itself is abstracted to the stored order.
   */
  function OrderedDocs(docs: seq<LikedDoc>): seq<LikedDoc> {
    Filter(docs, HasLikedAt)
  }

  /** A song is listed exactly when some document with a non-empty id converts to it. */
  lemma {:induction false} LikedSongsOfMembers(docs: seq<LikedDoc>)
    ensures forall s :: s in LikedSongsOf(docs) <==> exists d :: d in docs && d.docId != "" && s == LikedSongOf(d)
    decreases |docs|
  {
    if |docs| > 0 {
      var rest := docs[..|docs| - 1];
      var last := docs[|docs| - 1];
      LikedSongsOfMembers(rest);
      assert docs == rest + [last];
      forall s | s in LikedSongsOf(docs)
        ensures exists d :: d in docs && d.docId != "" && s == LikedSongOf(d)
      {
        if s !in LikedSongsOf(rest) {
          assert s == LikedSongOf(last) && last in docs;
        } else {
          var d :| d in rest && d.docId != "" && s == LikedSongOf(d);
          assert d in docs;
        }
      }
      forall s | exists d :: d in docs && d.docId != "" && s == LikedSongOf(d)
        ensures s in LikedSongsOf(docs)
      {
        var d :| d in docs && d.docId != "" && s == LikedSongOf(d);
        if d != last {
          assert d in rest;
        }
      }
    }
  }

  /**
   * The ordered read lists a document exactly when the plain read does and
   * it stores `likedAt`: with every document stamped the two reads agree,
   * and with none stamped the ordered read is empty.
   */
  lemma OrderedReadRules(docs: seq<LikedDoc>)
    ensures forall s :: s in LikedSongsOf(OrderedDocs(docs)) <==>
      exists d :: d in docs && d.docId != "" && HasLikedAt(d) && s == LikedSongOf(d)
    ensures forall s :: s in LikedSongsOf(docs) <==>
      exists d :: d in docs && d.docId != "" && s == LikedSongOf(d)
    ensures (forall d :: d in docs ==> HasLikedAt(d)) ==> LikedSongsOf(OrderedDocs(docs)) == LikedSongsOf(docs)
    ensures (forall d :: d in docs ==> !HasLikedAt(d)) ==> LikedSongsOf(OrderedDocs(docs)) == []
  {
    LikedSongsOfMembers(docs);
    LikedSongsOfMembers(OrderedDocs(docs));
    if forall d :: d in docs ==> HasLikedAt(d) {
      FilterAll(docs, HasLikedAt);
    }
    if forall d :: d in docs ==> !HasLikedAt(d) {
      FilterNone(docs, HasLikedAt);
    }
  }

  /** A document liked before `likedAt` was written is read by the plain query only. */
  lemma UnstampedDocOnlyInPlainRead()
    ensures var d := LikedDoc("a", JObj(map["title" := JStr("t"), "addedAt" := JNum(5)]));
      LikedSongsOf(OrderedDocs([d])) == [] && LikedSongsOf([d]) == [LikedSongOf(d)]
  {
    var d := LikedDoc("a", JObj(map["title" := JStr("t"), "addedAt" := JNum(5)]));
    assert !HasLikedAt(d);
    assert OrderedDocs([d]) == Filter([d][1..], HasLikedAt);
    assert [d][..0] == [];
  }

  /** A liked document written by the app reads back as the song it was written from (the time stamp when it is not 0). */
  lemma LikedReadsBack(song: Song, now: int)
    ensures var s := LikedSongOf(LikedDoc(song.id, LikedData(song, now)));
      s.id == song.id && s.title == JStr(song.title) && s.artist == JStr(song.artist) &&
      s.coverUrl == JStr(song.coverUrl) && s.audioUrl == JStr(song.audioUrl) &&
      s.duration == JNum(song.duration) && s.album == JStr(song.album) &&
      (now != 0 ==> s.addedAt == JNum(now)) && s.source == JStr("mavrixfy")
  {
    LikedDataFields(song, now);
    var data := LikedData(song, now);
    assert Get(data, "album") == JUndefined;
    assert Get(data, "albumName") == JStr(song.album);
  }

  lemma LikedDataFields(song: Song, now: int)
    ensures var m := LikedData(song, now).fields;
      m["title"] == JStr(song.title) && m["artist"] == JStr(song.artist) &&
      m["imageUrl"] == JStr(song.coverUrl) && m["audioUrl"] == JStr(song.audioUrl) &&
      m["duration"] == JNum(song.duration) && m["albumName"] == JStr(song.album) &&
      m["likedAt"] == JNum(now) && m["source"] == JStr("mavrixfy") &&
      "name" !in m && "artists" !in m && "album" !in m && "coverUrl" !in m && "image" !in m &&
      "url" !in m && "previewUrl" !in m
  {
  }

  // ---- the store -----------------------------------------------------------------------

  class LikedStore {
    /** Whether `db` is configured. */
    const hasDb: bool
    /** `users/{userId}/likedSongs` for every user, in listing order. */
    var collections: map<string, seq<LikedDoc>>

    constructor(hasDb: bool, collections: map<string, seq<LikedDoc>>)
      ensures this.hasDb == hasDb && this.collections == collections
    {
      this.hasDb := hasDb;
      this.collections := collections;
    }

    function Docs(userId: string): seq<LikedDoc>
      reads this
    {
      if userId in collections then collections[userId] else []
    }

    predicate Valid()
      reads this
    {
      forall u :: u in collections ==> UniqueDocIds(collections[u])
    }

    /**
     * `addLikedSongToFirestore(userId, song)`: true when the song is liked
     * afterwards; a missing database or a failed read or write answers false
     * and changes nothing.
     */
    method AddLikedSong(userId: string, song: Song, now: int, readOk: bool, writeOk: bool) returns (ok: bool)
      requires Valid()
      modifies this
      ensures Valid()
      ensures ok <==> hasDb && readOk && (HasDoc(old(Docs(userId)), song.id) || writeOk)
      ensures collections == (if ok && !HasDoc(old(Docs(userId)), song.id)
        then old(collections)[userId := AfterAdd(old(Docs(userId)), song, now)] else old(collections))
      ensures ok ==> Docs(userId) == AfterAdd(old(Docs(userId)), song, now)
    {
      if !hasDb || !readOk {
        return false;
      }
      var docs := Docs(userId);
      if HasDoc(docs, song.id) {
        return true;
      }
      if !writeOk {
        return false;
      }
      AddIdempotent(docs, song, now, now);
      collections := collections[userId := docs + [LikedDoc(song.id, LikedData(song, now))]];
      ok := true;
    }

    /** The `forEach` of `removeLikedSongFromFirestore` that remembers the last matching document. */
    static method FindLastMatch(docs: seq<LikedDoc>, songId: string) returns (found: Option<string>)
      ensures found == LastMatch(docs, songId)
    {
      found := None;
      var i := 0;
      while i < |docs|
        invariant 0 <= i <= |docs|
        invariant found == LastMatch(docs[..i], songId)
      {
        assert docs[..i + 1][..i] == docs[..i];
        if docs[i].docId == songId || Get(docs[i].data, "id") == JStr(songId) {
          found := Some(docs[i].docId);
        }
        i := i + 1;
      }
      assert docs[..i] == docs;
    }

    /**
     * `removeLikedSongFromFirestore(userId, songId)`: true exactly when a
     * document was deleted, the one `RemoveTarget` names.
     */
    method RemoveLikedSong(userId: string, songId: string, readOk: bool, writeOk: bool) returns (ok: bool)
      requires Valid()
      modifies this
      ensures Valid()
      ensures ok <==> hasDb && readOk && writeOk && RemoveTarget(old(Docs(userId)), songId).Some?
      ensures ok ==> collections == old(collections)[userId := WithoutDoc(old(Docs(userId)), RemoveTarget(old(Docs(userId)), songId).value)]
      ensures !ok ==> collections == old(collections)
    {
      if !hasDb || !readOk {
        return false;
      }
      var docs := Docs(userId);
      var target: Option<string>;
      if HasDoc(docs, songId) {
        target := Some(songId);
      } else {
        var foundDocId := FindLastMatch(docs, songId);
        if foundDocId.Some? && foundDocId.value != "" && foundDocId.value != songId {
          target := foundDocId;
        } else {
          target := None;
        }
      }
      if target.None? || !writeOk {
        return false;
      }
      var kept := WithoutDoc(docs, target.value);
      assert UniqueDocIds(kept) by {
        FilterKeepsUnique(docs, target.value);
      }
      collections := collections[userId := kept];
      ok := true;
    }

    /** The `forEach` of `getLikedSongsFromFirestore`. */
    static method CollectLiked(docs: seq<LikedDoc>) returns (likedSongs: seq<LikedSong>)
      ensures likedSongs == LikedSongsOf(docs)
    {
      likedSongs := [];
      var i := 0;
      while i < |docs|
        invariant 0 <= i <= |docs|
        invariant likedSongs == LikedSongsOf(docs[..i])
      {
        assert docs[..i + 1][..i] == docs[..i];
        var songId := docs[i].docId;
        if songId != "" {
          likedSongs := likedSongs + [LikedSongOf(docs[i])];
        }
        i := i + 1;
      }
      assert docs[..i] == docs;
    }

    /**
     * `getLikedSongsFromFirestore(userId)`: the ordered query lists only the
     * documents that store `likedAt`; when it fails, the plain read lists
     * them all; a missing database or a failed plain read gives the empty list.
     */
    method GetLikedSongs(userId: string, orderedOk: bool, plainOk: bool) returns (r: seq<LikedSong>)
      ensures r == (if !hasDb then []
        else if orderedOk then LikedSongsOf(OrderedDocs(Docs(userId)))
        else if plainOk then LikedSongsOf(Docs(userId))
        else [])
    {
      if !hasDb {
        return [];
      }
      if orderedOk {
        r := CollectLiked(OrderedDocs(Docs(userId)));
      } else if plainOk {
        r := CollectLiked(Docs(userId));
      } else {
        r := [];
      }
    }
  }

  /** Deleting documents keeps the remaining ids unique. */
  lemma {:induction false} FilterKeepsUnique(docs: seq<LikedDoc>, id: string)
    requires UniqueDocIds(docs)
    ensures UniqueDocIds(WithoutDoc(docs, id))
    decreases |docs|
  {
    if |docs| > 0 {
      var rest := docs[1..];
      assert UniqueDocIds(rest) by {
        forall i, j | 0 <= i < j < |rest|
          ensures rest[i].docId != rest[j].docId
        {
          assert rest[i] == docs[i + 1] && rest[j] == docs[j + 1];
        }
      }
      FilterKeepsUnique(rest, id);
      if docs[0].docId != id {
        var r := WithoutDoc(rest, id);
        assert WithoutDoc(docs, id) == [docs[0]] + r;
        forall k | 0 <= k < |r|
          ensures r[k].docId != docs[0].docId
        {
          assert r[k] in rest;
          var m :| 0 <= m < |rest| && rest[m] == r[k];
          assert rest[m] == docs[m + 1];
        }
      } else {
        assert WithoutDoc(docs, id) == WithoutDoc(rest, id);
      }
    }
  }
}
