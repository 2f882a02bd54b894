// lib/musicData.ts: the Song and Playlist records of the app, the conversion
// of JioSaavn catalog records into them, best-quality image and audio
// selection, and the "m:ss" duration format.

module MusicData {
  import opened Text
  import opened Js

  datatype Source = JioSaavn | Local

  /** The app's song record. Optional TypeScript fields are `Option`s. */
  datatype Song = Song(
    id: string,
    title: string,
    artist: string,
    album: string,
    duration: int,
    coverUrl: string,
    genre: string,
    audioUrl: string,
    year: Option<string>,
    language: Option<string>,
    hasLyrics: Option<bool>,
    source: Option<Source>)

  /** An entry of a JioSaavn `image` or `downloadUrl` list. */
  datatype Image = Image(quality: string, url: string)

  datatype Artist = Artist(name: string)

  /**
   * A JioSaavn song as received. Fields read with `?.` or `||` defaults are
   * `Option`s or may be "" / 0; `None` stands for a missing field.
   */
  datatype JioSaavnSong = JioSaavnSong(
    id: string,
    name: string,
    year: Option<string>,
    duration: Num,
    language: Option<string>,
    hasLyrics: Option<bool>,
    albumName: Option<string>,
    primaryArtists: Option<seq<Artist>>,
    image: Option<seq<Image>>,
    downloadUrl: Option<seq<Image>>)

  datatype JioSaavnPlaylist = JioSaavnPlaylist(
    id: string,
    name: string,
    image: Option<seq<Image>>,
    songCount: Option<int>,
    description: Option<string>,
    songs: Option<seq<JioSaavnSong>>)

  /** The app's playlist record. */
  datatype Playlist = Playlist(
    id: string,
    name: string,
    description: string,
    coverUrl: string,
    songs: seq<string>,
    songData: Option<seq<Song>>,
    isUserCreated: Option<bool>,
    isJioSaavn: Option<bool>,
    jiosaavnId: Option<string>,
    songCount: Option<int>)

  // ---- best-quality selection ------------------------------------------------------

  /** Quality order of images; unknown qualities rank 0. */
  function ImageRank(quality: string): nat {
    if quality == "500x500" then 3
    else if quality == "150x150" then 2
    else if quality == "50x50" then 1
    else 0
  }

  /** Quality order of audio streams; "12kbps" and unknown qualities both rank 0. */
  function AudioRank(quality: string): nat {
    if quality == "320kbps" then 4
    else if quality == "160kbps" then 3
    else if quality == "96kbps" then 2
    else if quality == "48kbps" then 1
    else if quality == "12kbps" then 0
    else 0
  }

  /**
   * Position of the head of a stable descending sort by rank: the first
   * entry whose rank is maximal. `useAudio` picks the audio order.
   */
  function BestIndex(items: seq<Image>, useAudio: bool): (k: nat)
    requires |items| > 0
    ensures k < |items|
    ensures forall j :: 0 <= j < |items| ==> Rank(items[j], useAudio) <= Rank(items[k], useAudio)
    ensures forall j :: 0 <= j < k ==> Rank(items[j], useAudio) < Rank(items[k], useAudio)
    decreases |items|
  {
    if |items| == 1 then 0
    else
      var rest := BestIndex(items[1..], useAudio) + 1;
      assert forall j :: 1 <= j < |items| ==> items[j] == items[1..][j - 1];
      if Rank(items[0], useAudio) >= Rank(items[rest], useAudio) then 0 else rest
  }

  function Rank(img: Image, useAudio: bool): nat {
    if useAudio then AudioRank(img.quality) else ImageRank(img.quality)
  }

  /** `getBestImageUrl`: "" for a missing or empty list, else the best entry's url. */
  function BestImageUrl(images: Option<seq<Image>>): string {
    if images.None? || |images.value| == 0 then ""
    else images.value[BestIndex(images.value, false)].url
  }

  /** `getBestAudioUrl`: "" for a missing or empty list, else the best entry's url. */
  function BestAudioUrl(urls: Option<seq<Image>>): string {
    if urls.None? || |urls.value| == 0 then ""
    else urls.value[BestIndex(urls.value, true)].url
  }

  /**
   * The image picked is the first one of the highest quality present, and
   * the result is "" or a url taken from the list.
   */
  lemma BestImageUrlIsFirstOfBestQuality(images: seq<Image>)
    ensures images == [] ==> BestImageUrl(Some(images)) == ""
    ensures images != [] ==>
      exists k :: 0 <= k < |images| && BestImageUrl(Some(images)) == images[k].url
        && (forall j :: 0 <= j < |images| ==> ImageRank(images[j].quality) <= ImageRank(images[k].quality))
        && (forall j :: 0 <= j < k ==> ImageRank(images[j].quality) < ImageRank(images[k].quality))
  {
    if images != [] {
      var k := BestIndex(images, false);
      assert forall j :: 0 <= j < |images| ==> Rank(images[j], false) == ImageRank(images[j].quality);
    }
  }

  /** The audio stream picked is the first one of the highest bitrate present. */
  lemma BestAudioUrlIsFirstOfBestQuality(urls: seq<Image>)
    ensures urls == [] ==> BestAudioUrl(Some(urls)) == ""
    ensures urls != [] ==>
      exists k :: 0 <= k < |urls| && BestAudioUrl(Some(urls)) == urls[k].url
        && (forall j :: 0 <= j < |urls| ==> AudioRank(urls[j].quality) <= AudioRank(urls[k].quality))
        && (forall j :: 0 <= j < k ==> AudioRank(urls[j].quality) < AudioRank(urls[k].quality))
  {
    if urls != [] {
      var k := BestIndex(urls, true);
      assert forall j :: 0 <= j < |urls| ==> Rank(urls[j], true) == AudioRank(urls[j].quality);
    }
  }

  /** A 320kbps stream, when present, is always the one chosen over others. */
  lemma BestAudioPrefers320(urls: seq<Image>, i: nat)
    requires i < |urls| && urls[i].quality == "320kbps"
    ensures exists k :: 0 <= k <= i && urls[k].quality == "320kbps" && BestAudioUrl(Some(urls)) == urls[k].url
  {
    var k := BestIndex(urls, true);
    assert Rank(urls[i], true) == 4;
    assert Rank(urls[k], true) >= 4;
  }

  // ---- catalog conversion --------------------------------------------------------

  /** The artist text: primary names joined by ", ", or "Unknown Artist" when that is empty or missing. */
  function ArtistNames(primary: Option<seq<Artist>>): string {
    var joined := if primary.None? then "" else Join(Names(primary.value), ", ");
    if joined == "" then "Unknown Artist" else joined
  }

  function Names(artists: seq<Artist>): (r: seq<string>)
    ensures |r| == |artists|
    ensures forall i :: 0 <= i < |artists| ==> r[i] == artists[i].name
  {
    seq(|artists|, i requires 0 <= i < |artists| => artists[i].name)
  }

  /** `convertJioSaavnSong`. */
  function ConvertSong(s: JioSaavnSong): Song {
    Song(
      id := s.id,
      title := if s.name == "" then "Unknown" else s.name,
      artist := ArtistNames(s.primaryArtists),
      album := s.albumName.GetOr(""),
      duration := OrZero(s.duration),
      coverUrl := BestImageUrl(s.image),
      genre := s.language.GetOr(""),
      audioUrl := BestAudioUrl(s.downloadUrl),
      year := s.year,
      language := s.language,
      hasLyrics := s.hasLyrics,
      source := Some(JioSaavn))
  }

  /**
   * Converted songs keep their id and always come from JioSaavn; the title,
   * artist and genre fall back to "Unknown", "Unknown Artist" and "";
   * a missing or NaN duration becomes 0.
   */
  lemma ConvertSongDefaults(s: JioSaavnSong)
    ensures ConvertSong(s).id == s.id && ConvertSong(s).source == Some(JioSaavn)
    ensures ConvertSong(s).title == (if s.name == "" then "Unknown" else s.name)
    ensures s.primaryArtists.None? || s.primaryArtists == Some([]) ==> ConvertSong(s).artist == "Unknown Artist"
    ensures ConvertSong(s).artist != ""
    ensures ConvertSong(s).genre == s.language.GetOr("")
    ensures s.duration.Int? ==> ConvertSong(s).duration == s.duration.i
    ensures !s.duration.Int? ==> ConvertSong(s).duration == 0
    ensures s.image.None? ==> ConvertSong(s).coverUrl == ""
    ensures s.downloadUrl.None? ==> ConvertSong(s).audioUrl == ""
  {
  }

  function ConvertSongs(songs: seq<JioSaavnSong>): (r: seq<Song>)
    ensures |r| == |songs|
    ensures forall i :: 0 <= i < |songs| ==> r[i] == ConvertSong(songs[i])
  {
    seq(|songs|, i requires 0 <= i < |songs| => ConvertSong(songs[i]))
  }

  function Ids(songs: seq<Song>): (r: seq<string>)
    ensures |r| == |songs|
    ensures forall i :: 0 <= i < |songs| ==> r[i] == songs[i].id
  {
    seq(|songs|, i requires 0 <= i < |songs| => songs[i].id)
  }

  /** `convertJioSaavnPlaylist`. */
  function ConvertPlaylist(p: JioSaavnPlaylist): Playlist {
    var converted := if p.songs.None? then [] else ConvertSongs(p.songs.value);
    var desc := p.description.GetOr("");
    Playlist(
      id := "jiosaavn_" + p.id,
      name := p.name,
      description := if desc != "" then desc else IntToString(p.songCount.GetOr(0)) + " songs",
      coverUrl := BestImageUrl(p.image),
      songs := Ids(converted),
      songData := Some(converted),
      isUserCreated := None,
      isJioSaavn := Some(true),
      jiosaavnId := Some(p.id),
      songCount := p.songCount)
  }

  /**
   * A converted playlist is keyed "jiosaavn_<id>", lists exactly the ids of
   * its converted songs in order, and describes itself by its song count when
   * it has no description.
   */
  lemma ConvertPlaylistShape(p: JioSaavnPlaylist)
    ensures IsPrefix("jiosaavn_", ConvertPlaylist(p).id)
    ensures ConvertPlaylist(p).id[|"jiosaavn_"|..] == p.id
    ensures ConvertPlaylist(p).songData.Some?
    ensures |ConvertPlaylist(p).songs| == |ConvertPlaylist(p).songData.value|
            == (if p.songs.None? then 0 else |p.songs.value|)
    ensures forall i :: 0 <= i < |ConvertPlaylist(p).songs| ==>
              ConvertPlaylist(p).songs[i] == ConvertPlaylist(p).songData.value[i].id == p.songs.value[i].id
    ensures p.description.GetOr("") == "" ==>
              ConvertPlaylist(p).description == IntToString(p.songCount.GetOr(0)) + " songs"
  {
    var r := ConvertPlaylist(p);
    assert r.id == "jiosaavn_" + p.id;
    assert r.id[..|"jiosaavn_"|] == "jiosaavn_";
  }

  // ---- duration text ----------------------------------------------------------------

  /** JavaScript's `%` on integers: the remainder takes the sign of the dividend. */
  function JsRem(a: int, b: int): int
    requires b > 0
  {
    if a >= 0 then a % b else -((-a) % b)
  }

  /** `x.toString().padStart(2, "0")`. */
  function PadTwo(s: string): (r: string) {
    if |s| >= 2 then s else seq(2 - |s|, _ => '0') + s
  }

  /** `formatDuration(seconds)` for whole seconds: "m:ss". */
  function FormatDuration(seconds: int): string {
    IntToString(seconds / 60) + ":" + PadTwo(IntToString(JsRem(seconds, 60)))
  }

  /** Reads an "m:ss" text back to seconds; None if it is not of that shape. */
  function ParseDuration(text: string): Option<nat> {
    var parts := Split(text, ':');
    if |parts| == 2 && AllDigits(parts[0]) && AllDigits(parts[1]) && |parts[1]| == 2
    then Some(DigitsValue(parts[0]) * 60 + DigitsValue(parts[1]))
    else None
  }

  /** The padded seconds are exactly two digits that read back as the seconds. */
  lemma SecondsText(sec: nat)
    requires sec < 60
    ensures var s := PadTwo(NatToString(sec));
      |s| == 2 && AllDigits(s) && DigitsValue(s) == sec && ':' !in s
  {
    var s := PadTwo(NatToString(sec));
    NatToStringValue(sec);
    if sec < 10 {
      assert s == ['0', DigitChar(sec)];
      assert s[..1] == ['0'];
    } else {
      assert s == NatToString(sec);
      assert |NatToString(sec / 10)| == 1;
    }
    assert ':' !in s by {
      assert forall k :: 0 <= k < |s| ==> IsDigit(s[k]);
    }
  }

  /**
   * For a non-negative duration the text is minutes, a colon, and exactly two
   * digits of seconds below 60, and it reads back to the same number of seconds.
   */
  lemma {:induction false} FormatDurationRoundTrip(seconds: nat)
    ensures var parts := Split(FormatDuration(seconds), ':');
      |parts| == 2 && parts[0] == NatToString(seconds / 60) && |parts[1]| == 2
      && AllDigits(parts[1]) && DigitsValue(parts[1]) == seconds % 60 < 60
    ensures ParseDuration(FormatDuration(seconds)) == Some(seconds)
  {
    var m := NatToString(seconds / 60);
    var s := PadTwo(NatToString(seconds % 60));
    assert FormatDuration(seconds) == m + [':'] + s;
    SecondsText(seconds % 60);
    NatToStringValue(seconds / 60);
    assert ':' !in m by {
      assert forall k :: 0 <= k < |m| ==> IsDigit(m[k]);
    }
    SplitJoin([m, s], ':');
    assert Join([m, s], [':']) == m + [':'] + Join([s], [':']);
    NatToStringValue(seconds / 60);
  }
}
