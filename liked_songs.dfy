// The liked-songs screen: the total-duration line of its header and the
// shuffle-play button, which shuffles a copy of the liked songs and plays its
// first entry with the shuffled list as the queue.

module LikedSongs {
  import opened Text
  import opened MusicData
  import opened Shuffle
  import opened PlayerContext
  import Storage

  // ---- the duration line ------------------------------------------------------------

  /** `songs.reduce((acc, s) => acc + (s.duration || 0), 0)`: a zero duration adds nothing. */
  function TotalDuration(songs: seq<Song>): int
    decreases |songs|
  {
    if |songs| == 0 then 0 else TotalDuration(songs[..|songs| - 1]) + songs[|songs| - 1].duration
  }

  /** The total of two lists played one after the other is the sum of their totals. */
  lemma {:induction false} TotalDurationAppend(a: seq<Song>, b: seq<Song>)
    ensures TotalDuration(a + b) == TotalDuration(a) + TotalDuration(b)
    decreases |b|
  {
    if |b| > 0 {
      assert (a + b)[..|a + b| - 1] == a + b[..|b| - 1];
      TotalDurationAppend(a, b[..|b| - 1]);
    } else {
      assert a + b == a;
    }
  }

  /** With no negative duration the total is at least every single song's duration. */
  lemma {:induction false} TotalDurationBounds(songs: seq<Song>)
    requires forall k :: 0 <= k < |songs| ==> songs[k].duration >= 0
    ensures TotalDuration(songs) >= 0
    ensures forall k :: 0 <= k < |songs| ==> TotalDuration(songs) >= songs[k].duration
    decreases |songs|
  {
    if |songs| > 0 {
      TotalDurationBounds(songs[..|songs| - 1]);
    }
  }

  /** `totalMinutes`: `Math.floor(total / 60)`; Dafny's division by a positive number is the floor. */
  function TotalMinutes(total: int): int {
    total / 60
  }

  /** `totalHours`: `Math.floor(totalMinutes / 60)`. */
  function TotalHours(total: int): int {
    TotalMinutes(total) / 60
  }

  /** The header's duration text: "H hr M min" from an hour on, otherwise "M min". */
  function DurationText(total: int): string {
    var minutes := TotalMinutes(total);
    var hours := TotalHours(total);
    if hours > 0 then IntToString(hours) + " hr " + IntToString(JsRem(minutes, 60)) + " min"
    else IntToString(minutes) + " min"
  }

  /** Reads a duration text back to whole minutes; None if it has neither shape. */
  function ReadDurationText(text: string): Option<int> {
    var parts := Split(text, ' ');
    if |parts| == 4 && parts[1] == "hr" && parts[3] == "min" && AllDigits(parts[0]) && AllDigits(parts[2])
    then Some(DigitsValue(parts[0]) * 60 + DigitsValue(parts[2]))
    else if |parts| == 2 && parts[1] == "min" && AllDigits(parts[0])
    then Some(DigitsValue(parts[0]))
    else None
  }

  lemma NumeralHasNoSpace(n: nat)
    ensures ' ' !in NatToString(n)
  {
    var s := NatToString(n);
    assert forall k :: 0 <= k < |s| ==> IsDigit(s[k]);
  }

  /** "H hr M min" reads back to H * 60 + M minutes. */
  lemma HourTextReadsBack(h: nat, m: nat)
    ensures ReadDurationText(IntToString(h) + " hr " + IntToString(m) + " min") == Some(h * 60 + m)
  {
    var hs, ms := NatToString(h), NatToString(m);
    NumeralHasNoSpace(h);
    NumeralHasNoSpace(m);
    NatToStringValue(h);
    NatToStringValue(m);
    var parts := [hs, "hr", ms, "min"];
    assert Join([ms, "min"], [' ']) == ms + " min" by { assert [ms, "min"][1..] == ["min"]; }
    assert Join(["hr", ms, "min"], [' ']) == "hr " + ms + " min" by { assert ["hr", ms, "min"][1..] == [ms, "min"]; }
    assert parts[1..] == ["hr", ms, "min"];
    assert hs + " hr " + ms + " min" == Join(parts, [' ']);
    SplitJoin(parts, ' ');
  }

  /** "M min" reads back to M minutes. */
  lemma MinuteTextReadsBack(m: nat)
    ensures ReadDurationText(IntToString(m) + " min") == Some(m)
  {
    var ms := NatToString(m);
    NumeralHasNoSpace(m);
    NatToStringValue(m);
    var parts := [ms, "min"];
    assert parts[1..] == ["min"];
    assert ms + " min" == Join(parts, [' ']);
    SplitJoin(parts, ' ');
  }

  /**
   * For a non-negative total the minutes are the whole minutes in it; the
   * hour form is used exactly from 3600 seconds on, its minute part is below
   * 60, and the text reads back to the whole minutes.
   */
  lemma DurationTextRules(total: int)
    requires total >= 0
    ensures 60 * TotalMinutes(total) <= total < 60 * TotalMinutes(total) + 60
    ensures TotalHours(total) > 0 <==> total >= 3600
    ensures TotalHours(total) > 0 ==>
      0 <= JsRem(TotalMinutes(total), 60) < 60 &&
      TotalHours(total) * 60 + JsRem(TotalMinutes(total), 60) == TotalMinutes(total)
    ensures ReadDurationText(DurationText(total)) == Some(TotalMinutes(total))
  {
    var minutes: nat := TotalMinutes(total);
    var hours: nat := TotalHours(total);
    if hours > 0 {
      HourTextReadsBack(hours, minutes % 60);
    } else {
      MinuteTextReadsBack(minutes);
    }
  }

  /** 3 hours 25 minutes and 7 seconds reads "3 hr 25 min"; 59 minutes reads "59 min". */
  lemma DurationTextExamples()
    ensures DurationText(12307) == "3 hr 25 min"
    ensures DurationText(3599) == "59 min"
  {
    assert NatToString(25) == NatToString(2) + [DigitChar(5)];
    assert NatToString(59) == NatToString(5) + [DigitChar(9)];
  }

  // ---- shuffle play ---------------------------------------------------------------------

  /** What `handleShufflePlay` does to the player: nothing without liked songs. */
  function ShufflePlay(s: PlayerState, rolls: seq<nat>, loadOk: bool): PlayerState {
    if |s.likedSongs| == 0 then s
    else
      var q := FisherYates(s.likedSongs, rolls);
      AfterPlaySong(s, q[0], Some(q), loadOk)
  }

  /**
   * Without liked songs shuffle play changes nothing. Otherwise the queue and
   * the snapshot are a permutation of the liked songs, their first entry is
   * the current song, and the current index is at 0.
   */
  lemma ShufflePlayRules(s: PlayerState, rolls: seq<nat>, loadOk: bool)
    ensures |s.likedSongs| == 0 ==> ShufflePlay(s, rolls, loadOk) == s
    ensures |s.likedSongs| > 0 ==>
      var r := ShufflePlay(s, rolls, loadOk);
      multiset(r.original) == multiset(s.likedSongs) && |r.original| == |s.likedSongs| &&
      r.queue == Lift(r.original) &&
      r.queueIndex == 0 && r.currentSong == Some(r.original[0]) &&
      r.likedSongs == s.likedSongs && r.repeat == s.repeat && r.shuffled == s.shuffled
  {
    if |s.likedSongs| > 0 {
      var q := FisherYates(s.likedSongs, rolls);
      FisherYatesPermutes(s.likedSongs, rolls);
      PlaySongResolves(s, q[0], Some(q), loadOk);
    }
  }

  /** `handleShufflePlay` on the player's liked songs. */
  method HandleShufflePlay(p: Player, rolls: seq<nat>, loadOk: bool, now: int)
    modifies p, p.store
    ensures p.State() == ShufflePlay(old(p.State()), rolls, loadOk)
    ensures old(p.likedSongs) == [] ==> unchanged(p.store)
    ensures old(p.likedSongs) != [] ==>
      p.store.Snapshot() == old(p.store.Snapshot()).(recent := Storage.RecentAfter(old(p.store.recent),
        Some(FisherYates(old(p.likedSongs), rolls)[0]), now))
  {
    var songs := p.likedSongs;
    if |songs| == 0 {
      return;
    }
    var shuffled := ShuffledCopy(songs, rolls);
    p.PlaySong(shuffled[0], Some(shuffled), loadOk, now);
  }
}
