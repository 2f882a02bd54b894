// The queue screen: the "Up Next" list is the part of the queue after the
// current index, and its row i stands for the queue's absolute index
// queueIndex + 1 + i, which is what the row's play and remove buttons use.

module QueueScreen {
  import opened Text
  import opened Lists
  import opened MusicData
  import opened PlayerContext

  /** `queue.slice(queueIndex + 1)`. */
  function UpNext(s: PlayerState): seq<Option<Song>> {
    SliceFrom(s.queue, s.queueIndex + 1)
  }

  /** The absolute queue index of up-next row i. */
  function RowIndex(s: PlayerState, i: int): int {
    s.queueIndex + 1 + i
  }

  /**
   * With the current index in the queue (or just before it), up next is exactly
   * the entries after the current index, empty when the current entry is the last,
   * and row i shows the entry at `RowIndex(s, i)`, which lies after the
   * current index.
   */
  lemma UpNextRules(s: PlayerState)
    requires -1 <= s.queueIndex < |s.queue|
    ensures UpNext(s) == s.queue[s.queueIndex + 1..]
    ensures UpNext(s) == [] <==> s.queueIndex == |s.queue| - 1
    ensures forall i :: 0 <= i < |UpNext(s)| ==>
      s.queueIndex < RowIndex(s, i) < |s.queue| && UpNext(s)[i] == s.queue[RowIndex(s, i)]
  {
  }

  /** `handleRemove(queueIndex + 1 + i)` from up-next row i. */
  function RemoveRow(s: PlayerState, i: int): PlayerState {
    AfterRemoveFromQueue(s, RowIndex(s, i))
  }

  /**
   * Removing an up-next row never moves the current index or changes the current
   * entry or anything before it; up next loses exactly that row.
   */
  lemma RemoveRowKeepsCurrent(s: PlayerState, i: int)
    requires 0 <= s.queueIndex < |s.queue|
    requires 0 <= i < |UpNext(s)|
    ensures var r := RemoveRow(s, i);
      r.queueIndex == s.queueIndex &&
      At(r.queue, r.queueIndex) == At(s.queue, s.queueIndex) &&
      r.queue[..s.queueIndex + 1] == s.queue[..s.queueIndex + 1] &&
      UpNext(r) == RemoveAt(UpNext(s), i) &&
      r.currentSong == s.currentSong
  {
    var k := RowIndex(s, i);
    RemoveKeepsCurrent(s, k);
    var r := RemoveRow(s, i);
    var n := s.queueIndex + 1;
    assert r.queue == s.queue[..k] + s.queue[k + 1..];
    assert r.queue[..n] == s.queue[..n];
    assert UpNext(r) == r.queue[n..];
    assert r.queue[n..] == s.queue[n..k] + s.queue[k + 1..];
    assert UpNext(s)[..i] == s.queue[n..k];
    assert UpNext(s)[i + 1..] == s.queue[k + 1..];
  }

  /** Every entry of the queue is a song (none is undefined). */
  predicate AllSongs(q: seq<Option<Song>>) {
    forall k :: 0 <= k < |q| ==> q[k].Some?
  }

  /** The queue's songs, for a queue with no undefined entry. */
  function Songs(q: seq<Option<Song>>): (r: seq<Song>)
    requires AllSongs(q)
    ensures Lift(r) == q
  {
    var r := seq(|q|, k requires 0 <= k < |q| => q[k].value);
    assert Lift(r) == q;
    r
  }

  /** `handleSongPress(song, …)` on up-next row i: `playSong(song, queue)`. */
  function PressRow(s: PlayerState, i: int, loadOk: bool): PlayerState
    requires AllSongs(s.queue)
    requires 0 <= i < |UpNext(s)|
  {
    AfterPlaySong(s, UpNext(s)[i].value, Some(Songs(s.queue)), loadOk)
  }

  /**
   * Pressing a row replays the whole queue (the queue itself is unchanged)
   * with that row's song as the current song. The current index is re-resolved as
   * the first entry with the song's id: the row's own index when no earlier
   * entry shares its id, otherwise an earlier copy's index.
   */
  lemma PressRowFindsFirstCopy(s: PlayerState, i: int, loadOk: bool)
    requires 0 <= s.queueIndex < |s.queue|
    requires AllSongs(s.queue)
    requires 0 <= i < |UpNext(s)|
    ensures var r := PressRow(s, i, loadOk);
      var song := UpNext(s)[i].value;
      r.queue == s.queue && r.currentSong == UpNext(s)[i] &&
      0 <= r.queueIndex <= RowIndex(s, i) &&
      r.queue[r.queueIndex].value.id == song.id &&
      (r.queueIndex == RowIndex(s, i) <==> forall j :: 0 <= j < RowIndex(s, i) ==> s.queue[j].value.id != song.id)
  {
    var q := Songs(s.queue);
    var k := RowIndex(s, i);
    var song := UpNext(s)[i].value;
    assert q[k] == song;
    PlaySongResolves(s, song, Some(q), loadOk);
  }
}
