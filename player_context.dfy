// contexts/PlayerContext.tsx: the playback queue state machine. The player
// keeps an ordered queue with a current index into it, the snapshot taken before
// shuffling, the repeat mode, the shuffle flag and the liked-songs lists.
// The audio engine is an opaque device that receives commands (they are
// recorded in `device`), remote liked-song writes are recorded in `remote`,
// and the device-local library is a `Storage.LocalLibrary`.

module PlayerContext {
  import opened Text
  import opened Lists
  import opened MusicData
  import opened Shuffle
  import Storage

  datatype RepeatMode = Off | All | One

  /** Calls made on the loaded sound. */
  datatype Command = Unload | Create(url: string) | Replay | SeekStart | Play | Pause

  /** Remote liked-song writes, made only for a signed-in user. */
  datatype RemoteCall = RemoteAdd(user: string, song: Song) | RemoteRemove(user: string, songId: string)

  /**
   * The player's state. Queue entries are optional because reading past the
   * end of the queue yields undefined and shuffling can put that value at the
   * head of the queue; `sound` is the url of the loaded sound, if any.
   */
  datatype PlayerState = PlayerState(
    currentSong: Option<Song>,
    queue: seq<Option<Song>>,
    queueIndex: int,
    original: seq<Song>,
    isPlaying: bool,
    isLoading: bool,
    positionMillis: int,
    duration: int,
    shuffled: bool,
    repeat: RepeatMode,
    likedIds: seq<string>,
    likedSongs: seq<Song>,
    sound: Option<string>,
    device: seq<Command>,
    remote: seq<RemoteCall>)

  const Initial: PlayerState :=
    PlayerState(None, [], 0, [], false, false, 0, 0, false, Off, [], [], None, [], [])

  /** `queue[i]`: undefined (None) outside the queue. */
  function At(q: seq<Option<Song>>, i: int): Option<Song> {
    if 0 <= i < |q| then q[i] else None
  }

  function Lift(s: seq<Song>): (r: seq<Option<Song>>)
    ensures |r| == |s|
    ensures forall i :: 0 <= i < |s| ==> r[i] == Some(s[i])
  {
    seq(|s|, i requires 0 <= i < |s| => Some(s[i]))
  }

  /** `q.findIndex(s => s.id === id)`. */
  function IndexOfId(q: seq<Song>, id: string): (i: int)
    ensures -1 <= i < |q|
    ensures i >= 0 ==> q[i].id == id && forall j :: 0 <= j < i ==> q[j].id != id
    ensures i == -1 <==> forall j :: 0 <= j < |q| ==> q[j].id != id
  {
    FindIndex(q, (s: Song) => s.id == id)
  }

  /** A found index, or 0 when there is none. */
  function OrFirst(i: int): int {
    if i >= 0 then i else 0
  }

  // ---- loading a song ---------------------------------------------------------------

  /**
   * `loadAndPlaySong(song, newQueue, newIndex)`: unload the previous sound,
   * make the song current, install a new queue (which also becomes the
   * shuffle snapshot) and index when given, and create a sound when the song
   * has an audio url. `loadOk` is whether the device created the sound.
   */
  function Load(s: PlayerState, song: Song, newQueue: Option<seq<Song>>, newIndex: Option<int>, loadOk: bool): PlayerState {
    var hasUrl := song.audioUrl != "";
    s.(isLoading := false,
       currentSong := Some(song),
       positionMillis := 0,
       queue := if newQueue.Some? then Lift(newQueue.value) else s.queue,
       original := if newQueue.Some? then newQueue.value else s.original,
       queueIndex := newIndex.GetOr(s.queueIndex),
       device := s.device + (if s.sound.Some? then [Unload] else []) + (if hasUrl then [Create(song.audioUrl)] else []),
       sound := if hasUrl && loadOk then Some(song.audioUrl) else None,
       isPlaying := if hasUrl && loadOk then true else s.isPlaying)
  }

  // The stages `loadAndPlaySong` goes through, in its order.

  /** The previous sound, if any, is unloaded and dropped. */
  function Unloaded(s: PlayerState): PlayerState {
    if s.sound.Some? then s.(device := s.device + [Unload], sound := None) else s
  }

  /** The song becomes current at position 0; a given queue and index are installed. */
  function Installed(s: PlayerState, song: Song, newQueue: Option<seq<Song>>, newIndex: Option<int>): PlayerState {
    s.(currentSong := Some(song),
       positionMillis := 0,
       queue := if newQueue.Some? then Lift(newQueue.value) else s.queue,
       original := if newQueue.Some? then newQueue.value else s.original,
       queueIndex := newIndex.GetOr(s.queueIndex))
  }

  /** A sound is requested for a song with an audio url; it plays when the device created it. */
  function Started(s: PlayerState, song: Song, loadOk: bool): PlayerState {
    if song.audioUrl == "" then s
    else
      s.(device := s.device + [Create(song.audioUrl)],
         sound := if loadOk then Some(song.audioUrl) else s.sound,
         isPlaying := if loadOk then true else s.isPlaying)
  }

  lemma LoadStages(s: PlayerState, song: Song, newQueue: Option<seq<Song>>, newIndex: Option<int>, loadOk: bool)
    ensures Load(s, song, newQueue, newIndex, loadOk) ==
      Started(Installed(Unloaded(s.(isLoading := true)), song, newQueue, newIndex), song, loadOk).(isLoading := false)
  {
    var unloaded := if s.sound.Some? then [Unload] else [];
    var i := Installed(Unloaded(s.(isLoading := true)), song, newQueue, newIndex);
    assert i.device == s.device + unloaded && i.sound.None?;
    if song.audioUrl != "" {
      assert s.device + unloaded + [Create(song.audioUrl)] == i.device + [Create(song.audioUrl)];
    } else {
      assert s.device + unloaded + [] == i.device;
    }
  }

  /** `playSong(song, newQueue)`. */
  function AfterPlaySong(s: PlayerState, song: Song, newQueue: Option<seq<Song>>, loadOk: bool): PlayerState {
    var q := newQueue.GetOr([song]);
    Load(s, song, Some(q), Some(OrFirst(IndexOfId(q, song.id))), loadOk)
  }

  /**
   * `playSong` takes the given queue, or `[song]`, as both the queue and the
   * snapshot, points at the first entry with the song's id (0 if none), and
   * creates no sound for a song without audio url.
   */
  lemma PlaySongResolves(s: PlayerState, song: Song, newQueue: Option<seq<Song>>, loadOk: bool)
    ensures var r := AfterPlaySong(s, song, newQueue, loadOk);
      var q := if newQueue.Some? then newQueue.value else [song];
      r.currentSong == Some(song) &&
      r.queue == Lift(q) && r.original == q &&
      0 <= r.queueIndex &&
      (forall j :: 0 <= j < |q| && j < r.queueIndex ==> q[j].id != song.id) &&
      ((r.queueIndex < |q| && q[r.queueIndex].id == song.id) ||
       (r.queueIndex == 0 && forall j :: 0 <= j < |q| ==> q[j].id != song.id)) &&
      (song.audioUrl == "" ==> r.sound.None? && Create(song.audioUrl) !in r.device[|s.device|..]) &&
      r.repeat == s.repeat && r.shuffled == s.shuffled && r.likedIds == s.likedIds
  {
    var q := if newQueue.Some? then newQueue.value else [song];
    var r := AfterPlaySong(s, song, newQueue, loadOk);
    if song.audioUrl == "" {
      assert r.device[|s.device|..] == if s.sound.Some? then [Unload] else [];
    }
  }

  // ---- moving through the queue -----------------------------------------------------------

  /** What an end-of-track, next or previous request does to the queue and its current index. */
  datatype Step = Stay | Stop | ReplayTrack | Restart | Goto(index: int)

  /** `handleSongFinished`'s decision. */
  function FinishStep(len: nat, ci: int, repeat: RepeatMode): Step {
    if repeat == One then ReplayTrack
    else if ci + 1 >= len then (if repeat == All then Goto(0) else Stop)
    else Goto(ci + 1)
  }

  /** `nextSong`'s decision. */
  function NextStep(len: nat, ci: int, repeat: RepeatMode): Step {
    if len == 0 then Stay
    else if ci + 1 >= len then (if repeat == All then Goto(0) else Stay)
    else Goto(ci + 1)
  }

  /** `prevSong`'s decision: after three seconds it restarts the track. */
  function PrevStep(len: nat, ci: int, positionMillis: int): Step {
    if len == 0 then Stay
    else if positionMillis > 3000 then Restart
    else if ci - 1 < 0 then Goto(len - 1)
    else Goto(ci - 1)
  }

  function Apply(s: PlayerState, step: Step, loadOk: bool): PlayerState {
    match step
    case Stay => s
    case Stop => s.(isPlaying := false, positionMillis := 0)
    case ReplayTrack => s.(device := s.device + if s.sound.Some? then [Command.Replay] else [])
    case Restart => s.(device := s.device + if s.sound.Some? then [SeekStart] else [])
    case Goto(i) =>
      if At(s.queue, i).Some? then Load(s, At(s.queue, i).value, None, Some(i), loadOk) else s
  }

  /** The song a step starts loading, if any (it is also recorded as recently played). */
  function Played(s: PlayerState, step: Step): Option<Song> {
    if step.Goto? then At(s.queue, step.index) else None
  }

  function Finished(s: PlayerState, loadOk: bool): PlayerState {
    Apply(s, FinishStep(|s.queue|, s.queueIndex, s.repeat), loadOk)
  }

  function Next(s: PlayerState, loadOk: bool): PlayerState {
    Apply(s, NextStep(|s.queue|, s.queueIndex, s.repeat), loadOk)
  }

  function Prev(s: PlayerState, loadOk: bool): PlayerState {
    Apply(s, PrevStep(|s.queue|, s.queueIndex, s.positionMillis), loadOk)
  }

  /** With repeat one a finished track is replayed; the queue and the current index never move. */
  lemma FinishRepeatOne(s: PlayerState, loadOk: bool)
    requires s.repeat == One
    ensures var r := Finished(s, loadOk);
      r.queue == s.queue && r.queueIndex == s.queueIndex && r.currentSong == s.currentSong &&
      r.device == s.device + (if s.sound.Some? then [Command.Replay] else [])
  {
  }

  /**
   * When the last track finishes, repeat all loads the first entry and repeat
   * off stops in place: playing off, position 0, same song and current index.
   */
  lemma FinishLast(s: PlayerState, loadOk: bool)
    requires |s.queue| > 0 && s.queueIndex == |s.queue| - 1
    ensures s.repeat == All && s.queue[0].Some? ==>
      Finished(s, loadOk).queueIndex == 0 && Finished(s, loadOk).currentSong == s.queue[0]
    ensures s.repeat == Off ==>
      Finished(s, loadOk) == s.(isPlaying := false, positionMillis := 0)
  {
  }

  /** Otherwise a finished track advances to the next entry. */
  lemma FinishAdvances(s: PlayerState, loadOk: bool)
    requires s.repeat != One && 0 <= s.queueIndex < |s.queue| - 1 && s.queue[s.queueIndex + 1].Some?
    ensures Finished(s, loadOk).queueIndex == s.queueIndex + 1
    ensures Finished(s, loadOk).currentSong == s.queue[s.queueIndex + 1]
    ensures Finished(s, loadOk).queue == s.queue
  {
  }

  /**
   * `nextSong` does nothing on an empty queue or at the last entry unless
   * repeat is all, and treats repeat one like repeat off.
   */
  lemma NextRules(s: PlayerState, loadOk: bool)
    ensures |s.queue| == 0 ==> Next(s, loadOk) == s
    ensures s.queueIndex == |s.queue| - 1 && s.repeat != All ==> Next(s, loadOk) == s
    ensures Next(s, loadOk) == Next(s.(repeat := if s.repeat == One then Off else s.repeat), loadOk).(repeat := s.repeat)
  {
  }

  /**
   * `prevSong` after three seconds seeks to 0 and keeps the current index;
   * otherwise it goes one entry back, wrapping from the first to the last.
   */
  lemma PrevRules(s: PlayerState, loadOk: bool)
    requires |s.queue| > 0
    ensures s.positionMillis > 3000 ==>
      Prev(s, loadOk) == s.(device := s.device + if s.sound.Some? then [SeekStart] else [])
    ensures s.positionMillis <= 3000 ==>
      PrevStep(|s.queue|, s.queueIndex, s.positionMillis) ==
        Goto(if s.queueIndex <= 0 then |s.queue| - 1 else s.queueIndex - 1)
  {
  }

  /** Previous undoes next: from a valid current index, stepping forward and then back returns to it. */
  lemma PrevUndoesNext(len: nat, ci: int, repeat: RepeatMode)
    requires 0 <= ci < len
    requires NextStep(len, ci, repeat).Goto?
    ensures PrevStep(len, NextStep(len, ci, repeat).index, 0) == Goto(ci)
  {
  }

  /** Every step taken from a valid current index lands inside the queue. */
  lemma StepsStayInQueue(len: nat, ci: int, repeat: RepeatMode, pos: int)
    requires 0 <= ci < len
    ensures FinishStep(len, ci, repeat).Goto? ==> 0 <= FinishStep(len, ci, repeat).index < len
    ensures NextStep(len, ci, repeat).Goto? ==> 0 <= NextStep(len, ci, repeat).index < len
    ensures PrevStep(len, ci, pos).Goto? ==> 0 <= PrevStep(len, ci, pos).index < len
  {
  }

  // ---- play / pause and device status ------------------------------------------------------

  /** What the device reports when asked for (or pushes) its status. */
  datatype DeviceStatus = DeviceStatus(
    isLoaded: bool, positionMillis: int, durationMillis: Option<int>,
    isPlaying: bool, isBuffering: bool, didJustFinish: bool)

  /** `togglePlay`: pause a playing sound, play a paused one; nothing without a loaded sound. */
  function AfterTogglePlay(s: PlayerState, status: DeviceStatus): PlayerState {
    if s.sound.None? || !status.isLoaded then s
    else s.(device := s.device + [if status.isPlaying then Pause else Play])
  }

  /** `onPlaybackStatusUpdate`: copy the status, and handle a finished track. */
  function StatusUpdate(s: PlayerState, status: DeviceStatus, loadOk: bool): PlayerState {
    if !status.isLoaded then s
    else
      var d := if status.durationMillis.Some? && status.durationMillis.value != 0
        then status.durationMillis.value else s.duration;
      var t := s.(positionMillis := status.positionMillis, duration := d,
                  isPlaying := status.isPlaying, isLoading := status.isBuffering);
      if status.didJustFinish then Finished(t, loadOk) else t
  }

  /** The song a status update starts loading, if any. */
  function StatusPlayed(s: PlayerState, status: DeviceStatus): Option<Song> {
    if status.isLoaded && status.didJustFinish
    then Played(s, FinishStep(|s.queue|, s.queueIndex, s.repeat))
    else None
  }

  /** A status update never edits the queue, and an unloaded status changes nothing at all. */
  lemma StatusUpdateKeepsQueue(s: PlayerState, status: DeviceStatus, loadOk: bool)
    ensures StatusUpdate(s, status, loadOk).queue == s.queue
    ensures StatusUpdate(s, status, loadOk).original == s.original
    ensures !status.isLoaded ==> StatusUpdate(s, status, loadOk) == s
    ensures status.isLoaded && !status.didJustFinish ==>
      StatusUpdate(s, status, loadOk).isPlaying == status.isPlaying &&
      StatusUpdate(s, status, loadOk).positionMillis == status.positionMillis
  {
  }

  // ---- shuffle and repeat --------------------------------------------------------------

  /** Shuffle on: the current entry first, then the other entries in shuffled order. */
  function ShuffleOn(s: PlayerState, rolls: seq<nat>): PlayerState {
    var cur := At(s.queue, s.queueIndex);
    var rest := RemoveAt(s.queue, s.queueIndex);
    s.(queue := [cur] + FisherYates(rest, rolls), queueIndex := 0, shuffled := true)
  }

  /** Shuffle off: back to the snapshot, at the first entry with the current song's id. */
  function ShuffleOff(s: PlayerState): PlayerState {
    var cs := At(s.queue, s.queueIndex);
    var idx := if cs.Some? then IndexOfId(s.original, cs.value.id) else -1;
    s.(queue := Lift(s.original), queueIndex := OrFirst(idx), shuffled := false)
  }

  function AfterToggleShuffle(s: PlayerState, rolls: seq<nat>): PlayerState {
    if !s.shuffled then ShuffleOn(s, rolls) else ShuffleOff(s)
  }

  lemma RemoveAtPermutes<T>(q: seq<T>, i: int)
    requires 0 <= i < |q|
    ensures multiset(q) == multiset{q[i]} + multiset(RemoveAt(q, i))
  {
    assert q == q[..i] + [q[i]] + q[i + 1..];
  }

  /**
   * Shuffle on yields a permutation of the queue whose first entry is the
   * song that was current, with the current index on it.
   */
  lemma ShuffleOnPermutes(s: PlayerState, rolls: seq<nat>)
    requires 0 <= s.queueIndex < |s.queue|
    ensures var r := ShuffleOn(s, rolls);
      multiset(r.queue) == multiset(s.queue) &&
      r.queue[0] == s.queue[s.queueIndex] && r.queueIndex == 0 &&
      r.original == s.original && r.currentSong == s.currentSong
  {
    var rest := RemoveAt(s.queue, s.queueIndex);
    RemoveAtPermutes(s.queue, s.queueIndex);
    FisherYatesPermutes(rest, rolls);
  }

  /**
   * Shuffling on and off again, with no queue edit in between, restores the
   * snapshot order and points at the first entry with the current song's id
   * (the same position when ids are unique).
   */
  lemma ShuffleRoundTrip(s: PlayerState, rolls: seq<nat>)
    requires !s.shuffled && s.queue == Lift(s.original)
    requires 0 <= s.queueIndex < |s.queue|
    ensures var r := AfterToggleShuffle(AfterToggleShuffle(s, rolls), rolls);
      r.queue == s.queue && !r.shuffled &&
      0 <= r.queueIndex <= s.queueIndex &&
      s.original[r.queueIndex].id == s.original[s.queueIndex].id
    ensures (forall i, j :: 0 <= i < j < |s.original| ==> s.original[i].id != s.original[j].id) ==>
      AfterToggleShuffle(AfterToggleShuffle(s, rolls), rolls).queueIndex == s.queueIndex
  {
    var on := ShuffleOn(s, rolls);
    assert on.queue[0] == Some(s.original[s.queueIndex]);
    assert At(on.queue, on.queueIndex) == Some(s.original[s.queueIndex]);
  }

  /** `toggleRepeat`: off → all → one → off. */
  function NextRepeat(r: RepeatMode): RepeatMode {
    match r
    case Off => All
    case All => One
    case One => Off
  }

  lemma RepeatCycles(r: RepeatMode)
    ensures NextRepeat(r) != r
    ensures NextRepeat(NextRepeat(NextRepeat(r))) == r
  {
  }

  // ---- queue edits ----------------------------------------------------------------------

  function AfterAddToQueue(s: PlayerState, song: Song): PlayerState {
    s.(queue := s.queue + [Some(song)])
  }

  /** `playNext`: `splice(queueIndex + 1, 0, song)`. */
  function AfterPlayNext(s: PlayerState, song: Song): PlayerState {
    s.(queue := InsertAt(s.queue, s.queueIndex + 1, Some(song)))
  }

  /** `removeFromQueue(index)`: drop that entry; an earlier index moves the current index back. */
  function AfterRemoveFromQueue(s: PlayerState, index: int): PlayerState {
    s.(queue := RemoveAt(s.queue, index),
       queueIndex := if index < s.queueIndex then s.queueIndex - 1 else s.queueIndex)
  }

  /** `clearQueue`: keep only the current song. */
  function AfterClearQueue(s: PlayerState): PlayerState {
    if s.currentSong.None? then s else s.(queue := [s.currentSong], queueIndex := 0)
  }

  /** `shuffleQueue`: shuffle what follows the current index. */
  function AfterShuffleQueue(s: PlayerState, rolls: seq<nat>): PlayerState {
    s.(queue := SliceTo(s.queue, s.queueIndex + 1) + FisherYates(SliceFrom(s.queue, s.queueIndex + 1), rolls))
  }

  /**
   * `addToQueue` appends and `playNext` inserts right after the current index;
   * neither moves the current index, changes the current entry or the snapshot.
   */
  lemma QueueInsertions(s: PlayerState, song: Song)
    requires 0 <= s.queueIndex < |s.queue|
    ensures var r := AfterAddToQueue(s, song);
      r.queue[..|s.queue|] == s.queue && r.queue[|s.queue|] == Some(song) &&
      r.queueIndex == s.queueIndex && r.original == s.original
    ensures var r := AfterPlayNext(s, song);
      |r.queue| == |s.queue| + 1 &&
      r.queue[..s.queueIndex + 1] == s.queue[..s.queueIndex + 1] &&
      r.queue[s.queueIndex + 1] == Some(song) &&
      r.queue[s.queueIndex + 2..] == s.queue[s.queueIndex + 1..] &&
      At(r.queue, r.queueIndex) == At(s.queue, s.queueIndex) &&
      r.queueIndex == s.queueIndex && r.original == s.original
  {
  }

  /**
   * `removeFromQueue(i)` deletes exactly entry i, moves the current index back iff
   * i is before it, and so keeps the current index on the same song unless the
   * current entry itself is removed.
   */
  lemma RemoveKeepsCurrent(s: PlayerState, i: int)
    requires 0 <= s.queueIndex < |s.queue| && 0 <= i < |s.queue|
    ensures var r := AfterRemoveFromQueue(s, i);
      |r.queue| == |s.queue| - 1 &&
      (forall j :: 0 <= j < |s.queue| && j != i ==> r.queue[if j < i then j else j - 1] == s.queue[j]) &&
      (r.queueIndex == s.queueIndex - 1 <==> i < s.queueIndex) &&
      (i != s.queueIndex ==> At(r.queue, r.queueIndex) == At(s.queue, s.queueIndex))
  {
    var r := AfterRemoveFromQueue(s, i);
    forall j | 0 <= j < |s.queue| && j != i
      ensures r.queue[if j < i then j else j - 1] == s.queue[j]
    {
      RemoveAtShifts(s.queue, i, j);
    }
  }

  /** `clearQueue` is a no-op without a current song, and otherwise leaves it alone at index 0. */
  lemma ClearQueueRules(s: PlayerState)
    ensures s.currentSong.None? ==> AfterClearQueue(s) == s
    ensures s.currentSong.Some? ==>
      AfterClearQueue(s).queue == [s.currentSong] && At(AfterClearQueue(s).queue, AfterClearQueue(s).queueIndex) == s.currentSong
  {
  }

  /** `shuffleQueue` keeps the entries up to the current index and permutes only those after it. */
  lemma ShuffleQueueKeepsPrefix(s: PlayerState, rolls: seq<nat>)
    requires -1 <= s.queueIndex < |s.queue|
    ensures var r := AfterShuffleQueue(s, rolls);
      |r.queue| == |s.queue| &&
      r.queue[..s.queueIndex + 1] == s.queue[..s.queueIndex + 1] &&
      multiset(r.queue[s.queueIndex + 1..]) == multiset(s.queue[s.queueIndex + 1..]) &&
      multiset(r.queue) == multiset(s.queue) &&
      r.queueIndex == s.queueIndex
  {
    var k := s.queueIndex + 1;
    FisherYatesPermutes(s.queue[k..], rolls);
    var r := AfterShuffleQueue(s, rolls);
    assert r.queue == s.queue[..k] + FisherYates(s.queue[k..], rolls);
    assert r.queue[k..] == FisherYates(s.queue[k..], rolls);
    assert s.queue == s.queue[..k] + s.queue[k..];
  }

  // ---- liked songs ------------------------------------------------------------------------

  /** `isLiked`. */
  predicate IsLiked(s: PlayerState, id: string) {
    id in s.likedIds
  }

  /** The remote call `toggleLike` makes: only for a signed-in user. */
  function LikeCall(user: string, song: Song, liked: bool): seq<RemoteCall> {
    if user == "" then [] else if liked then [RemoteRemove(user, song.id)] else [RemoteAdd(user, song)]
  }

  /** `toggleLike`: the local lists change first; the remote outcome is never applied back. */
  function AfterToggleLike(s: PlayerState, song: Song, user: string): PlayerState {
    var liked := song.id in s.likedIds;
    if liked then
      s.(likedIds := Storage.WithoutId(s.likedIds, song.id),
         likedSongs := Storage.WithoutSong(s.likedSongs, song.id),
         remote := s.remote + LikeCall(user, song, true))
    else
      s.(likedIds := [song.id] + s.likedIds,
         likedSongs := [song] + s.likedSongs,
         remote := s.remote + LikeCall(user, song, false))
  }

  /**
   * `toggleLike` flips `isLiked`; a remote write is attempted only for a
   * signed-in user; liking and unliking a song restores both lists.
   */
  lemma ToggleLikeFlips(s: PlayerState, song: Song, user: string)
    ensures IsLiked(AfterToggleLike(s, song, user), song.id) == !IsLiked(s, song.id)
    ensures user == "" ==> AfterToggleLike(s, song, user).remote == s.remote
    ensures user != "" ==> |AfterToggleLike(s, song, user).remote| == |s.remote| + 1
    ensures !IsLiked(s, song.id) && (forall x :: x in s.likedSongs ==> x.id != song.id) ==>
      var r := AfterToggleLike(AfterToggleLike(s, song, user), song, user);
      r.likedIds == s.likedIds && r.likedSongs == s.likedSongs
  {
    if !IsLiked(s, song.id) {
      Storage.RemoveLikedRemovesAll(s.likedIds, s.likedSongs, song.id);
      if forall x :: x in s.likedSongs ==> x.id != song.id {
        Storage.LikeThenUnlike(s.likedIds, s.likedSongs, song);
      }
    } else {
      Storage.RemoveLikedRemovesAll(s.likedIds, s.likedSongs, song.id);
    }
  }

  /** The remote adds made while syncing local liked songs: those the remote list lacks, in local order. */
  function SyncCalls(user: string, local: seq<Song>, fetched: seq<Song>): (r: seq<RemoteCall>)
    decreases |local|
  {
    if |local| == 0 then []
    else
      var last := local[|local| - 1];
      SyncCalls(user, local[..|local| - 1], fetched) +
        (if Storage.HasSong(fetched, last.id) then [] else [RemoteAdd(user, last)])
  }

  /** Each sync call adds a local song the remote list lacks, and every such song is added. */
  lemma {:induction false} SyncCallsExact(user: string, local: seq<Song>, fetched: seq<Song>)
    ensures forall c :: c in SyncCalls(user, local, fetched) ==>
      c.RemoteAdd? && c.user == user && c.song in local && !Storage.HasSong(fetched, c.song.id)
    ensures forall x :: x in local && !Storage.HasSong(fetched, x.id) ==> RemoteAdd(user, x) in SyncCalls(user, local, fetched)
    decreases |local|
  {
    if |local| > 0 {
      var init := local[..|local| - 1];
      SyncCallsExact(user, init, fetched);
      assert local == init + [local[|local| - 1]];
    }
  }

  /**
   * Loading liked songs: a guest reads the local lists; a signed-in user
   * gets the remote list (None: the read threw), re-read after syncing when
   * local songs exist. A throwing read falls back to the local lists; sync
   * writes already attempted stay attempted. The Firestore read catches its
   * own failures and answers [] (`Firestore.LikedStore.GetLikedSongs`), so a
   * failed read arrives as Some([]) and the fallback is taken only for a
   * failure outside it.
   */
  function LoadLiked(s: PlayerState, user: string, localIds: seq<string>, localData: seq<Song>,
                     fetched: Option<seq<Song>>, refetched: Option<seq<Song>>): PlayerState
  {
    var local := s.(likedIds := localIds, likedSongs := localData);
    if user == "" || fetched.None? then local
    else if |localData| > 0 then
      var synced := s.remote + SyncCalls(user, localData, fetched.value);
      if refetched.None? then local.(remote := synced)
      else s.(likedSongs := refetched.value, likedIds := Ids(refetched.value), remote := synced)
    else s.(likedSongs := fetched.value, likedIds := Ids(fetched.value))
  }

  /**
   * A guest load, or one whose first remote read throws, takes the local
   * lists and makes no remote call; a signed-in load whose reads succeed
   * mirrors the remote list (re-read after syncing when local songs exist).
   */
  lemma LoadLikedSources(s: PlayerState, user: string, localIds: seq<string>, localData: seq<Song>,
                         fetched: Option<seq<Song>>, refetched: Option<seq<Song>>)
    ensures user == "" || fetched.None? ==>
      var r := LoadLiked(s, user, localIds, localData, fetched, refetched);
      r.remote == s.remote && r.likedSongs == localData && r.likedIds == localIds
    ensures user != "" && fetched.Some? && (|localData| > 0 ==> refetched.Some?) ==>
      var r := LoadLiked(s, user, localIds, localData, fetched, refetched);
      r.likedIds == Ids(r.likedSongs) &&
      r.likedSongs == (if |localData| > 0 then refetched.value else fetched.value)
    ensures user != "" && fetched.Some? && |localData| > 0 ==>
      LoadLiked(s, user, localIds, localData, fetched, refetched).remote == s.remote + SyncCalls(user, localData, fetched.value)
  {
  }

  /**
   * A signed-in load whose remote reads fail answers [] from the catching
   * Firestore read, not the local lists: the liked list ends up empty, and
   * every local song is sent to the remote.
   */
  lemma FailedRemoteReadsEmptyTheList(s: PlayerState, user: string, localIds: seq<string>, localData: seq<Song>)
    requires user != ""
    ensures var r := LoadLiked(s, user, localIds, localData, Some([]), Some([]));
      r.likedSongs == [] && r.likedIds == [] &&
      forall x :: x in localData ==> RemoteAdd(user, x) in r.remote
  {
    SyncCallsExact(user, localData, []);
  }

  // ---- the player object ------------------------------------------------------------------

  class Player {
    var currentSong: Option<Song>
    var queue: seq<Option<Song>>
    var queueIndex: int
    var original: seq<Song>
    var isPlaying: bool
    var isLoading: bool
    var positionMillis: int
    var duration: int
    var shuffled: bool
    var repeat: RepeatMode
    var likedIds: seq<string>
    var likedSongs: seq<Song>
    var sound: Option<string>
    var device: seq<Command>
    var remote: seq<RemoteCall>
    /** The device-local library. */
    const store: Storage.LocalLibrary
    /** The signed-in user's id, or "" for a guest. */
    const user: string

    function State(): PlayerState
      reads this
    {
      PlayerState(currentSong, queue, queueIndex, original, isPlaying, isLoading, positionMillis,
                  duration, shuffled, repeat, likedIds, likedSongs, sound, device, remote)
    }

    constructor(store: Storage.LocalLibrary, user: string)
      ensures State() == Initial && this.store == store && this.user == user
    {
      currentSong := None;
      queue := [];
      queueIndex := 0;
      original := [];
      isPlaying := false;
      isLoading := false;
      positionMillis := 0;
      duration := 0;
      shuffled := false;
      repeat := Off;
      likedIds := [];
      likedSongs := [];
      sound := None;
      device := [];
      remote := [];
      this.store := store;
      this.user := user;
    }

    /** `isLiked`. */
    function IsLikedSong(id: string): (r: bool)
      reads this
      ensures r <==> IsLiked(State(), id)
    {
      id in likedIds
    }

    /** `loadAndPlaySong`; `loadOk` is whether the device created the sound. */
    method LoadAndPlaySong(song: Song, newQueue: Option<seq<Song>>, newIndex: Option<int>, loadOk: bool, now: int)
      modifies this, store
      ensures State() == Load(old(State()), song, newQueue, newIndex, loadOk)
      ensures store.Snapshot() == old(store.Snapshot()).(recent := Storage.RecentAfter(old(store.recent), Some(song), now))
    {
      LoadStages(State(), song, newQueue, newIndex, loadOk);
      isLoading := true;
      UnloadSound();
      Install(song, newQueue, newIndex);
      store.AddRecentlyPlayed(Storage.SongEntry(song), now);
      StartSound(song, loadOk);
      isLoading := false;
    }

    method UnloadSound()
      modifies this
      ensures State() == Unloaded(old(State()))
    {
      if sound.Some? {
        device := device + [Unload];
        sound := None;
      }
    }

    method Install(song: Song, newQueue: Option<seq<Song>>, newIndex: Option<int>)
      modifies this
      ensures State() == Installed(old(State()), song, newQueue, newIndex)
    {
      currentSong := Some(song);
      positionMillis := 0;
      if newQueue.Some? {
        queue := Lift(newQueue.value);
        original := newQueue.value;
      }
      if newIndex.Some? {
        queueIndex := newIndex.value;
      }
    }

    method StartSound(song: Song, loadOk: bool)
      modifies this
      ensures State() == Started(old(State()), song, loadOk)
    {
      if song.audioUrl == "" {
        return;
      }
      device := device + [Create(song.audioUrl)];
      if loadOk {
        sound := Some(song.audioUrl);
        isPlaying := true;
      }
    }

    /** Load the entry a step points at, if there is one. */
    method Go(i: int, loadOk: bool, now: int)
      modifies this, store
      ensures State() == Apply(old(State()), Goto(i), loadOk)
      ensures store.Snapshot() == old(store.Snapshot()).(recent := Storage.RecentAfter(old(store.recent), At(old(queue), i), now))
    {
      var ns := At(queue, i);
      if ns.Some? {
        LoadAndPlaySong(ns.value, None, Some(i), loadOk, now);
      }
    }

    /** `handleSongFinished`. */
    method HandleSongFinished(loadOk: bool, now: int)
      modifies this, store
      ensures State() == Finished(old(State()), loadOk)
      ensures store.Snapshot() == old(store.Snapshot()).(recent := Storage.RecentAfter(old(store.recent),
        Played(old(State()), FinishStep(|old(queue)|, old(queueIndex), old(repeat))), now))
    {
      var cq := queue;
      var ci := queueIndex;
      var cr := repeat;
      if cr == One {
        if sound.Some? {
          device := device + [Command.Replay];
        }
        return;
      }
      var ni := ci + 1;
      if ni >= |cq| {
        if cr == All {
          ni := 0;
        } else {
          isPlaying := false;
          positionMillis := 0;
          return;
        }
      }
      Go(ni, loadOk, now);
    }

    /** `playSong`. */
    method PlaySong(song: Song, newQueue: Option<seq<Song>>, loadOk: bool, now: int)
      modifies this, store
      ensures State() == AfterPlaySong(old(State()), song, newQueue, loadOk)
      ensures store.Snapshot() == old(store.Snapshot()).(recent := Storage.RecentAfter(old(store.recent), Some(song), now))
    {
      var q := if newQueue.Some? then newQueue.value else [song];
      var idx := IndexOfId(q, song.id);
      LoadAndPlaySong(song, Some(q), Some(if idx >= 0 then idx else 0), loadOk, now);
    }

    /** `togglePlay`, given the status the device reports. */
    method TogglePlay(status: DeviceStatus)
      modifies this
      ensures State() == AfterTogglePlay(old(State()), status)
    {
      if sound.None? {
        return;
      }
      if !status.isLoaded {
        return;
      }
      if status.isPlaying {
        device := device + [Pause];
      } else {
        device := device + [Play];
      }
    }

    /** `nextSong`. */
    method NextSong(loadOk: bool, now: int)
      modifies this, store
      ensures State() == Next(old(State()), loadOk)
      ensures store.Snapshot() == old(store.Snapshot()).(recent := Storage.RecentAfter(old(store.recent),
        Played(old(State()), NextStep(|old(queue)|, old(queueIndex), old(repeat))), now))
    {
      var cq := queue;
      var ci := queueIndex;
      if |cq| == 0 {
        return;
      }
      var ni := ci + 1;
      if ni >= |cq| {
        if repeat == All {
          ni := 0;
        } else {
          return;
        }
      }
      Go(ni, loadOk, now);
    }

    /** `prevSong`. */
    method PrevSong(loadOk: bool, now: int)
      modifies this, store
      ensures State() == Prev(old(State()), loadOk)
      ensures store.Snapshot() == old(store.Snapshot()).(recent := Storage.RecentAfter(old(store.recent),
        Played(old(State()), PrevStep(|old(queue)|, old(queueIndex), old(positionMillis))), now))
    {
      var cq := queue;
      var ci := queueIndex;
      if |cq| == 0 {
        return;
      }
      if positionMillis > 3000 {
        if sound.Some? {
          device := device + [SeekStart];
        }
        return;
      }
      var pi := ci - 1;
      if pi < 0 {
        pi := |cq| - 1;
      }
      Go(pi, loadOk, now);
    }

    /** The fields a loaded status overwrites: position, a known duration, playing and buffering. */
    method CopyStatus(status: DeviceStatus)
      modifies this
      ensures State() == old(State()).(positionMillis := status.positionMillis,
        duration := if status.durationMillis.Some? && status.durationMillis.value != 0
          then status.durationMillis.value else old(duration),
        isPlaying := status.isPlaying, isLoading := status.isBuffering)
    {
      positionMillis := status.positionMillis;
      if status.durationMillis.Some? && status.durationMillis.value != 0 {
        duration := status.durationMillis.value;
      }
      isPlaying := status.isPlaying;
      isLoading := status.isBuffering;
    }

    /** `onPlaybackStatusUpdate`. */
    method OnPlaybackStatusUpdate(status: DeviceStatus, loadOk: bool, now: int)
      modifies this, store
      ensures State() == StatusUpdate(old(State()), status, loadOk)
      ensures store.Snapshot() == old(store.Snapshot()).(recent := Storage.RecentAfter(old(store.recent),
        StatusPlayed(old(State()), status), now))
    {
      if !status.isLoaded {
        return;
      }
      CopyStatus(status);
      if status.didJustFinish {
        HandleSongFinished(loadOk, now);
      }
    }

    /** `toggleShuffle`; `rolls` are the random draws of the shuffle loop. */
    method ToggleShuffle(rolls: seq<nat>)
      modifies this
      ensures State() == AfterToggleShuffle(old(State()), rolls)
    {
      var next := !shuffled;
      if next {
        var cq := queue;
        var ci := queueIndex;
        var currentSongItem := At(cq, ci);
        var rest := ShuffledCopy(RemoveAt(cq, ci), rolls);
        queue := [currentSongItem] + rest;
        queueIndex := 0;
      } else {
        var orig := original;
        var cs := At(queue, queueIndex);
        var origIdx := if cs.Some? then IndexOfId(orig, cs.value.id) else -1;
        queue := Lift(orig);
        queueIndex := if origIdx >= 0 then origIdx else 0;
      }
      shuffled := next;
    }

    /** `toggleRepeat`. */
    method ToggleRepeat()
      modifies this
      ensures State() == old(State()).(repeat := NextRepeat(old(repeat)))
    {
      repeat := if repeat == Off then All else if repeat == All then One else Off;
    }

    /** `toggleLike`: local lists first, then the stored lists, then the remote write. */
    method ToggleLike(song: Song)
      modifies this, store
      ensures State() == AfterToggleLike(old(State()), song, user)
      ensures song.id in old(likedIds) ==>
        store.Snapshot() == old(store.Snapshot()).(
          likedIds := Storage.Present(Storage.WithoutId(old(store.LikedIds()), song.id)),
          likedData := Storage.Present(Storage.WithoutSong(old(store.LikedSongs()), song.id)))
      ensures song.id !in old(likedIds) ==>
        store.Snapshot() == if song.id in old(store.LikedIds()) then old(store.Snapshot())
          else old(store.Snapshot()).(likedIds := Storage.Present([song.id] + old(store.LikedIds())),
                                      likedData := Storage.Present([song] + old(store.LikedSongs())))
    {
      var isCurrentlyLiked := song.id in likedIds;
      if isCurrentlyLiked {
        likedIds := Storage.WithoutId(likedIds, song.id);
        likedSongs := Storage.WithoutSong(likedSongs, song.id);
        store.RemoveLikedSong(song.id);
        if user != "" {
          remote := remote + [RemoteRemove(user, song.id)];
        }
      } else {
        likedIds := [song.id] + likedIds;
        likedSongs := [song] + likedSongs;
        store.AddLikedSong(song);
        if user != "" {
          remote := remote + [RemoteAdd(user, song)];
        }
      }
    }

    /** The sync loop: add each local liked song the remote list lacks, in local order. */
    method SyncLocalLiked(localData: seq<Song>, firestoreSongs: seq<Song>)
      modifies this
      ensures State() == old(State()).(remote := old(remote) + SyncCalls(user, localData, firestoreSongs))
    {
      var i := 0;
      while i < |localData|
        invariant 0 <= i <= |localData|
        invariant State() == old(State()).(remote := old(remote) + SyncCalls(user, localData[..i], firestoreSongs))
      {
        var song := localData[i];
        assert localData[..i + 1][..i] == localData[..i];
        if !Storage.HasSong(firestoreSongs, song.id) {
          remote := remote + [RemoteAdd(user, song)];
        }
        i := i + 1;
      }
      assert localData[..i] == localData;
    }

    /**
     * The liked-songs load run when the signed-in user changes; `fetched`
     * and `refetched` are the two reads of the remote list (None: it threw).
     */
    method LoadLikedSongs(fetched: Option<seq<Song>>, refetched: Option<seq<Song>>)
      modifies this
      ensures State() == LoadLiked(old(State()), user, old(store.LikedIds()), old(store.LikedSongs()), fetched, refetched)
    {
      if user != "" && fetched.Some? {
        var firestoreSongs := fetched.value;
        var localData := store.LikedSongs();
        if |localData| > 0 {
          SyncLocalLiked(localData, firestoreSongs);
          if refetched.Some? {
            likedSongs := refetched.value;
            likedIds := Ids(refetched.value);
          } else {
            likedIds := store.LikedIds();
            likedSongs := store.LikedSongs();
          }
        } else {
          likedSongs := firestoreSongs;
          likedIds := Ids(firestoreSongs);
        }
      } else {
        likedIds := store.LikedIds();
        likedSongs := store.LikedSongs();
      }
    }

    method AddToQueue(song: Song)
      modifies this
      ensures State() == AfterAddToQueue(old(State()), song)
    {
      queue := queue + [Some(song)];
    }

    method PlayNext(song: Song)
      modifies this
      ensures State() == AfterPlayNext(old(State()), song)
    {
      var ci := queueIndex;
      queue := InsertAt(queue, ci + 1, Some(song));
    }

    method RemoveFromQueue(index: int)
      modifies this
      ensures State() == AfterRemoveFromQueue(old(State()), index)
    {
      queue := RemoveAt(queue, index);
      if index < queueIndex {
        queueIndex := queueIndex - 1;
      }
    }

    method ClearQueue()
      modifies this
      ensures State() == AfterClearQueue(old(State()))
    {
      var cs := currentSong;
      if cs.Some? {
        queue := [cs];
        queueIndex := 0;
      }
    }

    /** `shuffleQueue`; `rolls` are the random draws of the shuffle loop. */
    method ShuffleQueue(rolls: seq<nat>)
      modifies this
      ensures State() == AfterShuffleQueue(old(State()), rolls)
    {
      var ci := queueIndex;
      var upcoming := ShuffledCopy(SliceFrom(queue, ci + 1), rolls);
      queue := SliceTo(queue, ci + 1) + upcoming;
    }
  }
}
