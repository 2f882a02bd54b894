# Mavrixfy playback and app-logic model

This project models Mavrixfy, a React Native (Expo) music-streaming client, together with its small companion server. The centre is the player context. It keeps an ordered queue of songs (duplicates allowed) and a current index into it. It also keeps a pre-shuffle snapshot, the repeat mode (off, all, one), a shuffle flag, and the liked songs as an id list and a song list. The model states how each player operation moves the queue and the current index:

- end-of-track advance and wrap;
- next and previous, with the three-second restart rule;
- shuffle on and off;
- play-next insertion;
- removal;
- clearing;
- shuffling the tail.

It also states how likes are kept locally and mirrored to the user's Firestore collection.

Around the player the model covers the app's other self-contained logic:

- the persisted lists in local storage (liked songs, recently played capped at 30, user playlists, settings);
- catalog normalisation and best-quality selection for JioSaavn data, in the app and in the server's normalisers;
- the Firestore liked-songs and playlist mappers;
- the home layout's trending and playlist feeds for Android Auto;
- dotted-version comparison and the two version-bump scripts;
- the update-check services (time gate, dismissed version, force-update dialog, OTA bundle checks, hashing and cleanup);
- the authentication mode machine (none, guest, signed in);
- the backend URL and the query retry policy;
- the navigation debouncer;
- the login form validator;
- the liked-songs duration line and the queue screen's index mapping;
- the Android Auto bridge;
- the track-player config plugin;
- the dependency mover.

Each source file becomes one Dafny module, in the form the code has:

- Pure transforms are functions, with lemmas about them.
- Code that updates state in place is a class. Its fields are what the source mutates (refs, singleton fields, module-level caches, parsed JSON objects). Its methods carry `modifies` clauses and are proved against specification functions of the old state.
- Loops that the source runs over arrays or lists stay loops with invariants. Examples are the Fisher–Yates swaps, the 32-bit rolling hashes and the liked-song sync.

External effects are modelled as follows:

- Storage, Firestore, the network, the file system and the native players are values or logs held in the classes.
- Their failures are boolean or `Option` parameters.
- Clocks and `Math.random` draws are parameters.

JavaScript's own semantics are written out where the code relies on them:

- `||` truthiness;
- `Number()` and `parseInt` on version strings, including NaN;
- `% ` on negative numbers;
- the `& hash` 32-bit wrap-around;
- `Math.floor`;
- `findIndex` returning -1.

Where the code and its documentation disagree, the model follows the code:

- `queueIndex` is an `int` that the code can leave at -1 or push out of range, not a `nat`.
- A bump of a two-component version yields `"1.2.NaN"`.
- The OTA clean-up compares versions by substring.

## Model

| member | source | states |
|---|---|---|
| PlayerContext.IndexOfId | contexts/PlayerContext.tsx:203 | the result is the first position holding the id, and -1 exactly when no entry has it |
| PlayerContext.LoadStages | contexts/PlayerContext.tsx:168-199 | loading a song is, in order: loading flag on, the previous sound unloaded, the song made current at position 0 with the given queue (also the snapshot) and index, a sound created only for a song with an audio url, loading flag off |
| PlayerContext.PlaySongResolves | contexts/PlayerContext.tsx:201-205 | playSong installs the given queue or `[song]` as queue and snapshot, points at the first entry with the song's id (0 when none has it), and creates no sound for a song without audio url |
| PlayerContext.FinishRepeatOne | contexts/PlayerContext.tsx:154-158 | with repeat one a finished track is replayed and queue, current index and current song never change |
| PlayerContext.FinishLast | contexts/PlayerContext.tsx:159-163 | when the last entry finishes, repeat all loads entry 0, repeat off stops with playing off and position 0 and nothing else changed |
| PlayerContext.FinishAdvances | contexts/PlayerContext.tsx:159-165 | otherwise a finished track moves the current index to the next entry and plays it, leaving the queue as it is |
| PlayerContext.NextRules | contexts/PlayerContext.tsx:215-225 | next does nothing on an empty queue or at the last entry unless repeat is all, and treats repeat one like repeat off |
| PlayerContext.PrevRules | contexts/PlayerContext.tsx:227-239 | previous after more than 3000 ms only seeks to 0; otherwise it steps back one entry, wrapping from the first to the last |
| PlayerContext.PrevUndoesNext | contexts/PlayerContext.tsx:215-239 | from a valid current index, a next step followed by a previous step (at position 0) returns to the same entry |
| PlayerContext.StepsStayInQueue | contexts/PlayerContext.tsx:154-239 | every entry the finish, next or previous step loads lies inside the queue |
| PlayerContext.StatusUpdateKeepsQueue | contexts/PlayerContext.tsx:142-152 | a status update never edits the queue or snapshot, an unloaded status changes nothing, and a loaded one copies playing flag and position |
| PlayerContext.ShuffleOnPermutes | contexts/PlayerContext.tsx:249-265 | shuffle on yields a permutation of the queue whose first entry is the song that was current, with the current index at 0 |
| PlayerContext.ShuffleRoundTrip | contexts/PlayerContext.tsx:249-276 | shuffling on and off with no edit between restores the snapshot order and points at the first entry with the current song's id, the same position when ids are unique |
| PlayerContext.RepeatCycles | contexts/PlayerContext.tsx:279-285 | toggling repeat always changes the mode and three toggles return to it (off, all, one) |
| PlayerContext.QueueInsertions | contexts/PlayerContext.tsx:320-336 | add-to-queue appends, play-next inserts right after the current index; neither moves the current index, changes the current entry or the snapshot |
| PlayerContext.RemoveKeepsCurrent | contexts/PlayerContext.tsx:338-349 | removing entry i deletes exactly it, moves the current index back iff i is before it, and keeps the current index on the same song unless the current entry is removed |
| PlayerContext.ClearQueueRules | contexts/PlayerContext.tsx:351-359 | clear does nothing without a current song, otherwise leaves only that song, at index 0 |
| PlayerContext.ShuffleQueueKeepsPrefix | contexts/PlayerContext.tsx:361-371 | shuffle-queue keeps the entries up to the current index and the current index, and permutes only the ones after it |
| PlayerContext.ToggleLikeFlips | contexts/PlayerContext.tsx:287-316 | toggling a like flips isLiked, writes remotely only for a signed-in user, and liking then unliking restores both liked lists |
| PlayerContext.SyncCallsExact | contexts/PlayerContext.tsx:100-112 | the sync adds remotely exactly the local liked songs the remote list lacks |
| PlayerContext.LoadLikedSources | contexts/PlayerContext.tsx:90-136 | a guest load takes the local lists with no remote call; a signed-in load mirrors the remote list, re-read after syncing when local songs exist; the local fallback is reached only when the read itself throws, which the catching Firestore read never does |
| PlayerContext.FailedRemoteReadsEmptyTheList | contexts/PlayerContext.tsx:97-121 | a signed-in load whose Firestore reads fail (and answer []) leaves the liked list and ids empty rather than falling back to the local lists, and every local song is sent to the remote |
| PlayerContext.Player.constructor | contexts/PlayerContext.tsx:53-72 | the player starts with no song, an empty queue at index 0, repeat off, shuffle off and no liked songs |
| PlayerContext.Player.IsLikedSong | contexts/PlayerContext.tsx:318 | true exactly when the id is in the liked ids |
| PlayerContext.Player.LoadAndPlaySong | contexts/PlayerContext.tsx:168-199 | the new state is the staged load, and the song is recorded as recently played |
| PlayerContext.Player.UnloadSound | contexts/PlayerContext.tsx:171 | a loaded sound is unloaded and dropped |
| PlayerContext.Player.Install | contexts/PlayerContext.tsx:172-176 | the song becomes current at position 0; a given queue becomes queue and snapshot, a given index the current index |
| PlayerContext.Player.StartSound | contexts/PlayerContext.tsx:186-194 | a sound is requested only for a song with an audio url, and plays when the device created it |
| PlayerContext.Player.Go | contexts/PlayerContext.tsx:164-165 | the entry at the index is loaded when there is one, with the index as the new current index; otherwise nothing changes |
| PlayerContext.Player.HandleSongFinished | contexts/PlayerContext.tsx:154-166 | the new state is the finish step applied to the old one, and only a loaded entry is recorded as recently played |
| PlayerContext.Player.SyncLocalLiked | contexts/PlayerContext.tsx:101-112 | the loop attempts one remote add per local liked song the remote list lacks, in local order |
| PlayerContext.Player.PlaySong | contexts/PlayerContext.tsx:201-205 | the new state is playSong's resolution of queue and current index, and the song is recorded as recently played |
| PlayerContext.Player.TogglePlay | contexts/PlayerContext.tsx:207-213 | a loaded sound is paused when playing and played when paused; without one nothing happens |
| PlayerContext.Player.NextSong | contexts/PlayerContext.tsx:215-225 | the new state is the next step applied to the old one |
| PlayerContext.Player.PrevSong | contexts/PlayerContext.tsx:227-239 | the new state is the previous step applied to the old one |
| PlayerContext.Player.CopyStatus | contexts/PlayerContext.tsx:144-150 | a loaded status overwrites position, playing and buffering, and the duration only when the status gives a non-zero one; nothing else changes |
| PlayerContext.Player.OnPlaybackStatusUpdate | contexts/PlayerContext.tsx:142-152 | the status is copied and a finished track handled as by handleSongFinished |
| PlayerContext.Player.ToggleShuffle | contexts/PlayerContext.tsx:249-277 | shuffling on puts the current entry first and shuffles the rest; off restores the snapshot at the current song's first id match |
| PlayerContext.Player.ToggleRepeat | contexts/PlayerContext.tsx:279-285 | only the repeat mode changes, to the next one in the cycle |
| PlayerContext.Player.ToggleLike | contexts/PlayerContext.tsx:287-316 | the liked lists flip for the song in memory and in the device store, and a signed-in user's remote write is attempted |
| PlayerContext.Player.LoadLikedSongs | contexts/PlayerContext.tsx:90-136 | the liked lists come from the remote reads, falling back to the stored lists for a guest or a throwing read |
| PlayerContext.Player.AddToQueue | contexts/PlayerContext.tsx:320-326 | the song is appended to the queue |
| PlayerContext.Player.PlayNext | contexts/PlayerContext.tsx:328-336 | the song is inserted right after the current index |
| PlayerContext.Player.RemoveFromQueue | contexts/PlayerContext.tsx:338-349 | the entry is deleted and the current index moved back when it was after the entry |
| PlayerContext.Player.ClearQueue | contexts/PlayerContext.tsx:351-359 | the queue becomes the current song alone at index 0 |
| PlayerContext.Player.ShuffleQueue | contexts/PlayerContext.tsx:361-371 | the entries after the current index are replaced by their shuffle |
| Shuffle.Roll | contexts/PlayerContext.tsx:258 | each swap partner j lies in [0, i] |
| Shuffle.FisherYatesPermutes | contexts/PlayerContext.tsx:257-260 | whatever the random draws, the shuffle is a permutation of its input |
| Shuffle.ShuffleInPlace | contexts/PlayerContext.tsx:257-260 | the swap loop turns the array into the Fisher–Yates shuffle of its old contents |
| Shuffle.ShuffledCopy | contexts/PlayerContext.tsx:363-367 | a shuffled copy is the Fisher–Yates shuffle of the list and a permutation of it |
| Storage.GetAfterSet | lib/storage.ts:73-86 | a successful write reads back as the written value, and a failed write is swallowed and changes nothing |
| Storage.RemoveLikedRemovesAll | lib/storage.ts:109-116 | removing a liked song leaves no id or song with that id in either list; every other entry stays as often as it was there and in its order (the removal distributes over any cut of the list) |
| Storage.LikeThenUnlike | lib/storage.ts:96-116 | liking a song that was not liked and then unliking it restores both lists |
| Storage.PlaylistId | lib/storage.ts:134 | a created playlist's id starts with "user_" |
| Storage.DeletePlaylistRemovesExactly | lib/storage.ts:147-150 | deleting removes exactly the playlists with that id |
| Storage.CreateThenDelete | lib/storage.ts:131-150 | creating a playlist under a fresh id and deleting it again restores the list |
| Storage.PlaylistIndex | lib/storage.ts:154 | the index is the first playlist with that id, and -1 exactly when there is none |
| Storage.AddSongEffect | lib/storage.ts:152-163 | nothing is written for an unknown playlist or a song already in it; otherwise only the first playlist with the id changes: song appended, updatedAt stamped, cover taken from the song only when it had none, and its id, name, description and createdAt kept |
| Storage.AddSongTwice | lib/storage.ts:152-163 | adding the same song to the same playlist a second time writes nothing |
| Storage.WithoutSongRules | lib/storage.ts:170 | filtering an id out of a song list drops exactly the songs with that id and keeps every other song as often as it was there, in its order |
| Storage.RemoveSongEffect | lib/storage.ts:165-172 | nothing is written for an unknown playlist; otherwise only the first playlist with the id changes: its songs become the filtered list (every other song kept with its multiplicity and order) and updatedAt is stamped, while id, name, description, coverUrl and createdAt are kept |
| Storage.WithoutRecentKeepsUnique | lib/storage.ts:180 | filtering an id out of a recently-played list with unique ids keeps the ids unique |
| Storage.AddRecentShape | lib/storage.ts:178-183 | the stamped item goes first, earlier entries with its id are dropped, the others keep their order, the list is capped at 30, and ids stay unique |
| Storage.MergeOverlays | lib/storage.ts:189-192 | each of the seven settings fields takes the patch's value when given and keeps the stored one otherwise; an empty patch changes nothing, and saving a patch twice equals saving it once |
| Storage.LocalLibrary.constructor | lib/storage.ts:4-10 | a fresh install has every key missing |
| Storage.LocalLibrary.AddLikedSong | lib/storage.ts:96-107 | a liked id changes nothing; otherwise the id and the song go first in their lists; afterwards the song is liked |
| Storage.LocalLibrary.RemoveLikedSong | lib/storage.ts:109-116 | both lists are written back filtered, and afterwards the song is not liked |
| Storage.LocalLibrary.CreateUserPlaylist | lib/storage.ts:131-145 | the new playlist, empty and without cover, with description "" when none is given, goes first and is returned |
| Storage.LocalLibrary.DeleteUserPlaylist | lib/storage.ts:147-150 | the playlists are written back without that id |
| Storage.LocalLibrary.AddSongToPlaylist | lib/storage.ts:152-163 | the playlists are written back as the add computes, or left alone when it writes nothing |
| Storage.LocalLibrary.RemoveSongFromPlaylist | lib/storage.ts:165-172 | the playlists are written back as the removal computes, or left alone for an unknown playlist |
| Storage.LocalLibrary.AddRecentlyPlayed | lib/storage.ts:178-183 | the recently-played key holds the item first and the capped, filtered old list after it |
| Storage.LocalLibrary.SaveSettings | lib/storage.ts:189-192 | the settings key holds the stored settings (or the defaults) overlaid with the patch |
| MusicData.BestIndex | lib/musicData.ts:72-76 | the head of the stable descending sort by quality rank: an entry of maximal rank with every earlier entry ranked strictly lower |
| MusicData.BestImageUrlIsFirstOfBestQuality | lib/musicData.ts:70-77 | getBestImageUrl gives "" for no images, otherwise the url of the first image of the highest quality present (500x500 over 150x150 over 50x50 over unknown) |
| MusicData.BestAudioUrlIsFirstOfBestQuality | lib/musicData.ts:79-86 | getBestAudioUrl gives "" for no streams, otherwise the url of the first stream of the highest bitrate present |
| MusicData.BestAudioPrefers320 | lib/musicData.ts:79-86 | whenever a 320kbps stream is listed, a 320kbps stream (the first one) is the one chosen |
| MusicData.ConvertSongDefaults | lib/musicData.ts:88-104 | a converted song keeps its id, comes from JioSaavn, falls back to "Unknown" title, "Unknown Artist" artist (never empty) and the language as genre, has no cover or audio url when the lists are missing, and a missing or NaN duration becomes 0 |
| MusicData.ConvertPlaylistShape | lib/musicData.ts:106-119 | a converted playlist is keyed "jiosaavn_" + id, its id list matches its song data entry by entry, and without description it reads "<count> songs" |
| MusicData.FormatDurationRoundTrip | lib/musicData.ts:136-140 | for a non-negative duration the text is the whole minutes, ":" and two digits of seconds below 60, and reads back to the same number of seconds |
| Routes.NormalizeImageRules | server/routes.ts:27-36 | a string becomes one 500x500 entry, any other non-array the empty list; an array keeps its length with each url taken from `link`, else `url`, else "", and throws exactly on a null element |
| Routes.Credited | server/routes.ts:41-42 | the credited artists are exactly the singers and primary artists when there are any, otherwise all artists |
| Routes.NormalizeSongRules | server/routes.ts:38-79 | a falsy song normalises to null; otherwise the primary list is the credited artists without role, `all` lists every artist with a role, featured is empty, duration defaults to 0, the year is a string ("" for none), downloads come from `download_url` else `downloadUrl` entry for entry; a non-array artist or download list throws |
| Routes.NormalizePlaylistRules | server/routes.ts:81-94 | a falsy playlist normalises to null; `songs` is present exactly when the source has an array and then holds exactly the songs that normalise to non-null; the song count falls back from `songCount` to `song_count` to 0 |
| Routes.ApiFetchRules | server/routes.ts:7-25 | apiFetch yields a payload exactly for an ok JSON object whose status is "Success" or whose success is truthy; the payload is its truthy `data`, else the object, and is never falsy; every failure is null, never a throw |
| Routes.TimeoutRules | server/routes.ts:5-24 | an upstream answer slower than the 12-second timeout is aborted and gives null; a faster one is taken as it came |
| Routes.RouteGuards | server/routes.ts:212-288 | every JioSaavn route answers a missing or empty parameter with 400 before any upstream request, sends the parameter (and the limit, "20" by default) upstream otherwise, answers a null payload with 503, and search/all returns the payload as it came |
| Routes.PayloadShapes | server/routes.ts:244-273 | a single-song payload is answered as a one-song list, and a successful playlist answer never carries null |
| Firestore.PlaylistToLocalSongsRules | lib/firestore.ts:203-215 | no playlist or no songs gives []; otherwise the songs convert one for one in order, id from `id` else `songId` else "", audio from `audioUrl` else `url` else "", a missing duration as 0; the conversion throws exactly on a null song |
| Firestore.WithoutDoc | lib/firestore.ts:275 | deleting a document keeps exactly the documents with a different id |
| Firestore.LastMatch | lib/firestore.ts:265-271 | the scan ends with the id of the last document keyed by the song id or storing it, and with null exactly when none does |
| Firestore.LikedStore.FindLastMatch | lib/firestore.ts:265-271 | the forEach loop computes that last match |
| Firestore.AddIdempotent | lib/firestore.ts:218-249 | after adding, the song's document exists; adding it again changes nothing; document ids stay unique |
| Firestore.AddThenRemove | lib/firestore.ts:218-287 | removing a song just added to a collection without it deletes that document and gives back the collection |
| Firestore.RemoveTargetRules | lib/firestore.ts:252-287 | the document keyed by the song id is deleted; without one, the last document storing that id under another key; with neither, nothing |
| Firestore.LikedSongsOf | lib/firestore.ts:150-176 | the listing skips documents with an empty id and never grows |
| Firestore.LikedStore.CollectLiked | lib/firestore.ts:150-174 | the forEach loop computes that listing |
| Firestore.LikedReadsBack | lib/firestore.ts:159-173 | a document written by addLikedSongToFirestore (lines 232-243) reads back with the song's id, title, artist, cover, audio, duration and album, its like time, and source "mavrixfy" |
| Firestore.LikedDataFields | lib/firestore.ts:232-243 | the written document stores title, artist, imageUrl, audioUrl, duration, albumName, likedAt and source, and none of the alternative field names |
| Firestore.LikedStore.AddLikedSong | lib/firestore.ts:218-249 | answers true exactly when the database is there, the read succeeds and the song was liked already or the write succeeds; only a new song is written, at the end, and the store stays duplicate-free |
| Firestore.LikedStore.RemoveLikedSong | lib/firestore.ts:252-287 | answers true exactly when a target document exists and the database, read and delete succeed; exactly that document is deleted, otherwise nothing changes |
| Firestore.LikedStore.GetLikedSongs | lib/firestore.ts:134-180 | the ordered query lists only the documents storing `likedAt`; when it fails, the plain read lists every document; a missing database or a failed plain read gives [] |
| Firestore.LikedSongsOfMembers | lib/firestore.ts:150-174 | a song is listed exactly when a document with a non-empty id converts to it |
| Firestore.OrderedReadRules | lib/firestore.ts:143-148 | the ordered read lists a document exactly when the plain read does and it stores `likedAt`; with every document stamped the two reads agree, with none stamped the ordered read is empty |
| Firestore.UnstampedDocOnlyInPlainRead | lib/firestore.ts:143-148 | a document with `addedAt` but no `likedAt` is missing from the ordered read and present in the plain one |
| Firestore.FilterKeepsUnique | lib/firestore.ts:275 | deleting documents keeps the remaining ids unique |
| Layout.PickUrlRules | app/_layout.tsx:58-65 | the first entry of the wanted quality wins when its url is set; with no such entry the last entry's url; an empty list gives ""; the result is "" or a url of the list |
| Layout.ArtistNames | app/_layout.tsx:66-68 | the artist text is never empty and is "Unknown Artist" for a song without primary artists |
| Layout.TrendingRules | app/_layout.tsx:54-79 | every trending entry has an id and an audio url and comes from a result with a download; every such result whose record has both is kept; never longer than the results |
| Layout.TrendingKeepsPlayableSongs | app/_layout.tsx:54-79 | a result with an id and a download whose last url is set always reaches Android Auto under its own id |
| Layout.SaavnPlaylistsRules | app/_layout.tsx:90-99 | at most twelve playlist entries, each with an id and from a result with a positive song count; when the first twelve such results have ids, all of them are shown |
| Layout.DocOfId | lib/firestore.ts:124 | a public playlist's object carries every stored field, and its id is the stored `id` field when there is one, else the document id |
| Layout.FsEntriesOf | app/_layout.tsx:107-114 | the conversion of the playlists with songs succeeds exactly when each one's does, and then gives one entry per playlist in order |
| Layout.FsEntryOfRules | app/_layout.tsx:109-114 | a converted Firestore playlist has an id starting "firestore_" and at least one song |
| Layout.FirestoreEntriesRules | app/_layout.tsx:103-125 | every Firestore entry is prefixed and has songs; without a failing conversion there is one per public playlist with songs; a failing one is caught and leaves none |
| Layout.Registrations | app/_layout.tsx:118-122 | registration makes at most one call per entry |
| Layout.RegisterPlaylistSongs | app/_layout.tsx:118-122 | the forEach loop makes exactly those calls, in order |
| Layout.RegistrationsOfFilled | app/_layout.tsx:118-122 | when every entry has songs, each is registered once, in order, under its own id with its own songs |
| Layout.EveryFirestorePlaylistRegistered | app/_layout.tsx:103-125 | every Firestore playlist that becomes an entry has its songs registered |
| Layout.AllPlaylists | app/_layout.tsx:128-131 | the merged list is the Firestore entries without their songs, then the JioSaavn playlists unchanged |
| Layout.FirestoreIdsDisjoint | app/_layout.tsx:110 | the prefix keeps Firestore entries apart from JioSaavn playlists whose ids lack it |
| Layout.MusicDataFor | app/_layout.tsx:133-141 | data is handed over exactly when one of the two lists is non-empty, and then both lists as they are |
| Layout.SyncAndroidAutoData | app/_layout.tsx:39-150 | nothing happens off Android or when a request to the music API throws; otherwise the Firestore songs are registered and the merged data handed over |
| Layout.RootNavigation.AuthGuard | app/_layout.tsx:152-161 | the guard adds one replace to "/login" exactly when loading is over, the visitor is neither signed in nor a guest and is not on the login screen |
| Layout.AuthGuardRules | app/_layout.tsx:152-161 | nobody is redirected while loading, a signed-in user or guest never is, the login screen never is, and a signed-out visitor anywhere else always is |
| VersionUtils.Components | lib/version-utils.ts:42-43 | splitting a version on dots always gives at least one component |
| Js.NoBreakSpaceAroundNumeral | lib/version-utils.ts:42-43 | `Number` strips a no-break space around a component as it strips any other JavaScript whitespace, so "\u00A01" reads as 1 |
| VersionUtils.NewerFromFirstDifference | lib/version-utils.ts:41-54 | isNewerVersion's loop answers true exactly when, at the first position where the two versions differ (missing or non-numeric parts as 0), the target's part is larger |
| VersionUtils.NewerFromIrreflexive | lib/version-utils.ts:45-53 | the comparison loop never finds a version newer than itself |
| VersionUtils.NewerFromAsymmetric | lib/version-utils.ts:45-53 | the comparison loop never finds two versions each newer than the other |
| VersionUtils.NewerFromEquivalent | lib/version-utils.ts:45-53 | versions whose parts agree once missing parts count as 0 are not newer than each other |
| VersionUtils.IsNewerVersionIrreflexive | lib/version-utils.ts:41-54 | no version string is newer than itself |
| VersionUtils.IsNewerVersionAsymmetric | lib/version-utils.ts:41-54 | two version strings are never each newer than the other |
| VersionUtils.ComponentsOfDotted | lib/version-utils.ts:42-43 | natural components written with dots split back into the same components |
| VersionUtils.TrailingZeroIgnored | lib/version-utils.ts:45-47 | "1.2" and "1.2.0" are not newer than each other |
| VersionUtils.UrgencyRules | lib/version-utils.ts:73-96 | below the minimum is critical whatever the latest; otherwise none unless the latest is newer; recommended only with a larger major part; the current version as latest and minimum needs no update |
| BackendUpdateChecker.CompareFrom | components/BackendUpdateChecker.tsx:65-73 | the comparison loop answers only -1, 0 or 1 |
| BackendUpdateChecker.CompareFromAgrees | components/BackendUpdateChecker.tsx:61-74 | the loop answers -1 exactly when isNewerVersion's loop finds the second newer, 1 exactly when it finds the first newer, and swapping negates it |
| BackendUpdateChecker.CompareVersionsOrder | components/BackendUpdateChecker.tsx:61-74 | compareVersions(a, b) is negative exactly when b is newer, positive exactly when a is newer, antisymmetric, and 0 for a version against itself |
| BackendUpdateChecker.AlertShownExactlyWhenNewer | components/BackendUpdateChecker.tsx:25-53 | an alert appears exactly when the backend answered ok with a readable, switched-on message naming a version newer than the installed one (1.0.0 when none is configured), and it is that message's alert |
| BackendUpdateChecker.SameVersionNoAlert | components/BackendUpdateChecker.tsx:44-49 | a message for the installed version itself never raises an alert |
| BackendUpdateChecker.UpdateAlertButtons | components/BackendUpdateChecker.tsx:76-98 | a mandatory update has the single "Download Now" button and cannot be dismissed; an optional one has "Later" (cancel) then "Download"; only the last button opens the download url |
| BumpVersion.BumpType | scripts/bump-version.js:20-25 | a missing argument means a patch bump; only "major", "minor" and "patch" are accepted |
| BumpVersion.SetPart | scripts/bump-version.js:32-41 | writing component i sets it and keeps every other component; past the end the array grows to i + 1 with holes in between |
| BumpVersion.BumpVersionOf | scripts/bump-version.js:27-46 | bumpVersion splits the version, updates its components in place as the switch says and joins them again |
| BumpVersion.BumpedComponents | scripts/bump-version.js:30-43 | patch increments only the third component; minor increments the second and zeroes the third; major increments the first and zeroes the next two; later components are kept and the result has at least three |
| BumpVersion.BumpedNatural | scripts/bump-version.js:30-43 | bumping three or more natural components gives natural components |
| BumpVersion.BumpIsNewer | scripts/bump-version.js:27-46 | a version of three or more natural components bumps to one with as many components that isNewerVersion ranks strictly above it |
| BumpVersion.ShortComponents | scripts/bump-version.js:28 | "1.2" splits into 1 and 2, "1.2.NaN" into 1, 2 and NaN |
| BumpVersion.DottedOneTwo | scripts/bump-version.js:45 | the components 1, 2 join to "1.2", and 1, 2, NaN to "1.2.NaN" |
| BumpVersion.ShortVersionPatch | scripts/bump-version.js:40-45 | a patch of the two-component "1.2" gives "1.2.NaN", which is not newer than "1.2" |
| BumpVersion.AppJsonBumped | scripts/bump-version.js:65-88 | app.json gets the bumped version as both version and runtimeVersion, a present Android versionCode goes up by one (a missing or zero code counts as 1), and an iOS buildNumber goes up by one ("2" when missing) |
| BumpVersion.Run | scripts/bump-version.js:20-126 | an unknown bump type exits with 1 and touches no file; otherwise each of the four files is rewritten on its own, and a missing, unreadable or version-less file is left as it was |
| BumpVersion.RunBumpsPackage | scripts/bump-version.js:91-98 | package.json's version becomes one strictly newer than the old one when that had three natural components |
| IncrementVersion.Compute | scripts/increment-version.js:23-49 | the new version and versionCode are the parsed components after the switch, rendered as "major.minor.patch" and combined as major·10000 + minor·100 + patch |
| IncrementVersion.NextRules | scripts/increment-version.js:30-44 | any argument other than "major" or "minor", a missing one included, bumps the patch; major resets minor and patch; minor resets patch |
| IncrementVersion.TemplateHasThreeComponents | scripts/increment-version.js:46 | the new version always has three dot-separated parts, and natural components read back as themselves |
| IncrementVersion.VersionCodeIncreases | scripts/increment-version.js:48-49 | with natural components and minor and patch below 100 the versionCode is a number that strictly increases with every bump |
| IncrementVersion.MissingPatchGivesNaN | scripts/increment-version.js:23-49 | a version without a patch component yields a NaN versionCode |
| IncrementVersion.Run | scripts/increment-version.js:12-66 | an unreadable file or a package.json without version stops the script before any write; otherwise package.json gets the new version, and app.json gets version, runtimeVersion, versionCode and a present iOS build number, unless it lacks `expo` or `expo.android`, when it stays as it was |
| UpdateService.CurrentVersion | lib/update-service.ts:28-36 | the current version is never empty: the native version on Android and iOS, else the configured one, else "1.0.0" |
| UpdateService.ResolveUrlPrefersOwnPlatform | lib/update-service.ts:77-84 | a per-platform update url resolves to the own platform's link when set (Android reads `android`, every other platform `ios`), otherwise to the other one, and is always one of the two |
| UpdateService.CheckGate | lib/update-service.ts:41-97 | a non-forced check within 24 hours of the last one neither asks nor changes anything; a forced one always asks; lastCheckTime moves, to now, only on a successful reply, and a result needs one |
| UpdateService.FirstCheckProceeds | lib/update-service.ts:13 | with lastCheckTime still 0, any clock past the first day lets the first check through |
| UpdateService.Bullets | lib/update-service.ts:112 | at most the first three changelog entries are shown, each as a bullet line |
| UpdateService.UpdateDialogRules | lib/update-service.ts:102-136 | a forced update is never suppressed and has only "Update Now", cannot be cancelled and offers no dismissal; an optional one starts with "Later", which records its version; the last button always opens the update url |
| UpdateService.LaterSuppressesSameVersion | lib/update-service.ts:106-125 | choosing "Later" on an optional update suppresses the next dialog for that version |
| UpdateService.ChangelogTextEmpty | lib/update-service.ts:111-113 | the changelog section is empty exactly when there are no entries |
| UpdateService.CheckAndShowRules | lib/update-service.ts:158-166 | checkAndShowUpdate adds at most one alert and changes nothing else: the update dialog exactly when an update is available and not dismissed, "Up to Date" exactly on a forced check without an update |
| UpdateService.Service.CheckForUpdates | lib/update-service.ts:41-89 | the method answers the gate's outcome and changes only lastCheckTime, as the gate says |
| UpdateService.Service.ShowUpdateDialog | lib/update-service.ts:102-136 | the dialog is shown unless suppressed, and nothing else changes |
| UpdateService.Service.OpenUpdateUrl | lib/update-service.ts:141-153 | an openable link is opened; otherwise one error alert, "Cannot open update link" or "Failed to open update link" |
| UpdateService.Service.Press | lib/update-service.ts:119-130 | "Later" records the dismissed version and nothing else; "Update" opens the link |
| UpdateService.Service.CheckAndShowUpdate | lib/update-service.ts:158-166 | checkAndShowUpdate is the check followed by the dialog or the "Up to Date" alert as above |
| UpdateService.Service.ResetDismissed | lib/update-service.ts:171-173 | only the dismissed version is cleared |
| UseAppUpdate.ResultRules | hooks/useAppUpdate.ts:17-25 | an available update is recorded and opens the modal; a forced check without one records the result and leaves the modal as it was; a skipped or failed check, or a background check without update, changes nothing |
| UseAppUpdate.CloseAndUpdateRules | hooks/useAppUpdate.ts:36-52 | closing hides the modal only for a recorded optional update; updating does nothing without a recorded result, otherwise asks for exactly that result's link and hides the modal only for an optional update |
| UseAppUpdate.ForcedModalStaysOpen | hooks/useAppUpdate.ts:36-52 | a modal showing a forced update stays open whatever the user presses |
| UseAppUpdate.AppUpdate.BeginCheck | hooks/useAppUpdate.ts:15 | starting a check sets only isChecking |
| UseAppUpdate.AppUpdate.FinishCheck | hooks/useAppUpdate.ts:17-30 | the answer is applied as above and isChecking is cleared |
| UseAppUpdate.AppUpdate.CheckForUpdates | hooks/useAppUpdate.ts:14-31 | a whole check applies the service's answer and ends with isChecking false |
| UseAppUpdate.AppUpdate.HandleUpdate | hooks/useAppUpdate.ts:36-43 | handleUpdate changes the state as the update rule says |
| UseAppUpdate.AppUpdate.HandleClose | hooks/useAppUpdate.ts:48-52 | handleClose changes the state as the close rule says |
| OtaUpdateService.OverlayRules | lib/ota-update-service.ts:398-401 | a status patch replaces exactly the fields it gives and keeps the others; the empty patch changes nothing; applying a patch twice is applying it once |
| OtaUpdateService.GateRules | lib/ota-update-service.ts:118-128 | the gate passes without a stored time or when reading fails, and for a time the service wrote exactly when more than 30 minutes passed; a stored non-number keeps it shut |
| OtaUpdateService.SimpleHash | lib/ota-update-service.ts:313-321 | the loop computes the 32-bit rolling hash, and its hexadecimal text reads back to the hash's absolute value |
| OtaUpdateService.VerifyBundle | lib/ota-update-service.ts:295-308 | a bundle verifies exactly when its content can be read and hashes to the expected value |
| OtaUpdateService.Kept | lib/ota-update-service.ts:326-340 | cleanup keeps exactly the files that do not start with "bundle_" or that contain the current version |
| OtaUpdateService.CurrentBundleKept | lib/ota-update-service.ts:223-270 | the current version's own bundle file is never deleted by the cleanup |
| OtaUpdateService.SubstringKeepsOtherVersion | lib/ota-update-service.ts:331 | with current version "1.2" an old "bundle_1.2.1.js" is kept, because the test is a substring test |
| OtaUpdateService.UnsubscribeRules | lib/ota-update-service.ts:387-392 | unsubscribing removes one occurrence of the listener and keeps the others; it does nothing for a listener not subscribed, so a second call is a no-op |
| OtaUpdateService.Service.Initialize | lib/ota-update-service.ts:66-86 | the stored version is kept; without one the app's version (default "1.2.0") is stored; either way it becomes the status's current version |
| OtaUpdateService.Service.UpdateStatus | lib/ota-update-service.ts:398-401 | updateStatus overlays the patch and calls every listener with the new status |
| OtaUpdateService.Service.GetStatus | lib/ota-update-service.ts:376-378 | getStatus answers the current status |
| OtaUpdateService.Service.Subscribe | lib/ota-update-service.ts:383-384 | subscribe appends the listener and changes nothing else |
| OtaUpdateService.Service.Unsubscribe | lib/ota-update-service.ts:387-392 | the returned function removes the listener as above and changes nothing else |
| OtaUpdateService.CheckStatusRules | lib/ota-update-service.ts:146-219 | a check that passes the gate ends not checking: a failed request records its message; an answer without a bundle clears the error and marks no update; an answer with one marks the update, names its version and starts the download at 0 with no error; nothing else changes |
| OtaUpdateService.Service.UpdateAll | lib/ota-update-service.ts:398-401 | a run of status updates ends in the last overlaid status and tells every listener each intermediate status in turn |
| OtaUpdateService.Service.CheckForUpdates | lib/ota-update-service.ts:133-213 | nothing changes while a check or download runs or within the interval; otherwise the status and the listeners' notices are those of the check's status updates, the check time is stored exactly when the server answered, and it answers true exactly for an available bundle, which then starts downloading |
| OtaUpdateService.Service.ForceCheckForUpdates | lib/ota-update-service.ts:367-371 | the stored check time is removed even while a check or download runs, which then leaves status and notices unchanged and answers false; otherwise the check always passes the gate, ends in the check's status with its notices, stores `now` exactly when the server answered, and answers true exactly for an available bundle |
| OtaUpdateService.Service.CleanupOldBundles | lib/ota-update-service.ts:326-340 | the loop deletes exactly the stale files; a failed listing deletes nothing |
| OtaUpdateService.Service.FinishDownload | lib/ota-update-service.ts:218-290 | a failed download records its error and changes no file or key; a failed verification records "Bundle verification failed" and leaves exactly the other files, in order; a verified bundle is stored as current, the directory becomes the old files plus the bundle with the stale ones removed (none are removed when the listing fails), and the status names it current at 100%; listeners are told the one new status |
| OtaUpdateService.WithoutAdded | lib/ota-update-service.ts:256-260 | downloading to a name and then deleting it leaves exactly the files other than that name, in order |
| OtaUpdateService.Service.ClearOtaData | lib/ota-update-service.ts:415-435 | every key and the bundle directory are removed and currentVersion is reset without notifying anyone |
| ColorExtractor.HashStep | lib/colorExtractor.ts:65-66 | one hash step always lands in the signed 32-bit range |
| ColorExtractor.HashPrefix | lib/colorExtractor.ts:62-67 | the hash of any prefix is a signed 32-bit integer |
| ColorExtractor.HashStepIsLinear | lib/colorExtractor.ts:65-66 | wrapping the shifted value first makes no difference: each step is the 32-bit wrap of 31·hash + code |
| ColorExtractor.ToInt32Congruent | lib/colorExtractor.ts:66 | numbers that differ by a multiple of 2^32 wrap to the same 32-bit integer |
| ColorExtractor.SimpleHash | lib/colorExtractor.ts:61-69 | the loop computes the absolute value of the rolling hash, at most 2^31 |
| ColorExtractor.PaletteIndex | lib/colorExtractor.ts:47-48 | the palette index is always one of the fifteen palettes |
| ColorExtractor.PalettesReadable | lib/colorExtractor.ts:18-34 | every palette's dark flag matches its text colour: white text exactly on dark, black exactly on light |
| ColorExtractor.ColorCache.ExtractDominantColor | lib/colorExtractor.ts:40-56 | a URL always gets the palette its hash selects, from the cache when present; the answer is cached and every cached colour stays the hash's |
| ColorExtractor.ColorCache.ClearColorCache | lib/colorExtractor.ts:82-84 | clearing empties the cache |
| AndroidAuto.PlayableHasUrl | hooks/useAndroidAuto.ts:14-23 | a song kept as playable (a non-blank audioUrl or url) becomes a track with a non-empty URL |
| AndroidAuto.PlayFromMediaIdShape | hooks/useAndroidAuto.ts:56-80 | an id absent from the cache issues no player call; a cached id resets the player, adds every playable cached song, skips to the requested one and plays |
| AndroidAuto.TracksArePlayable | hooks/useAndroidAuto.ts:69-74 | the valid songs are exactly the cached songs with a non-blank URL; the queue holds one track per valid song, in order, each with that song's id and a URL |
| AndroidAuto.StartIndexRules | hooks/useAndroidAuto.ts:72-75 | the skip index is in range, points at the first valid song with the requested id when there is one, and is 0 otherwise |
| AndroidAuto.CommandForRules | hooks/useAndroidAuto.ts:37-53 | exactly the five words play, pause, next, previous and stop map to a player call, each to a different one |
| AndroidAuto.BrowseSongRules | hooks/useAndroidAuto.ts:117-125 | one browser entry per song, in order; each field takes the first non-empty alternative of its chain and is empty exactly when all of them are; a missing duration is 0 |
| AndroidAuto.SyncPlaylistRules | hooks/useAndroidAuto.ts:156-158 | syncing a playlist keeps the cache as a prefix and adds exactly the songs whose id was not cached; a second sync of the same songs changes nothing |
| AndroidAuto.Bridge.OnPlaybackCommand | hooks/useAndroidAuto.ts:35-54 | a known command issues its one player call when the player loaded; anything else is ignored |
| AndroidAuto.Bridge.OnPlayFromMediaId | hooks/useAndroidAuto.ts:56-80 | issues the play-from-id calls in order; a call that throws stops the later ones and is swallowed |
| AndroidAuto.Bridge.OnSeekTo | hooks/useAndroidAuto.ts:82-85 | seeking forwards the position to the player when it loaded |
| AndroidAuto.Bridge.SyncMusicData | hooks/useAndroidAuto.ts:106-146 | on Android a non-empty trending list replaces the cache and each non-empty list is published in the browser's shape; off Android nothing changes |
| AndroidAuto.Bridge.SyncPlaylistSongs | hooks/useAndroidAuto.ts:152-170 | on Android the cache gains the songs with new ids and the playlist's songs are published; off Android nothing changes |
| AuthContext.BuildAppUserRules | contexts/AuthContext.tsx:51-70 | the app user keeps the Firebase uid and email; without a readable profile the name and picture come from Firebase, with one the profile's fullName or displayName and imageUrl or photoURL win, falling back to Firebase |
| AuthContext.RegisteredUserReadsBack | contexts/AuthContext.tsx:108-128 | the profile written at registration reads back as the registered full name |
| AuthContext.GoogleUserReadsBack | contexts/AuthContext.tsx:159-182 | the profile written at a first Google sign-in reads back as the Google display name and photo |
| AuthContext.AuthState.IsAuthenticated | contexts/AuthContext.tsx:212 | authenticated exactly when a user is set |
| AuthContext.AuthState.constructor | contexts/AuthContext.tsx:46-49 | a new provider has no user, is loading and is not a guest |
| AuthContext.AuthState.CheckGuest | contexts/AuthContext.tsx:73-79 | a stored flag equal to "true" turns guest mode on; a failed read or another value changes nothing |
| AuthContext.AuthState.SignedIn | contexts/AuthContext.tsx:83-87 | a sign-in sets the user and the Firebase user, leaves guest mode and removes the stored flag |
| AuthContext.AuthState.OnAuthStateChanged | contexts/AuthContext.tsx:81-93 | a signed-in event sets the user built from the profile and leaves guest mode; a signed-out event clears both users and keeps guest mode; loading ends either way |
| AuthContext.AuthState.Login | contexts/AuthContext.tsx:98-106 | a successful sign-in sets the user built from the profile and leaves guest mode; a rejected one throws and changes nothing |
| AuthContext.AuthState.Register | contexts/AuthContext.tsx:108-128 | after the account and profile are created the user carries the given email and name and an empty picture, and the profile is stored; a failure changes nothing |
| AuthContext.AuthState.SignInWithGoogleCredential | contexts/AuthContext.tsx:159-182 | signs in exactly when the credential, the lookup and (for a new user) the profile write succeed, storing a profile for a new user; a failure changes nothing |
| AuthContext.AuthState.SignInWithGoogle | contexts/AuthContext.tsx:130-157 | off the web it always throws and changes nothing; on the web it succeeds exactly when the popup sign-in and profile lookup succeed and the profile exists or is written, then writes the profile on first sign-in, sets user and Firebase user, clears guest mode and its flag; a failure changes nothing |
| AuthContext.AuthState.ContinueAsGuest | contexts/AuthContext.tsx:184-189 | guest mode is on, both users are cleared and the flag "true" is stored |
| AuthContext.AuthState.Logout | contexts/AuthContext.tsx:191-199 | both users are cleared, guest mode is off and the flag is removed, even when sign-out fails |
| AuthContext.AuthState.RefreshUser | contexts/AuthContext.tsx:201-206 | with a current Firebase user the user is rebuilt from the profile; otherwise nothing changes |
| AuthContext.GuestModeSurvivesRestart | contexts/AuthContext.tsx:184-199 | a new provider over the stored flag comes back as a guest after choosing guest mode and not after logging out |
| ApiConfig.GetAuthApiUrlRules | lib/api-config.ts:9-40 | a missing or empty host throws, and so does a host without a scheme whose authority `new URL` rejects (an empty host, a forbidden domain code point, or a port that is not decimal or exceeds 65535); a host with a scheme is returned as it is when it ends in "/" and with one "/" appended otherwise; any other host gets http when it is local (localhost, 127.0.0.1, 192.168.x.x, 10.x.x.x) and https otherwise, keeps its authority, and has "/" inserted after it unless its own path starts there (so "h?x" becomes "https://h/?x"); the music API uses the same URL |
| ApiConfig.HrefShape | lib/api-config.ts:29-31 | the parsed URL's href is the scheme, the host's authority, then a "/" that is the host's own path start or an inserted one before the query or fragment; it equals scheme plus host exactly when the host has its own path |
| ApiConfig.GetAuthApiUrlIdempotent | lib/api-config.ts:9-32 | a result ending in a slash maps to itself when fed back as the host |
| ApiConfig.BareHostWithPathNotIdempotent | lib/api-config.ts:18-31 | a bare host with a path, query or fragment and no trailing slash gives a URL exactly when its authority is valid, and that URL is not a fixed point: feeding it back adds a slash |
| ApiConfig.BareAuthorityThrows | lib/api-config.ts:28-29 | a bare host without "/", "?" or "#" is all authority, and `new URL` throws exactly when that authority is invalid |
| ApiConfig.LetterPortInvalid | lib/api-config.ts:29 | "h:abc" has a non-numeric port, which the URL parser rejects |
| ApiConfig.LetterPortThrows | lib/api-config.ts:29 | a host of "h:abc" throws |
| ApiConfig.LargePortInvalid | lib/api-config.ts:29 | "h:70000" has a port above 65535, which the URL parser rejects |
| ApiConfig.LargePortThrows | lib/api-config.ts:29 | a host of "h:70000" throws |
| ApiConfig.SpacedHostInvalid | lib/api-config.ts:29 | "a b" has a space in the host, a forbidden domain code point |
| ApiConfig.SpacedHostThrows | lib/api-config.ts:29 | a host of "a b" throws |
| ApiConfig.LanAddressIsLocal | lib/api-config.ts:25 | "192.168.1.5:8081" matches the LAN pattern and "192.168.1" does not |
| ApiConfig.EmulatorAddressIsLocal | lib/api-config.ts:26 | the emulator's "10.0.2.2:3000" matches the private 10.x pattern |
| QueryClient.RetryRules | lib/query-client.ts:68-74 | for an error whose `response.status` is given, a client error (4xx) is never retried; any other failure, one without a response status included, is retried exactly while fewer than two failures have happened |
| QueryClient.QueryClientErrorsAreRetried | lib/query-client.ts:52-74 | a query answered with a client error throws a plain error without `response`, so the callback retries it exactly while fewer than two failures have happened |
| QueryClient.StatusCarryingErrorsRetryRules | lib/query-client.ts:68-74 | an error carrying the response status is never retried for a 4xx and otherwise retried while fewer than two failures have happened |
| QueryClient.Pow2Monotone | lib/query-client.ts:75 | a larger attempt index never gives a smaller power of two |
| QueryClient.RetryDelayRules | lib/query-client.ts:75 | the first delay is 1000 ms; delays double, never decrease and are capped at 30000 ms, reached from attempt index 5 (the sixth retry) on |
| QueryClient.ThrowIfResNotOk | lib/query-client.ts:13-18 | a response throws exactly when it is not ok |
| QueryClient.ThrowIfResNotOkMessage | lib/query-client.ts:13-18 | the message thrown starts with the status and a colon and ends with the body, or with the status text when the body is empty |
| QueryClient.QueryFnRules | lib/query-client.ts:40-58 | a query resolves to null exactly on a 401 in return-null mode, throws exactly on another non-ok response and otherwise gives the parsed body |
| QueryClient.QueryPathSplits | lib/query-client.ts:46 | the path of a query is its key joined with "/", and a key whose parts hold no "/" splits back from it |
| QueryClient.ApiRequestOptions | lib/query-client.ts:28-33 | every request includes credentials and keeps its method and route |
| QueryClient.ApiRequestRules | lib/query-client.ts:20-37 | a JSON content type and a body are sent exactly when the data is truthy, the body being the data's JSON text; the response is returned exactly when it is ok |
| DebounceNavigation.SpacedPairwise | hooks/useDebounceNavigation.ts:19 | navigations accepted one after another at least the delay apart are pairwise at least that far apart |
| DebounceNavigation.Debouncer.constructor | hooks/useDebounceNavigation.ts:9-12 | a new debouncer has nothing in flight and a last navigation time of 0 |
| DebounceNavigation.Debouncer.Navigate | hooks/useDebounceNavigation.ts:14-27 | a call is accepted exactly when nothing is in flight and the delay has passed since the last accepted one; an accepted call marks navigation in flight, records the time and defers the push; a refused one changes nothing |
| DebounceNavigation.Debouncer.RunAfterInteractions | hooks/useDebounceNavigation.ts:27-39 | the deferred route is pushed and the reset timer is started |
| DebounceNavigation.Debouncer.TimerFires | hooks/useDebounceNavigation.ts:36-38 | the reset timer clears the in-flight flag |
| DebounceNavigation.DoubleTap | hooks/useDebounceNavigation.ts:9-45 | with the default 300 ms delay a second tap 100 ms after the first is ignored and the route is pushed once |
| Login.SubmitRules | app/login.tsx:44-64 | an email or password made only of JavaScript whitespace (the no-break space and the other Unicode spaces included, as `trim()` strips them) is rejected first, then a blank full name on sign-up, then a sign-up password under six characters are rejected with their own messages, in that order; otherwise sign-in or registration is called with the trimmed email, the password as typed and the trimmed name |
| Login.NoBreakSpaceEmailIsBlank | app/login.tsx:45-48 | an email of one no-break space is blank to `trim()`, so the form asks for every field |
| Login.ShortPasswordOnlyMattersOnSignup | app/login.tsx:53-63 | a one-character password is rejected on sign-up and accepted on sign-in |
| Login.FriendlyMsgRules | app/login.tsx:67-74 | the first matching Firebase error code picks its message, in the source's order; an unmatched message is shown as is and an empty one as "Something went wrong" |
| Login.NoCodeWithoutHyphen | app/login.tsx:69-72 | a message without a hyphen matches none of the error codes |
| LikedSongs.TotalDurationAppend | app/liked-songs.tsx:28 | the total duration of two lists one after the other is the sum of their totals |
| LikedSongs.TotalDurationBounds | app/liked-songs.tsx:28 | with no negative duration the total is non-negative and at least each song's duration |
| LikedSongs.NumeralHasNoSpace | app/liked-songs.tsx:33-34 | a number's decimal text holds no space, so the duration text splits unambiguously |
| LikedSongs.HourTextReadsBack | app/liked-songs.tsx:33 | "H hr M min" reads back to H * 60 + M minutes |
| LikedSongs.MinuteTextReadsBack | app/liked-songs.tsx:34 | "M min" reads back to M minutes |
| LikedSongs.DurationTextRules | app/liked-songs.tsx:29-34 | the minutes are the whole minutes of the total; the hour form is used exactly from 3600 seconds on, with the minutes past the hour; either text reads back to the total's whole minutes |
| LikedSongs.DurationTextExamples | app/liked-songs.tsx:29-34 | 12307 seconds read "3 hr 25 min" and 3599 seconds read "59 min" |
| LikedSongs.ShufflePlayRules | app/liked-songs.tsx:36-45 | without liked songs nothing changes; otherwise the queue is a permutation of the liked songs, starting at index 0 with its first entry playing |
| LikedSongs.HandleShufflePlay | app/liked-songs.tsx:36-45 | the player's new state is the shuffle play of its old state; with liked songs the first shuffled song is recorded as recently played, without them the store is untouched |
| QueueScreen.UpNextRules | app/queue.tsx:41 | up next is the queue after the current index, empty exactly when the current index is at the last entry, and row i is queue entry queueIndex + 1 + i |
| QueueScreen.RemoveRowKeepsCurrent | app/queue.tsx:31-34 | removing an up-next row keeps the current index, the current entry and everything before it, and up next loses exactly that row |
| QueueScreen.Songs | app/queue.tsx:28 | a queue with no undefined entry is exactly its songs |
| QueueScreen.PressRowFindsFirstCopy | app/queue.tsx:26-29 | pressing a row replays the unchanged queue with that row's song current; the current index lands on the first entry with its id, which is the row itself exactly when no earlier entry shares the id |
| TrackPlayerPlugin.WithEntryRules | plugins/withTrackPlayer.js:18-28 | a list keeps its entries in order and gains the entry at the end exactly when no entry had its name; afterwards one has it, so a second insertion changes nothing |
| TrackPlayerPlugin.ManifestModRules | plugins/withTrackPlayer.js:9-58 | the manifest mod throws exactly on an empty application list; otherwise missing lists are created, the FOREGROUND_SERVICE permission and the MusicService entry are each appended only when absent, and everything else is kept |
| TrackPlayerPlugin.ManifestModIdempotent | plugins/withTrackPlayer.js:9-58 | running the manifest mod on its own output changes nothing, so no duplicate permission or service appears |
| TrackPlayerPlugin.AndroidManifest.AddPermission | plugins/withTrackPlayer.js:13-28 | the permission list is created when missing and ends as the list with the FOREGROUND_SERVICE entry added only if absent; the application list is untouched |
| TrackPlayerPlugin.AndroidManifest.AddService | plugins/withTrackPlayer.js:31-55 | the application list ends as in the mod's result, failing exactly on an empty list, which it then leaves unchanged; the permission list is untouched |
| TrackPlayerPlugin.AndroidManifest.ApplyTrackPlayer | plugins/withTrackPlayer.js:9-58 | the in-place edit of the manifest ends in the mod's result; when it throws, only the permission list has been created and extended |
| TrackPlayerPlugin.SpaceRun | plugins/withTrackPlayer.js:65 | the whitespace run matched by `\s+` is maximal |
| TrackPlayerPlugin.MatchLength | plugins/withTrackPlayer.js:65 | a match of the pattern starts with "compileSdkVersion", followed by whitespace and digits, inside the text |
| TrackPlayerPlugin.FirstMatch | plugins/withTrackPlayer.js:64-67 | the match found is the leftmost one; none is reported only when the pattern matches nowhere |
| TrackPlayerPlugin.RewriteCompileSdkRules | plugins/withTrackPlayer.js:61-71 | a text without a match is unchanged; otherwise exactly the leftmost match becomes "compileSdkVersion 34" and the `includes` check never blocks a text the pattern matches |
| TrackPlayerPlugin.AppBuildGradle.ApplyTrackPlayer | plugins/withTrackPlayer.js:61-71 | the build file's contents become their rewrite |
| FixDependencies.MoveAllRules | scripts/fix-dependencies.js:19-32 | each listed dependency with a non-empty version leaves dependencies and appears in devDependencies with the same version; everything else keeps its place and version; the counter is the number moved |
| FixDependencies.SecondRunMovesNothing | scripts/fix-dependencies.js:19-45 | after a run no listed dependency is movable, so a second run changes nothing and counts 0 |
| FixDependencies.NothingMovable | scripts/fix-dependencies.js:21-32 | with nothing movable the loop changes nothing and counts 0 |
| FixDependencies.ServerDepsDistinct | scripts/fix-dependencies.js:8-15 | the six server packages are listed without repeats |
| FixDependencies.PackageFile.FixDependencies | scripts/fix-dependencies.js:19-45 | the package becomes the moved package, the counter is the number moved, and the file is written exactly when something moved |
| FixDependencies.RunTwice | scripts/fix-dependencies.js:19-45 | running the script twice moves everything movable once and the second run moves and writes nothing |
| AndroidAuto.Bridge.constructor | hooks/useAndroidAuto.ts:26 | the bridge starts with an empty song cache and no calls issued |
| ColorExtractor.ColorCache.constructor | lib/colorExtractor.ts:13 | the colour cache starts empty |
| Layout.RootNavigation.constructor | app/_layout.tsx:152-161 | no route has been replaced yet |
| UpdateService.Service.constructor | lib/update-service.ts:13-16 | the service has never checked (last check time 0), has no dismissed version and has shown nothing |
| UseAppUpdate.AppUpdate.constructor | hooks/useAppUpdate.ts:7-9 | the hook has no update info, is not checking and shows no modal |
| OtaUpdateService.Service.constructor | lib/ota-update-service.ts:40-50 | the service starts with the initial status, no listeners and nothing stored or downloaded |

## Left out

- Audio playback itself: `expo-av` sounds, the native track player and the Android Auto native module are logs of the commands they receive; decoding, buffering and device events other than the status update are not modelled.
- Floating point: the progress ratio, `seekTo`'s fractional position and OTA download percentages are not modelled; positions and durations are integers.
- Randomness: every `Math.random` draw is a parameter (`rolls`), so the shuffles are proved to be permutations for any draws; `getRandomMusicColor` is not modelled.
- Timers and schedulers: `Date.now`, `setTimeout`, `setInterval`, `InteractionManager` and `AppState` become explicit time arguments and explicit steps (for example `DebounceNavigation.Debouncer.TimerFires`); the OTA periodic auto-check timers are not modelled.
- Asynchrony: every operation is one atomic sequential step; interleavings of awaited calls and stale React closures are not modelled.
- Logging, analytics, haptics, alerts' visuals and router transitions other than the recorded route are not modelled.
- Text: strings are sequences of Unicode code points, while JavaScript's `length` and `charCodeAt` count UTF-16 code units; the password length check (`Login.Submit`) and the colour hash (`ColorExtractor.SimpleHash`) therefore agree with the source only for text without characters above U+FFFF.
- Firestore.LikedStore.GetLikedSongs: the descending `likedAt` order of the ordered query is abstracted to the order of the stored collection (documents without `likedAt` are left out, as Firestore does); `PlayerContext.LoadLikedSources` receives the listing in that order.
- Storage: a failed AsyncStorage write is swallowed by `setJSON`; the methods model successful writes and the reads' fallbacks.
- Firestore playlist CRUD (`getUserFirestorePlaylists`, `createFirestorePlaylist`, `deleteFirestorePlaylist`, `getPlaylistById`) is not modelled; `getPublicPlaylists` appears only as the document list the layout receives (`Layout.DocOfId`).
- Routes: query parameters are single strings; Express routing, the upstream HTTP calls and the HTML page of `getGoogleAuthPage` are not modelled.
- Layout: the `json?.data?.results || json?.results` unwrapping of the upstream response is abstracted to the list it yields, and the feeds consume songs and playlists already normalised by the server.
- AndroidAuto: `startService` and listener removal are not modelled.
- AuthContext.AuthState.RefreshUser: as in the source, a refresh can set a user while guest mode stays on; the Firebase `signOut` effect and AsyncStorage write failures are not modelled, and Google sign-in on mobile (the web-browser redirect in the login screen) is not modelled.
- ApiConfig.GetAuthApiUrlRules: URL normalisation beyond the root-path slash (percent-encoding, case folding of the host, dropping a default or empty port, leading zeros of a port, resolving dot segments) is not modelled; the function is idempotent only on results ending in a slash (`ApiConfig.BareHostWithPathNotIdempotent`). `new URL`'s rejection of an authority is modelled for an empty host, a forbidden domain code point and a bad port, but not the rest of the URL Standard's host parsing. So the model returns a URL where IPv4 number validation ("1.2.3.256") or IDNA mapping of a non-ASCII host would throw. It also throws where `new URL` accepts a bracketed IPv6 host, a percent-encoded host, tabs or newlines (which the parser removes), trailing spaces (which it trims), a backslash ending the host, or extra slashes before it.
- QueryClient: mutations retrying once is recorded as the constant `MutationRetries`; React Query's scheduling of retries is not modelled.
- DebounceNavigation.Debouncer.Navigate: the route is a string; route objects with params are not modelled.
- QueueScreen.PressRowFindsFirstCopy: requires a queue without undefined entries, since the screen's rows read each entry's fields.
- LikedSongs.TotalDurationBounds: a NaN duration is not modelled; durations are integers.
- TrackPlayerPlugin: manifest elements are reduced to their `$` attribute objects; the permission list is read from `manifest.$['uses-permission']` as the code does; plugin registration and mod ordering belong to Expo.
- FixDependencies: a package.json without a `dependencies` or `devDependencies` object would throw, which is not modelled; console output is not modelled.
- IncrementVersion: on an app.json without `expo` or `expo.android` the script throws after package.json was written; the model (`IncrementVersion.Run`) writes package.json and leaves app.json unchanged, but does not model the thrown error or the non-zero exit status.
- VersionUtils: `Number()` is modelled for unsigned decimal components; surrounding whitespace (ECMAScript's WhiteSpace and LineTerminator characters, the no-break space included) is trimmed as JavaScript does, but signs, exponents, hexadecimal and fractional numerals are not modelled. `formatVersion` is not modelled.
- UpdateService: the singleton accessor is not modelled (one `Service` object stands for the instance).
- OtaUpdateService: `getLatestBundlePath`, `getCurrentVersion`, the auto-check timers, fractional download progress and `notifyUpdateReady` (a log line) are not modelled; file contents are strings.

## Findings

| source | as written | input that shows it | evidently intended | confidence | as-written member | corrected member |
|---|---|---|---|---|---|---|
| lib/query-client.ts:68-74 | the error thrown by `throwIfResNotOk` carries no `response`, so the retry callback's 4xx test never holds | a query answered 404 is retried at failure counts 0 and 1 | a client error (4xx) is not retried | medium, not executed | QueryClient.QueryClientErrorsAreRetried | QueryClient.StatusCarryingErrorsRetryRules |
