# Playback session and song logic of ArjunaMusicComposer, in Dafny

This project models the client-side playback session of the ArjunaMusicComposer
web front end and proves properties about it. It also models the small pieces of
decision logic around that session: the track-selection producers, the
credit-granting payment webhook and the song server actions. Each source file
is one Dafny module:

| module | file | source |
|---|---|---|
| `Base` | `base.dfy` | shared helpers: `Option`, JavaScript truthiness of an optional string, min/max, the outcome of a confirmed delete |
| `PlayerStore` | `player_store.dfy` | `frontend/src/stores/use-player-store.ts` |
| `SoundBar` | `sound_bar.dfy` | `frontend/src/components/sound-bar.tsx` |
| `LeftVisualizer` | `left_visualizer.dfy` | `frontend/src/components/sidebar/left-visualizer.tsx` |
| `TrackList` | `track_list.dfy` | `frontend/src/components/create/track-list.tsx` |
| `SongCard` | `song_card.dfy` | `frontend/src/components/home/song-card.tsx` |
| `AuthCredits` | `auth_credits.dfy` | `onOrderPaid` in `frontend/src/lib/auth.ts` |
| `SongActions` | `song_actions.dfy` | `frontend/src/actions/song.ts` |

**Player store.** The store is a class with the three fields `track`,
`autoplayRequestId` and `externalAnalyser`, and a ghost `history` of the
mutator calls made on it. `Valid()` says the fields are what the recorded calls
produce from the initial state. The pure `Apply`/`Run` definitions carry the
lemmas about whole call sequences.

**Sound bar.** The sound bar is a `Player` class that holds the shared store.
Its handlers, effects and play button are methods. Each browser call whose
outcome matters becomes a parameter:
- `play()` resolving;
- `createMediaElementSource` succeeding;
- creating and connecting the gain node (`WiringOutcome`);
- the canvas giving a 2-D context.

`Player.Valid()` is the routing invariant:
- the element is muted only while sound goes through the Web Audio graph;
- the store holds an analyser exactly in graph mode, namely this player's own.

Graph mode does not imply a muted element. The `<audio>` element is rendered
only while the track has a url, and a newly mounted element starts unmuted.
Element identity is modelled:
- `elementGen` numbers the mounted elements;
- `sourceGen` records which element the graph's source node was made for;
- `SyncElement` is the DOM phase of a commit;
- `Commit` is the effects pass that follows it.

The waveform loop keeps the `duration` of the render that started it
(`paintDuration`). A `SourcePolicy` parameter selects between the source check
as written and the corrected one. A `FallbackRouting` parameter does the same
for the play button's fallback (see "## Findings").

**Visualizer.** The visualizer is a `Visualizer` class. It keeps:
- the `fallbackMode` state last set, and the value the next effects' render saw;
- whether a cleanup is registered;
- the number of scheduled loops;
- what the latest loop captured;
- the loop's frequency buffer (a byte `array`) and its phase.

`DrawFrame` is one call of `draw`. It copies the spectrum into the buffer and
sums each bar's bucket in loops. It is proved against the pure
`BarLevel`/`SumRange` definitions.

**Track list, song card, webhook and song actions.** These are classes over the
store or over abstract tables:
- songs as a `map`;
- likes as a `set` of (user, song) pairs;
- storage objects as a `set` of keys;
- users as a `map` from id to row.

Each class has pure functions that describe its results. JavaScript
semantics the source relies on are written out:
- truthiness;
- the difference between `||` and `??`;
- optional chaining on a JSON payload;
- `typeof v === "string"`;
- `%` with a truncated quotient.

## Model

| member | source | states |
|---|---|---|
| `PlayerStore.Store.constructor` | frontend/src/stores/use-player-store.ts:23-29 | the store starts with no track, counter 0 and no shared analyser, and an empty history |
| `PlayerStore.Store.SetTrack` | frontend/src/stores/use-player-store.ts:25 | `track` becomes the given descriptor whatever it was before; counter and analyser unchanged; the history grows by this call and the store stays valid |
| `PlayerStore.Store.RequestAutoplay` | frontend/src/stores/use-player-store.ts:27 | the counter rises by exactly one; track and analyser unchanged |
| `PlayerStore.Store.SetExternalAnalyser` | frontend/src/stores/use-player-store.ts:29 | the analyser becomes the given handle, null (None) included; track and counter unchanged |
| `PlayerStore.Store.RequestIdCountsHistory` | frontend/src/stores/use-player-store.ts:26-29 | in a valid store the counter equals the number of `requestAutoplay` calls ever made |
| `PlayerStore.ApplyChangesOneField` | frontend/src/stores/use-player-store.ts:25-29 | each mutator changes its own field and no other |
| `PlayerStore.RunSnoc` | frontend/src/stores/use-player-store.ts:23-30 | one more call after a sequence is the sequence extended by that call |
| `PlayerStore.RunAppend` | frontend/src/stores/use-player-store.ts:23-30 | running two call sequences in turn is running their concatenation |
| `PlayerStore.RunCountsRequests` | frontend/src/stores/use-player-store.ts:26-29 | over any call sequence the counter grows by exactly the number of `requestAutoplay` calls in it |
| `PlayerStore.RequestIdNeverDecreases` | frontend/src/stores/use-player-store.ts:26-29 | after any prefix of a call sequence the counter is at most its final value |
| `PlayerStore.RequestIdOnlyMovedByRequests` | frontend/src/stores/use-player-store.ts:25-29 | a call sequence without `requestAutoplay` leaves the counter where it was |
| `SoundBar.ErrorNameRoundTrip` | frontend/src/components/sound-bar.tsx:57-69 | codes 1-4 get four distinct names that give the code back; every other code, and a missing one, is UNKNOWN (both directions) |
| `SoundBar.AudioErrorMessage` | frontend/src/components/sound-bar.tsx:71 | the recorded message is the fixed "Audio error: " prefix followed by the code's name |
| `SoundBar.NatToStringDigits` | frontend/src/components/sound-bar.tsx:387-389 | a non-negative integer prints as a non-empty digit string that reads back as the integer |
| `SoundBar.PadStart2Digits` | frontend/src/components/sound-bar.tsx:387-389 | padding to two characters adds only leading zeros: at least two digits, same value |
| `SoundBar.FloorsOfTime` | frontend/src/components/sound-bar.tsx:385-386 | for a non-negative time, `floor(time / 60)` and `floor(time % 60)` are the quotient and remainder of the whole seconds by 60 |
| `SoundBar.FormatTimeRoundTrip` | frontend/src/components/sound-bar.tsx:384-390 | the clock of a non-negative time reads back as its whole minutes and its seconds within the minute (seconds below 60, minutes*60+seconds = whole seconds) |
| `SoundBar.SeekTarget` | frontend/src/components/sound-bar.tsx:326 | the seek target lies in [0, duration]; it is `duration*ratio` when that is in range, 0 below and the duration above |
| `SoundBar.Progress` | frontend/src/components/sound-bar.tsx:273 | the painted fraction of a positive duration lies in [0, 1]; it is `currentTime/duration` inside that duration, 1 at or past its end and 0 at or before the start (which duration `draw` uses is `PaintedProgress`) |
| `SoundBar.ProgressMonotone` | frontend/src/components/sound-bar.tsx:273 | a later playhead never paints a smaller fraction |
| `SoundBar.VolumeLevel` | frontend/src/components/sound-bar.tsx:131-143 | `(volume[0] ?? 100) / 100`: full level for an empty slider value, otherwise a hundredth of the value, within [0, 1] for a slider value in 0..100 |
| `SoundBar.Player.constructor` | frontend/src/components/sound-bar.tsx:27-43 | the initial state: stopped at 0 with no duration or error, volume [100], no element mounted yet, no source and no graph; the routing invariant holds |
| `SoundBar.Player.PaintedProgress` | frontend/src/components/sound-bar.tsx:272-278 | as written, the loop paints a progress fill iff it runs and the duration it captured is positive; the fill is in [0, 1] and is the played fraction of that captured duration |
| `SoundBar.Player.PaintedProgressCurrent` | frontend/src/components/sound-bar.tsx:272-278 | corrected: the fill is painted iff the loop runs and the loaded track's duration is positive, and is the played fraction of that duration |
| `SoundBar.Player.SyncElement` | frontend/src/components/sound-bar.tsx:514-520 | afterwards an element is mounted iff the track has a url; a newly mounted element is a new one (next generation), unmuted, at full volume and with no source; otherwise the element is unchanged |
| `SoundBar.Player.OnTimeUpdate` | frontend/src/components/sound-bar.tsx:49 | the displayed time becomes the element's time |
| `SoundBar.Player.OnLoadedMetadata` | frontend/src/components/sound-bar.tsx:51-55 | the duration is taken unless it is NaN, in which case it is kept |
| `SoundBar.Player.OnEnded` | frontend/src/components/sound-bar.tsx:74-77 | stopped and rewound to 0 whatever the prior state |
| `SoundBar.Player.OnError` | frontend/src/components/sound-bar.tsx:57-72 | `playError` becomes the mapped error message |
| `SoundBar.Player.LoadTrack` | frontend/src/components/sound-bar.tsx:92-105 | a track with a url becomes the source, with the clock reset and playback stopped; a track without a url changes nothing |
| `SoundBar.Player.Autoplay` | frontend/src/components/sound-bar.tsx:108-129 | with a source the error is cleared and the player is playing exactly if `play()` resolved (or it already was); without a source nothing changes |
| `SoundBar.Player.SetVolume` | frontend/src/components/sound-bar.tsx:131-143 | the new level goes to exactly one path: the gain in graph mode, otherwise the element, which is unmuted; nothing changes without an element |
| `SoundBar.Player.WireGraph` | frontend/src/components/sound-bar.tsx:174-282 | a fresh analyser replaces the old one and the loop keeps the render's duration; when wiring succeeds the analyser is published, output goes through the graph and the element is muted; when it fails the visualization is disabled, the element plays unmuted at the slider volume and nothing is published |
| `SoundBar.Player.BuildGraph` | frontend/src/components/sound-bar.tsx:146-298 | the graph build: nothing happens without an element; a present source is kept (as written: any source; corrected: only the current element's), otherwise one is made for the current element; when that fails the visualization is disabled and the element plays unmuted with no wiring and no cleanup; otherwise the WireGraph cases; the routing invariant is kept |
| `SoundBar.Player.TeardownGraph` | frontend/src/components/sound-bar.tsx:284-296 | the loop stops, graph mode ends, the element is unmuted and a null analyser is published; the invariant holds after it |
| `SoundBar.Player.CanvasClick` | frontend/src/components/sound-bar.tsx:321-329 | ignored with no element or a zero duration; otherwise the current time becomes the clamped seek target, within [0, duration] |
| `SoundBar.Player.TogglePlay` | frontend/src/components/sound-bar.tsx:343-382 | no-op without a url; pauses when playing; otherwise at most two play attempts, the second only after the visualization is disabled and the source discarded; playing only on a successful attempt, and the failure message only when both fail; as written the fallback leaves graph mode, the mute and the store as they were, while the corrected fallback unmutes the element at the slider volume, leaves graph mode and publishes no analyser |
| `SoundBar.Player.PlaybackPhase` | frontend/src/components/sound-bar.tsx:90-129 | the load effect on a new track object, then autoplay on a new id or request: the clock is reset and the url becomes the source exactly for a new track with a url; the error is cleared and play state follows `play()` exactly when autoplay runs with an element; otherwise both are unchanged |
| `SoundBar.Player.GraphEffect` | frontend/src/components/sound-bar.tsx:146-298 | on a new id: the old graph's cleanup (a null analyser published) and then the build, with every outcome of the build stated; with the same id the graph, the history and the element's mute state are unchanged |
| `SoundBar.Player.Commit` | frontend/src/components/sound-bar.tsx:90-298 | the effects pass of one commit, giving the whole new state: the clock and source reset for a new track with a url; error and play state for autoplay; on a new id, the history is an optional null analyser then an optional new one, and each outcome of the build is given: no element, source creation failed, wired, wiring failed; which source is kept; the loop's captured duration is the render's; with the same id the graph is unchanged; the routing invariant is kept |
| `SoundBar.SelectNewTrack` | frontend/src/components/create/track-list.tsx:72-81 | a click on a track with a new id (request, then descriptor) followed by one commit with every call succeeding: the element is mounted iff the track has a url, and with a url the player is playing through the graph with a muted element and a source whose generation follows the source policy |
| `SoundBar.PlayThroughUrlLessTrack` | frontend/src/components/sound-bar.tsx:162-202 | after a url track, a url-less track and a url track, the second element is mounted and muted in graph mode; the source is still the first element's as written, and the second element's when corrected |
| `SoundBar.RemountSilencesPlayback` | frontend/src/components/sound-bar.tsx:162-202 | as written, that sequence ends playing with the rendered element muted and the graph fed by the unmounted element: nothing can be heard |
| `SoundBar.RemountKeepsPlaybackAudible` | frontend/src/components/sound-bar.tsx:162-202 | corrected, the same sequence ends with the graph fed by the rendered element, so it is not silenced |
| `SoundBar.RetryAfterFailedPlay` | frontend/src/components/sound-bar.tsx:354-380 | after play, pause and a press whose first play() rejects and whose retry resolves, the player is playing with no error; as written the element is still muted in graph mode with no source, corrected it is unmuted and out of graph mode |
| `SoundBar.FallbackRetrySilenced` | frontend/src/components/sound-bar.tsx:362-376 | as written, the successful retry ends playing with no error while nothing can be heard |
| `SoundBar.FallbackRetryAudible` | frontend/src/components/sound-bar.tsx:362-376 | corrected, the successful retry ends playing through the unmuted element, with no analyser shared |
| `SoundBar.FirstTrackProgress` | frontend/src/components/sound-bar.tsx:272-298 | for the first track played, after its metadata and a time update, no progress fill is painted as written, while the corrected fill is the played fraction of the track's duration |
| `LeftVisualizer.PixelRatio` | frontend/src/components/sidebar/left-visualizer.tsx:64 | `devicePixelRatio \|\| 1`: a zero ratio becomes 1, any other is kept |
| `LeftVisualizer.BarCount` | frontend/src/components/sidebar/left-visualizer.tsx:132 | the bar count always lies in [24, 48] and is `floor(w / (12 dpr))` clamped to that range |
| `LeftVisualizer.BarCountMonotone` | frontend/src/components/sidebar/left-visualizer.tsx:132 | a wider canvas never gets fewer bars |
| `LeftVisualizer.ClampBucket` | frontend/src/components/sidebar/left-visualizer.tsx:152-158 | for any raw bounds the clamped interval is non-empty; with at least 3 bins it lies within 1..maxIndex; valid raw bounds are kept |
| `LeftVisualizer.SumRangeBounds` | frontend/src/components/sidebar/left-visualizer.tsx:159-160 | a bucket sum of bytes lies between 0 and 255 times the bucket size |
| `LeftVisualizer.Level` | frontend/src/components/sidebar/left-visualizer.tsx:161-162 | a bar's level lies in [0, 1] |
| `LeftVisualizer.LevelIsMean` | frontend/src/components/sidebar/left-visualizer.tsx:161-162 | for a genuine bucket sum the clamp is inactive: the level is the bucket's mean sample over 255 |
| `LeftVisualizer.BarLevel` | frontend/src/components/sidebar/left-visualizer.tsx:152-162 | every bar level lies in [0, 1] for any raw bounds |
| `LeftVisualizer.BarLevelIsBucketMean` | frontend/src/components/sidebar/left-visualizer.tsx:152-162 | with at least 3 bins every bar reads only indices 1 .. maxIndex-1 and its level is their mean over 255 |
| `LeftVisualizer.BucketSum` | frontend/src/components/sidebar/left-visualizer.tsx:159-160 | the `for j` loop computes the bucket sum of the buffer, a missing sample counting 0 |
| `LeftVisualizer.SampleBars` | frontend/src/components/sidebar/left-visualizer.tsx:152-166 | the live frame computes one level per bar, each equal to the specified bar level |
| `LeftVisualizer.LiveBarFitsCapsule` | frontend/src/components/sidebar/left-visualizer.tsx:136-165 | a live bar's full height stays within 90% of the capsule height |
| `LeftVisualizer.ResolveAnalyser` | frontend/src/components/sidebar/left-visualizer.tsx:80-82 | the shared analyser wins, the local one is the fallback, none only when both are absent |
| `LeftVisualizer.DepsClosureSamplesIff` | frontend/src/components/sidebar/left-visualizer.tsx:144-200 | as written, a loop started by the dependency effect samples live data iff an analyser is shared and the render that started it was not in fallback mode |
| `LeftVisualizer.StaleClosureIgnoresAnalyser` | frontend/src/components/sidebar/left-visualizer.tsx:144-200 | as written, a loop started for a newly shared analyser while the render is in fallback mode ignores the analyser |
| `LeftVisualizer.FreshClosureSamplesIffShared` | frontend/src/components/sidebar/left-visualizer.tsx:144-200 | corrected, the loop samples live data exactly when an analyser is shared |
| `LeftVisualizer.Visualizer.constructor` | frontend/src/components/sidebar/left-visualizer.tsx:15-16 | before the first commit: fallback mode off, no cleanup, no loop |
| `LeftVisualizer.Visualizer.Rerender` | frontend/src/components/sidebar/left-visualizer.tsx:16 | a render makes later effects see the current `fallbackMode` |
| `LeftVisualizer.Visualizer.CancelLoop` | frontend/src/components/sidebar/left-visualizer.tsx:185-188 | running the registered cleanup leaves no loop scheduled |
| `LeftVisualizer.Visualizer.StartDrawing` | frontend/src/components/sidebar/left-visualizer.tsx:54-188 | the previous loop is stopped first, so at most one runs; a missing canvas or 2-D context leaves no cleanup and no loop; otherwise exactly one loop with a registered cleanup, a buffer of the analyser's bin count (none without an analyser) and phase 0 |
| `LeftVisualizer.Visualizer.OnDepsChange` | frontend/src/components/sidebar/left-visualizer.tsx:192-205 | as written: afterwards `fallbackMode` is true exactly when no analyser is shared, and the new loop captured the render's mode |
| `LeftVisualizer.Visualizer.OnDepsChangeFresh` | frontend/src/components/sidebar/left-visualizer.tsx:192-205 | corrected: the same, with the loop capturing the mode just requested |
| `LeftVisualizer.Visualizer.OnMount` | frontend/src/components/sidebar/left-visualizer.tsx:207-216 | with a cleanup already registered nothing changes; otherwise fallback mode is requested and a loop started |
| `LeftVisualizer.Visualizer.Unmount` | frontend/src/components/sidebar/left-visualizer.tsx:201-215 | after unmounting no loop keeps running |
| `LeftVisualizer.Visualizer.DrawFrame` | frontend/src/components/sidebar/left-visualizer.tsx:93-177 | a frame draws live bars iff the loop's analyser exists and its mode is not fallback; a live frame first has a buffer of the analyser's bin count holding the spectrum and then one level per bar; a fallback frame advances the phase by one step |
| `LeftVisualizer.StaleClosureScenario` | frontend/src/components/sidebar/left-visualizer.tsx:192-216 | mounting with no analyser and then sharing one yields, as written, a fallback frame |
| `LeftVisualizer.FreshClosureScenario` | frontend/src/components/sidebar/left-visualizer.tsx:192-216 | the same sequence with the corrected effect yields live bars |
| `TrackList.ToLower` | frontend/src/components/create/track-list.tsx:115-116 | lower-casing keeps the length and maps each character on its own |
| `TrackList.ToLowerIdempotent` | frontend/src/components/create/track-list.tsx:115-116 | lower-casing twice is lower-casing once |
| `TrackList.ContainsIffOccurs` | frontend/src/components/create/track-list.tsx:115-116 | `includes` holds iff the substring occurs at some index |
| `TrackList.TitleAloneDecides` | frontend/src/components/create/track-list.tsx:113-117 | two tracks with the same non-null title match the same queries whatever their prompts |
| `TrackList.MatchesByTitle` | frontend/src/components/create/track-list.tsx:115 | with a title, a track matches iff the lower-cased query occurs in the lower-cased title |
| `TrackList.MatchesByPrompt` | frontend/src/components/create/track-list.tsx:115-116 | without a title, a track matches iff the query occurs in the prompt; with neither it never matches |
| `TrackList.QueryCaseIrrelevant` | frontend/src/components/create/track-list.tsx:115-116 | queries that lower-case alike select the same tracks |
| `TrackList.Filter` | frontend/src/components/create/track-list.tsx:113-117 | the filtered list is no longer than the input, and everything in it is an input track that matches |
| `TrackList.FilterIsSubsequence` | frontend/src/components/create/track-list.tsx:113 | the filtered list is an order-preserving subsequence of the tracks |
| `TrackList.FilterKeepsMatches` | frontend/src/components/create/track-list.tsx:113-117 | no matching track is dropped |
| `TrackList.FilterCounts` | frontend/src/components/create/track-list.tsx:113-117 | each matching track appears in the filtered list as many times as in the input, and a non-matching one never: duplicates are kept, not merged |
| `TrackList.FilterIdempotent` | frontend/src/components/create/track-list.tsx:113-117 | filtering twice with the same query is filtering once |
| `TrackList.EmptyQueryShowsTitledOrPrompted` | frontend/src/components/create/track-list.tsx:113-117 | with an empty query exactly the tracks with a title or a prompt are shown |
| `TrackList.SelectableIff` | frontend/src/components/create/track-list.tsx:151-218 | a row is clickable iff its status is none of "failed", "no credits", "queued", "processing"; null and other strings are clickable |
| `TrackList.Descriptor` | frontend/src/components/create/track-list.tsx:74-81 | the player descriptor takes `url` from `playUrl` and `artwork` from `thumbnailUrl`, and copies id, title, prompt and author name |
| `TrackList.ConfirmTitle` | frontend/src/components/create/track-list.tsx:303 | `title ?? "Untitled"`: a present title, even an empty one, is kept; only a null one becomes "Untitled" |
| `TrackList.TrackListView.constructor` | frontend/src/components/create/track-list.tsx:52-53 | nothing is loading or being deleted at first |
| `TrackList.TrackListView.HandleTrackSelect` | frontend/src/components/create/track-list.tsx:59-85 | ignored while a selection is loading; a track without a play url touches nothing in the store; otherwise exactly one autoplay request, then the descriptor, and the loading marker is cleared |
| `TrackList.TrackListView.HandleDeleteTrack` | frontend/src/components/create/track-list.tsx:93-111 | nothing without confirmation; otherwise the track is marked while the action runs and unmarked whether the action succeeds or fails |
| `SongCard.InitiallyLiked` | frontend/src/components/home/song-card.tsx:39-41 | the card starts liked iff the caller's likes were loaded and there is one |
| `SongCard.IsOwnerIff` | frontend/src/components/home/song-card.tsx:95 | the caller owns the card iff their id equals the song's user id; a visitor owns nothing |
| `SongCard.LikeStep` | frontend/src/components/home/song-card.tsx:66-67 | a click flips the flag, and the count moves by one toward the new flag |
| `SongCard.LikeStepTwiceRestores` | frontend/src/components/home/song-card.tsx:66-67 | two clicks restore both the flag and the count |
| `SongCard.OptimisticLikeAgrees` | frontend/src/components/home/song-card.tsx:66-69 | if the card's flag agreed with the likes table before a click, it still agrees after the toggle the click sends |
| `SongCard.CardDescriptor` | frontend/src/components/home/song-card.tsx:51-58 | the descriptor uses the fetched url unchecked, the song's thumbnail as artwork and the author's name |
| `SongCard.Card.constructor` | frontend/src/components/home/song-card.tsx:35-42 | the card starts idle, with the initial like flag and the feed's like count |
| `SongCard.Card.HandlePlay` | frontend/src/components/home/song-card.tsx:44-61 | loading once the lookup settles; when the url lookup rejects, the store is untouched and the card stays loading (no `finally`); otherwise one autoplay request, then the descriptor, and loading ends |
| `SongCard.Card.HandleLike` | frontend/src/components/home/song-card.tsx:63-70 | the card's like view takes one like step |
| `SongCard.Card.HandleDelete` | frontend/src/components/home/song-card.tsx:72-92 | nothing without confirmation; otherwise `isDeleting` is set while the action runs and cleared in every outcome |
| `AuthCredits.Or` | frontend/src/lib/auth.ts:59 | `a \|\| b` is truthy iff either operand is, and is the first operand when that is truthy |
| `AuthCredits.Candidates` | frontend/src/lib/auth.ts:65-78 | there are twelve candidate places: the eight on the payload, the three on the first order item, then `items[0].product_id` (their order is what `ProductIdPrecedence` states) |
| `AuthCredits.FirstStringAppend` | frontend/src/lib/auth.ts:79 | the first string of a concatenation is the first part's if it has one, otherwise the second part's |
| `AuthCredits.ProductIdPrecedence` | frontend/src/lib/auth.ts:65-79 | a string anywhere on the payload decides the product; the first order item is consulted only when the payload has none, and `items[0].product_id` only when neither has one |
| `AuthCredits.FirstString` | frontend/src/lib/auth.ts:79 | the result is the first string among the candidates, and is none iff no candidate is a string |
| `AuthCredits.CreditsFor` | frontend/src/lib/auth.ts:82-95 | the credit amount is one of 0, 10, 25 or 50 |
| `AuthCredits.CreditsExactlyForCheckoutProducts` | frontend/src/lib/auth.ts:32-95 | an order is worth credits iff its product is one of the checkout's products: 10, 25 and 50 for small, medium and large |
| `AuthCredits.TopLevelProductIdWins` | frontend/src/lib/auth.ts:65-79 | a string `productId` at the top level decides the product, even an empty one |
| `AuthCredits.UserWithEmail` | frontend/src/lib/auth.ts:117-121 | the lookup by unique email finds the user with that email, or shows that none has it |
| `AuthCredits.CreditedUser` | frontend/src/lib/auth.ts:59-137 | the user chosen for credit, if any, exists in the table |
| `AuthCredits.OrderPaidCreditsOneUser` | frontend/src/lib/auth.ts:99-137 | at most one user is credited, by exactly the order's positive amount; every other row and every email is unchanged, so emails stay unique |
| `AuthCredits.OrderPaidNoGrantCases` | frontend/src/lib/auth.ts:59-137 | no credit without a customer id, for an order worth nothing, or when the id update fails and there is no email |
| `AuthCredits.OrderPaidIdBeforeEmail` | frontend/src/lib/auth.ts:99-121 | the update by id comes first and, when it succeeds, decides; the email is used only after it fails, and then names the credited user |
| `AuthCredits.UserTable.constructor` | frontend/src/lib/auth.ts:100-121 | the table starts with unique emails |
| `AuthCredits.UserTable.IncrementById` | frontend/src/lib/auth.ts:100-105 | succeeds iff the id is a string naming a user, who is then credited; on failure nothing changes |
| `AuthCredits.UserTable.IncrementByEmail` | frontend/src/lib/auth.ts:116-121 | succeeds iff a user has that (string) email, who is then credited; on failure nothing changes |
| `AuthCredits.UserTable.OnOrderPaid` | frontend/src/lib/auth.ts:52-141 | the handler's effect is exactly the specified grant, failures included, and emails stay unique |
| `SongActions.StorageKeys` | frontend/src/actions/song.ts:66-79 | storage deletion is requested for exactly the truthy keys, audio first, at most two, all non-empty |
| `SongActions.DeleteStepsOrder` | frontend/src/actions/song.ts:47-101 | the row is deleted first; every later step is a storage request for one of the row's keys, and each key gets one |
| `SongActions.RemovedObjects` | frontend/src/actions/song.ts:62-101 | only the row's keys can disappear from storage, and each does when its request succeeds |
| `SongActions.WithPublished` | frontend/src/actions/song.ts:116-124 | only the `published` field of that one row changes |
| `SongActions.PublishToggleTwiceRestores` | frontend/src/actions/song.ts:116-124 | publishing with the negated flag twice gives the table back |
| `SongActions.WithTitle` | frontend/src/actions/song.ts:136-145 | only the title of that one row changes |
| `SongActions.RenameLastWins` | frontend/src/actions/song.ts:136-145 | renaming twice is renaming to the last title |
| `SongActions.ToggledFlipsOnlyThePair` | frontend/src/actions/song.ts:156-181 | the toggle flips the caller's like of that song and no other like |
| `SongActions.ToggleTwiceRestores` | frontend/src/actions/song.ts:156-181 | toggling twice restores the likes |
| `SongActions.SongDb.constructor` | frontend/src/actions/song.ts:18-107 | the tables start as given, with no recorded deletion steps |
| `SongActions.SongDb.DeleteSong` | frontend/src/actions/song.ts:18-107 | without a session it redirects; on a missing or foreign row, or when the row deletion fails, it fails with nothing changed; otherwise the row goes, storage deletion follows in order, and only the keys whose requests succeed disappear; likes untouched |
| `SongActions.SongDb.SetPublishedStatus` | frontend/src/actions/song.ts:109-127 | redirect without a session; not found (no change) for a missing or foreign row; otherwise exactly the publish flag of the row is set |
| `SongActions.SongDb.RenameSong` | frontend/src/actions/song.ts:129-147 | redirect without a session; not found (no change) for a missing or foreign row; otherwise exactly the title of the row is set |
| `SongActions.SongDb.ToggleLikeSong` | frontend/src/actions/song.ts:149-184 | redirect without a session; otherwise the likes become the specified toggle |

## Left out

- Canvas painting (paths, gradients, the waveform stroke, the capsule and bar rectangles) has no state to state facts about. Only its clamps and the bar count are modelled.
- `Math.pow` bucket bounds are a parameter `edges`: any integers, which `ClampBucket` handles whatever they are. The `sin` fallback levels are not computed. The `t += 0.02` accumulator is counted in steps (`phase`).
- The canvas size, `resize` and `devicePixelRatio` scaling are inputs, except the `|| 1` fallback.
- These browser internals become flags and opaque nodes, whose outcomes are passed in:
  - Web Audio nodes, `connect`/`disconnect`;
  - `AudioContext` creation and `resume`;
  - `requestAnimationFrame`;
  - the media element's `readyState`.
- The 2-second resume watchdog (sound-bar.tsx:301-318), `ensureCanPlay`'s 1.5-second timeout (331-341), the `setTimeout(…, 0)` tick and interleavings of pending promises are timing and concurrency.
- The debug button (sound-bar.tsx:443-467) is a debug aid that bypasses the routing rule.
- Logging and toasts have no state.
- `SoundBar.Player`: the element's `currentTime` and the component's `currentTime` are one field. The sound bar's waveform frame (`draw`, sound-bar.tsx:227-282) is represented only by whether its loop runs (`loopActive`) and by its progress fill (`PaintedProgress`).
- `SoundBar.Player.OnLoadedMetadata`: `audio.duration` can also be `Infinity` (a stream of unknown length), which the source keeps. A `real` cannot hold it, so the model's duration is always finite.
- `SoundBar.Player.BuildGraph`: `sourceCreated` is a free input. After the play button's fallback has discarded the source, the element still has its MediaElementAudioSourceNode, and a browser refuses a second one for the same element. The model does not force that failure.
- `LeftVisualizer.Visualizer.StartDrawing`: the first synchronous call of `draw` in each loop is a separate `DrawFrame` call.
- `SoundBar.Player.Commit` is one fixed effect order per commit. The playback effects and the graph effect touch disjoint state, so the graph's cleanup is taken together with its build, after the playback effects. React's batching of the intermediate `isLoading` or `loadingTrackId` state is not modelled: the model records the value while the store is updated.
- `SoundBar.Player.SyncElement`: the `[track]` listener effect that re-attaches the element's event handlers to a new element is implicit; the handlers are methods of the player.
- The visualizer's hidden audio element (left-visualizer.tsx:30-51) and its `pointerdown` resume (18-28) never take part in drawing. Its own `analyserRef` is never assigned, so `ResolveAnalyser` is called with no local analyser.
- An analyser with zero bins would give a NaN average in the source. The model's `Level` is defined for every bucket, and the analyser in the sound bar always has 1024 bins.
- Session lookup, `headers`, `redirect` and `revalidatePath`: the session is a parameter and a redirect is a result value.
- Prisma and the S3 client: only their effect on the abstract tables is kept. The like foreign key and cascade deletion are not part of this model.
- The Polar and betterAuth configuration, except the checkout product ids (auth.ts:32-45) and the `onOrderPaid` body.
- `AuthCredits.UserTable.OnOrderPaid`: credits are unbounded integers; Postgres integer overflow is not modelled. Non-string customer ids are treated as failing the update by id.
- `TrackList.ToLower` lower-cases ASCII letters only. JavaScript's full Unicode case mapping is not modelled.
- Track fields that are only rendered (creation date, lyrics, descriptions), and the refresh and rename dialogs of the track list.
- customer-portal-redirect.tsx, credits.tsx, upgrade.tsx and sidebar-menu-items.tsx are not part of this model. They are a redirect over an SDK call, a database read, a single checkout call and a path comparison.

## Findings

| source | as written | input that shows it | evidently intended | confidence | as-written member | corrected member |
|---|---|---|---|---|---|---|
| frontend/src/components/sound-bar.tsx:162-202 | The graph effect makes a media-element source only when `sourceRef` is empty, and the ref outlives the `<audio>` element. That element is rendered only while the track has a url (514-520), so a url-less track unmounts it and the next url track mounts a new one. The next build keeps the old element's source, wires it and mutes the new element (202). | Play a track with a url, then one with a new id and no url, then another with a url, with every browser call succeeding. Playback is on and the rendered element is muted, but the graph's source is the detached element: nothing is heard. | A source is made per element. The graph's source always belongs to the element being muted. | not executed | `SoundBar.RemountSilencesPlayback`, `SoundBar.PlayThroughUrlLessTrack` (with `ReuseAnySource`) | `SoundBar.RemountKeepsPlaybackAudible`, `SoundBar.Player.BuildGraph` (with `SourcePerElement`) |
| frontend/src/components/sound-bar.tsx:272-298 | `draw` compares the `duration` captured when the graph effect ran; the effect depends only on `[track?.id]`. It runs on the render that selected the track, before that track's metadata has loaded. | The first track played: the captured duration is 0, so after `loadedmetadata` (duration 180) and `timeupdate` (60) no progress fill is drawn. A later track paints against the previous track's duration. | The fill is the played fraction of the loaded track's duration. | not executed | `SoundBar.FirstTrackProgress` (`painted`), `SoundBar.Player.PaintedProgress` | `SoundBar.Player.PaintedProgressCurrent`, `SoundBar.FirstTrackProgress` (`intended`) |
| frontend/src/components/sound-bar.tsx:362-376 | When the first `play()` rejects, the play button's fallback disconnects the analyser, disconnects and drops the source, and retries `play()`. It leaves `audioEl.muted` (set at 202) and `usingWebAudioOutputRef` as they were. | Play a url track with every call succeeding, pause it, then press play with the first `play()` rejecting and the retry resolving. The player shows playing with no error, but the element is muted and the graph has no source: nothing is heard. | The retry plays through the element: it is unmuted at the slider volume, graph mode ends and no analyser is shared. | not executed | `SoundBar.FallbackRetrySilenced`, `SoundBar.RetryAfterFailedPlay` (with `KeepRouting`) | `SoundBar.FallbackRetryAudible`, `SoundBar.Player.TogglePlay` (with `RouteToElement`) |
| frontend/src/components/sidebar/left-visualizer.tsx:192-205 | The dependency effect calls `setFallbackMode(false)` and then `startDrawing()`. The new loop's `draw` reads the `fallbackMode` of the render that ran the effect, which is still `true`. The effect does not run again until the analyser or track changes. | Mount with no shared analyser (the mode becomes fallback). The sound bar then publishes an analyser. Every frame of the new loop draws the fallback animation. | Once an analyser is shared, the loop samples it (fallback exactly when none is shared). | not executed | `LeftVisualizer.StaleClosureScenario`, `LeftVisualizer.StaleClosureIgnoresAnalyser` | `LeftVisualizer.FreshClosureScenario`, `LeftVisualizer.Visualizer.OnDepsChangeFresh`, `LeftVisualizer.FreshClosureSamplesIffShared` |
