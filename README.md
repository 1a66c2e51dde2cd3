# photo-wall in Dafny

photo-wall is a browser slideshow. `scan.js` lists the photos and music
tracks found in `assets/photos` and `assets/music` and writes them into a
generated file list. The `PhotoWall` class in `script.js` shows the photos
one after another, with a chosen transition effect, and plays background
music once the user has interacted with the page. Its control bar hides
itself in fullscreen when the pointer is idle.

This project models both parts and proves properties of them.

- `js_text.dfy` (module `JsText`) — JavaScript strings as sequences of
  UTF-16 code units, and the order in which `Array.prototype.sort()` with no
  comparator puts them. A reference insertion sort, with the proof that a
  sorted permutation is unique: any engine's sort algorithm gives the same
  list.
- `scan.dfy` (module `Scan`) — the list building of `scan.js`:
  - Node's `path.extname` for a directory entry;
  - the case-sensitive extension filter, written as a loop;
  - the in-place sort, on an array;
  - the missing-directory case;
  - the folder prefixes of the generated list.
- `indexing.dfy` (module `Indexing`) — index arithmetic:
  - the clamp in `showPhoto`;
  - the neighbours used by `nextPhoto` and `prevPhoto`;
  - the music pointer of `playBackgroundMusic`.
- `effects.dfy` (module `Effects`) — effect resolution in
  `applyEnhancedTransition`: 'random', the twelve named effects and the
  default branch. Each gives an enter animation for the incoming photo and
  an exit animation for the outgoing one.
- `wall.dfy` (module `Wall`) — the controller as a state machine over a
  value `WallState`:
  - one step function per method and per event handler;
  - the invariant `Inv`;
  - the events, their enabling conditions and `Run`, a sequence of events.
- `wall_props.dfy` (module `WallProps`) — what the steps guarantee:
  - every event keeps `Inv`, so every state reachable from page load
    satisfies it;
  - the gesture flag is never cleared;
  - the promises of the individual operations.
- `photo_wall.dfy` (module `Controller`) — the class `PhotoWall`. Its
  fields are the controller's state, grouped as in `WallState`. It has one
  method per method and per event handler of the source. Each method is
  proved to perform exactly the step of module `Wall`. The event handlers
  require and ensure `Valid()`.

How the environment is abstracted:

- **Timers** are counts of pending callbacks. The `fired` events of the
  model run a callback and consume one pending count. Five kinds of timer
  are modelled:
  - the one-second automatic start after the main interface is shown
    (`autoStartTimers`);
  - the advance interval `timer`;
  - the idle `mouseMoveTimer`;
  - the one-second hide after entering fullscreen;
  - the role swap of each transition.

  The invariant shows that at most one advance interval and at most one
  idle timeout are ever pending.
- **`Math.random`** draws are parameters:
  - the shuffle track is `draw % len`, so every track can be drawn;
  - a `Dice` value carries the random effect, the slide direction and the
    rotation axis.
- **Browser answers** are parameters:
  - image loads (`Loaded` / `LoadError`);
  - the audio `play()` promise (`PlayStarted` / `PlayBlocked`);
  - whether the document is fullscreen;
  - whether the pointer is over the control panel.

Where the code does something a reader might not expect, the model follows
the code:

- `showPhoto` sets `currentPhotoIndex` before the image has loaded. An
  out-of-range index is clamped to an end, not reduced modulo the deck
  length (`Indexing.ClampIsNotModulo`).
- In shuffle mode the music index is overwritten with the drawn track
  plus one, wrapping to 0 after the last track.
- `useDemoContent` installs the two demo tracks without resetting the
  music index. An index left at 2 or more by a longer playlist is then
  reduced modulo the new length at the next sequential pick
  (`WallProps.PlayMusicSequential`).
- `pause` is unguarded.
- Nothing stops a second transition while the role swap of a first is
  pending. The swap copies whatever the incoming surface shows at the time
  it fires.
- An audio element that the constructor creates has `loop = true`. For it,
  the `ended` event, and with it track cycling, never happens. `TrackEnd`
  is enabled only for a page-supplied element that does not loop.
- The keyboard handler is registered before the gesture listener of
  `setupAudio`. The first key press of a session that is the space bar,
  on a paused slideshow, therefore starts the photos while the gesture flag
  is still unset: the
  music is loaded but stays silent, and a prompt is shown
  (`WallProps.FirstSpaceLeavesMusicSilent`).
- The interval slider resets the idle timer but does not set the gesture
  flag. The volume slider and the control buttons do set it.
- The timeout armed on entering fullscreen hides the controls
  unconditionally, even with the pointer over them
  (`WallProps.FullscreenHideIgnoresPointer`).

## Model

| member | source | states |
|---|---|---|
| JsText.LexLeTotal | scan.js:27 | any two names compare one way or the other, so the default sort order is total |
| JsText.LexLeTransitive | scan.js:27 | the default string order is transitive |
| JsText.LexLeAntisymmetric | scan.js:27 | two names that compare equal both ways are the same name, so ties never reorder distinct entries |
| JsText.LexLeCommonPrefix | scan.js:65-66 | putting the same folder in front of two names keeps their order |
| JsText.Sort | scan.js:27 | the reference sort returns a permutation of its input (same length, same multiset) |
| JsText.InsertSorted | scan.js:27 | inserting into a sorted list keeps it sorted |
| JsText.SortSorted | scan.js:27 | the reference sort returns a sorted list |
| JsText.SortedPermutationUnique | scan.js:27 | two sorted permutations of the same names are equal, so every correct engine sort yields the same list |
| Scan.LastDot | scan.js:22 | the position of the last '.' of a name, or -1: no '.' follows it |
| Scan.ExtName | scan.js:22 | `path.extname` of an entry is a suffix that starts with its only '.'; it is empty exactly when the name is '..' or has no '.' after its first character |
| Scan.Filter | scan.js:21-25 | an entry is kept exactly when its extension is on the list; nothing is invented |
| Scan.CollectMatching | scan.js:20-26 | the forEach loop pushes exactly the matching entries, in listing order |
| Scan.SortInPlace | scan.js:27 | the in-place sort leaves the array sorted and a permutation of its old contents |
| Scan.ScanDirectory | scan.js:19-31 | a missing directory gives an empty list; otherwise the sorted matching entries, an entry appearing in the list exactly when it is present with a listed extension |
| Scan.WithFolder | scan.js:65-66 | the prefix map keeps length and order and puts the folder in front of each name |
| Scan.WithFolderSorted | scan.js:65-66 | the prefixed list is still sorted |
| Scan.GenerateFileList | scan.js:11-66 | each list is the sorted, prefixed scan of its own directory, independent of the other; both are sorted |
| Scan.ExtensionListsDisjoint | scan.js:8-9 | no extension is both an image and an audio extension |
| Scan.KindsNeverMix | scan.js:18-43 | a name kept as a photo never has an audio extension, and a kept track never has an image extension |
| Scan.ExtNameOfSuffix | scan.js:22-23 | the extension of `stem + '.ext'` is `'.ext'` |
| Scan.CaseSensitiveExamples | scan.js:8-23 | membership is exact: 'a.jpg' and 'a.JPG' are kept as photos, 'a.Jpg' is not |
| Scan.LeadingDotIsNoExtension | scan.js:22-23 | a name that is only a dot and an extension, such as '.jpg', has no extension and is not kept |
| Indexing.ClampIndex | script.js:512-513 | the index shown is in range: a negative index gives the last photo, one past the end or more gives the first, any other is kept |
| Indexing.NextIndex | script.js:871 | the index nextPhoto asks for is in range |
| Indexing.PrevIndex | script.js:877 | the index prevPhoto asks for is in range |
| Indexing.ClampWrapsAtBothEnds | script.js:512-513 | index -1 shows the last photo and index `len` the first |
| Indexing.ClampIsNotModulo | script.js:512-513 | with three or more photos, -2 clamps to the last photo and `len + 1` to the first, each differing from the index reduced modulo the length |
| Indexing.PrevUndoesNext | script.js:869-879 | prevPhoto's index after nextPhoto's, and the reverse, return to the start |
| Indexing.AdvanceBy | script.js:869-873 | `k` steps of nextPhoto, up to a full round, move `k` places on the cycle |
| Indexing.AdvanceFullCycle | script.js:869-873 | as many steps as photos return to the start |
| Indexing.MusicPick | script.js:812-814 | the picked track is in range; with shuffle it is the random draw, and without it the music index modulo the playlist length (the index itself when in range) |
| Indexing.PointerAfter | script.js:817 | the music index after a pick is one past it, wrapping to 0, and in range |
| Indexing.SequentialBy | script.js:812-817 | `k` sequential picks, up to a full round, move the music index `k` tracks on |
| Indexing.SequentialFullCycle | script.js:812-817 | as many sequential picks as tracks return the music index to its start |
| Effects.Plan | script.js:555-665 | one enter animation for the incoming photo and one exit animation for the outgoing one, of the same resolved effect, variant, timing and the configured duration |
| Effects.ConcreteEffectsEnumerate | script.js:573-580 | random mode draws from twelve distinct effects that are all of them |
| Effects.ResolveName | script.js:583-658 | selecting an effect by its name animates with that effect, whatever the draws |
| Effects.ResolveRandom | script.js:573-580 | 'random' is no effect's name and resolves to the drawn effect |
| Effects.UnknownFallsBackToFade | script.js:660-663 | an unknown selector value animates exactly as 'fade' |
| Wall.Initial | script.js:5-47 | the state after construction satisfies the invariant; music is enabled exactly when there is a track |
| WallProps.PreloadHit | script.js:670-673 | a cached URL resolves with the cached object and loads nothing |
| WallProps.PreloadMiss | script.js:675-687 | an uncached URL creates one `Image`; a successful load caches exactly that URL and resolves with it; a failed load rejects and leaves the cache unchanged, so the next call retries |
| WallProps.PreloadMemoizes | script.js:670-680 | after a successful load, asking again returns the same object and changes nothing, whatever the browser would answer |
| WallProps.PreloadKeepsKeyed | script.js:677-680 | every cached object is stored under its own URL, and a resolved image is the one asked for |
| WallProps.EmptyDeckIgnoresNavigation | script.js:509 | with no photos, showPhoto, nextPhoto and prevPhoto change nothing |
| WallProps.ShowPhotoShows | script.js:508-553 | the clamped index becomes current before the load settles; the incoming surface gets the photo exactly when it is cached or loads, otherwise a placeholder numbered from the new index; the outgoing one keeps its picture until the swap; both get the planned animations; one more swap is pending; the cache is the preload's result; the lists, the selected effect and everything else are unchanged |
| WallProps.ShowPhotoKeepsInv | script.js:508-553 | showPhoto keeps the invariant |
| WallProps.NavigationIndices | script.js:869-879 | nextPhoto makes `(i+1) % len` current and prevPhoto `(i-1+len) % len` |
| WallProps.NextThenPrevReturns | script.js:869-879 | prevPhoto after nextPhoto, and nextPhoto after prevPhoto, return to the starting photo |
| WallProps.TicksAdvance | script.js:881-886 | `k` ticks of the advance interval keep the invariant and the deck and make the photo `k` places on current |
| WallProps.TicksFullCycle | script.js:881-886 | as many ticks as photos bring the slideshow back to its starting photo |
| WallProps.StartIdempotent | script.js:748-749 | start on a started slideshow changes nothing |
| WallProps.StartArmsOneTimer | script.js:748-772 | start on an empty deck or on a playing slideshow changes nothing; otherwise it plays with exactly one advance timer |
| WallProps.PauseStops | script.js:774-798 | pause from any state stops playing, clears the timer and pauses the audio; pausing again changes nothing |
| WallProps.TogglePlayFlips | script.js:735-746 | togglePlay on an empty deck only adds a warning; otherwise it flips playing |
| WallProps.IntervalSliderBounds | script.js:173-181 | the slider sets the interval in ms and a transition of at most 1.5 s and at most 30% of it, so from one second up it ends before the next advance; playback is untouched |
| WallProps.PlayMusicLoadsPick | script.js:800-850 | nothing when music is off or the list is empty; otherwise the picked track is loaded, the music index lands one past it, sound plays exactly when the user has interacted and the browser agrees, and otherwise a prompt is added |
| WallProps.PlayMusicSequential | script.js:812-816 | without shuffle the track played is `currentMusicIndex` modulo the playlist length, for any index, and the track the index names when it is in range |
| WallProps.Completions | script.js:844-849 | repeated `ended` events on an audible, playing slideshow keep the configuration, playlist and playback, and keep the music audible |
| WallProps.CompletionsSequential | script.js:812-817 | without shuffle each completion is one sequential pick of the music index |
| WallProps.CompletionsAdvance | script.js:812-817 | without shuffle, `k` completions (up to a full round) move the music index `k` tracks on, wrapping once |
| WallProps.CompletionsFullCycle | script.js:812-817 | as many completions as tracks bring the music index back to its start |
| WallProps.FirstSpaceLeavesMusicSilent | script.js:261-266 | the first key press of a session, when it is space on a paused slideshow with music, starts the photos but leaves the music silent with a prompt |
| WallProps.ControlsVisibility | script.js:399-442 | showControls and hideControls are idempotent and set visibility; toggleControls flips it |
| WallProps.IdleTimeoutAlwaysHides | script.js:384-388 | in every state satisfying the invariant, the idle timeout hides the controls |
| WallProps.PointerOverControlsCancelsIdle | script.js:350-353 | entering the controls leaves no idle timeout pending |
| WallProps.FullscreenChanges | script.js:303-314 | entering fullscreen with auto-hide is exactly the old state with the fullscreen flag set and one hide scheduled; leaving clears the flag and shows the controls with no idle timeout pending |
| WallProps.FullscreenHideIgnoresPointer | script.js:308-309 | the hide scheduled on entering fullscreen hides the controls even with the pointer over them |
| WallProps.MouseMoveOutsideFullscreen | script.js:328-345 | outside fullscreen, moving the pointer only records whether it is over the controls |
| WallProps.ToggleMuteInvolution | script.js:936-940 | muting twice restores the state; the element's muted flag follows isMuted |
| WallProps.DemoContentPlays | script.js:961-983 | demo content replaces both lists, enables music, shows the first photo, plays and tells the user |
| WallProps.StartupPlays | script.js:457-465 | after the interface is shown, the first photo is current and the pending automatic start plays |
| WallProps.StepKeepsInv | script.js:49-62 | every enabled event keeps the invariant |
| WallProps.RunKeepsInv | script.js:49-62 | every sequence of events keeps the invariant |
| WallProps.ReachableStatesSatisfyInv | script.js:49-62 | every state reachable from page load satisfies the invariant: index in range, at most one advance and one idle timer, music enabled only with tracks, cache keyed by URL |
| WallProps.SilentUntilGesture | script.js:827-841 | in every reachable state, music sounds only after a user gesture, and playing implies a non-empty deck with one advance timer |
| WallProps.StepKeepsGesture | script.js:82-83 | no event clears the gesture flag |
| WallProps.RunKeepsGesture | script.js:82-83 | once set, the gesture flag stays set for the rest of any run |
| Controller.PhotoWall.constructor | script.js:5-47 | the fields start as the model's initial state, which satisfies the invariant |
| Controller.PhotoWall.StopTimer | script.js:888-893 | clears the advance interval if one is pending |
| Controller.PhotoWall.StartTimer | script.js:881-886 | clears any interval, then arms exactly one |
| Controller.PhotoWall.RestartTimer | script.js:895-900 | re-arms the interval only while playing |
| Controller.PhotoWall.PreloadImage | script.js:667-689 | hit, load success and load failure act on the cache as the model's preload does |
| Controller.PhotoWall.ApplyEnhancedTransition | script.js:555-665 | the incoming surface gets the plan's enter animation and the outgoing one its exit animation; nothing else changes |
| Controller.PhotoWall.ShowPhoto | script.js:508-553 | performs the model's showPhoto step |
| Controller.PhotoWall.NextPhoto | script.js:869-873 | performs the model's nextPhoto step |
| Controller.PhotoWall.PrevPhoto | script.js:875-879 | performs the model's prevPhoto step |
| Controller.PhotoWall.Start | script.js:748-772 | performs the model's start step |
| Controller.PhotoWall.Pause | script.js:774-798 | performs the model's pause step |
| Controller.PhotoWall.TogglePlay | script.js:735-746 | performs the model's togglePlay step |
| Controller.PhotoWall.ShowMainInterface | script.js:444-474 | performs the model's showMainInterface step and keeps the invariant |
| Controller.PhotoWall.UseDemoContent | script.js:961-983 | performs the model's useDemoContent step |
| Controller.PhotoWall.PlayBackgroundMusic | script.js:800-850 | performs the model's playBackgroundMusic step |
| Controller.PhotoWall.ToggleMute | script.js:936-949 | flips isMuted and the element's muted flag |
| Controller.PhotoWall.InitAudioOnInteraction | script.js:81-91 | the first gesture sets the flag and plays music if the slideshow plays |
| Controller.PhotoWall.ClearMouseIdleTimer | script.js:392-397 | cancels the pending idle timeout, if any |
| Controller.PhotoWall.ResetMouseIdleTimer | script.js:380-390 | cancels the idle timeout, then arms one only in fullscreen with auto-hide and the pointer off the controls |
| Controller.PhotoWall.ShowControls | script.js:399-415 | the controls are visible |
| Controller.PhotoWall.HideControls | script.js:417-433 | the controls are hidden |
| Controller.PhotoWall.ToggleControls | script.js:435-442 | hides visible controls; shows hidden ones and resets the idle timer |
| Controller.PhotoWall.OnButtonClick | script.js:126-147 | a button's action, then the idle reset and the gesture flag; keeps the invariant |
| Controller.PhotoWall.OnKeyDown | script.js:256-300 | the keyboard handler, then the gesture listener; keeps the invariant |
| Controller.PhotoWall.OnDocumentClick | script.js:1589-1594 | the gesture listener, then the one-shot listener that plays music once the flag is set; keeps the invariant |
| Controller.PhotoWall.OnVolumeInput | script.js:153-164 | resets the idle timer and sets the gesture flag; keeps the invariant |
| Controller.PhotoWall.OnIntervalInput | script.js:173-181 | sets interval and transition, re-arms the timer while playing, resets the idle timer; keeps the invariant |
| Controller.PhotoWall.OnEffectChange | script.js:223 | records the selected effect and resets the idle timer; keeps the invariant |
| Controller.PhotoWall.OnAutoStartTimeout | script.js:461-465 | the automatic start plays if not yet playing; keeps the invariant |
| Controller.PhotoWall.OnAdvanceTimeout | script.js:883-885 | the interval shows the next photo; keeps the invariant |
| Controller.PhotoWall.OnSwapTimeout | script.js:543-547 | the incoming picture becomes current; keeps the invariant |
| Controller.PhotoWall.OnTrackEnded | script.js:844-849 | a finished track is followed by the next one while playing; keeps the invariant |
| Controller.PhotoWall.OnAudioError | script.js:98-101 | an audio error adds an error notice; keeps the invariant |
| Controller.PhotoWall.OnFullscreenChange | script.js:303-314 | entering fullscreen schedules a hide, leaving shows the controls and cancels the idle timer; keeps the invariant |
| Controller.PhotoWall.OnFullscreenHideTimeout | script.js:309 | hides the controls; keeps the invariant |
| Controller.PhotoWall.OnIdleTimeout | script.js:384-388 | hides the controls if still fullscreen and the pointer is off them; keeps the invariant |
| Controller.PhotoWall.OnMouseMove | script.js:328-345 | records the hit test, and in fullscreen with auto-hide shows the controls and resets the idle timer; keeps the invariant |
| Controller.PhotoWall.OnControlsEnter | script.js:350-353 | the pointer is over the controls and the idle timeout is cancelled; keeps the invariant |
| Controller.PhotoWall.OnControlsLeave | script.js:355-360 | the pointer is off the controls, and in fullscreen the idle timer is reset; keeps the invariant |
| Controller.PhotoWall.OnWindowLeave | script.js:364-369 | in fullscreen with auto-hide, hides the controls and cancels the idle timeout; keeps the invariant |
| Controller.PhotoWall.OnWindowEnter | script.js:372-377 | in fullscreen with auto-hide, shows the controls and resets the idle timer; keeps the invariant |

## Left out

- DOM and rendering: markup, styles, the animation strings and CSS keyframes, the loading and help screens, the counter, photo info, status text, music status icon and the clock. Notifications are kept as a list of messages with their severity and duration; their elements and fade-out are not.
- The progress bar (`startProgress`, `stopProgress`, `resetProgress`): a visual effect with no state the controller reads.
- The canvas drawing of `createPlaceholderImage`: a placeholder is the value `Placeholder(number, total)`.
- Floating point: the volume slider and the volume are not modelled. The interval slider is taken at whole seconds, and the transition is `min(seconds * 300, 1500)` ms in integers, where the source computes `seconds * 1000 * 0.3` in floating point.
- Browser APIs are parameters or left out: `requestFullscreen`/`exitFullscreen` (the fullscreen request itself changes no modelled state, though F11 and the fullscreen button still reset the idle timer, and the button sets the gesture flag, as modelled; the browser's answer arrives as a fullscreen change), the `play()` promise (its outcome is a parameter, settled at once), `Image` loading (its outcome is a parameter), `decodeURIComponent`, `location.reload`.
- Asynchrony: `showPhoto` awaits the preload; the model settles it at once, so interleavings of two pending loads are not modelled.
- The page-level checks that an element exists (the `<img>` surfaces, the audio element, the controls): they are assumed present.
- The pointer hit test of the mousemove handler: its answer is an input.
- The `webkitfullscreenchange` listener, which duplicates the leaving branch of `fullscreenchange` on older engines.
- The help and instruction panels and the reload button: the panel buttons change no modelled state.
- Scan.ExtName: models `path.extname` only for names without '/', because directory entries never contain one.
- The text of the generated `file-list.js` (quoting of names) and the `fs` calls and console output of `scan.js`: the directory listing is an input sequence and the result is the two lists.
- `get-files.php`, `start.py` and `file-list.js` are not part of this model: an HTTP endpoint, an HTTP server and generated data.
- Controller.PhotoWall: the fields are grouped into the records of `WallState` (playback, cache, stage, audio, controls) rather than kept as separate fields, and the three settings the source never changes at run time (`shuffle`, `autoHideControls`, whether the audio element loops) are constructor parameters.
- Wall.Run: events that are not enabled are skipped; `InterfaceShown` may occur more than once, which only enlarges the set of states the invariant is proved for.
