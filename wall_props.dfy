/** What the controller's steps guarantee: the invariant every event keeps,
    and the promises of the individual operations. */
module WallProps {
  import opened Indexing
  import opened Effects
  import opened Wall

  // ------------------------------------------------------------ image cache

  /** A cached URL resolves with the cached object and creates no `Image`. */
  lemma PreloadHit(c: ImageCache, src: Ref, load: LoadOutcome)
    requires src in c.entries
    ensures Preload(c, src, load) == (Resolved(c.entries[src]), c)
  {
  }

  /** An uncached URL creates one `Image`; only a successful load is cached,
      under its URL, and a failed one leaves the cache as it was. */
  lemma PreloadMiss(c: ImageCache, src: Ref, load: LoadOutcome)
    requires src !in c.entries
    ensures Preload(c, src, load).1.created == c.created + 1
    ensures load == Loaded ==>
      Preload(c, src, load) == (Resolved(ImageHandle(src, c.created)), ImageCache(c.entries[src := ImageHandle(src, c.created)], c.created + 1))
    ensures load == LoadError ==>
      Preload(c, src, load).0 == Rejected && Preload(c, src, load).1.entries == c.entries
  {
  }

  /** Once a URL has loaded, asking for it again gives the same object and
      loads nothing, whatever the browser would have answered. */
  lemma PreloadMemoizes(c: ImageCache, src: Ref, load: LoadOutcome)
    ensures var first := Preload(c, src, Loaded);
            Preload(first.1, src, load) == first
  {
  }

  lemma PreloadKeepsKeyed(c: ImageCache, src: Ref, load: LoadOutcome)
    requires CacheKeyed(c)
    ensures CacheKeyed(Preload(c, src, load).1)
    ensures Preload(c, src, load).0.Resolved? ==> Preload(c, src, load).0.image.src == src
  {
    var c' := Preload(c, src, load).1;
    forall u | u in c'.entries
      ensures c'.entries[u].src == u && c'.entries[u].serial < c'.created
    {
      if u != src {
        assert u in c.entries;
      }
    }
  }

  // ------------------------------------------------------------- showPhoto

  /** With no photos, showing, advancing and going back change nothing. */
  lemma EmptyDeckIgnoresNavigation(s: WallState, index: int, load: LoadOutcome, dice: Dice)
    requires dice.Valid() && |s.photos| == 0
    ensures ShowPhoto(s, index, load, dice) == s
    ensures NextPhoto(s, load, dice) == s && PrevPhoto(s, load, dice) == s
  {
  }

  /** showPhoto on a non-empty deck: the clamped index becomes current before
      the load settles; the incoming surface gets the photo when it is cached
      or loads, and otherwise a placeholder numbered from the new index; the
      outgoing surface keeps its picture until the swap; both surfaces get the
      planned animations; one more swap is pending; the cache is the one the
      preload leaves; the lists, the selected effect, the rest of playback,
      audio, controls and notices are untouched. */
  lemma ShowPhotoShows(s: WallState, index: int, load: LoadOutcome, dice: Dice)
    requires Inv(s) && dice.Valid() && |s.photos| > 0
    ensures var r := ShowPhoto(s, index, load, dice);
            var i := ClampIndex(index, |s.photos|);
            && r.playback == s.playback.(currentPhotoIndex := i)
            && (r.stage.nextPicture == Photo(s.photos[i]) <==> s.photos[i] in s.cache.entries || load == Loaded)
            && (r.stage.nextPicture != Photo(s.photos[i]) ==> r.stage.nextPicture == Placeholder(i + 1, |s.photos|))
            && r.stage.currentPicture == s.stage.currentPicture
            && r.stage.nextAnimation == Some(Plan(s.stage.selectedEffect, dice, s.config.transitionMs).enter)
            && r.stage.currentAnimation == Some(Plan(s.stage.selectedEffect, dice, s.config.transitionMs).exit)
            && r.stage.swapTimers == s.stage.swapTimers + 1
            && r.stage.selectedEffect == s.stage.selectedEffect
            && r.cache == Preload(s.cache, s.photos[i], load).1
            && r.photos == s.photos && r.musicFiles == s.musicFiles
            && r.audio == s.audio && r.controls == s.controls && r.notices == s.notices && r.config == s.config
  {
    var i := ClampIndex(index, |s.photos|);
    PreloadKeepsKeyed(s.cache, s.photos[i], load);
  }

  lemma ShowPhotoKeepsInv(s: WallState, index: int, load: LoadOutcome, dice: Dice)
    requires Inv(s) && dice.Valid()
    ensures Inv(ShowPhoto(s, index, load, dice))
  {
    if |s.photos| > 0 {
      PreloadKeepsKeyed(s.cache, s.photos[ClampIndex(index, |s.photos|)], load);
    }
  }

  /** nextPhoto and prevPhoto move one place on the cycle of photos. */
  lemma NavigationIndices(s: WallState, load: LoadOutcome, dice: Dice)
    requires Inv(s) && dice.Valid() && |s.photos| > 0
    ensures NextPhoto(s, load, dice).playback.currentPhotoIndex == NextIndex(s.playback.currentPhotoIndex, |s.photos|)
    ensures PrevPhoto(s, load, dice).playback.currentPhotoIndex == PrevIndex(s.playback.currentPhotoIndex, |s.photos|)
  {
    ShowPhotoShows(s, NextIndex(s.playback.currentPhotoIndex, |s.photos|), load, dice);
    ShowPhotoShows(s, PrevIndex(s.playback.currentPhotoIndex, |s.photos|), load, dice);
  }

  /** prevPhoto after nextPhoto, and nextPhoto after prevPhoto, return to the
      photo they started from. */
  lemma NextThenPrevReturns(s: WallState, load1: LoadOutcome, dice1: Dice, load2: LoadOutcome, dice2: Dice)
    requires Inv(s) && dice1.Valid() && dice2.Valid() && |s.photos| > 0
    ensures PrevPhoto(NextPhoto(s, load1, dice1), load2, dice2).playback.currentPhotoIndex == s.playback.currentPhotoIndex
    ensures NextPhoto(PrevPhoto(s, load1, dice1), load2, dice2).playback.currentPhotoIndex == s.playback.currentPhotoIndex
  {
    var i := s.playback.currentPhotoIndex;
    NavigationIndices(s, load1, dice1);
    ShowPhotoKeepsInv(s, NextIndex(i, |s.photos|), load1, dice1);
    ShowPhotoKeepsInv(s, PrevIndex(i, |s.photos|), load1, dice1);
    NavigationIndices(NextPhoto(s, load1, dice1), load2, dice2);
    NavigationIndices(PrevPhoto(s, load1, dice1), load2, dice2);
    PrevUndoesNext(i, |s.photos|);
  }

  /** `k` ticks of the advance timer, each with the same load outcome and draws. */
  function Ticks(s: WallState, load: LoadOutcome, dice: Dice, k: nat): WallState
    requires dice.Valid()
  {
    if k == 0 then s else NextPhoto(Ticks(s, load, dice, k - 1), load, dice)
  }

  /** Automatic playback visits the photos in order: after `k` ticks the
      current photo is `k` places on, and after as many ticks as there are
      photos the slideshow is back where it started. */
  lemma {:induction false} TicksAdvance(s: WallState, load: LoadOutcome, dice: Dice, k: nat)
    requires Inv(s) && dice.Valid() && |s.photos| > 0
    ensures Inv(Ticks(s, load, dice, k))
    ensures Ticks(s, load, dice, k).photos == s.photos
    ensures Ticks(s, load, dice, k).playback.currentPhotoIndex == Advance(s.playback.currentPhotoIndex, |s.photos|, k)
  {
    if k > 0 {
      TicksAdvance(s, load, dice, k - 1);
      var t := Ticks(s, load, dice, k - 1);
      NavigationIndices(t, load, dice);
      ShowPhotoKeepsInv(t, NextIndex(t.playback.currentPhotoIndex, |t.photos|), load, dice);
    }
  }

  lemma TicksFullCycle(s: WallState, load: LoadOutcome, dice: Dice)
    requires Inv(s) && dice.Valid() && |s.photos| > 0
    ensures Ticks(s, load, dice, |s.photos|).playback.currentPhotoIndex == s.playback.currentPhotoIndex
  {
    TicksAdvance(s, load, dice, |s.photos|);
    AdvanceFullCycle(s.playback.currentPhotoIndex, |s.photos|);
  }

  // ------------------------------------------------------------ play/pause

  /** Starting a started slideshow changes nothing. */
  lemma StartIdempotent(s: WallState, draw1: nat, play1: PlayOutcome, draw2: nat, play2: PlayOutcome)
    ensures Start(Start(s, draw1, play1), draw2, play2) == Start(s, draw1, play1)
  {
  }

  /** start on a non-empty, paused slideshow: it plays with exactly one advance
      timer; on an empty deck, or when already playing, it does nothing. */
  lemma StartArmsOneTimer(s: WallState, draw: nat, play: PlayOutcome)
    requires Inv(s)
    ensures |s.photos| == 0 ==> Start(s, draw, play) == s
    ensures s.playback.isPlaying ==> Start(s, draw, play) == s
    ensures |s.photos| > 0 ==>
      Start(s, draw, play).playback.isPlaying && Start(s, draw, play).playback.advanceTimers == 1
  {
  }

  /** pause is unguarded: from any state it stops, clears the timer and pauses
      the audio, and pausing again changes nothing. */
  lemma PauseStops(s: WallState)
    requires Inv(s)
    ensures !Pause(s).playback.isPlaying && Pause(s).playback.advanceTimers == 0 && !Pause(s).audio.playing
    ensures Pause(Pause(s)) == Pause(s)
  {
  }

  /** togglePlay: on an empty deck only a warning; otherwise it flips playing. */
  lemma TogglePlayFlips(s: WallState, draw: nat, play: PlayOutcome)
    requires Inv(s)
    ensures |s.photos| == 0 ==>
      TogglePlay(s, draw, play) == s.(notices := s.notices + [Notice(NoPhotosToPlay, Warning, 3000)])
    ensures |s.photos| > 0 ==> TogglePlay(s, draw, play).playback.isPlaying == !s.playback.isPlaying
  {
  }

  /** The interval slider: the interval in milliseconds, a transition of at
      most 1.5 s that, from one second up, ends before the next advance, and
      still one advance timer exactly when playing. */
  lemma IntervalSliderBounds(s: WallState, seconds: nat)
    requires Inv(s)
    ensures var r := SetIntervalSeconds(s, seconds);
            && r.config.intervalMs == seconds * 1000
            && r.config.transitionMs <= 1500
            && r.config.transitionMs <= seconds * 300
            && (seconds >= 1 ==> r.config.transitionMs < r.config.intervalMs)
            && r.playback == s.playback
  {
  }

  // ----------------------------------------------------------------- music

  /** playBackgroundMusic: nothing when music is off or there is no track;
      otherwise the picked track is loaded, the pointer lands one past it,
      sound plays exactly when the user has interacted and the browser
      agrees, and otherwise the user is prompted to click. */
  lemma PlayMusicLoadsPick(s: WallState, draw: nat, play: PlayOutcome)
    ensures !s.config.musicEnabled || |s.musicFiles| == 0 ==> PlayBackgroundMusic(s, draw, play) == s
    ensures s.config.musicEnabled && |s.musicFiles| > 0 ==>
      var r := PlayBackgroundMusic(s, draw, play);
      var n := |s.musicFiles|;
      var k := MusicPick(s.audio.currentMusicIndex, n, s.config.shuffle, draw % n);
      && r.audio.src == Some(s.musicFiles[k])
      && r.audio.currentMusicIndex == PointerAfter(k, n) < n
      && (r.audio.playing <==> s.audio.userInteracted && play == PlayStarted)
      && (!r.audio.playing ==> r.notices == s.notices + [Notice(TapToPlayMusic, Info, 2000)])
      && (r.audio.playing ==> r.notices == s.notices)
      && r.audio.endedHandlerSet && r.audio.muted == s.audio.isMuted
      && r.playback == s.playback && r.stage == s.stage && r.controls == s.controls
  {
  }

  /** Without shuffle the track played is the music index reduced modulo the
      playlist length, also when the index has outgrown a shorter playlist
      installed after it was set (the demo button while music plays), and
      when the index is in range it is that very track. */
  lemma PlayMusicSequential(s: WallState, draw: nat, play: PlayOutcome)
    requires s.config.musicEnabled && |s.musicFiles| > 0 && !s.config.shuffle
    ensures PlayBackgroundMusic(s, draw, play).audio.src
            == Some(s.musicFiles[s.audio.currentMusicIndex % |s.musicFiles|])
    ensures s.audio.currentMusicIndex < |s.musicFiles| ==>
            PlayBackgroundMusic(s, draw, play).audio.src == Some(s.musicFiles[s.audio.currentMusicIndex])
  {
  }

  /** `k` consecutive `ended` events on an audible, playing slideshow whose
      browser lets every track start: each completion loads the next track and
      the music stays audible. */
  function Completions(s: WallState, draw: nat, k: nat): (r: WallState)
    requires !s.config.audioLoops && s.config.musicEnabled && |s.musicFiles| > 0
    requires s.audio.playing && s.audio.userInteracted && s.audio.endedHandlerSet && s.playback.isPlaying
    ensures r.config == s.config && r.musicFiles == s.musicFiles && r.playback == s.playback
    ensures r.audio.playing && r.audio.userInteracted && r.audio.endedHandlerSet
  {
    if k == 0 then s else TrackEnded(Completions(s, draw, k - 1), draw, PlayStarted)
  }

  /** Without shuffle, track completions walk the playlist in order: after `k`
      of them, up to a full round, the music index is `k` tracks on (wrapping
      once). */
  lemma {:induction false} CompletionsAdvance(s: WallState, draw: nat, k: nat)
    requires !s.config.audioLoops && s.config.musicEnabled && |s.musicFiles| > 0 && !s.config.shuffle
    requires s.audio.playing && s.audio.userInteracted && s.audio.endedHandlerSet && s.playback.isPlaying
    requires s.audio.currentMusicIndex < |s.musicFiles| && k <= |s.musicFiles|
    ensures var p := s.audio.currentMusicIndex;
            var n := |s.musicFiles|;
            Completions(s, draw, k).audio.currentMusicIndex == if p + k < n then p + k else p + k - n
  {
    CompletionsSequential(s, draw, k);
    SequentialBy(s.audio.currentMusicIndex, |s.musicFiles|, k);
  }

  /** As many completions as there are tracks bring the music index back to
      where it started. */
  lemma CompletionsFullCycle(s: WallState, draw: nat)
    requires !s.config.audioLoops && s.config.musicEnabled && |s.musicFiles| > 0 && !s.config.shuffle
    requires s.audio.playing && s.audio.userInteracted && s.audio.endedHandlerSet && s.playback.isPlaying
    requires s.audio.currentMusicIndex < |s.musicFiles|
    ensures Completions(s, draw, |s.musicFiles|).audio.currentMusicIndex == s.audio.currentMusicIndex
  {
    CompletionsSequential(s, draw, |s.musicFiles|);
    SequentialFullCycle(s.audio.currentMusicIndex, |s.musicFiles|);
  }

  /** Each completion is one sequential pick of the music index. */
  lemma {:induction false} CompletionsSequential(s: WallState, draw: nat, k: nat)
    requires !s.config.audioLoops && s.config.musicEnabled && |s.musicFiles| > 0 && !s.config.shuffle
    requires s.audio.playing && s.audio.userInteracted && s.audio.endedHandlerSet && s.playback.isPlaying
    ensures Completions(s, draw, k).audio.currentMusicIndex
            == SequentialPointer(s.audio.currentMusicIndex, |s.musicFiles|, k)
  {
    if k > 0 {
      CompletionsSequential(s, draw, k - 1);
    }
  }

  /** The first key press of a session that is space, on a paused slideshow
      with music, starts the photos but not the music: the keyboard handler
      runs before the gesture listener, so the track is loaded while the flag
      is still unset, and the listener then finds the flag already set. */
  lemma FirstSpaceLeavesMusicSilent(s: WallState, load: LoadOutcome, dice: Dice,
                                    draw1: nat, play1: PlayOutcome, draw2: nat, play2: PlayOutcome)
    requires Inv(s) && dice.Valid()
    requires !s.audio.userInteracted && !s.playback.isPlaying && |s.photos| > 0 && s.config.musicEnabled
    ensures var r := KeyDown(s, Space, false, load, dice, draw1, play1, draw2, play2);
            r.playback.isPlaying && r.audio.userInteracted && !r.audio.playing
            && r.notices == s.notices + [Notice(TapToPlayMusic, Info, 2000)]
  {
  }

  // -------------------------------------------------------------- controls

  lemma ControlsVisibility(s: WallState)
    ensures ShowControls(ShowControls(s)) == ShowControls(s) && ShowControls(s).controls.visible
    ensures HideControls(HideControls(s)) == HideControls(s) && !HideControls(s).controls.visible
    ensures ToggleControls(s).controls.visible == !s.controls.visible
  {
  }

  /** In every reachable state the guard of the idle timeout holds, so the
      timeout always hides the controls. */
  lemma IdleTimeoutAlwaysHides(s: WallState)
    requires Inv(s) && s.controls.idleTimers > 0
    ensures IdleTimerFired(s) == s.(controls := s.controls.(idleTimers := 0, visible := false))
  {
  }

  /** Moving onto the controls cancels any pending idle timeout. */
  lemma PointerOverControlsCancelsIdle(s: WallState)
    requires Inv(s)
    ensures ControlsEnter(s).controls.idleTimers == 0
  {
  }

  /** Entering fullscreen with auto-hide schedules one hide and leaves the
      controls as they are; leaving fullscreen shows them with no idle
      timeout pending. */
  lemma FullscreenChanges(s: WallState)
    requires Inv(s)
    ensures s.config.autoHideControls ==>
      FullscreenChange(s, true)
      == s.(controls := s.controls.(fullscreen := true, fullscreenHideTimers := s.controls.fullscreenHideTimers + 1))
    ensures !FullscreenChange(s, false).controls.fullscreen
    ensures FullscreenChange(s, false).controls.visible && FullscreenChange(s, false).controls.idleTimers == 0
  {
  }

  /** The hide scheduled on entering fullscreen does not look at the pointer:
      it hides the controls even with the pointer over them. */
  lemma FullscreenHideIgnoresPointer(s: WallState)
    requires s.controls.fullscreenHideTimers > 0 && s.controls.isMouseOverControls
    ensures !FullscreenHideFired(s).controls.visible
  {
  }

  /** Outside fullscreen, moving the pointer only records where it is. */
  lemma MouseMoveOutsideFullscreen(s: WallState, overControls: bool)
    requires !s.controls.fullscreen
    ensures MouseMove(s, overControls) == s.(controls := s.controls.(isMouseOverControls := overControls))
  {
  }

  /** Muting twice restores the state. */
  lemma ToggleMuteInvolution(s: WallState)
    requires Inv(s)
    ensures ToggleMute(ToggleMute(s)) == s
    ensures ToggleMute(s).audio.muted == ToggleMute(s).audio.isMuted == !s.audio.isMuted
  {
  }

  // ------------------------------------------------------- startup and demo

  /** The demo content replaces both lists, enables music, shows the first
      demo photo and plays. */
  lemma DemoContentPlays(s: WallState, load: LoadOutcome, dice: Dice, draw: nat, play: PlayOutcome)
    requires Inv(s) && dice.Valid()
    ensures var r := UseDemoContent(s, load, dice, draw, play);
            && r.photos == DemoPhotos && r.musicFiles == DemoMusic && r.config.musicEnabled
            && r.playback.currentPhotoIndex == 0 && r.playback.isPlaying
            && r.notices[|r.notices| - 1] == Notice(UsingDemoContent, Info, 3000)
  {
  }

  /** After the interface is shown on a non-empty deck, the first photo is
      current and the automatic start, when it fires, plays. */
  lemma StartupPlays(s: WallState, load: LoadOutcome, dice: Dice, draw: nat, play: PlayOutcome)
    requires Inv(s) && dice.Valid() && |s.photos| > 0 && !s.playback.isPlaying
    ensures var t := ShowMainInterface(s, load, dice);
            && t.playback.currentPhotoIndex == 0 && t.playback.autoStartTimers > 0
            && AutoStartFired(t, draw, play).playback.isPlaying
  {
  }

  // ---------------------------------------------------------- the invariant

  lemma PlayMusicKeepsInv(s: WallState, draw: nat, play: PlayOutcome)
    requires Inv(s)
    ensures Inv(PlayBackgroundMusic(s, draw, play))
  {
  }

  lemma StartKeepsInv(s: WallState, draw: nat, play: PlayOutcome)
    requires Inv(s)
    ensures Inv(Start(s, draw, play))
  {
    if !s.playback.isPlaying && |s.photos| > 0 {
      PlayMusicKeepsInv(StartTimer(s.(playback := s.playback.(isPlaying := true))), draw, play);
    }
  }

  lemma TogglePlayKeepsInv(s: WallState, draw: nat, play: PlayOutcome)
    requires Inv(s)
    ensures Inv(TogglePlay(s, draw, play))
  {
    StartKeepsInv(s, draw, play);
  }

  lemma IdleStepsKeepInv(s: WallState)
    requires Inv(s)
    ensures Inv(ResetMouseIdleTimer(s)) && Inv(ClearMouseIdleTimer(s))
    ensures Inv(ShowControls(s)) && Inv(HideControls(s)) && Inv(ToggleControls(s))
  {
  }

  lemma NavigationKeepsInv(s: WallState, load: LoadOutcome, dice: Dice)
    requires Inv(s) && dice.Valid()
    ensures Inv(NextPhoto(s, load, dice)) && Inv(PrevPhoto(s, load, dice))
  {
    if |s.photos| > 0 {
      ShowPhotoKeepsInv(s, NextIndex(s.playback.currentPhotoIndex, |s.photos|), load, dice);
      ShowPhotoKeepsInv(s, PrevIndex(s.playback.currentPhotoIndex, |s.photos|), load, dice);
    }
  }

  lemma DemoKeepsInv(s: WallState, load: LoadOutcome, dice: Dice, draw: nat, play: PlayOutcome)
    requires Inv(s) && dice.Valid()
    ensures Inv(UseDemoContent(s, load, dice, draw, play))
  {
    var d := s.(photos := DemoPhotos, musicFiles := DemoMusic, config := s.config.(musicEnabled := true));
    var d0 := d.(playback := d.playback.(currentPhotoIndex := 0));
    assert ShowPhoto(d, 0, load, dice) == ShowPhoto(d0, 0, load, dice);
    ShowPhotoKeepsInv(d0, 0, load, dice);
    StartKeepsInv(ShowPhoto(d, 0, load, dice), draw, play);
  }

  lemma ButtonActionKeepsInv(s: WallState, button: Button, load: LoadOutcome, dice: Dice, draw: nat, play: PlayOutcome)
    requires Inv(s) && dice.Valid()
    ensures Inv(ButtonAction(s, button, load, dice, draw, play))
  {
    match button {
      case PlayPauseButton => TogglePlayKeepsInv(s, draw, play);
      case PrevButton => NavigationKeepsInv(s, load, dice);
      case NextButton => NavigationKeepsInv(s, load, dice);
      case DemoButton => DemoKeepsInv(s, load, dice, draw, play);
      case _ =>
    }
  }

  lemma ButtonClickKeepsInv(s: WallState, button: Button, load: LoadOutcome, dice: Dice, draw: nat, play: PlayOutcome)
    requires Inv(s) && dice.Valid()
    ensures Inv(ButtonClick(s, button, load, dice, draw, play))
  {
    ButtonActionKeepsInv(s, button, load, dice, draw, play);
    IdleStepsKeepInv(ButtonAction(s, button, load, dice, draw, play));
  }

  lemma SpaceKeyKeepsInv(s: WallState, load: LoadOutcome, dice: Dice, draw: nat, play: PlayOutcome)
    requires Inv(s) && dice.Valid()
    ensures Inv(KeyHandler(s, Space, false, load, dice, draw, play))
  {
    TogglePlayKeepsInv(s, draw, play);
    IdleStepsKeepInv(TogglePlay(s, draw, play));
  }

  lemma ArrowKeysKeepInv(s: WallState, load: LoadOutcome, dice: Dice, draw: nat, play: PlayOutcome)
    requires Inv(s) && dice.Valid()
    ensures Inv(KeyHandler(s, ArrowLeft, false, load, dice, draw, play))
    ensures Inv(KeyHandler(s, ArrowRight, false, load, dice, draw, play))
  {
    NavigationKeepsInv(s, load, dice);
    IdleStepsKeepInv(PrevPhoto(s, load, dice));
    IdleStepsKeepInv(NextPhoto(s, load, dice));
  }

  lemma MuteKeyKeepsInv(s: WallState, load: LoadOutcome, dice: Dice, draw: nat, play: PlayOutcome)
    requires Inv(s) && dice.Valid()
    ensures Inv(KeyHandler(s, KeyM, false, load, dice, draw, play))
  {
    IdleStepsKeepInv(ToggleMute(s));
  }

  lemma ControlKeysKeepInv(s: WallState, load: LoadOutcome, dice: Dice, draw: nat, play: PlayOutcome)
    requires Inv(s) && dice.Valid()
    ensures Inv(KeyHandler(s, F11, false, load, dice, draw, play))
    ensures Inv(KeyHandler(s, KeyC, false, load, dice, draw, play))
  {
    IdleStepsKeepInv(s);
    IdleStepsKeepInv(ShowControls(s));
  }

  lemma KeyHandlerKeepsInv(s: WallState, key: Key, inForm: bool, load: LoadOutcome, dice: Dice, draw: nat, play: PlayOutcome)
    requires Inv(s) && dice.Valid()
    ensures Inv(KeyHandler(s, key, inForm, load, dice, draw, play))
  {
    SpaceKeyKeepsInv(s, load, dice, draw, play);
    ArrowKeysKeepInv(s, load, dice, draw, play);
    MuteKeyKeepsInv(s, load, dice, draw, play);
    ControlKeysKeepInv(s, load, dice, draw, play);
  }

  lemma GestureKeepsInv(s: WallState, draw: nat, play: PlayOutcome)
    requires Inv(s)
    ensures Inv(RecordGesture(s, draw, play)) && Inv(FirstClickListener(s, draw, play))
  {
    PlayMusicKeepsInv(s.(audio := s.audio.(userInteracted := true)), draw, play);
    PlayMusicKeepsInv(s.(audio := s.audio.(firstClickListener := false)), draw, play);
  }

  lemma SettingsKeepInv(s: WallState, seconds: nat, name: string)
    requires Inv(s)
    ensures Inv(SetIntervalSeconds(s, seconds)) && Inv(SelectEffect(s, name))
  {
    var t := s.(config := s.config.(intervalMs := seconds * 1000,
                                    transitionMs := if seconds * 300 < 1500 then seconds * 300 else 1500));
    IdleStepsKeepInv(if t.playback.isPlaying then RestartTimer(t) else t);
    IdleStepsKeepInv(s.(stage := s.stage.(selectedEffect := name)));
  }

  /** The user's input keeps the invariant. */
  lemma InputKeepsInv(s: WallState, e: Event)
    requires Inv(s) && Enabled(s, e)
    requires e.ButtonClicked? || e.KeyPressed? || e.Clicked? || e.VolumeMoved? || e.IntervalMoved? || e.EffectChosen?
    ensures Inv(Step(s, e))
  {
    match e {
      case ButtonClicked(button, load, dice, draw, play) => ButtonClickKeepsInv(s, button, load, dice, draw, play);
      case KeyPressed(key, inForm, load, dice, draw, play, draw2, play2) =>
        KeyHandlerKeepsInv(s, key, inForm, load, dice, draw, play);
        GestureKeepsInv(KeyHandler(s, key, inForm, load, dice, draw, play), draw2, play2);
      case Clicked(draw, play, draw2, play2) =>
        GestureKeepsInv(s, draw, play);
        GestureKeepsInv(RecordGesture(s, draw, play), draw2, play2);
      case IntervalMoved(seconds) => SettingsKeepInv(s, seconds, "");
      case EffectChosen(name) => SettingsKeepInv(s, 0, name);
      case VolumeMoved => IdleStepsKeepInv(s);
    }
  }

  /** The slideshow's own timers and the audio element's events keep the invariant. */
  lemma PlaybackEventKeepsInv(s: WallState, e: Event)
    requires Inv(s) && Enabled(s, e)
    requires e.InterfaceShown? || e.AutoStartTimeout? || e.AdvanceTimeout? || e.SwapTimeout? || e.TrackEnd? || e.AudioFailed?
    ensures Inv(Step(s, e))
  {
    match e {
      case InterfaceShown(load, dice) => ShowPhotoKeepsInv(s, 0, load, dice);
      case AutoStartTimeout(draw, play) =>
        StartKeepsInv(s.(playback := s.playback.(autoStartTimers := s.playback.autoStartTimers - 1)), draw, play);
      case AdvanceTimeout(load, dice) => NavigationKeepsInv(s, load, dice);
      case TrackEnd(draw, play) => PlayMusicKeepsInv(s.(audio := s.audio.(playing := false)), draw, play);
      case SwapTimeout =>
      case AudioFailed =>
    }
  }

  /** Fullscreen changes, pointer movement and the hide timeouts keep the invariant. */
  lemma ControlsEventKeepsInv(s: WallState, e: Event)
    requires Inv(s) && Enabled(s, e)
    requires e.FullscreenChanged? || e.FullscreenHideTimeout? || e.IdleTimeout? || e.PointerMoved?
          || e.PointerEnteredControls? || e.PointerLeftControls? || e.PointerLeftWindow? || e.PointerEnteredWindow?
    ensures Inv(Step(s, e))
  {
  }

  /** Every event keeps the invariant. */
  lemma StepKeepsInv(s: WallState, e: Event)
    requires Inv(s) && Enabled(s, e)
    ensures Inv(Step(s, e))
  {
    if e.ButtonClicked? || e.KeyPressed? || e.Clicked? || e.VolumeMoved? || e.IntervalMoved? || e.EffectChosen? {
      InputKeepsInv(s, e);
    } else if e.InterfaceShown? || e.AutoStartTimeout? || e.AdvanceTimeout? || e.SwapTimeout? || e.TrackEnd? || e.AudioFailed? {
      PlaybackEventKeepsInv(s, e);
    } else {
      ControlsEventKeepsInv(s, e);
    }
  }

  /** Every run of events from a reachable state keeps the invariant. */
  lemma {:induction false} RunKeepsInv(s: WallState, events: seq<Event>)
    requires Inv(s)
    ensures Inv(Run(s, events))
    decreases |events|
  {
    if events != [] {
      if Enabled(s, events[0]) {
        StepKeepsInv(s, events[0]);
      }
      RunKeepsInv(if Enabled(s, events[0]) then Step(s, events[0]) else s, events[1..]);
    }
  }

  /** Whatever happens after the page loads, the invariant holds. */
  lemma ReachableStatesSatisfyInv(photos: seq<Ref>, musicFiles: seq<Ref>, shuffle: bool, autoHide: bool, loops: bool,
                                   events: seq<Event>)
    ensures Inv(Run(Initial(photos, musicFiles, shuffle, autoHide, loops), events))
  {
    RunKeepsInv(Initial(photos, musicFiles, shuffle, autoHide, loops), events);
  }

  /** The browser's autoplay rule as the page keeps it: music never sounds
      before the first user gesture, and the slideshow only plays a
      non-empty deck, on one advance timer. */
  lemma SilentUntilGesture(photos: seq<Ref>, musicFiles: seq<Ref>, shuffle: bool, autoHide: bool, loops: bool,
                           events: seq<Event>)
    ensures var s := Run(Initial(photos, musicFiles, shuffle, autoHide, loops), events);
            && (s.audio.playing ==> s.audio.userInteracted)
            && (s.playback.isPlaying ==> |s.photos| > 0 && s.playback.advanceTimers == 1)
  {
    ReachableStatesSatisfyInv(photos, musicFiles, shuffle, autoHide, loops, events);
  }

  // ------------------------------------------------------ the gesture flag

  lemma InputKeepsGesture(s: WallState, e: Event)
    requires Enabled(s, e) && s.audio.userInteracted
    requires e.ButtonClicked? || e.KeyPressed? || e.Clicked? || e.VolumeMoved? || e.IntervalMoved? || e.EffectChosen?
    ensures Step(s, e).audio.userInteracted
  {
  }

  lemma OtherEventKeepsGesture(s: WallState, e: Event)
    requires Enabled(s, e) && s.audio.userInteracted
    requires !(e.ButtonClicked? || e.KeyPressed? || e.Clicked? || e.VolumeMoved? || e.IntervalMoved? || e.EffectChosen?)
    ensures Step(s, e).audio.userInteracted
  {
  }

  /** No event clears the gesture flag. */
  lemma StepKeepsGesture(s: WallState, e: Event)
    requires Enabled(s, e) && s.audio.userInteracted
    ensures Step(s, e).audio.userInteracted
  {
    if e.ButtonClicked? || e.KeyPressed? || e.Clicked? || e.VolumeMoved? || e.IntervalMoved? || e.EffectChosen? {
      InputKeepsGesture(s, e);
    } else {
      OtherEventKeepsGesture(s, e);
    }
  }

  /** Once the user has interacted, the flag stays set for the rest of the run. */
  lemma {:induction false} RunKeepsGesture(s: WallState, events: seq<Event>)
    requires s.audio.userInteracted
    ensures Run(s, events).audio.userInteracted
    decreases |events|
  {
    if events != [] {
      if Enabled(s, events[0]) {
        StepKeepsGesture(s, events[0]);
      }
      RunKeepsGesture(if Enabled(s, events[0]) then Step(s, events[0]) else s, events[1..]);
    }
  }
}
