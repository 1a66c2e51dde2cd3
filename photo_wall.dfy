/** The PhotoWall class of script.js with the DOM stripped away: the fields
    its methods update, grouped as in module Wall, and one method per method
    or event handler of the source. Every method is proved to make exactly
    the step of the state machine in module Wall, and the event handlers
    keep its invariant. */
module Controller {
  import opened Indexing
  import opened Effects
  import opened Wall
  import opened WallProps

  class PhotoWall {
    /** `settings` with the interval, transition duration and music flag. */
    var config: Config
    /** `photos` and `musicFiles`. */
    var photos: seq<Ref>
    var musicFiles: seq<Ref>
    /** `currentPhotoIndex`, `isPlaying`, and the live `timer` intervals and
        pending automatic starts. */
    var playback: Playback
    /** `photoCache`, and the number of `Image` objects created. */
    var cache: ImageCache
    /** The two <img> surfaces, the selected effect and the pending role swaps. */
    var stage: Stage
    /** `currentMusicIndex`, `isMuted`, `userInteracted` and the audio element. */
    var audio: Audio
    /** The control bar: visibility, `isMouseOverControls`, fullscreen and the
        live `mouseMoveTimer` timeouts. */
    var controls: Controls
    /** Notifications shown, oldest first. */
    var notices: seq<Notice>

    /** The fields as a value of the state machine. */
    function State(): WallState
      reads this
    {
      WallState(config, photos, musicFiles, playback, cache, stage, audio, controls, notices)
    }

    predicate Valid()
      reads this
    {
      Inv(State())
    }

    /** The constructor with setupUI and setupAudio: the lists come from the
        generated file list; `audioLoops` is whether the page's audio element
        loops (one the constructor creates itself does). */
    constructor(photos: seq<Ref>, musicFiles: seq<Ref>, shuffle: bool, autoHideControls: bool, audioLoops: bool)
      ensures State() == Initial(photos, musicFiles, shuffle, autoHideControls, audioLoops)
      ensures Valid()
    {
      config := Config(shuffle, autoHideControls, audioLoops, 5000, 1200, |musicFiles| > 0);
      this.photos := photos;
      this.musicFiles := musicFiles;
      playback := Playback(0, false, 0, 0);
      cache := ImageCache(map[], 0);
      stage := Stage("fade", Blank, Blank, None, None, 0);
      audio := Audio(0, false, false, true, None, false, false, false);
      controls := Controls(true, false, false, 0, 0);
      notices := [];
    }

    // -------------------------------------------------------------- timers

    method StopTimer()
      modifies this`playback
      ensures State() == Wall.StopTimer(old(State()))
    {
      if playback.advanceTimers > 0 {
        playback := playback.(advanceTimers := playback.advanceTimers - 1);
      }
    }

    method StartTimer()
      modifies this`playback
      ensures State() == Wall.StartTimer(old(State()))
    {
      StopTimer();
      playback := playback.(advanceTimers := playback.advanceTimers + 1);
    }

    method RestartTimer()
      modifies this`playback
      ensures State() == Wall.RestartTimer(old(State()))
    {
      if playback.isPlaying {
        StopTimer();
        StartTimer();
      }
    }

    // --------------------------------------------------------- image cache

    method PreloadImage(src: Ref, load: LoadOutcome) returns (r: Preloaded)
      modifies this`cache
      ensures (r, cache) == Preload(old(cache), src, load)
    {
      if src in cache.entries {
        r := Resolved(cache.entries[src]);
      } else {
        var img := ImageHandle(src, cache.created);
        cache := cache.(created := cache.created + 1);
        if load == Loaded {
          cache := cache.(entries := cache.entries[src := img]);
          r := Resolved(img);
        } else {
          r := Rejected;
        }
      }
    }

    // ------------------------------------------------------------ playback

    method ApplyEnhancedTransition(dice: Dice)
      requires dice.Valid()
      modifies this`stage
      ensures stage == old(stage).(nextAnimation := Some(Plan(stage.selectedEffect, dice, config.transitionMs).enter),
                                   currentAnimation := Some(Plan(stage.selectedEffect, dice, config.transitionMs).exit))
    {
      var plan := Plan(stage.selectedEffect, dice, config.transitionMs);
      stage := stage.(currentAnimation := Some(plan.exit), nextAnimation := Some(plan.enter));
    }

    method ShowPhoto(index: int, load: LoadOutcome, dice: Dice)
      requires dice.Valid()
      modifies this`playback, this`cache, this`stage
      ensures State() == Wall.ShowPhoto(old(State()), index, load, dice)
    {
      if |photos| == 0 {
        return;
      }
      var i := ClampIndex(index, |photos|);
      playback := playback.(currentPhotoIndex := i);
      var r := PreloadImage(photos[i], load);
      stage := stage.(nextPicture := if r.Resolved? then Photo(r.image.src) else Placeholder(i + 1, |photos|));
      ApplyEnhancedTransition(dice);
      stage := stage.(swapTimers := stage.swapTimers + 1);
    }

    method NextPhoto(load: LoadOutcome, dice: Dice)
      requires dice.Valid()
      modifies this`playback, this`cache, this`stage
      ensures State() == Wall.NextPhoto(old(State()), load, dice)
    {
      if |photos| == 0 {
        return;
      }
      ShowPhoto(NextIndex(playback.currentPhotoIndex, |photos|), load, dice);
    }

    method PrevPhoto(load: LoadOutcome, dice: Dice)
      requires dice.Valid()
      modifies this`playback, this`cache, this`stage
      ensures State() == Wall.PrevPhoto(old(State()), load, dice)
    {
      if |photos| == 0 {
        return;
      }
      ShowPhoto(PrevIndex(playback.currentPhotoIndex, |photos|), load, dice);
    }

    method Start(draw: nat, play: PlayOutcome)
      modifies this`playback, this`audio, this`notices
      ensures State() == Wall.Start(old(State()), draw, play)
    {
      if playback.isPlaying || |photos| == 0 {
        return;
      }
      playback := playback.(isPlaying := true);
      StartTimer();
      PlayBackgroundMusic(draw, play);
    }

    method Pause()
      modifies this`playback, this`audio
      ensures State() == Wall.Pause(old(State()))
    {
      playback := playback.(isPlaying := false);
      StopTimer();
      audio := audio.(playing := false);
    }

    method TogglePlay(draw: nat, play: PlayOutcome)
      modifies this`playback, this`audio, this`notices
      ensures State() == Wall.TogglePlay(old(State()), draw, play)
    {
      if |photos| == 0 {
        notices := notices + [Notice(NoPhotosToPlay, Warning, 3000)];
        return;
      }
      if playback.isPlaying {
        Pause();
      } else {
        Start(draw, play);
      }
    }

    method ShowMainInterface(load: LoadOutcome, dice: Dice)
      requires Valid() && dice.Valid()
      modifies this
      ensures State() == Wall.ShowMainInterface(old(State()), load, dice)
      ensures Valid()
    {
      ghost var s := State();
      if |photos| > 0 {
        ShowPhoto(0, load, dice);
        playback := playback.(autoStartTimers := playback.autoStartTimers + 1);
        notices := notices + [Notice(Welcome(|photos|, |musicFiles|), Success, 5000)];
      }
      StepKeepsInv(s, InterfaceShown(load, dice));
    }

    method UseDemoContent(load: LoadOutcome, dice: Dice, draw: nat, play: PlayOutcome)
      requires dice.Valid()
      modifies this
      ensures State() == Wall.UseDemoContent(old(State()), load, dice, draw, play)
    {
      photos := DemoPhotos;
      musicFiles := DemoMusic;
      config := config.(musicEnabled := true);
      ShowPhoto(0, load, dice);
      Start(draw, play);
      notices := notices + [Notice(UsingDemoContent, Info, 3000)];
    }

    // --------------------------------------------------------------- music

    method PlayBackgroundMusic(draw: nat, play: PlayOutcome)
      modifies this`audio, this`notices
      ensures State() == Wall.PlayBackgroundMusic(old(State()), draw, play)
    {
      if !config.musicEnabled || |musicFiles| == 0 {
        return;
      }
      var n := |musicFiles|;
      var k := MusicPick(audio.currentMusicIndex, n, config.shuffle, draw % n);
      audio := audio.(currentMusicIndex := PointerAfter(k, n), src := Some(musicFiles[k]),
                      playing := false, muted := audio.isMuted);
      if audio.userInteracted && play == PlayStarted {
        audio := audio.(playing := true);
      } else {
        notices := notices + [Notice(TapToPlayMusic, Info, 2000)];
      }
      audio := audio.(endedHandlerSet := true);
    }

    method ToggleMute()
      modifies this`audio
      ensures State() == Wall.ToggleMute(old(State()))
    {
      audio := audio.(isMuted := !audio.isMuted);
      audio := audio.(muted := audio.isMuted);
    }

    /** The click and keydown listener of setupAudio. */
    method InitAudioOnInteraction(draw: nat, play: PlayOutcome)
      modifies this`audio, this`notices
      ensures State() == RecordGesture(old(State()), draw, play)
    {
      if !audio.userInteracted {
        audio := audio.(userInteracted := true);
        if |musicFiles| > 0 && config.musicEnabled && playback.isPlaying {
          PlayBackgroundMusic(draw, play);
        }
      }
    }

    // ------------------------------------------------------------- idle UI

    method ClearMouseIdleTimer()
      modifies this`controls
      ensures State() == Wall.ClearMouseIdleTimer(old(State()))
    {
      if controls.idleTimers > 0 {
        controls := controls.(idleTimers := controls.idleTimers - 1);
      }
    }

    method ResetMouseIdleTimer()
      modifies this`controls
      ensures State() == Wall.ResetMouseIdleTimer(old(State()))
    {
      ClearMouseIdleTimer();
      if controls.fullscreen && config.autoHideControls && !controls.isMouseOverControls {
        controls := controls.(idleTimers := controls.idleTimers + 1);
      }
    }

    method ShowControls()
      modifies this`controls
      ensures State() == Wall.ShowControls(old(State()))
    {
      if !controls.visible {
        controls := controls.(visible := true);
      }
    }

    method HideControls()
      modifies this`controls
      ensures State() == Wall.HideControls(old(State()))
    {
      if controls.visible {
        controls := controls.(visible := false);
      }
    }

    method ToggleControls()
      modifies this`controls
      ensures State() == Wall.ToggleControls(old(State()))
    {
      if controls.visible {
        HideControls();
      } else {
        ShowControls();
        ResetMouseIdleTimer();
      }
    }

    // ------------------------------------------------------ event handlers

    /** `onclick` of a control button, as bindButton wraps it. */
    method OnButtonClick(button: Button, load: LoadOutcome, dice: Dice, draw: nat, play: PlayOutcome)
      requires Valid() && dice.Valid()
      modifies this
      ensures State() == ButtonClick(old(State()), button, load, dice, draw, play)
      ensures Valid()
    {
      ghost var s := State();
      match button {
        case PlayPauseButton => TogglePlay(draw, play);
        case PrevButton => PrevPhoto(load, dice);
        case NextButton => NextPhoto(load, dice);
        case FullscreenButton =>
        case MuteButton => ToggleMute();
        case DemoButton => UseDemoContent(load, dice, draw, play);
        case PanelButton =>
      }
      ResetMouseIdleTimer();
      audio := audio.(userInteracted := true);
      StepKeepsInv(s, ButtonClicked(button, load, dice, draw, play));
    }

    /** The keydown listeners: the keyboard handler, then the gesture listener. */
    method OnKeyDown(key: Key, inForm: bool, load: LoadOutcome, dice: Dice,
                     draw1: nat, play1: PlayOutcome, draw2: nat, play2: PlayOutcome)
      requires Valid() && dice.Valid()
      modifies this
      ensures State() == KeyDown(old(State()), key, inForm, load, dice, draw1, play1, draw2, play2)
      ensures Valid()
    {
      ghost var s := State();
      if !inForm {
        match key {
          case Space =>
            TogglePlay(draw1, play1);
            ResetMouseIdleTimer();
            audio := audio.(userInteracted := true);
          case ArrowLeft =>
            PrevPhoto(load, dice);
            ResetMouseIdleTimer();
          case ArrowRight =>
            NextPhoto(load, dice);
            ResetMouseIdleTimer();
          case F11 =>
            ResetMouseIdleTimer();
          case KeyM =>
            ToggleMute();
            ResetMouseIdleTimer();
            audio := audio.(userInteracted := true);
          case Escape =>
          case KeyC =>
            ToggleControls();
            ResetMouseIdleTimer();
          case OtherKey =>
        }
      }
      InitAudioOnInteraction(draw2, play2);
      StepKeepsInv(s, KeyPressed(key, inForm, load, dice, draw1, play1, draw2, play2));
    }

    /** The click listeners of the document: the gesture listener, then the
        one-shot listener that plays music once the flag is set. */
    method OnDocumentClick(draw1: nat, play1: PlayOutcome, draw2: nat, play2: PlayOutcome)
      requires Valid()
      modifies this
      ensures State() == DocumentClick(old(State()), draw1, play1, draw2, play2)
      ensures Valid()
    {
      ghost var s := State();
      InitAudioOnInteraction(draw1, play1);
      if audio.firstClickListener {
        audio := audio.(firstClickListener := false);
        if audio.userInteracted {
          PlayBackgroundMusic(draw2, play2);
        }
      }
      StepKeepsInv(s, Clicked(draw1, play1, draw2, play2));
    }

    method OnVolumeInput()
      requires Valid()
      modifies this
      ensures State() == VolumeInput(old(State()))
      ensures Valid()
    {
      ghost var s := State();
      ResetMouseIdleTimer();
      audio := audio.(userInteracted := true);
      StepKeepsInv(s, VolumeMoved);
    }

    method OnIntervalInput(seconds: nat)
      requires Valid()
      modifies this
      ensures State() == SetIntervalSeconds(old(State()), seconds)
      ensures Valid()
    {
      ghost var s := State();
      config := config.(intervalMs := seconds * 1000,
                        transitionMs := if seconds * 300 < 1500 then seconds * 300 else 1500);
      if playback.isPlaying {
        RestartTimer();
      }
      ResetMouseIdleTimer();
      StepKeepsInv(s, IntervalMoved(seconds));
    }

    method OnEffectChange(name: string)
      requires Valid()
      modifies this
      ensures State() == SelectEffect(old(State()), name)
      ensures Valid()
    {
      ghost var s := State();
      stage := stage.(selectedEffect := name);
      ResetMouseIdleTimer();
      StepKeepsInv(s, EffectChosen(name));
    }

    method OnAutoStartTimeout(draw: nat, play: PlayOutcome)
      requires Valid() && playback.autoStartTimers > 0
      modifies this
      ensures State() == AutoStartFired(old(State()), draw, play)
      ensures Valid()
    {
      ghost var s := State();
      playback := playback.(autoStartTimers := playback.autoStartTimers - 1);
      if !playback.isPlaying && |photos| > 0 {
        Start(draw, play);
      }
      StepKeepsInv(s, AutoStartTimeout(draw, play));
    }

    method OnAdvanceTimeout(load: LoadOutcome, dice: Dice)
      requires Valid() && playback.advanceTimers > 0 && dice.Valid()
      modifies this
      ensures State() == AdvanceTimerFired(old(State()), load, dice)
      ensures Valid()
    {
      ghost var s := State();
      NextPhoto(load, dice);
      StepKeepsInv(s, AdvanceTimeout(load, dice));
    }

    method OnSwapTimeout()
      requires Valid() && stage.swapTimers > 0
      modifies this
      ensures State() == SwapFired(old(State()))
      ensures Valid()
    {
      ghost var s := State();
      stage := stage.(swapTimers := stage.swapTimers - 1, currentPicture := stage.nextPicture);
      StepKeepsInv(s, SwapTimeout);
    }

    method OnTrackEnded(draw: nat, play: PlayOutcome)
      requires Valid() && !config.audioLoops && audio.playing
      modifies this
      ensures State() == TrackEnded(old(State()), draw, play)
      ensures Valid()
    {
      ghost var s := State();
      audio := audio.(playing := false);
      if audio.endedHandlerSet && playback.isPlaying {
        PlayBackgroundMusic(draw, play);
      }
      StepKeepsInv(s, TrackEnd(draw, play));
    }

    method OnAudioError()
      requires Valid()
      modifies this
      ensures State() == AudioError(old(State()))
      ensures Valid()
    {
      ghost var s := State();
      notices := notices + [Notice(MusicLoadFailed, Error, 3000)];
      StepKeepsInv(s, AudioFailed);
    }

    method OnFullscreenChange(isFullscreen: bool)
      requires Valid()
      modifies this
      ensures State() == FullscreenChange(old(State()), isFullscreen)
      ensures Valid()
    {
      ghost var s := State();
      controls := controls.(fullscreen := isFullscreen);
      if isFullscreen && config.autoHideControls {
        controls := controls.(fullscreenHideTimers := controls.fullscreenHideTimers + 1);
      } else {
        ShowControls();
        ClearMouseIdleTimer();
      }
      StepKeepsInv(s, FullscreenChanged(isFullscreen));
    }

    method OnFullscreenHideTimeout()
      requires Valid() && controls.fullscreenHideTimers > 0
      modifies this
      ensures State() == FullscreenHideFired(old(State()))
      ensures Valid()
    {
      ghost var s := State();
      controls := controls.(fullscreenHideTimers := controls.fullscreenHideTimers - 1);
      HideControls();
      StepKeepsInv(s, FullscreenHideTimeout);
    }

    method OnIdleTimeout()
      requires Valid() && controls.idleTimers > 0
      modifies this
      ensures State() == IdleTimerFired(old(State()))
      ensures Valid()
    {
      ghost var s := State();
      controls := controls.(idleTimers := controls.idleTimers - 1);
      if controls.fullscreen && !controls.isMouseOverControls {
        HideControls();
      }
      StepKeepsInv(s, IdleTimeout);
    }

    /** mousemove, with the hit test's answer as input. */
    method OnMouseMove(overControls: bool)
      requires Valid()
      modifies this
      ensures State() == MouseMove(old(State()), overControls)
      ensures Valid()
    {
      ghost var s := State();
      controls := controls.(isMouseOverControls := overControls);
      if controls.fullscreen && config.autoHideControls {
        ShowControls();
        ResetMouseIdleTimer();
      }
      StepKeepsInv(s, PointerMoved(overControls));
    }

    method OnControlsEnter()
      requires Valid()
      modifies this
      ensures State() == ControlsEnter(old(State()))
      ensures Valid()
    {
      ghost var s := State();
      controls := controls.(isMouseOverControls := true);
      ClearMouseIdleTimer();
      StepKeepsInv(s, PointerEnteredControls);
    }

    method OnControlsLeave()
      requires Valid()
      modifies this
      ensures State() == ControlsLeave(old(State()))
      ensures Valid()
    {
      ghost var s := State();
      controls := controls.(isMouseOverControls := false);
      if controls.fullscreen && config.autoHideControls {
        ResetMouseIdleTimer();
      }
      StepKeepsInv(s, PointerLeftControls);
    }

    method OnWindowLeave()
      requires Valid()
      modifies this
      ensures State() == WindowLeave(old(State()))
      ensures Valid()
    {
      ghost var s := State();
      if controls.fullscreen && config.autoHideControls {
        HideControls();
        ClearMouseIdleTimer();
      }
      StepKeepsInv(s, PointerLeftWindow);
    }

    method OnWindowEnter()
      requires Valid()
      modifies this
      ensures State() == WindowEnter(old(State()))
      ensures Valid()
    {
      ghost var s := State();
      if controls.fullscreen && config.autoHideControls {
        ShowControls();
        ResetMouseIdleTimer();
      }
      StepKeepsInv(s, PointerEnteredWindow);
    }
  }
}
