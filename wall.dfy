/** The PhotoWall controller of script.js as a state machine over values: its
    fields, with the browser stripped away, and one step function per method
    or event. Timers are counts of pending callbacks; `Math.random` draws, the
    outcomes of image loads and of `audio.play()` are parameters; the
    fullscreen state is an input of the fullscreen-change event. The class
    PhotoWall in module Controller performs the same steps on its fields. */
module Wall {
  import opened Indexing
  import opened Effects

  /** A photo or track reference: a URL or a path. */
  type Ref = string

  datatype Option<T> = None | Some(value: T)

  /** A decoded `Image` object; `serial` tells apart the objects created by
      successive loads of the same URL. */
  datatype ImageHandle = ImageHandle(src: Ref, serial: nat)

  /** How the browser ends an image load: the `onload` or the `onerror` callback. */
  datatype LoadOutcome = Loaded | LoadError

  /** How the promise of preloadImage settles. */
  datatype Preloaded = Resolved(image: ImageHandle) | Rejected

  /** What an <img> surface shows: nothing yet, a photo, or the generated
      placeholder, which prints the photo number and the deck size. */
  datatype Picture = Blank | Photo(src: Ref) | Placeholder(number: nat, total: nat)

  /** How the promise of `audio.play()` settles. */
  datatype PlayOutcome = PlayStarted | PlayBlocked

  datatype Severity = Info | Success | Warning | Error

  datatype Message =
    | Welcome(photoCount: nat, trackCount: nat)
    | NoPhotosToPlay
    | TapToPlayMusic
    | MusicLoadFailed
    | UsingDemoContent

  datatype Notice = Notice(message: Message, severity: Severity, durationMs: nat)

  /** Shuffle and auto-hide are fixed at construction, as is whether the audio
      element loops; the controls change the rest. */
  datatype Config = Config(shuffle: bool, autoHideControls: bool, audioLoops: bool,
                           intervalMs: int, transitionMs: int, musicEnabled: bool)

  datatype Playback = Playback(currentPhotoIndex: nat, isPlaying: bool, advanceTimers: nat, autoStartTimers: nat)

  /** `photoCache`, and how many `Image` objects were created so far. */
  datatype ImageCache = ImageCache(entries: map<Ref, ImageHandle>, created: nat)

  /** The two <img> surfaces: what each shows, the animation each carries, and
      the pending role-swap timeouts. */
  datatype Stage = Stage(selectedEffect: string, currentPicture: Picture, nextPicture: Picture,
                         currentAnimation: Option<Animation>, nextAnimation: Option<Animation>, swapTimers: nat)

  /** The music pointer, the mute and gesture flags, and the audio element. */
  datatype Audio = Audio(currentMusicIndex: nat, isMuted: bool, userInteracted: bool, firstClickListener: bool,
                         src: Option<Ref>, playing: bool, muted: bool, endedHandlerSet: bool)

  /** The control bar and the timers that show and hide it. */
  datatype Controls = Controls(visible: bool, isMouseOverControls: bool, fullscreen: bool,
                               idleTimers: nat, fullscreenHideTimers: nat)

  datatype WallState = WallState(
    config: Config,
    photos: seq<Ref>,
    musicFiles: seq<Ref>,
    playback: Playback,
    cache: ImageCache,
    stage: Stage,
    audio: Audio,
    controls: Controls,
    notices: seq<Notice>)

  /** The state once the constructor, setupUI and setupAudio have run: a five
      second interval, 1200 ms transitions, music disabled when there is no
      track, 'fade' selected, controls shown, and the one-shot click listener
      added. */
  function Initial(photos: seq<Ref>, musicFiles: seq<Ref>, shuffle: bool, autoHideControls: bool, audioLoops: bool): (s: WallState)
    ensures Inv(s)
    ensures s.config.musicEnabled <==> |musicFiles| > 0
  {
    WallState(
      Config(shuffle, autoHideControls, audioLoops, 5000, 1200, |musicFiles| > 0),
      photos, musicFiles,
      Playback(0, false, 0, 0),
      ImageCache(map[], 0),
      Stage("fade", Blank, Blank, None, None, 0),
      Audio(0, false, false, true, None, false, false, false),
      Controls(true, false, false, 0, 0),
      [])
  }

  /** Every cached object was created by a load of its own key. */
  predicate CacheKeyed(c: ImageCache)
  {
    forall src :: src in c.entries ==> c.entries[src].src == src && c.entries[src].serial < c.created
  }

  /** What every reachable state satisfies. */
  predicate Inv(s: WallState)
  {
    && (|s.photos| > 0 ==> s.playback.currentPhotoIndex < |s.photos|)
    && (s.playback.isPlaying ==> |s.photos| > 0)
    && s.playback.advanceTimers == (if s.playback.isPlaying then 1 else 0)
    && s.controls.idleTimers <= 1
    && (s.controls.idleTimers > 0 ==>
          s.controls.fullscreen && s.config.autoHideControls && !s.controls.isMouseOverControls)
    && (s.config.musicEnabled ==> |s.musicFiles| > 0)
    && s.audio.muted == s.audio.isMuted
    && (s.audio.playing ==> s.audio.userInteracted)
    && s.config.transitionMs <= 1500
    && CacheKeyed(s.cache)
  }

  // ---------------------------------------------------------------- timers

  function StopTimer(s: WallState): WallState
  {
    var p := s.playback;
    s.(playback := p.(advanceTimers := if p.advanceTimers > 0 then p.advanceTimers - 1 else 0))
  }

  function StartTimer(s: WallState): WallState
  {
    var t := StopTimer(s);
    t.(playback := t.playback.(advanceTimers := t.playback.advanceTimers + 1))
  }

  function RestartTimer(s: WallState): WallState
  {
    if s.playback.isPlaying then StartTimer(StopTimer(s)) else s
  }

  // ------------------------------------------------------------ image cache

  /** preloadImage: a cached URL resolves at once with the cached object and
      creates none; otherwise a new `Image` is created, a successful load
      caches it under the URL and a failed one caches nothing. */
  function Preload(c: ImageCache, src: Ref, load: LoadOutcome): (Preloaded, ImageCache)
  {
    if src in c.entries then (Resolved(c.entries[src]), c)
    else
      var img := ImageHandle(src, c.created);
      if load == Loaded then (Resolved(img), ImageCache(c.entries[src := img], c.created + 1))
      else (Rejected, c.(created := c.created + 1))
  }

  // -------------------------------------------------------------- playback

  /** showPhoto: clamp the index, set it, preload the photo (a placeholder
      numbered from the new index on failure), put the transition's animations
      on the two surfaces and schedule their role swap. Nothing waits for an
      earlier swap. */
  function ShowPhoto(s: WallState, index: int, load: LoadOutcome, dice: Dice): WallState
    requires dice.Valid()
  {
    if |s.photos| == 0 then s
    else
      var i := ClampIndex(index, |s.photos|);
      var loaded := Preload(s.cache, s.photos[i], load);
      var picture := if loaded.0.Resolved? then Photo(loaded.0.image.src) else Placeholder(i + 1, |s.photos|);
      var plan := Plan(s.stage.selectedEffect, dice, s.config.transitionMs);
      s.(playback := s.playback.(currentPhotoIndex := i),
         cache := loaded.1,
         stage := s.stage.(nextPicture := picture, nextAnimation := Some(plan.enter),
                           currentAnimation := Some(plan.exit), swapTimers := s.stage.swapTimers + 1))
  }

  function NextPhoto(s: WallState, load: LoadOutcome, dice: Dice): WallState
    requires dice.Valid()
  {
    if |s.photos| == 0 then s
    else ShowPhoto(s, NextIndex(s.playback.currentPhotoIndex, |s.photos|), load, dice)
  }

  function PrevPhoto(s: WallState, load: LoadOutcome, dice: Dice): WallState
    requires dice.Valid()
  {
    if |s.photos| == 0 then s
    else ShowPhoto(s, PrevIndex(s.playback.currentPhotoIndex, |s.photos|), load, dice)
  }

  /** The role-swap timeout of a transition: the incoming picture becomes current. */
  function SwapFired(s: WallState): WallState
    requires s.stage.swapTimers > 0
  {
    s.(stage := s.stage.(swapTimers := s.stage.swapTimers - 1, currentPicture := s.stage.nextPicture))
  }

  function Start(s: WallState, draw: nat, play: PlayOutcome): WallState
  {
    if s.playback.isPlaying || |s.photos| == 0 then s
    else PlayBackgroundMusic(StartTimer(s.(playback := s.playback.(isPlaying := true))), draw, play)
  }

  function Pause(s: WallState): WallState
  {
    var t := StopTimer(s.(playback := s.playback.(isPlaying := false)));
    t.(audio := t.audio.(playing := false))
  }

  function TogglePlay(s: WallState, draw: nat, play: PlayOutcome): WallState
  {
    if |s.photos| == 0 then s.(notices := s.notices + [Notice(NoPhotosToPlay, Warning, 3000)])
    else if s.playback.isPlaying then Pause(s)
    else Start(s, draw, play)
  }

  /** The advance interval: the next photo. */
  function AdvanceTimerFired(s: WallState, load: LoadOutcome, dice: Dice): WallState
    requires s.playback.advanceTimers > 0 && dice.Valid()
  {
    NextPhoto(s, load, dice)
  }

  /** The interval slider, at a whole number of seconds: the interval, and a
      transition of 30% of it but at most 1.5 s. */
  function SetIntervalSeconds(s: WallState, seconds: nat): WallState
  {
    var t := s.(config := s.config.(intervalMs := seconds * 1000,
                                    transitionMs := if seconds * 300 < 1500 then seconds * 300 else 1500));
    ResetMouseIdleTimer(if t.playback.isPlaying then RestartTimer(t) else t)
  }

  function SelectEffect(s: WallState, name: string): WallState
  {
    ResetMouseIdleTimer(s.(stage := s.stage.(selectedEffect := name)))
  }

  /** showMainInterface: the first photo and, one second later, the automatic
      start; then the welcome notice. */
  function ShowMainInterface(s: WallState, load: LoadOutcome, dice: Dice): WallState
    requires dice.Valid()
  {
    if |s.photos| == 0 then s
    else
      var t := ShowPhoto(s, 0, load, dice);
      t.(playback := t.playback.(autoStartTimers := t.playback.autoStartTimers + 1),
         notices := t.notices + [Notice(Welcome(|s.photos|, |s.musicFiles|), Success, 5000)])
  }

  function AutoStartFired(s: WallState, draw: nat, play: PlayOutcome): WallState
    requires s.playback.autoStartTimers > 0
  {
    var t := s.(playback := s.playback.(autoStartTimers := s.playback.autoStartTimers - 1));
    if !t.playback.isPlaying && |t.photos| > 0 then Start(t, draw, play) else t
  }

  /** The photos useDemoContent installs. */
  const DemoPhotos: seq<Ref> := [
    "https://images.unsplash.com/photo-1506744038136-46273834b3fb?w=1920&h=1080&fit=crop&auto=format",
    "https://images.unsplash.com/photo-1519681393784-d120267933ba?w=1920&h=1080&fit=crop&auto=format",
    "https://images.unsplash.com/photo-1501785888041-af3ef285b470?w=1920&h=1080&fit=crop&auto=format",
    "https://images.unsplash.com/photo-1439066615861-d1af74d74000?w=1920&h=1080&fit=crop&auto=format"]

  /** The tracks useDemoContent installs. */
  const DemoMusic: seq<Ref> := [
    "https://assets.mixkit.co/music/preview/mixkit-tech-house-vibes-130.mp3",
    "https://assets.mixkit.co/music/preview/mixkit-driving-ambition-32.mp3"]

  /** useDemoContent: replace both lists, enable music, show the first photo,
      start, and tell the user. */
  function UseDemoContent(s: WallState, load: LoadOutcome, dice: Dice, draw: nat, play: PlayOutcome): WallState
    requires dice.Valid()
  {
    var t := ShowPhoto(s.(photos := DemoPhotos, musicFiles := DemoMusic, config := s.config.(musicEnabled := true)),
                       0, load, dice);
    var u := Start(t, draw, play);
    u.(notices := u.notices + [Notice(UsingDemoContent, Info, 3000)])
  }

  // ----------------------------------------------------------------- audio

  /** playBackgroundMusic: pick a track, move the pointer one past it, load it
      into the audio element and try to play it, but only once the user has
      interacted; otherwise, or when the browser refuses, prompt for a click.
      `draw` stands for the random draw of shuffle mode: the track it picks is
      `draw` modulo the playlist length, so every track can be drawn. */
  function PlayBackgroundMusic(s: WallState, draw: nat, play: PlayOutcome): WallState
  {
    if !s.config.musicEnabled || |s.musicFiles| == 0 then s
    else
      var n := |s.musicFiles|;
      var k := MusicPick(s.audio.currentMusicIndex, n, s.config.shuffle, draw % n);
      var a := s.audio.(currentMusicIndex := PointerAfter(k, n), src := Some(s.musicFiles[k]),
                        playing := false, muted := s.audio.isMuted, endedHandlerSet := true);
      if s.audio.userInteracted && play == PlayStarted then s.(audio := a.(playing := true))
      else s.(audio := a, notices := s.notices + [Notice(TapToPlayMusic, Info, 2000)])
  }

  /** The audio element's `ended` event, which a looping element never fires. */
  function TrackEnded(s: WallState, draw: nat, play: PlayOutcome): WallState
    requires !s.config.audioLoops && s.audio.playing
  {
    var t := s.(audio := s.audio.(playing := false));
    if t.audio.endedHandlerSet && t.playback.isPlaying then PlayBackgroundMusic(t, draw, play) else t
  }

  /** The audio element's `error` event. */
  function AudioError(s: WallState): WallState
  {
    s.(notices := s.notices + [Notice(MusicLoadFailed, Error, 3000)])
  }

  /** The click/keydown listener of setupAudio: the first gesture sets the flag
      and starts music if the slideshow is playing. */
  function RecordGesture(s: WallState, draw: nat, play: PlayOutcome): WallState
  {
    if s.audio.userInteracted then s
    else
      var t := s.(audio := s.audio.(userInteracted := true));
      if |t.musicFiles| > 0 && t.config.musicEnabled && t.playback.isPlaying then PlayBackgroundMusic(t, draw, play)
      else t
  }

  /** What the buttons, the volume slider and the space and mute keys do to the flag. */
  function NoteInteraction(s: WallState): WallState
  {
    s.(audio := s.audio.(userInteracted := true))
  }

  /** The one-shot click listener added after construction: on the first click,
      play music if the flag is already set, then remove itself. */
  function FirstClickListener(s: WallState, draw: nat, play: PlayOutcome): WallState
  {
    if !s.audio.firstClickListener then s
    else
      var t := s.(audio := s.audio.(firstClickListener := false));
      if t.audio.userInteracted then PlayBackgroundMusic(t, draw, play) else t
  }

  /** A click that reaches the document runs both listeners, in the order they
      were added. */
  function DocumentClick(s: WallState, draw1: nat, play1: PlayOutcome, draw2: nat, play2: PlayOutcome): WallState
  {
    FirstClickListener(RecordGesture(s, draw1, play1), draw2, play2)
  }

  function ToggleMute(s: WallState): WallState
  {
    s.(audio := s.audio.(isMuted := !s.audio.isMuted, muted := !s.audio.isMuted))
  }

  // --------------------------------------------------------------- idle UI

  function ClearMouseIdleTimer(s: WallState): WallState
  {
    var c := s.controls;
    s.(controls := c.(idleTimers := if c.idleTimers > 0 then c.idleTimers - 1 else 0))
  }

  function ResetMouseIdleTimer(s: WallState): WallState
  {
    var t := ClearMouseIdleTimer(s);
    var c := t.controls;
    if c.fullscreen && t.config.autoHideControls && !c.isMouseOverControls
    then t.(controls := c.(idleTimers := c.idleTimers + 1))
    else t
  }

  function ShowControls(s: WallState): WallState
  {
    s.(controls := s.controls.(visible := true))
  }

  function HideControls(s: WallState): WallState
  {
    s.(controls := s.controls.(visible := false))
  }

  function ToggleControls(s: WallState): WallState
  {
    if s.controls.visible then HideControls(s) else ResetMouseIdleTimer(ShowControls(s))
  }

  /** The idle timeout: hide, if still fullscreen and the pointer is not over
      the controls. */
  function IdleTimerFired(s: WallState): WallState
    requires s.controls.idleTimers > 0
  {
    var t := s.(controls := s.controls.(idleTimers := s.controls.idleTimers - 1));
    if t.controls.fullscreen && !t.controls.isMouseOverControls then HideControls(t) else t
  }

  /** fullscreenchange: entering schedules an unconditional hide a second
      later; leaving shows the controls and cancels the idle timer. */
  function FullscreenChange(s: WallState, isFullscreen: bool): WallState
  {
    var t := s.(controls := s.controls.(fullscreen := isFullscreen));
    if isFullscreen && t.config.autoHideControls
    then t.(controls := t.controls.(fullscreenHideTimers := t.controls.fullscreenHideTimers + 1))
    else ClearMouseIdleTimer(ShowControls(t))
  }

  function FullscreenHideFired(s: WallState): WallState
    requires s.controls.fullscreenHideTimers > 0
  {
    HideControls(s.(controls := s.controls.(fullscreenHideTimers := s.controls.fullscreenHideTimers - 1)))
  }

  /** mousemove, with the hit test's answer as input. */
  function MouseMove(s: WallState, overControls: bool): WallState
  {
    var t := s.(controls := s.controls.(isMouseOverControls := overControls));
    if t.controls.fullscreen && t.config.autoHideControls then ResetMouseIdleTimer(ShowControls(t)) else t
  }

  function ControlsEnter(s: WallState): WallState
  {
    ClearMouseIdleTimer(s.(controls := s.controls.(isMouseOverControls := true)))
  }

  function ControlsLeave(s: WallState): WallState
  {
    var t := s.(controls := s.controls.(isMouseOverControls := false));
    if t.controls.fullscreen && t.config.autoHideControls then ResetMouseIdleTimer(t) else t
  }

  function WindowLeave(s: WallState): WallState
  {
    if s.controls.fullscreen && s.config.autoHideControls then ClearMouseIdleTimer(HideControls(s)) else s
  }

  function WindowEnter(s: WallState): WallState
  {
    if s.controls.fullscreen && s.config.autoHideControls then ResetMouseIdleTimer(ShowControls(s)) else s
  }

  // ------------------------------------------------------ input dispatch

  datatype Button = PlayPauseButton | PrevButton | NextButton | FullscreenButton | MuteButton | DemoButton | PanelButton

  /** What a control button does. The fullscreen button only asks the
      browser, which answers with a fullscreen change; the help and
      instruction panels change nothing here. */
  function ButtonAction(s: WallState, button: Button, load: LoadOutcome, dice: Dice, draw: nat, play: PlayOutcome): WallState
    requires dice.Valid()
  {
    match button
    case PlayPauseButton => TogglePlay(s, draw, play)
    case PrevButton => PrevPhoto(s, load, dice)
    case NextButton => NextPhoto(s, load, dice)
    case FullscreenButton => s
    case MuteButton => ToggleMute(s)
    case DemoButton => UseDemoContent(s, load, dice, draw, play)
    case PanelButton => s
  }

  /** A control button click: its action, then the idle timer is reset and
      the gesture flag set. The click does not reach the document. */
  function ButtonClick(s: WallState, button: Button, load: LoadOutcome, dice: Dice, draw: nat, play: PlayOutcome): WallState
    requires dice.Valid()
  {
    NoteInteraction(ResetMouseIdleTimer(ButtonAction(s, button, load, dice, draw, play)))
  }

  /** The volume slider; the volume itself is not modelled. */
  function VolumeInput(s: WallState): WallState
  {
    NoteInteraction(ResetMouseIdleTimer(s))
  }

  /** The keys setupKeyboard handles; 'm' and 'M' are one key, as are 'c' and 'C'. */
  datatype Key = Space | ArrowLeft | ArrowRight | F11 | KeyM | Escape | KeyC | OtherKey

  /** The keydown handler of setupKeyboard. A key typed into a slider or the
      effect selector is ignored. The fullscreen request of F11 and Escape goes
      to the browser, which answers with a fullscreen change; F11 also resets
      the idle timer. */
  function KeyHandler(s: WallState, key: Key, inForm: bool, load: LoadOutcome, dice: Dice, draw: nat, play: PlayOutcome): WallState
    requires dice.Valid()
  {
    if inForm then s
    else match key
      case Space => NoteInteraction(ResetMouseIdleTimer(TogglePlay(s, draw, play)))
      case ArrowLeft => ResetMouseIdleTimer(PrevPhoto(s, load, dice))
      case ArrowRight => ResetMouseIdleTimer(NextPhoto(s, load, dice))
      case F11 => ResetMouseIdleTimer(s)
      case KeyM => NoteInteraction(ResetMouseIdleTimer(ToggleMute(s)))
      case Escape => s
      case KeyC => ResetMouseIdleTimer(ToggleControls(s))
      case OtherKey => s
  }

  /** A keydown reaches the keyboard handler first and the gesture listener of
      setupAudio second, in the order they were added. */
  function KeyDown(s: WallState, key: Key, inForm: bool, load: LoadOutcome, dice: Dice,
                   draw1: nat, play1: PlayOutcome, draw2: nat, play2: PlayOutcome): WallState
    requires dice.Valid()
  {
    RecordGesture(KeyHandler(s, key, inForm, load, dice, draw1, play1), draw2, play2)
  }

  /** Everything that happens to the controller from outside: user input,
      browser notifications and timer callbacks. */
  datatype Event =
    | InterfaceShown(load: LoadOutcome, dice: Dice)
    | AutoStartTimeout(draw: nat, play: PlayOutcome)
    | AdvanceTimeout(load: LoadOutcome, dice: Dice)
    | SwapTimeout
    | ButtonClicked(button: Button, load: LoadOutcome, dice: Dice, draw: nat, play: PlayOutcome)
    | KeyPressed(key: Key, inForm: bool, load: LoadOutcome, dice: Dice, draw: nat, play: PlayOutcome, draw2: nat, play2: PlayOutcome)
    | Clicked(draw: nat, play: PlayOutcome, draw2: nat, play2: PlayOutcome)
    | VolumeMoved
    | IntervalMoved(seconds: nat)
    | EffectChosen(name: string)
    | TrackEnd(draw: nat, play: PlayOutcome)
    | AudioFailed
    | FullscreenChanged(isFullscreen: bool)
    | FullscreenHideTimeout
    | IdleTimeout
    | PointerMoved(overControls: bool)
    | PointerEnteredControls
    | PointerLeftControls
    | PointerLeftWindow
    | PointerEnteredWindow

  /** When an event can happen: the transition draws are in range, a timer
      callback runs only while that timer is pending, and only a playing
      element that does not loop ends. */
  predicate Enabled(s: WallState, e: Event)
  {
    match e
    case InterfaceShown(_, dice) => dice.Valid()
    case AutoStartTimeout(_, _) => s.playback.autoStartTimers > 0
    case AdvanceTimeout(_, dice) => s.playback.advanceTimers > 0 && dice.Valid()
    case SwapTimeout => s.stage.swapTimers > 0
    case ButtonClicked(_, _, dice, _, _) => dice.Valid()
    case KeyPressed(_, _, _, dice, _, _, _, _) => dice.Valid()
    case TrackEnd(_, _) => !s.config.audioLoops && s.audio.playing
    case FullscreenHideTimeout => s.controls.fullscreenHideTimers > 0
    case IdleTimeout => s.controls.idleTimers > 0
    case _ => true
  }

  function Step(s: WallState, e: Event): WallState
    requires Enabled(s, e)
  {
    match e
    case InterfaceShown(load, dice) => ShowMainInterface(s, load, dice)
    case AutoStartTimeout(draw, play) => AutoStartFired(s, draw, play)
    case AdvanceTimeout(load, dice) => AdvanceTimerFired(s, load, dice)
    case SwapTimeout => SwapFired(s)
    case ButtonClicked(button, load, dice, draw, play) => ButtonClick(s, button, load, dice, draw, play)
    case KeyPressed(key, inForm, load, dice, draw, play, draw2, play2) =>
      KeyDown(s, key, inForm, load, dice, draw, play, draw2, play2)
    case Clicked(draw, play, draw2, play2) => DocumentClick(s, draw, play, draw2, play2)
    case VolumeMoved => VolumeInput(s)
    case IntervalMoved(seconds) => SetIntervalSeconds(s, seconds)
    case EffectChosen(name) => SelectEffect(s, name)
    case TrackEnd(draw, play) => TrackEnded(s, draw, play)
    case AudioFailed => AudioError(s)
    case FullscreenChanged(isFullscreen) => FullscreenChange(s, isFullscreen)
    case FullscreenHideTimeout => FullscreenHideFired(s)
    case IdleTimeout => IdleTimerFired(s)
    case PointerMoved(overControls) => MouseMove(s, overControls)
    case PointerEnteredControls => ControlsEnter(s)
    case PointerLeftControls => ControlsLeave(s)
    case PointerLeftWindow => WindowLeave(s)
    case PointerEnteredWindow => WindowEnter(s)
  }

  /** A run of events from a state; an event that cannot happen in the state
      it meets is skipped. */
  function Run(s: WallState, events: seq<Event>): WallState
    decreases |events|
  {
    if events == [] then s
    else Run(if Enabled(s, events[0]) then Step(s, events[0]) else s, events[1..])
  }
}
