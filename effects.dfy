/** Effect resolution of applyEnhancedTransition: the selected effect name,
    with 'random' replaced by one of the twelve concrete effects, picks one
    enter animation for the incoming photo and one exit animation for the
    outgoing one. `Math.random` draws are the fields of `Dice`. The keyframe
    texts themselves are not modelled; an animation is named by its effect,
    its variant (slide direction, rotation axis), its role and its timing. */
module Effects {

  datatype Effect = Fade | Slide | Zoom | Rotate3d | Flip | Cube | Glitch | Wave | Particles | Mosaic | Swirl | Dreamy

  /** The concrete effects, in the order random mode indexes them. */
  const ConcreteEffects: seq<Effect> :=
    [Fade, Slide, Zoom, Rotate3d, Flip, Cube, Glitch, Wave, Particles, Mosaic, Swirl, Dreamy]

  /** The value each effect has in the effect selector. */
  function Name(e: Effect): string
  {
    match e
    case Fade => "fade"
    case Slide => "slide"
    case Zoom => "zoom"
    case Rotate3d => "rotate3d"
    case Flip => "flip"
    case Cube => "cube"
    case Glitch => "glitch"
    case Wave => "wave"
    case Particles => "particles"
    case Mosaic => "mosaic"
    case Swirl => "swirl"
    case Dreamy => "dreamy"
  }

  datatype Direction = Left | Right | Top | Bottom
  datatype Axis = X | Y | Z

  const Directions: seq<Direction> := [Left, Right, Top, Bottom]
  const Axes: seq<Axis> := [X, Y, Z]

  /** The three random draws a transition may make: the effect in random
      mode, the slide direction and the rotation axis, each already scaled
      by `Math.floor(Math.random() * n)`. */
  datatype Dice = Dice(effect: nat, direction: nat, axis: nat) {
    predicate Valid() { effect < |ConcreteEffects| && direction < |Directions| && axis < |Axes| }
  }

  datatype Variant = Plain | Toward(direction: Direction) | Around(axis: Axis)

  /** The timing functions of the animations: cubic-bezier(0.4, 0, 0.2, 1),
      the overshooting cubic-bezier(0.68, -0.55, 0.27, 1.55), steps(n, end),
      ease-in-out and ease-out. */
  datatype Timing = Standard | Overshoot | Steps(count: nat) | EaseInOut | EaseOut

  datatype Role = Enter | Exit

  datatype Animation = Animation(effect: Effect, variant: Variant, role: Role, timing: Timing, durationMs: int)

  /** The animation put on the incoming photo (`next`) and the one put on the
      outgoing photo (`current`). */
  datatype TransitionPlan = TransitionPlan(enter: Animation, exit: Animation)

  /** The effect a selector value stands for: 'random' draws a concrete one,
      a known name is itself, and anything else takes the default branch,
      whose animations are those of 'fade'. */
  function Resolve(name: string, dice: Dice): Effect
    requires dice.Valid()
  {
    if name == "random" then ConcreteEffects[dice.effect]
    else if name == "slide" then Slide
    else if name == "zoom" then Zoom
    else if name == "rotate3d" then Rotate3d
    else if name == "flip" then Flip
    else if name == "cube" then Cube
    else if name == "glitch" then Glitch
    else if name == "wave" then Wave
    else if name == "particles" then Particles
    else if name == "mosaic" then Mosaic
    else if name == "swirl" then Swirl
    else if name == "dreamy" then Dreamy
    else Fade
  }

  function TimingOf(e: Effect): Timing
  {
    match e
    case Zoom => Overshoot
    case Glitch => Steps(2)
    case Wave => EaseInOut
    case Mosaic => Steps(8)
    case Dreamy => EaseOut
    case _ => Standard
  }

  function VariantOf(e: Effect, dice: Dice): Variant
    requires dice.Valid()
  {
    match e
    case Slide => Toward(Directions[dice.direction])
    case Rotate3d => Around(Axes[dice.axis])
    case _ => Plain
  }

  /** The pair of animations applyEnhancedTransition sets. */
  function Plan(name: string, dice: Dice, durationMs: int): (p: TransitionPlan)
    requires dice.Valid()
    ensures p.enter.role == Enter && p.exit.role == Exit
    ensures p.enter.effect == p.exit.effect == Resolve(name, dice)
    ensures p.enter.variant == p.exit.variant && p.enter.timing == p.exit.timing
    ensures p.enter.durationMs == p.exit.durationMs == durationMs
  {
    var e := Resolve(name, dice);
    TransitionPlan(Animation(e, VariantOf(e, dice), Enter, TimingOf(e), durationMs),
                   Animation(e, VariantOf(e, dice), Exit, TimingOf(e), durationMs))
  }

  /** Random mode draws uniformly from the twelve effects: every draw names a
      different effect and every effect has a draw. */
  lemma ConcreteEffectsEnumerate()
    ensures |ConcreteEffects| == 12
    ensures forall i, j :: 0 <= i < j < |ConcreteEffects| ==> ConcreteEffects[i] != ConcreteEffects[j]
    ensures forall e: Effect :: e in ConcreteEffects
  {
    forall e: Effect ensures e in ConcreteEffects {
      match e
      case Fade => assert ConcreteEffects[0] == e;
      case Slide => assert ConcreteEffects[1] == e;
      case Zoom => assert ConcreteEffects[2] == e;
      case Rotate3d => assert ConcreteEffects[3] == e;
      case Flip => assert ConcreteEffects[4] == e;
      case Cube => assert ConcreteEffects[5] == e;
      case Glitch => assert ConcreteEffects[6] == e;
      case Wave => assert ConcreteEffects[7] == e;
      case Particles => assert ConcreteEffects[8] == e;
      case Mosaic => assert ConcreteEffects[9] == e;
      case Swirl => assert ConcreteEffects[10] == e;
      case Dreamy => assert ConcreteEffects[11] == e;
    }
  }

  /** Selecting an effect by its name gives that effect, whatever the dice. */
  lemma ResolveName(e: Effect, dice: Dice)
    requires dice.Valid()
    ensures Resolve(Name(e), dice) == e
  {
  }

  /** 'random' is not an effect name, and resolves to the drawn effect. */
  lemma ResolveRandom(dice: Dice)
    requires dice.Valid()
    ensures Resolve("random", dice) == ConcreteEffects[dice.effect]
    ensures forall e: Effect :: Name(e) != "random"
  {
    forall e: Effect ensures Name(e) != "random" {
      assert Name(e)[0] != 'r' || Name(e)[1] != 'a';
    }
  }

  /** An unknown selector value animates exactly as 'fade' does. */
  lemma UnknownFallsBackToFade(name: string, dice: Dice, durationMs: int)
    requires dice.Valid()
    requires name != "random" && forall e: Effect :: Name(e) != name
    ensures Plan(name, dice, durationMs) == Plan("fade", dice, durationMs)
  {
    assert Name(Slide) != name && Name(Zoom) != name && Name(Rotate3d) != name && Name(Flip) != name;
    assert Name(Cube) != name && Name(Glitch) != name && Name(Wave) != name && Name(Particles) != name;
    assert Name(Mosaic) != name && Name(Swirl) != name && Name(Dreamy) != name;
  }
}
