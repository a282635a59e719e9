/**
 * The stage-4 micro-interactions: flowers that bloom once, photo cards that flip back and
 * forth, emojis that replay an animation, and the scroll indicator's one-shot latch.
 */
module Stage4 {
  import opened Wrappers
  import Sound

  /** A page element: its attributes and the inline styles and classes the handlers touch. */
  class Element {
    var attrs: map<string, string>
    var classes: set<string>
    /** `style.animation` */
    var animation: string
    /** `style.transform` */
    var transform: string
  }

  const BloomedAttr: string := "data-bloomed"
  const FlippedAttr: string := "data-flipped"
  const EffectAttr: string := "data-effect"

  /** `getAttribute(name)`: the value, or `null` when the attribute is absent. */
  function Attr(attrs: map<string, string>, name: string): (r: Option<string>)
    ensures r.Some? <==> name in attrs
    ensures r.Some? ==> r.value == attrs[name]
  {
    if name in attrs then Some(attrs[name]) else None
  }

  /** `getAttribute(name) === 'true'`. */
  predicate IsTrue(attrs: map<string, string>, name: string)
  {
    Attr(attrs, name) == Some("true")
  }

  /** Every attribute other than `name` is the same in both maps. */
  ghost predicate SameExcept(a: map<string, string>, b: map<string, string>, name: string)
  {
    forall k :: k != name ==> Attr(a, k) == Attr(b, k)
  }

  // ---------------------------------------------------------------- flowers

  /** A flower's attributes after a click: it is bloomed, and a bloomed flower stays as it is. */
  function Bloom(attrs: map<string, string>): (r: map<string, string>)
    ensures IsTrue(r, BloomedAttr)
    ensures IsTrue(attrs, BloomedAttr) ==> r == attrs
    ensures SameExcept(attrs, r, BloomedAttr)
  {
    if IsTrue(attrs, BloomedAttr) then attrs else attrs[BloomedAttr := "true"]
  }

  /** Blooming is one-shot: clicking a bloomed flower again changes nothing. */
  lemma BloomIsOneShot(attrs: map<string, string>)
    ensures Bloom(Bloom(attrs)) == Bloom(attrs)
  {
  }

  /**
   * A flower's click listener: on an un-bloomed flower, mark it bloomed, ask for the bloom
   * tone and scale it up; on a bloomed one, nothing.
   */
  method ClickFlower(flower: Element, audioEnabled: bool, audioAvailable: bool)
    returns (tone: Option<Sound.Tone>)
    modifies flower
    ensures flower.attrs == Bloom(old(flower.attrs))
    ensures IsTrue(old(flower.attrs), BloomedAttr) ==>
      tone == None && flower.transform == old(flower.transform)
    ensures !IsTrue(old(flower.attrs), BloomedAttr) ==>
      tone == Sound.Play(audioEnabled, audioAvailable, Some("bloom")) &&
      flower.transform == "scale(1.2)"
    ensures flower.classes == old(flower.classes) && flower.animation == old(flower.animation)
  {
    tone := None;
    var isBloomed := Attr(flower.attrs, BloomedAttr) == Some("true");
    if !isBloomed {
      flower.attrs := flower.attrs[BloomedAttr := "true"];
      if audioEnabled {
        tone := Sound.Play(audioEnabled, audioAvailable, Some("bloom"));
      }
      flower.transform := "scale(1.2)";
    }
  }

  /** The flower's 300 ms timer: the scale pulse ends. */
  method SettleFlower(flower: Element)
    modifies flower
    ensures flower.transform == ""
    ensures flower.attrs == old(flower.attrs) && flower.classes == old(flower.classes)
    ensures flower.animation == old(flower.animation)
  {
    flower.transform := "";
  }

  // ---------------------------------------------------------------- photo cards

  /** A photo card's attributes after a click: `data-flipped` is written as the negated reading. */
  function Flip(attrs: map<string, string>): (r: map<string, string>)
    ensures IsTrue(r, FlippedAttr) == !IsTrue(attrs, FlippedAttr)
    ensures Attr(r, FlippedAttr) in {Some("true"), Some("false")}
    ensures SameExcept(attrs, r, FlippedAttr)
  {
    attrs[FlippedAttr := if IsTrue(attrs, FlippedAttr) then "false" else "true"]
  }

  /** Two clicks restore whether the card reads as flipped. */
  lemma FlipTwiceRestoresReading(attrs: map<string, string>)
    ensures IsTrue(Flip(Flip(attrs)), FlippedAttr) == IsTrue(attrs, FlippedAttr)
  {
  }

  /** Two clicks restore the attribute itself when it already held `true` or `false`. */
  lemma FlipTwiceRestoresAttribute(attrs: map<string, string>)
    requires Attr(attrs, FlippedAttr) in {Some("true"), Some("false")}
    ensures Flip(Flip(attrs)) == attrs
  {
  }

  /** A card that had no `data-flipped` comes back from two clicks with `false`, not without it. */
  lemma FlipTwiceFromUnset(attrs: map<string, string>)
    requires FlippedAttr !in attrs
    ensures Flip(Flip(attrs)) == attrs[FlippedAttr := "false"] && Flip(Flip(attrs)) != attrs
  {
  }

  /**
   * A photo card's click listener: toggle the flip, ask for the flip tone, and burst
   * confetti only when the card was not flipped before (and the library is loaded).
   */
  method ClickPhotoCard(card: Element, audioEnabled: bool, audioAvailable: bool,
                        confettiLoaded: bool)
    returns (burst: bool, tone: Option<Sound.Tone>)
    modifies card
    ensures card.attrs == Flip(old(card.attrs))
    ensures burst <==> !IsTrue(old(card.attrs), FlippedAttr) && confettiLoaded
    ensures tone == Sound.Play(audioEnabled, audioAvailable, Some("flip"))
    ensures card.classes == old(card.classes) && card.animation == old(card.animation)
    ensures card.transform == old(card.transform)
  {
    var isFlipped := Attr(card.attrs, FlippedAttr) == Some("true");
    card.attrs := card.attrs[FlippedAttr := if !isFlipped then "true" else "false"];
    tone := None;
    if audioEnabled {
      tone := Sound.Play(audioEnabled, audioAvailable, Some("flip"));
    }
    burst := !isFlipped && confettiLoaded;
  }

  // ---------------------------------------------------------------- emojis

  /** The effects an emoji's `data-effect` can name. */
  const Effects: set<string> :=
    {"bounce", "shake", "spin", "glow", "pulse", "float", "twinkle", "ring"}

  /**
   * The animation an emoji plays for its `data-effect`: each known effect has its own
   * keyframes; an unknown or missing effect leaves the `none` written just before.
   */
  function AnimationFor(effect: Option<string>): (anim: string)
    ensures anim == "none" <==> !(effect.Some? && effect.value in Effects)
    ensures effect.Some? && effect.value in Effects ==> "emoji" < anim
  {
    if effect == Some("bounce") then "emojiBounce 0.6s ease-in-out"
    else if effect == Some("shake") then "emojiShake 0.5s ease-in-out"
    else if effect == Some("spin") then "emojiSpin 0.8s ease-in-out"
    else if effect == Some("glow") then "emojiGlow 1s ease-in-out"
    else if effect == Some("pulse") then "emojiPulse 1s ease-in-out"
    else if effect == Some("float") then "emojiFloat 2s ease-in-out"
    else if effect == Some("twinkle") then "emojiTwinkle 1s ease-in-out"
    else if effect == Some("ring") then "emojiRing 0.8s ease-in-out"
    else "none"
  }

  /** Different known effects play different animations. */
  lemma AnimationsDistinct(a: string, b: string)
    requires a in Effects && b in Effects && a != b
    ensures AnimationFor(Some(a)) != AnimationFor(Some(b))
  {
  }

  /** Only `glow` and `pulse` add a small confetti burst. */
  predicate BurstsConfetti(effect: Option<string>): (r: bool)
    ensures r ==> effect.Some? && effect.value in Effects && AnimationFor(effect) != "none"
    ensures r ==> Sound.Frequency(effect) == Sound.DefaultHz
  {
    effect == Some("glow") || effect == Some("pulse")
  }

  /**
   * An emoji's click listener: reset the animation to `none`, start the one its effect
   * names, burst confetti for `glow` and `pulse`, and ask for a tone of the effect's kind.
   */
  method ClickEmoji(emoji: Element, audioEnabled: bool, audioAvailable: bool,
                    confettiLoaded: bool)
    returns (burst: bool, tone: Option<Sound.Tone>)
    modifies emoji
    ensures emoji.animation == AnimationFor(Attr(old(emoji.attrs), EffectAttr))
    ensures burst <==> confettiLoaded && BurstsConfetti(Attr(old(emoji.attrs), EffectAttr))
    ensures tone == Sound.Play(audioEnabled, audioAvailable, Attr(old(emoji.attrs), EffectAttr))
    ensures emoji.attrs == old(emoji.attrs) && emoji.classes == old(emoji.classes)
    ensures emoji.transform == old(emoji.transform)
  {
    var effect := Attr(emoji.attrs, EffectAttr);
    emoji.animation := "none";
    emoji.animation := AnimationFor(effect);
    burst := confettiLoaded && BurstsConfetti(effect);
    tone := None;
    if audioEnabled {
      tone := Sound.Play(audioEnabled, audioAvailable, effect);
    }
  }

  /** The emoji's one-time `animationend` listener: clear the inline animation. */
  method EndEmojiAnimation(emoji: Element)
    modifies emoji
    ensures emoji.animation == ""
    ensures emoji.attrs == old(emoji.attrs) && emoji.classes == old(emoji.classes)
    ensures emoji.transform == old(emoji.transform)
  {
    emoji.animation := "";
  }

  // ---------------------------------------------------------------- scroll indicator

  /**
   * The scroll indicator and the closure around it: the `hasScrolled` latch, whether the
   * one-time wheel listener is still attached, and the indicator's classes.
   */
  datatype Indicator = Indicator(hasScrolled: bool, wheelListening: bool, classes: set<string>)

  /** Hiding: drop `visible`, add `hidden`. */
  function Hidden(classes: set<string>): (r: set<string>)
    ensures "hidden" in r && "visible" !in r
    ensures forall k :: k != "hidden" && k != "visible" ==> (k in r <==> k in classes)
  {
    classes - {"visible"} + {"hidden"}
  }

  /** A `scroll` event: hides once the stage has scrolled past 50 px, the first time only. */
  function Scrolled(s: Indicator, scrollTop: real): (r: Indicator)
    ensures r.hasScrolled <==> s.hasScrolled || scrollTop > 50.0
    ensures s.hasScrolled || scrollTop <= 50.0 ==> r == s
    ensures !s.hasScrolled && scrollTop > 50.0 ==> r == s.(hasScrolled := true, classes := Hidden(s.classes))
  {
    if !s.hasScrolled && scrollTop > 50.0 then
      s.(hasScrolled := true, classes := Hidden(s.classes))
    else s
  }

  /** A `wheel` event: its listener detaches itself; it hides the first time only. */
  function Wheeled(s: Indicator): (r: Indicator)
    ensures !r.wheelListening
    ensures s.wheelListening ==> r.hasScrolled
    ensures !s.wheelListening ==> r == s
    ensures s.hasScrolled ==> r.classes == s.classes
    ensures s.wheelListening && !s.hasScrolled ==>
      r == s.(hasScrolled := true, wheelListening := false, classes := Hidden(s.classes))
  {
    if !s.wheelListening then s
    else if !s.hasScrolled then
      s.(hasScrolled := true, wheelListening := false, classes := Hidden(s.classes))
    else s.(wheelListening := false)
  }

  datatype ScrollEvent = Scroll(scrollTop: real) | Wheel

  function Delivered(s: Indicator, e: ScrollEvent): Indicator
  {
    match e
    case Scroll(top) => Scrolled(s, top)
    case Wheel => Wheeled(s)
  }

  /** The number of events in a run that take the hiding branch. */
  function HideCount(s: Indicator, es: seq<ScrollEvent>): nat
    decreases |es|
  {
    if es == [] then 0
    else
      var s' := Delivered(s, es[0]);
      (if !s.hasScrolled && s'.hasScrolled then 1 else 0) + HideCount(s', es[1..])
  }

  function Replay(s: Indicator, es: seq<ScrollEvent>): Indicator
    decreases |es|
  {
    if es == [] then s else Replay(Delivered(s, es[0]), es[1..])
  }

  /**
   * The latch: over any run of scroll and wheel events the indicator is hidden at most
   * once, never once it has been, and after the latch is set its classes no longer change.
   */
  lemma {:induction false} HiddenAtMostOnce(s: Indicator, es: seq<ScrollEvent>)
    ensures HideCount(s, es) <= 1
    ensures s.hasScrolled ==> HideCount(s, es) == 0 && Replay(s, es).classes == s.classes
    decreases |es|
  {
    if es != [] {
      var s' := Delivered(s, es[0]);
      HiddenAtMostOnce(s', es[1..]);
    }
  }

  /** The listeners of `setupScrollIndicator`, as an object. */
  class ScrollIndicator {
    var hasScrolled: bool
    var wheelListening: bool
    var classes: set<string>

    function View(): Indicator
      reads this
    {
      Indicator(hasScrolled, wheelListening, classes)
    }

    /** Set up with the indicator's classes from the markup: latch open, wheel listener on. */
    constructor (classes: set<string>)
      ensures View() == Indicator(false, true, classes)
    {
      hasScrolled := false;
      wheelListening := true;
      this.classes := classes;
    }

    /** The 1500 ms timer: the indicator becomes visible, whether or not it was hidden. */
    method Show()
      modifies this
      ensures View() == old(View()).(classes := old(classes) + {"visible"})
    {
      classes := classes + {"visible"};
    }

    method OnScroll(scrollTop: real)
      modifies this
      ensures View() == Scrolled(old(View()), scrollTop)
    {
      if !hasScrolled && scrollTop > 50.0 {
        hasScrolled := true;
        classes := classes - {"visible"};
        classes := classes + {"hidden"};
      }
    }

    method OnWheel()
      modifies this
      ensures View() == Wheeled(old(View()))
    {
      if wheelListening {
        wheelListening := false;
        if !hasScrolled {
          hasScrolled := true;
          classes := classes - {"visible"};
          classes := classes + {"hidden"};
        }
      }
    }
  }

  /**
   * `setupScrollIndicator`: nothing is set up unless both the indicator and stage 4's
   * container exist.
   */
  method SetupScrollIndicator(indicatorExists: bool, stage4Exists: bool, classes: set<string>)
    returns (w: ScrollIndicator?)
    ensures w != null <==> indicatorExists && stage4Exists
    ensures w != null ==> fresh(w) && w.View() == Indicator(false, true, classes)
  {
    if !indicatorExists || !stage4Exists {
      return null;
    }
    w := new ScrollIndicator(classes);
  }
}
