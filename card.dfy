/**
 * The running card: the module-level state of the script and the parts of the page it
 * changes, as one object whose methods are the script's handlers and timer bodies. Each
 * method does in place what the matching function of modules Machine, Dodge and Sound
 * describes, so the invariant proved of those functions holds of the object too.
 */
module Card {
  import opened Wrappers
  import Sound
  import Dodge
  import opened Machine
  import Stage4

  class GreetingCard {
    var currentStage: int
    /** The ids `N` of the `stage<N>` containers, in document order. */
    const stages: seq<int>
    /** The containers carrying the `active` class. */
    var active: set<int>
    /** The sequencer's timers armed and not yet fired. */
    var pending: set<Task>
    /** Whether stage 2's button listeners are attached. */
    var prankWired: bool
    /** The `flipped` class of the stage-3 card. */
    var celebrationFlipped: bool
    /** Whether stage 4's interactions are set up. */
    var congratsWired: bool

    var dodgeCount: nat
    /** The text of the dodge status display. */
    var status: string
    var sad: Dodge.SadButton
    /** The dodge handler's timers armed and not yet fired. */
    var dodgeTimers: set<Dodge.Timer>

    var audioEnabled: bool
    /** Whether the platform offers an audio context. */
    const audioAvailable: bool
    /** Whether the `audioToggle` element exists, so that its click listener is attached. */
    const toggleWired: bool
    /** The `muted` class of the audio toggle. */
    var muted: bool

    /** The classes of the `scrollIndicator` element in the markup, `None` when it is absent. */
    const indicatorMarkup: Option<set<string>>
    /** The scroll indicator's listeners, once stage 4 has set them up. */
    var indicator: Stage4.ScrollIndicator?

    /** The state of the card as a value. */
    function View(): Session
      reads this
    {
      Session(
        Stages(currentStage, stages, active, pending, prankWired, celebrationFlipped, congratsWired),
        Dodge.Controller(dodgeCount, status, sad, dodgeTimers),
        Sound.Audio(audioEnabled, audioAvailable, toggleWired, muted))
    }

    /** `DOMContentLoaded`: stage 1 set up (its entrance timer armed) and the toggle wired. */
    constructor Load(stages: seq<int>, toggleExists: bool, muted: bool, audioAvailable: bool,
                     status: string, indicatorMarkup: Option<set<string>>)
      ensures View() == Initial(stages, toggleExists, muted, audioAvailable, status)
      ensures Inv(View())
      ensures this.indicatorMarkup == indicatorMarkup && indicator == null
    {
      currentStage := 1;
      this.stages := stages;
      active := if 1 in stages then {1} else {};
      pending := {RequestStage(2)};
      prankWired, celebrationFlipped, congratsWired := false, false, false;
      dodgeCount := 0;
      this.status := status;
      sad := Dodge.SadButton(false, false, false, false, 0.0, 0.0);
      dodgeTimers := {};
      audioEnabled := false;
      this.audioAvailable := audioAvailable;
      this.toggleWired := toggleExists;
      this.muted := muted;
      this.indicatorMarkup := indicatorMarkup;
      indicator := null;
    }

    /**
     * `transitionToStage(n)`: take `active` off every stage, one container at a time, then
     * arm the activation if `stage<n>` exists.
     */
    method TransitionToStage(n: int)
      modifies this
      ensures View().stages == Transitioned(old(View()).stages, n)
      ensures View().dodge == old(View()).dodge && View().audio == old(View()).audio
      ensures indicator == old(indicator)
    {
      ghost var before := View().stages;
      var i := 0;
      while i < |stages|
        invariant 0 <= i <= |stages|
        invariant active == before.active - StageSet(stages[..i])
        invariant View().stages == before.(active := active)
        invariant View().dodge == old(View()).dodge && View().audio == old(View()).audio
        invariant indicator == old(indicator)
      {
        assert stages[..i + 1] == stages[..i] + [stages[i]];
        active := active - {stages[i]};
        i := i + 1;
      }
      assert stages[..i] == stages;
      if n in stages {
        pending := pending + {ActivateStage(n)};
      }
    }

    /** `initStage2`: attach the listeners of the two buttons. */
    method InitStage2()
      modifies this
      ensures View() == old(View()).(stages := SetUp(old(View()).stages, Prank))
      ensures indicator == old(indicator)
    {
      prankWired := true;
    }

    /** `initStage3`: arm the card flip and the timer that asks for stage 4. */
    method InitStage3()
      modifies this
      ensures View() == old(View()).(stages := SetUp(old(View()).stages, Celebration))
      ensures indicator == old(indicator)
    {
      pending := pending + {FlipCelebrationCard, RequestStage(4)};
    }

    /**
     * `initStage4`: set up the stage-4 interactions. Of these the scroll indicator is wired
     * here (module Stage4 has it); it is set up exactly when both its element and the
     * stage-4 container exist, with its latch open.
     */
    method InitStage4()
      modifies this
      ensures View() == old(View()).(stages := SetUp(old(View()).stages, Congratulations))
      ensures indicator != null <==> indicatorMarkup.Some? && 4 in stages
      ensures indicator != null ==>
        fresh(indicator) && indicator.View() == Stage4.Indicator(false, true, indicatorMarkup.value)
    {
      congratsWired := true;
      var classes := if indicatorMarkup.Some? then indicatorMarkup.value else {};
      indicator := Stage4.SetupScrollIndicator(indicatorMarkup.Some?, 4 in stages, classes);
    }

    /** The 600 ms body of `transitionToStage(n)`. */
    method CompleteTransition(n: int)
      modifies this
      ensures View() == old(View()).(stages := Activated(old(View()).stages, n))
      ensures n != 4 ==> indicator == old(indicator)
      ensures n == 4 ==> (indicator != null <==> indicatorMarkup.Some? && 4 in stages)
      ensures n == 4 && indicator != null ==>
        fresh(indicator) && indicator.View() == Stage4.Indicator(false, true, indicatorMarkup.value)
    {
      active := active + {n};
      currentStage := n;
      var setup := SetupFor(n);
      if setup == Some(Prank) {
        InitStage2();
      } else if setup == Some(Celebration) {
        InitStage3();
      } else if setup == Some(Congratulations) {
        InitStage4();
      }
    }

    /** An armed timer of the sequencer fires. */
    method CompleteTask(t: Task)
      requires t in pending
      modifies this
      ensures View() == Step(old(View()), Fire(t))
      ensures t != ActivateStage(4) ==> indicator == old(indicator)
      ensures t == ActivateStage(4) ==> (indicator != null <==> indicatorMarkup.Some? && 4 in stages)
      ensures t == ActivateStage(4) && indicator != null ==>
        fresh(indicator) && indicator.View() == Stage4.Indicator(false, true, indicatorMarkup.value)
      ensures Inv(old(View())) ==> Inv(View())
    {
      ghost var s := View();
      pending := pending - {t};
      match t {
        case RequestStage(n) => TransitionToStage(n);
        case ActivateStage(n) => CompleteTransition(n);
        case FlipCelebrationCard => celebrationFlipped := true;
      }
      if Inv(s) {
        StepKeepsInv(s, Fire(t));
      }
    }

    /** An armed timer of the dodge handler fires. */
    method CompleteDodgeTimer(t: Dodge.Timer)
      requires t in dodgeTimers
      modifies this
      ensures View() == Step(old(View()), FireDodge(t))
      ensures indicator == old(indicator)
      ensures Inv(old(View())) ==> Inv(View())
    {
      dodgeTimers := dodgeTimers - {t};
      match t {
        case EndShake => sad := sad.(dodging := false);
        case HideSadButton => sad := sad.(hidden := true);
      }
    }

    /**
     * `handleSadButtonInteraction`, given the live layout and the two `Math.random()`
     * draws; `tone` is the sound it asks for.
     */
    method HandleSadButtonInteraction(g: Dodge.Geometry, u: real, v: real)
      returns (tone: Option<Sound.Tone>)
      requires 0.0 <= u < 1.0 && 0.0 <= v < 1.0
      modifies this
      ensures View() == old(View()).(dodge := Dodge.Interacted(old(View()).dodge, g, u, v))
      ensures tone == Dodge.DodgeTone(old(View()).dodge, old(View()).audio)
      ensures indicator == old(indicator)
      ensures Inv(old(View())) ==> Inv(View())
    {
      ghost var before := View();
      tone := None;
      if dodgeCount == 0 {
        sad := sad.(isDodging := true);
      }
      if dodgeCount >= Dodge.MaxDodges {
        sad := sad.(disappear := true);
        status := Dodge.TerminalStatus;
        dodgeTimers := dodgeTimers + {Dodge.HideSadButton};
        assert View().dodge == Dodge.Interacted(before.dodge, g, u, v);
        return;
      }
      dodgeCount := dodgeCount + 1;
      status := Dodge.NiceTry(dodgeCount);
      sad := sad.(dodging := true);
      dodgeTimers := dodgeTimers + {Dodge.EndShake};
      var p := Dodge.Placement(g, u, v);
      sad := sad.(left := p.0, top := p.1);
      assert View().dodge == Dodge.Interacted(before.dodge, g, u, v);
      if audioEnabled {
        tone := Sound.Play(audioEnabled, audioAvailable, Some("dodge"));
      }
    }

    /** The happy button's click: a tone, then the timer that asks for stage 3. */
    method ClickHappyButton() returns (tone: Option<Sound.Tone>)
      modifies this
      ensures View() == old(View()).(stages := HappyClicked(old(View()).stages))
      ensures tone == HappyTone(old(View()).audio)
      ensures indicator == old(indicator)
    {
      tone := None;
      if audioEnabled {
        tone := Sound.Play(audioEnabled, audioAvailable, Some("success"));
      }
      pending := pending + {RequestStage(3)};
    }

    /** The audio toggle's click listener, attached only when the toggle exists. */
    method ClickAudioToggle()
      requires toggleWired
      modifies this
      ensures View() == old(View()).(audio := Sound.Toggled(old(View()).audio))
      ensures indicator == old(indicator)
    {
      audioEnabled := !audioEnabled;
      muted := !audioEnabled;
    }
  }
}
