/**
 * The stage sequencer and the session around it, as values. Every delayed callback
 * (`setTimeout` body) is a pending task that fires as a step of its own. The class in
 * module Card runs the same steps in place.
 */
module Machine {
  import opened Wrappers
  import Sound
  import Dodge

  /** The setup routine a stage runs when it becomes active. */
  datatype Setup = Prank | Celebration | Congratulations

  /** The `switch` at the end of the activation step: 2, 3 and 4 have a setup, no other number. */
  function SetupFor(stage: int): (r: Option<Setup>)
    ensures r == Some(Prank) <==> stage == 2
    ensures r == Some(Celebration) <==> stage == 3
    ensures r == Some(Congratulations) <==> stage == 4
    ensures r.None? <==> stage < 2 || 4 < stage
  {
    if stage == 2 then Some(Prank)
    else if stage == 3 then Some(Celebration)
    else if stage == 4 then Some(Congratulations)
    else None
  }

  /** A delayed callback of the sequencer that has been armed and has not fired yet. */
  datatype Task =
    | RequestStage(target: int)   // a timer whose body calls `transitionToStage(target)`
    | ActivateStage(target: int)  // the 600 ms body inside `transitionToStage(target)`
    | FlipCelebrationCard         // adds `flipped` to the stage-3 card after 800 ms

  predicate IsStageTask(t: Task) { t.RequestStage? || t.ActivateStage? }

  /**
   * What the sequencer changes: the global `currentStage`; the stage containers present
   * (`containers`, in document order, each carrying class `stage` and id `stage<N>`) and
   * those carrying `active`; its armed timers; whether stage 2's button listeners are
   * attached; the stage-3 card's `flipped` class; whether stage 4 is set up.
   */
  datatype Stages = Stages(
    currentStage: int,
    containers: seq<int>,
    active: set<int>,
    armed: set<Task>,
    prankWired: bool,
    celebrationFlipped: bool,
    congratsWired: bool)

  /** The whole session: the sequencer, the dodge interaction and the audio state. */
  datatype Session = Session(stages: Stages, dodge: Dodge.Controller, audio: Sound.Audio)

  function StageSet(containers: seq<int>): set<int> { set i | i in containers }

  /** Stage 1 (active in the markup when its container exists), its entrance timer armed. */
  function InitialStages(containers: seq<int>): (st: Stages)
    ensures StageInv(st) && st.currentStage == 1 && st.armed == {RequestStage(2)}
    ensures st.active == (if 1 in containers then {1} else {}) && st.containers == containers
    ensures !st.prankWired && !st.celebrationFlipped && !st.congratsWired
  {
    Stages(1, containers, if 1 in containers then {1} else {}, {RequestStage(2)},
           false, false, false)
  }

  /**
   * The page after `DOMContentLoaded`: stage 1 set up, no dodges, audio off, the toggle
   * wired when its element exists. `muted` and `status` are whatever the markup says.
   */
  function Initial(containers: seq<int>, toggleExists: bool, muted: bool, audioAvailable: bool,
                   status: string): (s: Session)
    ensures Inv(s)
    ensures s.stages.currentStage == 1 && s.stages.armed == {RequestStage(2)}
    ensures s.dodge.count == 0 && s.dodge.armed == {} && s.dodge.status == status
    ensures !s.audio.enabled && s.audio.toggleWired == toggleExists && s.audio.muted == muted
    ensures s.stages == InitialStages(containers) && s.dodge == Dodge.Fresh(status)
    ensures s.audio.available == audioAvailable
  {
    Session(InitialStages(containers), Dodge.Fresh(status),
            Sound.Audio(false, audioAvailable, toggleExists, muted))
  }

  /**
   * The synchronous part of `transitionToStage(n)`: every stage loses `active`, and the
   * activation is armed only when a `stage<n>` container exists.
   */
  function Transitioned(st: Stages, n: int): (r: Stages)
    ensures forall i :: i in st.containers ==> i !in r.active
    ensures r.active <= st.active && r.currentStage == st.currentStage
    ensures ActivateStage(n) in r.armed <==> n in st.containers || ActivateStage(n) in st.armed
    ensures r.armed - {ActivateStage(n)} == st.armed - {ActivateStage(n)}
    ensures r.(active := st.active, armed := st.armed) == st
  {
    st.(active := st.active - StageSet(st.containers),
        armed := if n in st.containers then st.armed + {ActivateStage(n)} else st.armed)
  }

  /** The stage's setup routine, as far as the sequencer sees it. */
  function SetUp(st: Stages, setup: Setup): (r: Stages)
    ensures r.currentStage == st.currentStage && r.active == st.active
    ensures r.containers == st.containers && r.celebrationFlipped == st.celebrationFlipped
    ensures r.prankWired == (st.prankWired || setup == Prank)
    ensures r.congratsWired == (st.congratsWired || setup == Congratulations)
    ensures r.armed == if setup == Celebration then st.armed + {FlipCelebrationCard, RequestStage(4)}
                       else st.armed
  {
    match setup
    case Prank => st.(prankWired := true)
    case Celebration => st.(armed := st.armed + {FlipCelebrationCard, RequestStage(4)})
    case Congratulations => st.(congratsWired := true)
  }

  /** The delayed body of `transitionToStage(n)`: activate, record, then set the stage up. */
  function Activated(st: Stages, n: int): (r: Stages)
    ensures r.active == st.active + {n} && r.currentStage == n && r.containers == st.containers
    ensures r.armed == if n == 3 then st.armed + {FlipCelebrationCard, RequestStage(4)} else st.armed
    ensures r.prankWired == (st.prankWired || n == 2) && r.congratsWired == (st.congratsWired || n == 4)
    ensures r.celebrationFlipped == st.celebrationFlipped
  {
    var t := st.(active := st.active + {n}, currentStage := n);
    var setup := SetupFor(n);
    if setup.None? then t else SetUp(t, setup.value)
  }

  /** One armed callback of the sequencer fires and is no longer armed. */
  function Fired(st: Stages, t: Task): (r: Stages)
    ensures t !in r.armed && r.containers == st.containers
    ensures !t.ActivateStage? ==> r.currentStage == st.currentStage && r.active <= st.active
    ensures t.ActivateStage? ==> r.currentStage == t.target && t.target in r.active
    ensures r.celebrationFlipped == (st.celebrationFlipped || t == FlipCelebrationCard)
    ensures t.RequestStage? ==> r == Transitioned(st.(armed := st.armed - {t}), t.target)
    ensures t.ActivateStage? ==> r == Activated(st.(armed := st.armed - {t}), t.target)
    ensures t == FlipCelebrationCard ==> r == st.(armed := st.armed - {t}, celebrationFlipped := true)
  {
    var st' := st.(armed := st.armed - {t});
    match t
    case RequestStage(n) => Transitioned(st', n)
    case ActivateStage(n) => Activated(st', n)
    case FlipCelebrationCard => st'.(celebrationFlipped := true)
  }

  /** The happy button: arm the 300 ms timer that asks for stage 3. */
  function HappyClicked(st: Stages): (r: Stages)
    ensures r.armed == st.armed + {RequestStage(3)} && r.(armed := st.armed) == st
  {
    st.(armed := st.armed + {RequestStage(3)})
  }

  /** The tone the happy button asks for. */
  function HappyTone(audio: Sound.Audio): (r: Option<Sound.Tone>)
    ensures r.Some? <==> audio.enabled && audio.available
    ensures r.Some? ==> r.value.hz == 600
  {
    Sound.Play(audio.enabled, audio.available, Some("success"))
  }

  /** What the browser can deliver to the session. */
  datatype Event =
    | Fire(task: Task)
    | FireDodge(timer: Dodge.Timer)
    | SadInteraction(g: Dodge.Geometry, u: real, v: real)
    | HappyClick
    | AudioToggleClick

  /**
   * Which events can happen: a timer fires only once armed; the two stage-2 buttons live
   * in the stage-2 container, so they are reachable only once stage 2 is set up and while
   * it is active, and the sad button only until it is hidden; the toggle only when wired.
   */
  predicate Enabled(s: Session, e: Event)
  {
    match e
    case Fire(t) => t in s.stages.armed
    case FireDodge(t) => t in s.dodge.armed
    case SadInteraction(_, u, v) =>
      && s.stages.prankWired && 2 in s.stages.active && !s.dodge.sad.hidden
      && 0.0 <= u < 1.0 && 0.0 <= v < 1.0
    case HappyClick => s.stages.prankWired && 2 in s.stages.active
    case AudioToggleClick => s.audio.toggleWired
  }

  function Step(s: Session, e: Event): Session
    requires Enabled(s, e)
  {
    match e
    case Fire(t) => s.(stages := Fired(s.stages, t))
    case FireDodge(t) => s.(dodge := Dodge.Fired(s.dodge, t))
    case SadInteraction(g, u, v) => s.(dodge := Dodge.Interacted(s.dodge, g, u, v))
    case HappyClick => s.(stages := HappyClicked(s.stages))
    case AudioToggleClick => s.(audio := Sound.Toggled(s.audio))
  }

  /** An event the browser cannot deliver leaves the session as it is. */
  function Deliver(s: Session, e: Event): Session
  {
    if Enabled(s, e) then Step(s, e) else s
  }

  function Run(s: Session, es: seq<Event>): Session
    decreases |es|
  {
    if es == [] then s else Run(Deliver(s, es[0]), es[1..])
  }

  /** Every armed stage request or activation is for the stage after the current one. */
  predicate OnlyNextStageArmed(st: Stages)
  {
    forall t :: t in st.armed && IsStageTask(t) ==> t.target == st.currentStage + 1
  }

  /**
   * What the sequencer keeps: the stage is one of 1..4; only the current stage can be
   * active and only existing containers are; armed stage tasks are for the next stage,
   * which is at most 4, and are never a request and an activation at once; while the
   * activation is armed no stage is active.
   */
  predicate StageInv(st: Stages)
  {
    var next := st.currentStage + 1;
    && 1 <= st.currentStage <= 4
    && st.active <= {st.currentStage}
    && st.active <= StageSet(st.containers)
    && OnlyNextStageArmed(st)
    && (RequestStage(next) in st.armed ==> next <= 4 && ActivateStage(next) !in st.armed)
    && (ActivateStage(next) in st.armed ==> next <= 4 && next in st.containers && st.active == {})
  }

  /** What every reachable session satisfies: the sequencer's invariant and the dodge budget. */
  predicate Inv(s: Session)
  {
    StageInv(s.stages) && s.dodge.count <= Dodge.MaxDodges
  }

  /** A stage request keeps the invariant: it can only arm the activation it stands for. */
  lemma RequestKeepsInv(st: Stages, n: int)
    requires StageInv(st) && RequestStage(n) in st.armed
    ensures StageInv(Fired(st, RequestStage(n)))
    ensures Fired(st, RequestStage(n)).currentStage == st.currentStage
  {
  }

  /** An activation keeps the invariant: the stage it makes current is the next one. */
  lemma ActivateKeepsInv(st: Stages, n: int)
    requires StageInv(st) && ActivateStage(n) in st.armed
    ensures StageInv(Fired(st, ActivateStage(n)))
    ensures Fired(st, ActivateStage(n)).currentStage == st.currentStage + 1
  {
  }

  /** The card flip touches neither the stages nor the armed stage tasks. */
  lemma FlipKeepsInv(st: Stages)
    requires StageInv(st)
    ensures StageInv(Fired(st, FlipCelebrationCard))
    ensures Fired(st, FlipCelebrationCard).currentStage == st.currentStage
  {
  }

  /** The happy click can only ask for stage 3, and only while stage 2 is current. */
  lemma HappyKeepsInv(st: Stages)
    requires StageInv(st) && 2 in st.active
    ensures StageInv(HappyClicked(st)) && HappyClicked(st).currentStage == st.currentStage
  {
  }

  /** Every armed timer of the sequencer keeps the invariant and advances at most one stage. */
  lemma FiredKeepsInv(st: Stages, t: Task)
    requires StageInv(st) && t in st.armed
    ensures StageInv(Fired(st, t))
    ensures st.currentStage <= Fired(st, t).currentStage <= st.currentStage + 1
  {
    match t {
      case RequestStage(n) => RequestKeepsInv(st, n);
      case ActivateStage(n) => ActivateKeepsInv(st, n);
      case FlipCelebrationCard => FlipKeepsInv(st);
    }
  }

  /** Every deliverable event keeps the invariant and moves the stage forward by at most one. */
  lemma StepKeepsInv(s: Session, e: Event)
    requires Inv(s) && Enabled(s, e)
    ensures Inv(Step(s, e))
    ensures s.stages.currentStage <= Step(s, e).stages.currentStage <= s.stages.currentStage + 1
  {
    match e {
      case Fire(t) => FiredKeepsInv(s.stages, t);
      case FireDodge(t) =>
      case SadInteraction(g, u, v) =>
      case HappyClick => HappyKeepsInv(s.stages);
      case AudioToggleClick =>
    }
  }

  /**
   * Whatever the browser delivers, the invariant holds and the stage never goes back: the
   * only requests are for 2 from stage 1, 3 from stage 2 and 4 from stage 3.
   */
  lemma {:induction false} RunKeepsInv(s: Session, es: seq<Event>)
    requires Inv(s)
    ensures Inv(Run(s, es))
    ensures s.stages.currentStage <= Run(s, es).stages.currentStage
    decreases |es|
  {
    if es != [] {
      if Enabled(s, es[0]) { StepKeepsInv(s, es[0]); }
      RunKeepsInv(Deliver(s, es[0]), es[1..]);
    }
  }

  /**
   * The delivery rule at work: once the sad button is hidden, or once the card has left
   * stage 2 behind, no event reaches the dodge handler, so the counter and the status
   * display never change again.
   */
  lemma {:induction false} DodgeFrozen(s: Session, es: seq<Event>)
    requires Inv(s) && (s.dodge.sad.hidden || s.stages.currentStage >= 3)
    ensures Run(s, es).dodge.count == s.dodge.count
    ensures Run(s, es).dodge.status == s.dodge.status
    decreases |es|
  {
    if es != [] {
      var s' := Deliver(s, es[0]);
      if Enabled(s, es[0]) {
        StepKeepsInv(s, es[0]);
        assert !es[0].SadInteraction?;
      }
      assert s'.dodge.count == s.dodge.count && s'.dodge.status == s.dodge.status;
      DodgeFrozen(s', es[1..]);
    }
  }

  /** Completing an armed activation leaves exactly its stage active and makes it current. */
  lemma ActivationLeavesOneActive(st: Stages, n: int)
    requires StageInv(st) && ActivateStage(n) in st.armed
    ensures Fired(st, ActivateStage(n)).active == {n}
    ensures Fired(st, ActivateStage(n)).currentStage == n == st.currentStage + 1
  {
  }

  /**
   * A request for a stage whose container is missing blanks the page: no stage is active,
   * the current stage stays, and nothing will activate a stage later.
   */
  lemma MissingTargetBlanksPage(st: Stages, n: int)
    requires StageInv(st) && RequestStage(n) in st.armed && n !in st.containers
    ensures Fired(st, RequestStage(n)).active == {}
    ensures Fired(st, RequestStage(n)).currentStage == st.currentStage
    ensures forall t :: t in Fired(st, RequestStage(n)).armed ==> !IsStageTask(t)
  {
  }

  /** Running two lists of events one after the other is running their concatenation. */
  lemma {:induction false} RunAppend(s: Session, a: seq<Event>, b: seq<Event>)
    ensures Run(s, a + b) == Run(Run(s, a), b)
    decreases |a|
  {
    if a == [] {
      assert a + b == b;
    } else {
      assert (a + b)[0] == a[0] && (a + b)[1..] == a[1..] + b;
      RunAppend(Deliver(s, a[0]), a[1..], b);
    }
  }

  /** The entrance timer firing, then the activation it armed. */
  function EntranceEvents(): seq<Event>
  {
    [Fire(RequestStage(2)), Fire(ActivateStage(2))]
  }

  /** The happy click, its transition timer, then the activation. */
  function PrankEvents(): seq<Event>
  {
    [HappyClick, Fire(RequestStage(3)), Fire(ActivateStage(3))]
  }

  /** The celebration timer firing, then the activation it armed. */
  function CelebrationEvents(): seq<Event>
  {
    [Fire(FlipCelebrationCard), Fire(RequestStage(4)), Fire(ActivateStage(4))]
  }

  /** The entrance timer, then its activation: stage 2 is active, current and set up. */
  lemma EntrancePhase(s: Session)
    requires s.stages.currentStage == 1 && s.stages.armed == {RequestStage(2)}
    requires s.stages.active <= {1} && 1 in s.stages.containers && 2 in s.stages.containers
    ensures var r := Run(s, EntranceEvents()).stages;
      r.currentStage == 2 && r.active == {2} && r.armed == {} && r.prankWired &&
      r.containers == s.stages.containers
  {
  }

  /** The happy click, its timer and the activation: stage 3 is active and current. */
  lemma PrankPhase(s: Session)
    requires s.stages.currentStage == 2 && s.stages.active == {2} && s.stages.armed == {}
    requires s.stages.prankWired && 2 in s.stages.containers && 3 in s.stages.containers
    ensures var r := Run(s, PrankEvents()).stages;
      r.currentStage == 3 && r.active == {3} && r.armed == {FlipCelebrationCard, RequestStage(4)} &&
      r.containers == s.stages.containers
  {
  }

  /**
   * The card flip (800 ms), then the celebration timer (3000 ms) and the activation: the
   * card is flipped, stage 4 is active and current, and nothing is left armed.
   */
  lemma CelebrationPhase(s: Session)
    requires s.stages.currentStage == 3 && s.stages.active == {3}
    requires s.stages.armed == {FlipCelebrationCard, RequestStage(4)}
    requires 3 in s.stages.containers && 4 in s.stages.containers
    ensures var r := Run(s, CelebrationEvents()).stages;
      r.currentStage == 4 && r.active == {4} && r.armed == {} && r.celebrationFlipped
  {
  }

  /**
   * The intended path on a page with all four containers: the entrance timer, the happy
   * click, the card flip and the celebration timer take the card through 2, 3 and 4, with
   * only the current stage active and no timer left at the end.
   */
  lemma HappyPath(s: Session)
    requires s.stages == InitialStages(s.stages.containers)
    requires forall i :: 1 <= i <= 4 ==> i in s.stages.containers
    ensures var r := Run(s, EntranceEvents() + PrankEvents() + CelebrationEvents()).stages;
      r.currentStage == 4 && r.active == {4} && r.armed == {} && r.celebrationFlipped
  {
    var a, b, c := EntranceEvents(), PrankEvents(), CelebrationEvents();
    assert 1 in s.stages.containers && 2 in s.stages.containers;
    assert 3 in s.stages.containers && 4 in s.stages.containers;
    EntrancePhase(s);
    var s1 := Run(s, a);
    PrankPhase(s1);
    var s2 := Run(s1, b);
    CelebrationPhase(s2);
    RunAppend(s, a, b);
    RunAppend(s, a + b, c);
  }
}
