# Greeting card session model

A Dafny model of the sequential core of a browser greeting card (`script.js`). The card walks
one visitor through four stages: an entrance, a "prank" in which a sad button dodges the
pointer, a celebration, and a scrollable congratulations page. Underneath the DOM and
effect-library calls sits a small session state machine, and that is what is modelled here:

- the module-level state `currentStage`, `dodgeCount` (budget `maxDodges = 5`) and
  `audioEnabled`;
- `transitionToStage`, which takes `active` off every stage container and, after 600 ms,
  activates the target and runs its setup routine;
- the dodge handler with its bounded counter, status texts, terminal "disappear" branch and
  random relocation;
- the audio toggle and the tone choice of `playSound`;
- the stage-4 micro-interactions: flower bloom, photo-card flip, emoji animation choice and
  the scroll indicator's `hasScrolled` latch.

The DOM is abstract. Stage containers are numbers. The set of containers carrying `active` is
a set. The status display is a string. The sad button is a record of flags and its position.
Stage-4 elements are objects holding an attribute map, a class set and two inline styles.
Every `setTimeout` body is a pending task that fires as a step of its own
(`Machine.Task` and `Dodge.Timer`; `Card.GreetingCard.CompleteTask` and
`Card.GreetingCard.CompleteDodgeTimer`). The model abstracts time, so any armed
task may fire next.

Modules:

- `Wrappers`: `Option`, for `null` results.
- `Sound`: the frequency table, the gate of `playSound` and the audio toggle.
- `Dodge`: the attempt budget, the status texts with their decimal rendering, the
  relocation arithmetic, and the dodge handler and its two timers as functions on values.
- `Machine`: the stage sequencer and the session as values. It has one function per
  handler or timer body of the sequencer, the events the browser can deliver, the
  invariant every reachable session keeps, and the lemmas about runs.
- `Card`: class `GreetingCard`. Its methods are the handlers and timer bodies, written
  imperatively (the stage loop of `transitionToStage` is a `while` loop). Each method
  ensures that its new state is the matching function of `Machine`, `Dodge` or `Sound`
  applied to the old state.
- `Stage4`: class `Element`, the flower, photo-card and emoji click handlers, and class
  `ScrollIndicator` with the value-level latch it implements.

The model follows the code, including these easily misread behaviours:

- `dodgeCount` is set to 0 once, at page load (script.js:6). It is not reset when stage 2
  is entered.
- The terminal branch runs on the interaction that finds the counter already at 5, so it is
  the sixth attempt. The fifth attempt still shows `Nice try! 5/5` (script.js:134-146).
- The relocation is not guarded against a container that is too small. When
  `containerWidth - buttonWidth - 40` is negative, the new `left` is negative too, which
  puts the button past the container's left edge (`Dodge.Placement`, script.js:169-176).
- Interactions after the button is hidden do nothing only because a `display: none`
  element receives no pointer events. The handler has no guard of its own. `Machine.Enabled`
  states this delivery rule.
- The indicator's 1500 ms timer adds `visible` even if a scroll has already hidden it
  (`Stage4.ScrollIndicator.Show`, script.js:553-555). Once hidden, the indicator keeps its
  `hidden` class, but it can regain `visible`.

Assumptions about the markup, which is not part of this model:

- Each stage container carries both class `stage` and id `stage<N>`.
- Container `stage1` is the one marked `active` at load.
- The two stage-2 buttons sit inside the stage-2 container, which is not displayed while
  it lacks `active`.
- The elements the script uses without a null check are present: `#dodgeCount`,
  `#pawTrails`, `#sadButton` and `#happyButton` (script.js:112-118, 190, 198) and the
  stage-3 `.flip-card` (script.js:218, 229). Were one missing, its handler or timer body
  would throw part-way through; the model does not cover those partial runs. The elements
  the script does check (the stage containers, the audio toggle, the scroll indicator) are
  parameters.
- The initial `muted` class, the initial status text and the classes of the scroll
  indicator element (or its absence) are parameters of `Card.GreetingCard.Load`.

## Model

| member | source | states |
|---|---|---|
| `Sound.Frequency` | script.js:651-662 | dodge is 300 Hz, success 600 Hz, bloom 500 Hz; every other kind, `null` included, is 440 Hz |
| `Sound.NamedKindsAreTellable` | script.js:651-662 | two kinds with the same non-default frequency are the same kind |
| `Sound.Play` | script.js:643-669 | a tone exists exactly when audio is enabled and an audio context is available; it has the kind's frequency and lasts 100 ms |
| `Dodge.Decimal` | script.js:146 | the rendering of a count is a non-empty string of decimal digits, with no leading zero |
| `Dodge.DecimalRoundTrip` | script.js:146 | the rendered digits read back as the count |
| `Dodge.NiceTry` | script.js:146 | the status text starts with `Nice try! `, ends with `/5`, and differs from the terminal message |
| `Dodge.NiceTryInjective` | script.js:146 | different counts give different status texts |
| `Dodge.NiceTryTexts` | script.js:145-146 | the five status texts are `Nice try! 1/5` to `Nice try! 5/5` |
| `Dodge.Scale` | script.js:172-173 | a draw in [0, 1) times a non-negative room lies in [0, room]; times a negative room it lies in [room, 0], and below 0 unless the draw is 0 |
| `Dodge.MaxLeft` | script.js:169 | the horizontal room is non-negative exactly when the container is at least the button's width plus 40 px, and it is less than the space beside the button |
| `Dodge.MaxTop` | script.js:170 | the vertical room is non-negative exactly when the container is at least the button's height plus 40 px, and it is less than the space below the button |
| `Dodge.Placement` | script.js:164-177 | when the container has room, the button lies inside it, 40 px short of the far edges; when it has none, any non-zero draw puts the button at a negative offset |
| `Sound.Toggled` | script.js:630-633 | the toggle negates `audioEnabled` and leaves `muted` equal to the new `!audioEnabled`; the audio context and the wiring are untouched |
| `Sound.ToggleParity` | script.js:630-633 | after n toggles the flag is flipped exactly when n is odd, and after any toggle `muted` is its negation |
| `Dodge.Fresh` | script.js:6 | before any attempt the counter is 0, no dodge timer is armed and the button is shown |
| `Dodge.Interacted` | script.js:125-162 | below 5, the counter rises by one, the status shows the new count, the button shakes (`dodging`) and moves to `Placement` of the layout and draws, exactly the shake end is added to the armed timers and `disappear` is kept; at 5, the counter, the position and `dodging` stay, the status is the terminal text, `disappear` is set and exactly the hide is added; `is-dodging` is added exactly when the counter was 0; the counter never passes 5 |
| `Dodge.DodgeTone` | script.js:158-161 | the dodge tone (300 Hz) is asked for exactly on a moving attempt with audio enabled and available |
| `Dodge.Fired` | script.js:139-150 | the hide timer sets the button to hidden and the shake-end timer removes `dodging`, each changing no other flag nor the position; neither touches the counter or the status, and the fired timer is no longer armed |
| `Dodge.DodgeRun` | script.js:134-146 | after a run of n attempts from a counter c, each with its own layout and draws, the counter is min(c + n, 5); the status counts the moving attempts, or shows the terminal text once an attempt found the counter at 5 |
| `Dodge.TerminalIsIdempotent` | script.js:134-143 | once the budget is spent, a further interaction changes no state, whatever its layout and draws |
| `Machine.SetupFor` | script.js:605-615 | targets 2, 3 and 4 dispatch to the prank, celebration and congratulations setups; any other number dispatches nothing |
| `Machine.InitialStages` | script.js:95-101 | at load stage 1 is current and is the one active stage when its container exists; only the entrance timer (a request for stage 2) is armed; no stage is set up; the sequencer's invariant holds |
| `Machine.Initial` | script.js:5-18 | at load the session keeps the invariant: the stages are `InitialStages` (stage 1, only the entrance timer armed), the dodge state is `Dodge.Fresh` with the markup's status text, audio is off, the toggle is wired exactly when its element exists and `muted` and the audio context are as the page has them |
| `Machine.Transitioned` | script.js:581-592 | no stage container keeps `active` and the current stage is unchanged; the activation is armed exactly when `stage<n>` exists or was already armed; every other armed timer, the containers and the set-up flags are kept |
| `Machine.SetUp` | script.js:605-615 | what the dispatched setup does to the sequencer: the prank setup (`initStage2`) wires the stage-2 buttons, the celebration setup (`initStage3`, script.js:216-237) arms the card flip and the request for stage 4, the congratulations setup is recorded; none changes the stage, the active set or the containers |
| `Machine.Activated` | script.js:593-616 | the target becomes active and current; stage 2's setup wires its buttons, stage 4's is recorded, and only stage 3's setup arms sequencer timers (the card flip and the request for stage 4); the card-flip flag is kept |
| `Machine.Fired` | script.js:581-616 | a fired timer is no longer armed; a request runs the synchronous part of `transitionToStage` (`Transitioned`), an activation runs its 600 ms body (`Activated`) and the flip (script.js:227-230) flips the card and keeps every other timer; only an activation changes the current stage |
| `Machine.HappyClicked` | script.js:198-209 | the happy click adds the request for stage 3 to the armed timers and changes nothing else |
| `Machine.HappyTone` | script.js:200-202 | the success tone (600 Hz) is asked for exactly when audio is enabled and available |
| `Machine.RequestKeepsInv` | script.js:581-592 | a stage request keeps the invariant and the current stage |
| `Machine.ActivateKeepsInv` | script.js:593-616 | an activation keeps the invariant and advances the stage by exactly one |
| `Machine.FlipKeepsInv` | script.js:227-230 | the card-flip timer keeps the invariant and the stage |
| `Machine.HappyKeepsInv` | script.js:205-208 | the happy click, deliverable only while stage 2 is active, keeps the invariant and the stage |
| `Machine.FiredKeepsInv` | script.js:581-616 | any armed timer of the sequencer (the entrance timer, script.js:98-101; the happy-click timer, script.js:205-208; the flip and the stage-4 timer, script.js:227-236; the activation, script.js:593-616) keeps the invariant when it fires and moves the stage forward by at most one |
| `Machine.StepKeepsInv` | script.js:581-620 | every deliverable event keeps the invariant and moves the stage forward by at most one |
| `Machine.RunKeepsInv` | script.js:98-236 | over any run of events the invariant holds and the stage never decreases: the only requests are for 2 from stage 1, 3 from stage 2 and 4 from stage 3, and the dodge counter stays within 0..5 |
| `Machine.DodgeFrozen` | script.js:139-142 | under the delivery rule (`Machine.Enabled`: the sad button receives events only while shown and while stage 2 is active), once the button is hidden or the card has left stage 2 the counter and the status never change again |
| `Machine.ActivationLeavesOneActive` | script.js:593-596 | completing the armed activation leaves exactly that stage active, and it is the next stage after the current one |
| `Machine.MissingTargetBlanksPage` | script.js:583-619 | a request for a missing container leaves no stage active, keeps the current stage and arms no activation |
| `Machine.EntrancePhase` | script.js:98-101 | from the loaded card, the entrance timer and its activation make stage 2 active and current with its buttons wired |
| `Machine.PrankPhase` | script.js:198-209 | from stage 2, the happy click, its timer and the activation make stage 3 active and current, arming the card flip and the request for stage 4 |
| `Machine.CelebrationPhase` | script.js:227-236 | from stage 3, the card flip, the celebration timer and the activation, in the order of their delays, flip the card and make stage 4 active and current with no timer left |
| `Machine.HappyPath` | script.js:98-236 | with all four containers, the entrance timer, the happy click, the card flip and the celebration timer end at stage 4, with only stage 4 active, the card flipped and no timer left |
| `Card.GreetingCard.Load` | script.js:5-18 | the loaded card is `Machine.Initial`, so it keeps the invariant; the scroll indicator is not set up yet |
| `Card.GreetingCard.TransitionToStage` | script.js:581-592 | the loop removes `active` from every container, then arms the activation when `stage<n>` exists, as `Machine.Transitioned`; the dodge and audio state are untouched; the scroll indicator is untouched |
| `Card.GreetingCard.InitStage2` | script.js:108-123 | attaches the stage-2 button listeners; the scroll indicator is untouched |
| `Card.GreetingCard.InitStage3` | script.js:216-237 | arms the card flip and the request for stage 4; the scroll indicator is untouched |
| `Card.GreetingCard.InitStage4` | script.js:293-325 | records stage 4 as set up and sets up the scroll indicator, with its latch open, exactly when both the indicator element and the stage-4 container exist |
| `Card.GreetingCard.CompleteTransition` | script.js:593-616 | the delayed activation, as `Machine.Activated`; for stage 4 the scroll indicator is set up exactly when its element and the stage-4 container exist, with its latch open; for any other stage the indicator is untouched |
| `Card.GreetingCard.CompleteTask` | script.js:581-616 | an armed timer of the sequencer (the entrance timer, script.js:98-101; the happy-click timer, script.js:205-208; the flip and the stage-4 timer, script.js:227-236; the activation, script.js:593-616) fires, as a `Machine.Step`, and the invariant is kept; only the activation of stage 4 sets up the scroll indicator |
| `Card.GreetingCard.CompleteDodgeTimer` | script.js:139-150 | an armed dodge timer fires, as a `Machine.Step`, and the invariant is kept; the scroll indicator is untouched |
| `Card.GreetingCard.HandleSadButtonInteraction` | script.js:125-162 | the handler in place, as `Dodge.Interacted`, returning `Dodge.DodgeTone`; the invariant is kept; the scroll indicator is untouched |
| `Card.GreetingCard.ClickHappyButton` | script.js:198-209 | the happy click in place, as `Machine.HappyClicked`, returning `Machine.HappyTone`; the scroll indicator is untouched |
| `Card.GreetingCard.ClickAudioToggle` | script.js:626-635 | the toggle in place, as `Sound.Toggled`; the scroll indicator is untouched |
| `Stage4.Attr` | script.js:442 | `getAttribute` gives the value exactly when the attribute is present |
| `Stage4.Bloom` | script.js:442-446 | after a click the flower reads as bloomed; a bloomed flower is unchanged; no other attribute changes |
| `Stage4.BloomIsOneShot` | script.js:442-446 | a second click on a flower changes nothing |
| `Stage4.ClickFlower` | script.js:441-457 | the flower's attributes become `Bloom` of the old ones; the bloom tone and the scale pulse happen only on the first click |
| `Stage4.SettleFlower` | script.js:454-456 | the scale pulse ends and nothing else changes |
| `Stage4.Flip` | script.js:467-470 | the flipped reading is negated; `data-flipped` becomes `true` or `false`; no other attribute changes |
| `Stage4.FlipTwiceRestoresReading` | script.js:467-470 | two clicks restore whether the card reads as flipped |
| `Stage4.FlipTwiceRestoresAttribute` | script.js:467-470 | two clicks restore the attribute when it held `true` or `false` |
| `Stage4.FlipTwiceFromUnset` | script.js:467-470 | a card without `data-flipped` comes back from two clicks with `false`, not as it was |
| `Stage4.ClickPhotoCard` | script.js:466-489 | the attributes become `Flip` of the old ones; confetti bursts exactly when the card was un-flipped and the library is loaded; the flip tone is asked for |
| `Stage4.AnimationFor` | script.js:357-413 | the animation is `none` exactly when the effect is unknown or missing; each known effect names an `emoji…` keyframe animation |
| `Stage4.AnimationsDistinct` | script.js:363-413 | different known effects play different animations |
| `Stage4.BurstsConfetti` | script.js:373-403 | only known effects with their own animation burst confetti, and their tone is the default 440 Hz |
| `Stage4.ClickEmoji` | script.js:353-418 | the emoji's animation is `AnimationFor` of its effect; confetti bursts exactly for `glow` and `pulse` when the library is loaded; the tone has the effect's kind |
| `Stage4.EndEmojiAnimation` | script.js:421-423 | the inline animation is cleared and nothing else changes |
| `Stage4.Hidden` | script.js:562-563 | after hiding, the indicator has `hidden` and no `visible`, and every other class is kept |
| `Stage4.Scrolled` | script.js:559-565 | the first scroll past 50 px sets the latch and hides the indicator; any other scroll changes nothing |
| `Stage4.Wheeled` | script.js:568-574 | the wheel listener detaches itself; a first wheel while the latch is open sets it and hides the indicator; a latched indicator keeps its classes; a detached listener changes nothing |
| `Stage4.HiddenAtMostOnce` | script.js:558-574 | over any run of scroll and wheel events the indicator is hidden at most once, and once latched its classes never change |
| `Stage4.ScrollIndicator.constructor` | script.js:558 | the latch starts open and the wheel listener attached |
| `Stage4.ScrollIndicator.Show` | script.js:553-555 | the timer adds `visible`, even after a hide |
| `Stage4.ScrollIndicator.OnScroll` | script.js:559-565 | the scroll listener in place, as `Scrolled` |
| `Stage4.ScrollIndicator.OnWheel` | script.js:568-574 | the one-time wheel listener in place, as `Wheeled` |
| `Stage4.SetupScrollIndicator` | script.js:546-550 | listeners exist exactly when both the indicator and the stage-4 container exist |

## Left out

- Particle, confetti and scroll-animation configuration (`initParticles`, `triggerConfetti`, `setupGSAPAnimations`): these are calls into external libraries. The model records only whether a confetti burst is asked for. The stage-3 confetti timer arms nothing the session keeps.
- `setupScrollReveal`: its one-shot behaviour is carried out by the platform's `IntersectionObserver`.
- The Web Audio oscillator and its gain ramp: these are foreign calls with floating-point gains and times. The model keeps only the gate, the frequency and the 100 ms length.
- Paw-print creation and removal, the signature animation, the emoji hover transform, the `touchmove` no-op, the `visibilitychange` pause and resume, the reduced-motion variables and all console output: these are presentation or logging only.
- The stage-4 `scrollTo(0, 0)` and the debug indicator text: these are presentation only.
- Timer ordering: delays are not modelled. Any armed task may fire next, and two identical armed tasks count once, because the armed tasks form a set.
- `Card.GreetingCard.CompleteTask`: does not model the race between timers of the same kind, because two armed copies of a task are one element of the armed set.
- `Stage4.EndEmojiAnimation`: does not model whether an `animationend` listener is still attached, because the browser decides when an animation ends.
- Listener attachment for flowers, photo cards and emojis (`setupFlowers`, `setupPhotoFlipCards`, `setupInteractiveEmojis`): the model gives each listener as a method on the element. Which elements match the selectors depends on the markup.
- `Machine.RunKeepsInv`: holds partly because the armed timers form a set. The happy handler has no guard (script.js:198-209), so two clicks within 300 ms arm two requests for stage 3. In the page both fire: a request and an activation for stage 3 are then pending together, the second activation runs after stage 3 is current, and `initStage3` (and later `initStage4`) runs twice. Every photo-card listener is then attached twice, so each click toggles `data-flipped` twice and the card never stays flipped. The model merges the two copies, so it does not show this.
- `Card.GreetingCard.InitStage4`: sets up only the scroll indicator. It does not arm the indicator's 1500 ms `visible` timer (`Stage4.ScrollIndicator.Show` models its body) or the signature timers. The `scrollTo`, the scroll reveal, the GSAP setup and the listener attachment for emojis, photo cards and flowers are left out for the reasons given on the lines above.
- Numbers: JavaScript numbers are IEEE doubles, and the model uses exact reals for the layout sizes, the `Math.random()` draws and `scrollTop` (`Dodge.Geometry`, `Dodge.Scale`, `Dodge.Placement`, `Stage4.Scrolled`). Rounding can break `left + buttonWidth + 40 <= containerWidth` by one unit in the last place, which the model does not show. The rendering of the position as a `${x}px` style string is also not modelled.
