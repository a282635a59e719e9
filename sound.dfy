/** The audio cue generator and its toggle: which tone `playSound` would synthesise, if any. */
module Sound {
  import opened Wrappers

  /** A short synthesised tone: its oscillator frequency and its length. */
  datatype Tone = Tone(hz: nat, durationMs: nat)

  /** Every tone stops 0.1 s after it starts. */
  const ToneMs: nat := 100

  /** The frequency default, used for every kind the `switch` does not name. */
  const DefaultHz: nat := 440

  /**
   * The frequency chosen for a sound kind. `None` stands for the `null` that an emoji
   * without a `data-effect` attribute passes along.
   */
  function Frequency(kind: Option<string>): (hz: nat)
    ensures kind == Some("dodge") ==> hz == 300
    ensures kind == Some("success") ==> hz == 600
    ensures kind == Some("bloom") ==> hz == 500
    ensures kind !in {Some("dodge"), Some("success"), Some("bloom")} ==> hz == DefaultHz
  {
    if kind == Some("dodge") then 300
    else if kind == Some("success") then 600
    else if kind == Some("bloom") then 500
    else DefaultHz
  }

  /** Only the three named kinds get a frequency of their own, and they get different ones. */
  lemma NamedKindsAreTellable(a: Option<string>, b: Option<string>)
    requires Frequency(a) == Frequency(b) != DefaultHz
    ensures a == b
  {
  }

  /**
   * `playSound(kind)`: nothing unless audio is enabled and the platform has an audio
   * context; otherwise one tone at the frequency of `kind`.
   */
  function Play(enabled: bool, available: bool, kind: Option<string>): (r: Option<Tone>)
    ensures r.Some? <==> enabled && available
    ensures r.Some? ==> r.value.hz == Frequency(kind) && r.value.durationMs == ToneMs
  {
    if enabled && available then Some(Tone(Frequency(kind), ToneMs)) else None
  }

  /**
   * The audio state of the page: the global `audioEnabled`, whether the platform offers an
   * audio context, whether the `audioToggle` element exists (so that its click listener is
   * attached) and whether that element carries the `muted` class.
   */
  datatype Audio = Audio(enabled: bool, available: bool, toggleWired: bool, muted: bool)

  /** The toggle's click: negate the flag, then set `muted` to the new `!audioEnabled`. */
  function Toggled(a: Audio): (r: Audio)
    ensures r.enabled == !a.enabled && r.muted == !r.enabled
    ensures r.available == a.available && r.toggleWired == a.toggleWired
  {
    a.(enabled := !a.enabled, muted := a.enabled)
  }

  function Toggles(a: Audio, n: nat): Audio
  {
    if n == 0 then a else Toggled(Toggles(a, n - 1))
  }

  /**
   * After `n` clicks on the toggle the flag is flipped exactly when `n` is odd, so two
   * clicks restore it; after any click the `muted` class is the flag's negation.
   */
  lemma {:induction false} ToggleParity(a: Audio, n: nat)
    ensures Toggles(a, n).enabled == (a.enabled != (n % 2 == 1))
    ensures n >= 1 ==> Toggles(a, n).muted == !Toggles(a, n).enabled
    ensures Toggles(a, n).available == a.available
  {
    if n > 0 { ToggleParity(a, n - 1); }
  }
}
