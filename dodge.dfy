/**
 * The stage-2 dodge interaction: the attempt budget, the status texts, where the button is
 * moved to, and the handler itself with the timers it arms.
 */
module Dodge {
  import opened Wrappers
  import Sound

  /** `maxDodges`: the number of attempts that move the button before it gives up. */
  const MaxDodges: nat := 5

  /** The status text once the budget is spent. */
  const TerminalStatus: string := "Okay, okay... maybe you ARE happy! 😄"

  const StatusPrefix: string := "Nice try! "

  predicate IsDigit(c: char) { '0' <= c <= '9' }

  predicate AllDigits(s: string) { forall i :: 0 <= i < |s| ==> IsDigit(s[i]) }

  function DigitChar(d: nat): (c: char)
    requires d < 10
    ensures IsDigit(c) && c as int - '0' as int == d
  {
    ('0' as int + d) as char
  }

  /** How a template literal renders a non-negative integer: decimal, no leading zero. */
  function Decimal(n: nat): (r: string)
    ensures 1 <= |r| && AllDigits(r)
    ensures n >= 10 ==> r[0] != '0'
  {
    if n < 10 then [DigitChar(n)] else Decimal(n / 10) + [DigitChar(n % 10)]
  }

  /** Reads a string of decimal digits back as a number. */
  function DecimalValue(s: string): nat
    requires AllDigits(s)
  {
    if s == [] then 0 else DecimalValue(s[..|s| - 1]) * 10 + (s[|s| - 1] as int - '0' as int)
  }

  /** Rendering loses nothing: the digits read back as the number. */
  lemma {:induction false} DecimalRoundTrip(n: nat)
    ensures DecimalValue(Decimal(n)) == n
  {
    if n >= 10 {
      var r := Decimal(n);
      assert r[..|r| - 1] == Decimal(n / 10);
      DecimalRoundTrip(n / 10);
    }
  }

  /** The status text after a moving attempt: `Nice try! {dodgeCount}/{maxDodges}`. */
  function NiceTry(count: nat): (r: string)
    ensures |r| >= |StatusPrefix| + 3
    ensures r[..|StatusPrefix|] == StatusPrefix && r[|r| - 2..] == "/5"
    ensures r != TerminalStatus
  {
    StatusPrefix + Decimal(count) + "/" + Decimal(MaxDodges)
  }

  /** Different counts give different status texts, so the text tells the count. */
  lemma NiceTryInjective(j: nat, k: nat)
    requires NiceTry(j) == NiceTry(k)
    ensures j == k
  {
    var s, t := NiceTry(j), NiceTry(k);
    assert |Decimal(j)| == |s| - 12 == |Decimal(k)|;
    assert Decimal(j) == s[10..|s| - 2] == t[10..|t| - 2] == Decimal(k);
    DecimalRoundTrip(j);
    DecimalRoundTrip(k);
  }

  /** The five texts the budget can produce, written out. */
  lemma NiceTryTexts()
    ensures NiceTry(1) == "Nice try! 1/5" && NiceTry(2) == "Nice try! 2/5"
    ensures NiceTry(3) == "Nice try! 3/5" && NiceTry(4) == "Nice try! 4/5"
    ensures NiceTry(5) == "Nice try! 5/5"
  {
  }

  /** Live layout measurements taken at the moment of an attempt. */
  datatype Geometry = Geometry(containerWidth: real, containerHeight: real,
                               buttonWidth: real, buttonHeight: real)

  /** `maxX`: the room the button has across its container. */
  function MaxLeft(g: Geometry): (r: real)
    ensures r >= 0.0 <==> g.buttonWidth + 40.0 <= g.containerWidth
    ensures r < g.containerWidth - g.buttonWidth
  {
    g.containerWidth - g.buttonWidth - 40.0
  }

  /** `maxY`: the room the button has down its container. */
  function MaxTop(g: Geometry): (r: real)
    ensures r >= 0.0 <==> g.buttonHeight + 40.0 <= g.containerHeight
    ensures r < g.containerHeight - g.buttonHeight
  {
    g.containerHeight - g.buttonHeight - 40.0
  }

  /**
   * The new `left` or `top`: a draw `u` of `Math.random()` scaled by the room. When there
   * is room the button lands inside it; when the container is too small the room is
   * negative and so is the position, which puts the button past the container's edge.
   */
  function Scale(u: real, room: real): (p: real)
    requires 0.0 <= u < 1.0
    ensures room >= 0.0 ==> 0.0 <= p <= room
    ensures room < 0.0 ==> room <= p <= 0.0
    ensures u > 0.0 && room < 0.0 ==> p < 0.0
  {
    var p := u * room;
    ScaleBounds(u, room, p);
    p
  }

  lemma ScaleBounds(u: real, room: real, p: real)
    requires 0.0 <= u < 1.0 && p == u * room
    ensures room >= 0.0 ==> 0.0 <= p <= room
    ensures room < 0.0 ==> room <= p <= 0.0
    ensures u > 0.0 && room < 0.0 ==> p < 0.0
  {
    if room >= 0.0 {
      ProductNonNegative(u, room);
      ProductNonNegative(1.0 - u, room);
    } else {
      ProductNonNegative(u, -room);
      ProductNonNegative(1.0 - u, -room);
      assert u * room == -(u * (-room));
      assert (1.0 - u) * (-room) == -room + u * room;
    }
  }

  lemma ProductNonNegative(a: real, b: real)
    requires 0.0 <= a && 0.0 <= b
    ensures 0.0 <= a * b
  {
  }

  /** `moveButtonRandomly`: the position `(left, top)` for draws `u` and `v`. */
  function Placement(g: Geometry, u: real, v: real): (p: (real, real))
    requires 0.0 <= u < 1.0 && 0.0 <= v < 1.0
    ensures MaxLeft(g) >= 0.0 ==> 0.0 <= p.0 && p.0 + g.buttonWidth + 40.0 <= g.containerWidth
    ensures MaxTop(g) >= 0.0 ==> 0.0 <= p.1 && p.1 + g.buttonHeight + 40.0 <= g.containerHeight
    ensures MaxLeft(g) < 0.0 && u > 0.0 ==> p.0 < 0.0
    ensures MaxTop(g) < 0.0 && v > 0.0 ==> p.1 < 0.0
  {
    (Scale(u, MaxLeft(g)), Scale(v, MaxTop(g)))
  }

  /** The flags of the dodging "sad" button and its inline position. */
  datatype SadButton = SadButton(isDodging: bool, dodging: bool, disappear: bool,
                                 hidden: bool, left: real, top: real)

  /** A timer the handler arms. */
  datatype Timer =
    | EndShake       // removes the `dodging` shake class after 300 ms
    | HideSadButton  // sets `display: none` on the sad button after 600 ms

  /**
   * What the interaction changes: the global `dodgeCount`, the status display's text, the
   * sad button and the timers armed and not yet fired.
   */
  datatype Controller = Controller(count: nat, status: string, sad: SadButton, armed: set<Timer>)

  /** Before any attempt: no dodges, the status text and button as the markup has them. */
  function Fresh(status: string): (c: Controller)
    ensures c.count == 0 && c.armed == {} && !c.sad.hidden
  {
    Controller(0, status, SadButton(false, false, false, false, 0.0, 0.0), {})
  }

  /** `handleSadButtonInteraction`, with the layout and the two random draws as inputs. */
  function Interacted(c: Controller, g: Geometry, u: real, v: real): (r: Controller)
    requires 0.0 <= u < 1.0 && 0.0 <= v < 1.0
    ensures c.count <= MaxDodges ==> r.count <= MaxDodges
    ensures c.count < MaxDodges ==>
      r.count == c.count + 1 && r.status == NiceTry(r.count) && EndShake in r.armed
    ensures c.count >= MaxDodges ==>
      r.count == c.count && r.status == TerminalStatus && r.sad.disappear && HideSadButton in r.armed
    ensures r.sad.isDodging <==> c.sad.isDodging || c.count == 0
    ensures c.count < MaxDodges ==> r.sad.dodging && (r.sad.left, r.sad.top) == Placement(g, u, v)
    ensures c.count >= MaxDodges ==> r.sad.left == c.sad.left && r.sad.top == c.sad.top
    ensures c.count < MaxDodges ==> r.armed == c.armed + {EndShake} && r.sad.disappear == c.sad.disappear
    ensures c.count >= MaxDodges ==> r.armed == c.armed + {HideSadButton} && r.sad.dodging == c.sad.dodging
    ensures r.sad.hidden == c.sad.hidden && c.armed <= r.armed
  {
    var sad := if c.count == 0 then c.sad.(isDodging := true) else c.sad;
    if c.count >= MaxDodges then
      c.(sad := sad.(disappear := true), status := TerminalStatus, armed := c.armed + {HideSadButton})
    else
      var p := Placement(g, u, v);
      c.(count := c.count + 1, status := NiceTry(c.count + 1),
         sad := sad.(dodging := true, left := p.0, top := p.1), armed := c.armed + {EndShake})
  }

  /** The tone an interaction asks for: the dodge tone, only on a moving attempt. */
  function DodgeTone(c: Controller, audio: Sound.Audio): (r: Option<Sound.Tone>)
    ensures r.Some? <==> c.count < MaxDodges && audio.enabled && audio.available
    ensures r.Some? ==> r.value.hz == 300
  {
    if c.count >= MaxDodges then None
    else Sound.Play(audio.enabled, audio.available, Some("dodge"))
  }

  /** An armed timer fires: the shake ends, or the button is hidden. */
  function Fired(c: Controller, t: Timer): (r: Controller)
    ensures r.count == c.count && r.status == c.status && r.armed == c.armed - {t}
    ensures t == HideSadButton ==> r.sad == c.sad.(hidden := true)
    ensures t == EndShake ==> r.sad == c.sad.(dodging := false)
  {
    match t
    case EndShake => c.(sad := c.sad.(dodging := false), armed := c.armed - {t})
    case HideSadButton => c.(sad := c.sad.(hidden := true), armed := c.armed - {t})
  }

  /** One attempt's inputs: the layout measured then and the two random draws. */
  datatype Attempt = Attempt(g: Geometry, u: real, v: real)

  predicate ValidDraws(attempts: seq<Attempt>)
  {
    forall i :: 0 <= i < |attempts| ==> 0.0 <= attempts[i].u < 1.0 && 0.0 <= attempts[i].v < 1.0
  }

  /** A run of attempts, each with its own layout and draws. */
  function Interactions(c: Controller, attempts: seq<Attempt>): Controller
    requires ValidDraws(attempts)
    decreases |attempts|
  {
    if attempts == [] then c
    else
      var a := attempts[|attempts| - 1];
      Interacted(Interactions(c, attempts[..|attempts| - 1]), a.g, a.u, a.v)
  }

  /**
   * From a counter `c` within budget, `n` attempts raise it to at most 5; the status
   * counts the moving attempts; once an attempt finds the counter at 5 the status is
   * the terminal text, `disappear` is set and the hide is armed.
   */
  lemma {:induction false} DodgeRun(c: Controller, attempts: seq<Attempt>)
    requires ValidDraws(attempts)
    requires c.count <= MaxDodges
    ensures var r, n := Interactions(c, attempts), |attempts|;
      && r.count == (if c.count + n <= MaxDodges then c.count + n else MaxDodges)
      && (1 <= n && c.count + n <= MaxDodges ==> r.status == NiceTry(c.count + n))
      && (c.count + n > MaxDodges ==>
            r.status == TerminalStatus && r.sad.disappear && HideSadButton in r.armed)
      && (1 <= n && c.count == 0 ==> r.sad.isDodging)
    decreases |attempts|
  {
    if attempts != [] {
      var prefix := attempts[..|attempts| - 1];
      assert ValidDraws(prefix) by {
        forall i | 0 <= i < |prefix| ensures 0.0 <= prefix[i].u < 1.0 && 0.0 <= prefix[i].v < 1.0 {
          assert prefix[i] == attempts[i];
        }
      }
      DodgeRun(c, prefix);
    }
  }

  /** Once the budget is spent, a further interaction changes nothing, whatever its inputs. */
  lemma TerminalIsIdempotent(c: Controller, g: Geometry, u: real, v: real,
                             g': Geometry, u': real, v': real)
    requires 0.0 <= u < 1.0 && 0.0 <= v < 1.0 && 0.0 <= u' < 1.0 && 0.0 <= v' < 1.0
    requires c.count >= MaxDodges
    ensures Interacted(Interacted(c, g, u, v), g', u', v') == Interacted(c, g, u, v)
  {
  }
}
