/** The fixed table of speed levels (`appStates`) and the pin and value
    constants the controller uses with it. */
module SpeedTable {

  /** Duty-cycle compare values of the four levels; the PWM period register
      TA0CCR0 is loaded with the full-speed value. */
  const NO_SPEED_VALUE: nat := 0
  const LOW_SPEED_VALUE: nat := 4
  const MID_SPEED_VALUE: nat := 7
  const FULL_SPEED_VALUE: nat := 10
  const PWM_PERIOD: nat := FULL_SPEED_VALUE

  /** A pin (bit position) of an 8-bit port register. A register value is
      the set of its bits that are 1, so a mask `BITn` is `{n}`, `x & y` is
      `x * y`, `x | y` is `x + y` and `x & ~y` is `x - y`. */
  type Pin = b: nat | b < 8

  const SPEED_PUSH_BUTTON: Pin := 3  // P1.3
  const ENABLE_PUSH_BUTTON: Pin := 7 // P2.7
  const LOW_SPEED_LED: set<Pin> := {3}   // P2.3
  const MID_SPEED_LED: set<Pin> := {1}   // P2.1
  const FULL_SPEED_LED: set<Pin> := {5}  // P2.5
  const LED_MASK: set<Pin> := LOW_SPEED_LED + MID_SPEED_LED + FULL_SPEED_LED

  const TOTAL_STATES: nat := 4

  /** One speed level: the compare value, the LED bits that show it, and
      whether selecting it turns the fan on. */
  datatype State = State(speed: nat, indicator: set<Pin>, enabled: bool)

  /** The `appStates` table, in cycling order Off, Low, Mid, Full. */
  const APP_STATES: seq<State> := [
    State(NO_SPEED_VALUE, {}, false),
    State(LOW_SPEED_VALUE, LOW_SPEED_LED, true),
    State(MID_SPEED_VALUE, MID_SPEED_LED, true),
    State(FULL_SPEED_VALUE, FULL_SPEED_LED, true)
  ]

  /** The table entry at index `i`. Every entry drives a duty value within
      the PWM period, lights only LED pins, and is "on" exactly when it is
      not the Off entry. */
  function Entry(i: nat): (s: State)
    requires i < TOTAL_STATES
    ensures s.speed <= PWM_PERIOD
    ensures s.indicator <= LED_MASK
    ensures s.enabled <==> i != 0
    ensures s.speed == 0 <==> i == 0
    ensures s.indicator == {} <==> i == 0
  {
    APP_STATES[i]
  }

  /** The index after a speed advance: one more, wrapping from the last
      level back to Off. An index already out of range also goes to Off. */
  function NextIndex(i: nat): (j: nat)
    ensures j < TOTAL_STATES
    ensures i < TOTAL_STATES ==> j == (i + 1) % TOTAL_STATES
  {
    if i < TOTAL_STATES - 1 then i + 1 else 0
  }

  /** The level reached from level `k` after `n` speed advances. */
  function LevelAfter(k: nat, n: nat): (j: nat)
    requires k < TOTAL_STATES
    ensures j < TOTAL_STATES
  {
    if n == 0 then k else NextIndex(LevelAfter(k, n - 1))
  }

  /** From the Off level, `n` advances land on level `n mod 4`. */
  lemma {:induction false} LevelAfterCounts(n: nat)
    ensures LevelAfter(0, n) == n % TOTAL_STATES
  {
    if n > 0 {
      LevelAfterCounts(n - 1);
      assert (n - 1) % 4 < 3 ==> n % 4 == (n - 1) % 4 + 1;
      assert (n - 1) % 4 == 3 ==> n % 4 == 0;
    }
  }

  /** No entry lights more than one LED. */
  lemma EntryLightsAtMostOne(i: nat)
    requires i < TOTAL_STATES
    ensures |Entry(i).indicator| <= 1
  {
  }

  /** Levels 1..3 have strictly increasing speeds and pairwise distinct,
      single-bit indicators; hence at most one LED is ever lit. */
  lemma TableShape(i: nat, j: nat)
    requires i < j < TOTAL_STATES
    ensures Entry(i).speed < Entry(j).speed
    ensures i != 0 ==> Entry(i).indicator !! Entry(j).indicator
    ensures Entry(j).indicator in {LOW_SPEED_LED, MID_SPEED_LED, FULL_SPEED_LED}
  {
  }
}
