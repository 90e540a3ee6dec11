/** The hold-to-help button: a press records the time, a release measures
    how long the button was held and either sends help or asks the user to
    hold longer. Clock readings (`Date.now()`) are parameters in milliseconds. */
module SafetyPage {
  import opened Wrappers
  import opened Effects

  /** A release sends help only when the hold lasted strictly longer than this. */
  const HoldThresholdMs := 2000

  /** The dialog the help action shows. Its failure branch only runs if
      showing an alert throws, which the model does not consider. */
  const HelpSent := Alert("Help message sent!", None)
  const HoldLonger := Alert("Hold the button longer to send help", None)

  /** `pressStart` is `null` until the first press; `isPressed` drives the
      button's pressed style. */
  datatype HoldState = HoldState(pressStart: Option<int>, isPressed: bool)

  const Initial := HoldState(None, false)

  /** Press-in stores the current time and marks the button pressed. */
  function PressIn(s: HoldState, now: int): (r: HoldState)
    ensures r.pressStart == Some(now) && r.isPressed
  {
    HoldState(Some(now), true)
  }

  /** How long the button has been held at `now`: the clock reading minus
      the stored start, where a start never set counts as 0 (JavaScript
      coerces `null` to 0 in a subtraction). */
  function HeldTime(s: HoldState, now: int): int {
    now - s.pressStart.GetOr(0)
  }

  /** Release: always unpresses, keeps the stored start, and shows exactly
      one dialog chosen by the strict threshold; no call, no navigation. */
  function PressOut(s: HoldState, now: int): (r: (HoldState, Reaction))
    ensures !r.0.isPressed && r.0.pressStart == s.pressStart
    ensures r.1.calls == [] && r.1.nav == [] && |r.1.dialogs| == 1
    ensures r.1.dialogs[0] == HelpSent <==> HeldTime(s, now) > HoldThresholdMs
    ensures r.1.dialogs[0] == HoldLonger <==> HeldTime(s, now) <= HoldThresholdMs
  {
    var dialog := if HeldTime(s, now) > HoldThresholdMs then HelpSent else HoldLonger;
    (s.(isPressed := false), Reaction([], [dialog], []))
  }

  /** One press at `pressAt` followed by one release at `releaseAt`. */
  datatype Cycle = Cycle(pressAt: int, releaseAt: int)

  function Duration(c: Cycle): int {
    c.releaseAt - c.pressAt
  }

  /** A press-release cycle from any state: help is sent iff the button was
      held more than 2000 ms, measured from this press alone. */
  lemma CycleDecision(s: HoldState, c: Cycle)
    ensures var r := PressOut(PressIn(s, c.pressAt), c.releaseAt);
      && r.0 == HoldState(Some(c.pressAt), false)
      && (r.1.dialogs == [HelpSent] <==> Duration(c) > HoldThresholdMs)
      && (r.1.dialogs == [HoldLonger] <==> Duration(c) <= HoldThresholdMs)
  {
  }

  /** The boundary is strict: a hold of exactly 2000 ms does not send help,
      and 2001 ms does. */
  lemma ThresholdIsStrict(s: HoldState, t: int)
    ensures PressOut(PressIn(s, t), t + 2000).1.dialogs == [HoldLonger]
    ensures PressOut(PressIn(s, t), t + 2001).1.dialogs == [HelpSent]
  {
  }

  /** Cycles are independent: whatever state a press starts from, the
      release reacts the same way. */
  lemma CyclesIndependent(s1: HoldState, s2: HoldState, c: Cycle)
    ensures PressOut(PressIn(s1, c.pressAt), c.releaseAt) == PressOut(PressIn(s2, c.pressAt), c.releaseAt)
  {
  }

  /** A release before any press measures from time 0, so help is sent as
      soon as the clock reads more than 2000 ms. */
  lemma ReleaseWithoutPress(now: int)
    ensures PressOut(Initial, now).1.dialogs == [HelpSent] <==> now > HoldThresholdMs
    ensures PressOut(Initial, now).0 == Initial
  {
  }

  /** Release does not clear the stored start: a second release without a
      new press measures from the earlier press. */
  lemma SecondReleaseMeasuresFromEarlierPress(s: HoldState, pressAt: int, firstRelease: int, secondRelease: int)
    ensures var first := PressOut(PressIn(s, pressAt), firstRelease);
      var second := PressOut(first.0, secondRelease);
      second.1.dialogs == [HelpSent] <==> secondRelease - pressAt > HoldThresholdMs
  {
  }

  /** Runs press-release cycles in order, collecting the dialogs shown. */
  function Run(s: HoldState, cycles: seq<Cycle>): (HoldState, seq<Dialog>)
    decreases |cycles|
  {
    if cycles == [] then (s, [])
    else
      var (s1, reaction) := PressOut(PressIn(s, cycles[0].pressAt), cycles[0].releaseAt);
      var (s2, rest) := Run(s1, cycles[1..]);
      (s2, reaction.dialogs + rest)
  }

  /** How many of the cycles held the button beyond the threshold. */
  function LongHolds(cycles: seq<Cycle>): nat
  {
    if cycles == [] then 0
    else (if Duration(cycles[0]) > HoldThresholdMs then 1 else 0) + LongHolds(cycles[1..])
  }

  /** Over any run of cycles, one dialog per cycle: exactly one help alert
      per long hold and exactly one advisory per short one. */
  lemma {:induction false} RunSendsOneHelpPerLongHold(s: HoldState, cycles: seq<Cycle>)
    ensures |Run(s, cycles).1| == |cycles|
    ensures multiset(Run(s, cycles).1)[HelpSent] == LongHolds(cycles)
    ensures multiset(Run(s, cycles).1)[HoldLonger] == |cycles| - LongHolds(cycles)
    ensures multiset(Run(s, cycles).1)[HelpSent] + multiset(Run(s, cycles).1)[HoldLonger] == |cycles|
    decreases |cycles|
  {
    if cycles != [] {
      var (s1, reaction) := PressOut(PressIn(s, cycles[0].pressAt), cycles[0].releaseAt);
      CycleDecision(s, cycles[0]);
      RunSendsOneHelpPerLongHold(s1, cycles[1..]);
    }
  }

  /** The two-cycle scenario: holds of 1500 ms and 1000 ms give two
      advisories and no help alert; one 2500 ms hold gives one help alert. */
  lemma ShortAndLongScenarios()
    ensures Run(Initial, [Cycle(0, 1500), Cycle(3000, 4000)]).1 == [HoldLonger, HoldLonger]
    ensures Run(Initial, [Cycle(0, 2500)]).1 == [HelpSent]
  {
  }
}
