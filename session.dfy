/**
 * The practice-session screen (app/session.tsx): the configuration steppers
 * and start gate, the running session's pose/rest state machine, the clock
 * and date renderings, and the record saved when a session is finished.
 */
module Session {
  import opened Storage
  import opened Decimal
  import opened Firebase
  import opened Poses

  // ---------------------------------------------------------------------
  // Configuration

  datatype Mode = Rounds | Minutes

  datatype Config = Config(mode: Mode, rounds: int, minutes: int, holdSeconds: int, restSeconds: int)

  datatype Bounds = Bounds(min: int, max: int)

  const RoundsBounds := Bounds(1, 12)
  const MinutesBounds := Bounds(5, 60)
  const HoldBounds := Bounds(5, 60)
  const RestBounds := Bounds(2, 20)

  /** The configuration screen's initial state: rounds mode, 3 rounds, 10 minutes, 15 s hold, 5 s rest. */
  const DefaultConfig := Config(Rounds, 3, 10, 15, 5)

  predicate Within(value: int, b: Bounds) {
    b.min <= value <= b.max
  }

  /** Every value within its stepper's bounds. */
  predicate ValidConfig(c: Config) {
    Within(c.rounds, RoundsBounds) && Within(c.minutes, MinutesBounds)
    && Within(c.holdSeconds, HoldBounds) && Within(c.restSeconds, RestBounds)
  }

  datatype Press = Decrement | Increment

  /** One press on a `Stepper` button: `-` acts only above `min`, `+` only below `max`. */
  function StepperPress(value: int, b: Bounds, press: Press): (r: int)
    ensures value - 1 <= r <= value + 1
    ensures Within(value, b) ==> Within(r, b)
  {
    match press
    case Decrement => if value > b.min then value - 1 else value
    case Increment => if value < b.max then value + 1 else value
  }

  /**
   * A press moves the value by one in its direction exactly when that stays
   * within the bounds, and otherwise leaves it as it is.
   */
  lemma StepperPressBounded(value: int, b: Bounds, press: Press)
    requires Within(value, b)
    ensures Within(StepperPress(value, b, press), b)
    ensures StepperPress(value, b, press) != value <==>
      (press == Decrement && value > b.min) || (press == Increment && value < b.max)
    ensures StepperPress(value, b, press) != value ==>
      StepperPress(value, b, press) == if press == Decrement then value - 1 else value + 1
  {
  }

  /**
   * What the user can do on the configuration screen. The one count stepper
   * shown is the rounds stepper in rounds mode and the minutes stepper in
   * minutes mode.
   */
  datatype ConfigAction = ChooseMode(mode: Mode) | PressCount(press: Press) | PressHold(press: Press) | PressRest(press: Press)

  function ApplyConfigAction(c: Config, a: ConfigAction): Config {
    match a
    case ChooseMode(m) => c.(mode := m)
    case PressCount(p) =>
      if c.mode == Rounds then c.(rounds := StepperPress(c.rounds, RoundsBounds, p))
      else c.(minutes := StepperPress(c.minutes, MinutesBounds, p))
    case PressHold(p) => c.(holdSeconds := StepperPress(c.holdSeconds, HoldBounds, p))
    case PressRest(p) => c.(restSeconds := StepperPress(c.restSeconds, RestBounds, p))
  }

  function ConfigAfter(c: Config, actions: seq<ConfigAction>): Config
    decreases |actions|
  {
    if actions == [] then c else ConfigAfter(ApplyConfigAction(c, actions[0]), actions[1..])
  }

  /** The defaults lie within the bounds, and no sequence of presses leaves them. */
  lemma {:induction false} ConfigStaysValid(actions: seq<ConfigAction>, c: Config)
    requires ValidConfig(c)
    ensures ValidConfig(DefaultConfig)
    ensures ValidConfig(ConfigAfter(c, actions))
    decreases |actions|
  {
    if actions != [] {
      var a := actions[0];
      match a {
        case ChooseMode(_) =>
        case PressCount(p) => StepperPressBounded(c.rounds, RoundsBounds, p); StepperPressBounded(c.minutes, MinutesBounds, p);
        case PressHold(p) => StepperPressBounded(c.holdSeconds, HoldBounds, p);
        case PressRest(p) => StepperPressBounded(c.restSeconds, RestBounds, p);
      }
      ConfigStaysValid(actions[1..], ApplyConfigAction(c, a));
    }
  }

  /**
   * `handleStartPress`: without the downloaded audio it only shows an alert;
   * with it, it starts the session with the configuration as it stands.
   */
  function HandleStartPress(audioAvailable: bool, c: Config): (started: Option<Config>)
    ensures started.Some? <==> audioAvailable
    ensures started.Some? ==> started.value == c
  {
    if !audioAvailable then None else Some(c)
  }

  // ---------------------------------------------------------------------
  // The running session (ActiveView)

  datatype Phase = Active | Rest

  /** The arguments `onComplete` is called with: rounds done and seconds elapsed. */
  datatype Completion = Completion(rounds: int, elapsed: int)

  /**
   * The state of a running session. `completion` records the call to
   * `onComplete`, after which the screen replaces this view.
   */
  datatype View = View(phase: Phase, step: int, round: int, timeRemaining: int, elapsed: int,
                       paused: bool, completion: Option<Completion>)

  function InitialView(c: Config): View {
    View(Active, 0, 1, c.holdSeconds, 0, false, None)
  }

  /** `moveToNextPose`: on to the rest before the next pose, or, after the twelfth pose, finish or start a new round. */
  function NextPoseState(c: Config, v: View): (w: View)
    ensures w.elapsed == v.elapsed && w.paused == v.paused
    ensures w.completion != v.completion ==> v.step + 1 >= PoseCount
    ensures (w.phase == Rest && w.timeRemaining == c.restSeconds && w.completion == v.completion)
      || w.completion == Some(Completion(v.round, v.elapsed))
    ensures w.round == v.round || (w.round == v.round + 1 && w.step == 0)
  {
    var nextStep := v.step + 1;
    if nextStep >= PoseCount then
      if c.mode == Rounds && v.round >= c.rounds then
        v.(phase := Active, completion := Some(Completion(v.round, v.elapsed)))
      else if c.mode == Minutes && v.elapsed >= c.minutes * 60 then
        v.(completion := Some(Completion(v.round, v.elapsed)))
      else
        v.(round := v.round + 1, step := 0, phase := Rest, timeRemaining := c.restSeconds)
    else
      v.(step := nextStep, phase := Rest, timeRemaining := c.restSeconds)
  }

  /** `handleRestComplete`: back to the (same) pose with a full hold time. */
  function RestCompleteState(c: Config, v: View): (w: View)
    ensures w.step == v.step && w.round == v.round && w.elapsed == v.elapsed && w.completion == v.completion
    ensures w.phase == Active && w.timeRemaining == c.holdSeconds
  {
    v.(phase := Active, timeRemaining := c.holdSeconds)
  }

  /** `goNext`: end the rest early, or leave the pose early. */
  function GoNextState(c: Config, v: View): (w: View)
    ensures v.phase == Rest ==> w.step == v.step && w.round == v.round && w.phase == Active
    ensures w.elapsed == v.elapsed && w.paused == v.paused
  {
    if v.phase == Rest then RestCompleteState(c, v) else NextPoseState(c, v)
  }

  /** `goPrev`: one pose back with a full hold time; nothing at the first pose. */
  function GoPrevState(c: Config, v: View): (w: View)
    ensures w.round == v.round && w.elapsed == v.elapsed && w.completion == v.completion
    ensures w.step == if v.step > 0 then v.step - 1 else v.step
  {
    if v.step > 0 then v.(step := v.step - 1, phase := Active, timeRemaining := c.holdSeconds) else v
  }

  /**
   * One second of the interval. Paused, the interval is cleared and nothing
   * happens. Running, the countdown drops by one, or at 1 or below the
   * pending transition fires (seeing the elapsed time from before this
   * tick), and the elapsed time grows by one.
   */
  function TickState(c: Config, v: View): (w: View)
    ensures v.paused ==> w == v
    ensures !v.paused ==> w.elapsed == v.elapsed + 1 && !w.paused
  {
    if v.paused then v
    else
      var moved :=
        if v.timeRemaining <= 1 then
          if v.phase == Active then NextPoseState(c, v) else RestCompleteState(c, v)
        else v.(timeRemaining := v.timeRemaining - 1);
      moved.(elapsed := v.elapsed + 1)
  }

  datatype Event = Tick | SkipForward | SkipBack | PausePressed

  function Step(c: Config, v: View, e: Event): View {
    match e
    case Tick => TickState(c, v)
    case SkipForward => GoNextState(c, v)
    case SkipBack => GoPrevState(c, v)
    case PausePressed => v.(paused := !v.paused)
  }

  /** The view after a sequence of events; once `onComplete` has been called the view is gone and events stop. */
  function Run(c: Config, v: View, events: seq<Event>): View
    decreases |events|
  {
    if events == [] || v.completion.Some? then v else Run(c, Step(c, v, events[0]), events[1..])
  }

  /**
   * The invariant of a running session: the step indexes the pose table,
   * rounds count from 1 and in rounds mode never pass the configured
   * number, the countdown is positive, and a completion happens at the
   * twelfth pose with exactly the configured rounds (rounds mode) or with at
   * least the configured minutes elapsed (minutes mode).
   */
  ghost predicate Inv(c: Config, v: View) {
    && 0 <= v.step < PoseCount
    && 1 <= v.round
    && (c.mode == Rounds ==> v.round <= c.rounds)
    && 1 <= v.timeRemaining
    && 0 <= v.elapsed
    && (v.completion.Some? ==>
          && v.step == PoseCount - 1
          && v.completion.value.rounds == v.round
          && 0 <= v.completion.value.elapsed <= v.elapsed
          && (c.mode == Rounds ==> v.completion.value.rounds == c.rounds)
          && (c.mode == Minutes ==> v.completion.value.elapsed >= c.minutes * 60))
  }

  /** `completedSteps`: the poses before the current one; in rounds mode always short of `rounds * 12`. */
  function CompletedSteps(c: Config, v: View): (done: int)
    requires Inv(c, v)
    ensures 0 <= done
    ensures c.mode == Rounds ==> done < c.rounds * PoseCount
    ensures done % PoseCount == v.step
  {
    (v.round - 1) * PoseCount + v.step
  }

  lemma StepKeepsInv(c: Config, v: View, e: Event)
    requires ValidConfig(c) && Inv(c, v) && v.completion.None?
    ensures Inv(c, Step(c, v, e))
  {
  }

  /** Every run from the initial view keeps the invariant. */
  lemma {:induction false} RunKeepsInv(c: Config, v: View, events: seq<Event>)
    requires ValidConfig(c) && Inv(c, v)
    ensures Inv(c, InitialView(c))
    ensures Inv(c, Run(c, v, events))
    decreases |events|
  {
    if events != [] && v.completion.None? {
      StepKeepsInv(c, v, events[0]);
      RunKeepsInv(c, Step(c, v, events[0]), events[1..]);
    }
  }

  /**
   * `onComplete` is called exactly when the twelfth pose ends (by the
   * countdown or by skipping forward) and, in rounds mode, the last round
   * is being done, or, in minutes mode, the configured minutes have
   * elapsed; it reports the current round and the elapsed seconds.
   */
  lemma CompletionExactly(c: Config, v: View, e: Event)
    requires ValidConfig(c) && Inv(c, v) && v.completion.None?
    ensures var endsPose := v.phase == Active && !v.paused && v.step == PoseCount - 1
              && (e == SkipForward || (e == Tick && v.timeRemaining <= 1));
      var endsPoseSkipping := v.phase == Active && v.step == PoseCount - 1 && e == SkipForward;
      Step(c, v, e).completion.Some? <==>
        (endsPose || endsPoseSkipping)
        && (c.mode == Rounds ==> v.round == c.rounds)
        && (c.mode == Minutes ==> v.elapsed >= c.minutes * 60)
    ensures Step(c, v, e).completion.Some? ==> Step(c, v, e).completion.value == Completion(v.round, v.elapsed)
  {
  }

  /**
   * A pose ending is always followed by a rest of `restSeconds`, after which
   * the same step is shown again for `holdSeconds` (unless the session ended).
   */
  lemma PoseThenRest(c: Config, v: View)
    requires ValidConfig(c) && Inv(c, v) && v.completion.None? && v.phase == Active
    ensures var w := NextPoseState(c, v);
      w.completion.None? ==>
        && w.phase == Rest && w.timeRemaining == c.restSeconds
        && w.step == (v.step + 1) % PoseCount
        && (var u := RestCompleteState(c, w); u.phase == Active && u.step == (v.step + 1) % PoseCount && u.timeRemaining == c.holdSeconds)
        && w.round == if v.step == PoseCount - 1 then v.round + 1 else v.round
  {
  }

  /** `goPrev` goes back one pose to a full hold, leaving the round; at the first pose it does nothing. */
  lemma GoPrevBack(c: Config, v: View)
    requires Inv(c, v)
    ensures GoPrevState(c, v).step == if v.step > 0 then v.step - 1 else 0
    ensures v.step > 0 ==> GoPrevState(c, v).phase == Active && GoPrevState(c, v).timeRemaining == c.holdSeconds
    ensures v.step == 0 ==> GoPrevState(c, v) == v
    ensures GoPrevState(c, v).round == v.round && 0 <= GoPrevState(c, v).step < PoseCount
  {
  }

  function Ticks(n: nat): (r: seq<Event>)
    ensures |r| == n && forall i :: 0 <= i < n ==> r[i] == Tick
  {
    seq(n, _ => Tick)
  }

  /**
   * While running and above 1, the countdown drops by one per second and the
   * elapsed time grows by one per second, with no transition.
   */
  lemma {:induction false} TicksCountDown(c: Config, v: View, n: nat)
    requires !v.paused && v.completion.None? && n < v.timeRemaining
    ensures Run(c, v, Ticks(n)) == v.(timeRemaining := v.timeRemaining - n, elapsed := v.elapsed + n)
    decreases n
  {
    if n > 0 {
      var w := Step(c, v, Tick);
      assert w == v.(timeRemaining := v.timeRemaining - 1, elapsed := v.elapsed + 1);
      assert Ticks(n)[1..] == Ticks(n - 1);
      TicksCountDown(c, w, n - 1);
    }
  }

  /**
   * A pose shown with a full countdown of `holdSeconds` ends on exactly the
   * `holdSeconds`-th second: the transition sees the elapsed time of the
   * second before.
   */
  lemma PoseLastsHoldSeconds(c: Config, v: View)
    requires ValidConfig(c) && !v.paused && v.completion.None? && v.phase == Active
    requires v.timeRemaining == c.holdSeconds
    ensures var h := c.holdSeconds;
      Run(c, v, Ticks(h)) == NextPoseState(c, v.(timeRemaining := 1, elapsed := v.elapsed + h - 1)).(elapsed := v.elapsed + h)
  {
    var h := c.holdSeconds;
    TicksCountDown(c, v, h - 1);
    var w := v.(timeRemaining := 1, elapsed := v.elapsed + h - 1);
    assert Ticks(h) == Ticks(h - 1) + [Tick];
    RunAppend(c, v, Ticks(h - 1), [Tick]);
    assert Run(c, w, [Tick]) == Step(c, w, Tick);
  }

  /**
   * A rest with a full countdown ends on exactly its `restSeconds`-th
   * second, back at the same step with a full hold time.
   */
  lemma RestLastsRestSeconds(c: Config, v: View)
    requires ValidConfig(c) && !v.paused && v.completion.None? && v.phase == Rest
    requires v.timeRemaining == c.restSeconds
    ensures var n := c.restSeconds;
      Run(c, v, Ticks(n)) == RestCompleteState(c, v).(elapsed := v.elapsed + n)
  {
    var n := c.restSeconds;
    TicksCountDown(c, v, n - 1);
    var w := v.(timeRemaining := 1, elapsed := v.elapsed + n - 1);
    assert Ticks(n) == Ticks(n - 1) + [Tick];
    RunAppend(c, v, Ticks(n - 1), [Tick]);
    assert Run(c, w, [Tick]) == Step(c, w, Tick);
  }

  /** Running a concatenation runs the two parts one after the other. */
  lemma {:induction false} RunAppend(c: Config, v: View, a: seq<Event>, b: seq<Event>)
    ensures Run(c, v, a + b) == Run(c, Run(c, v, a), b)
    decreases |a|
  {
    if a != [] && v.completion.None? {
      assert (a + b)[0] == a[0] && (a + b)[1..] == a[1..] + b;
      RunAppend(c, Step(c, v, a[0]), a[1..], b);
    } else if a == [] {
      assert a + b == b;
    } else {
      assert (a + b) != [];
    }
  }

  /** Two runs that meet in the middle make one run. */
  lemma RunThrough(c: Config, v: View, a: seq<Event>, b: seq<Event>, mid: View, end: View)
    requires Run(c, v, a) == mid && Run(c, mid, b) == end
    ensures Run(c, v, a + b) == end
  {
    RunAppend(c, v, a, b);
  }

  function Skips(n: nat): (r: seq<Event>)
    ensures |r| == n && forall i :: 0 <= i < n ==> r[i] == SkipForward
  {
    seq(n, _ => SkipForward)
  }

  lemma SkipsSplit(m: nat, n: nat)
    ensures Skips(m + n) == Skips(m) + Skips(n)
  {
  }

  /** A pose being shown at step `k` of round `r`, with a full countdown and nothing elapsed. */
  function AtPose(c: Config, k: int, r: int): View {
    View(Active, k, r, c.holdSeconds, 0, false, None)
  }

  /** Skipping forward twice moves from a pose to the next pose of the round. */
  lemma {:induction false} SkipsWithinRound(c: Config, k: int, r: int)
    requires 0 <= k < PoseCount
    ensures Run(c, AtPose(c, k, r), Skips(2 * (PoseCount - 1 - k))) == AtPose(c, PoseCount - 1, r)
    decreases PoseCount - k
  {
    if k < PoseCount - 1 {
      var n := 2 * (PoseCount - 1 - k);
      SkipsSplit(2, n - 2);
      RunAppend(c, AtPose(c, k, r), Skips(2), Skips(n - 2));
      assert Run(c, AtPose(c, k, r), Skips(2)) == AtPose(c, k + 1, r);
      SkipsWithinRound(c, k + 1, r);
    } else {
      assert Skips(0) == [];
    }
  }

  /** In rounds mode, skipping past the twelfth pose of the last round completes the session. */
  lemma SkipOutOfLastRound(c: Config)
    requires c.mode == Rounds
    ensures Run(c, AtPose(c, PoseCount - 1, c.rounds), Skips(1)).completion == Some(Completion(c.rounds, 0))
  {
    var last := AtPose(c, PoseCount - 1, c.rounds);
    assert Skips(1)[1..] == [];
    assert Run(c, last, Skips(1)) == Run(c, Step(c, last, SkipForward), []);
  }

  /** In rounds mode, two skips past the twelfth pose of an earlier round reach the first pose of the next round. */
  lemma SkipIntoNextRound(c: Config, r: int)
    requires c.mode == Rounds && r < c.rounds
    ensures Run(c, AtPose(c, PoseCount - 1, r), Skips(2)) == AtPose(c, 0, r + 1)
  {
    var last := AtPose(c, PoseCount - 1, r);
    var w := Step(c, last, SkipForward);
    assert w == View(Rest, 0, r + 1, c.restSeconds, 0, false, None);
    assert Skips(2)[1..] == Skips(1) && Skips(1)[1..] == [];
    assert Run(c, w, Skips(1)) == Run(c, Step(c, w, SkipForward), []);
  }

  /**
   * In rounds mode, skipping forward from the first pose of round `r`
   * reaches `onComplete` with exactly the configured rounds after
   * 24 * (rounds - r) + 23 presses.
   */
  lemma {:induction false} SkipsToCompletion(c: Config, r: int)
    requires ValidConfig(c) && c.mode == Rounds && 1 <= r <= c.rounds
    ensures Run(c, AtPose(c, 0, r), Skips(24 * (c.rounds - r) + 23)).completion == Some(Completion(c.rounds, 0))
    decreases c.rounds - r
  {
    var v := AtPose(c, 0, r);
    if r == c.rounds {
      SkipsThroughLastRound(c);
    } else {
      var rest := 24 * (c.rounds - r - 1) + 23;
      SkipsSplit(24, rest);
      RunAppend(c, v, Skips(24), Skips(rest));
      SkipsThroughRound(c, r);
      SkipsToCompletion(c, r + 1);
    }
  }

  /** In rounds mode, 23 skips from the first pose of the last round complete the session. */
  lemma SkipsThroughLastRound(c: Config)
    requires c.mode == Rounds
    ensures Run(c, AtPose(c, 0, c.rounds), Skips(23)).completion == Some(Completion(c.rounds, 0))
  {
    var first, last := AtPose(c, 0, c.rounds), AtPose(c, PoseCount - 1, c.rounds);
    SkipsWithinRound(c, 0, c.rounds);
    SkipOutOfLastRound(c);
    SkipsSplit(22, 1);
    RunThrough(c, first, Skips(22), Skips(1), last, Run(c, last, Skips(1)));
  }

  /** In rounds mode, 24 skips from the first pose of an earlier round reach the first pose of the next round. */
  lemma SkipsThroughRound(c: Config, r: int)
    requires c.mode == Rounds && r < c.rounds
    ensures Run(c, AtPose(c, 0, r), Skips(24)) == AtPose(c, 0, r + 1)
  {
    var first, last := AtPose(c, 0, r), AtPose(c, PoseCount - 1, r);
    SkipsWithinRound(c, 0, r);
    SkipIntoNextRound(c, r);
    SkipsSplit(22, 2);
    RunThrough(c, first, Skips(22), Skips(2), last, AtPose(c, 0, r + 1));
  }

  /** A rounds-mode session skipped through from the start completes with its rounds after 24 * rounds - 1 presses. */
  lemma SkippedSessionCompletes(c: Config)
    requires ValidConfig(c) && c.mode == Rounds
    ensures Run(c, InitialView(c), Skips(24 * c.rounds - 1)).completion == Some(Completion(c.rounds, 0))
  {
    SkipsToCompletion(c, 1);
    assert InitialView(c) == AtPose(c, 0, 1);
  }

  /** The running session's view, its fields updated by the handlers as React state. */
  class ActiveView {
    const config: Config
    var phase: Phase
    var currentStep: int
    var currentRound: int
    var timeRemaining: int
    var totalElapsed: int
    var isPaused: bool
    var completion: Option<Completion>

    function State(): View
      reads this
    {
      View(phase, currentStep, currentRound, timeRemaining, totalElapsed, isPaused, completion)
    }

    ghost predicate Valid()
      reads this
    {
      ValidConfig(config) && Inv(config, State())
    }

    constructor (config: Config)
      requires ValidConfig(config)
      ensures this.config == config && State() == InitialView(config) && Valid()
    {
      this.config := config;
      phase, currentStep, currentRound := Active, 0, 1;
      timeRemaining, totalElapsed := config.holdSeconds, 0;
      isPaused, completion := false, None;
    }

    /** `SURYA_NAMASKAR_POSES[currentStep]`: always defined, with an image. */
    function CurrentPose(): (pose: PoseData)
      reads this
      requires Valid()
      ensures pose.step == currentStep + 1 && GetPoseImage(pose.imageIndex).Some?
    {
      PoseTableWellFormed();
      SuryaNamaskarPoses[currentStep]
    }

    method MoveToNextPose()
      requires Valid() && completion.None?
      modifies this
      ensures State() == NextPoseState(config, old(State())) && Valid()
    {
      var nextStep := currentStep + 1;
      if nextStep >= PoseCount {
        if config.mode == Rounds && currentRound >= config.rounds {
          phase := Active;
          completion := Some(Completion(currentRound, totalElapsed));
          return;
        }
        if config.mode == Minutes && totalElapsed >= config.minutes * 60 {
          completion := Some(Completion(currentRound, totalElapsed));
          return;
        }
        currentRound := currentRound + 1;
        currentStep := 0;
        phase := Rest;
        timeRemaining := config.restSeconds;
      } else {
        currentStep := nextStep;
        phase := Rest;
        timeRemaining := config.restSeconds;
      }
    }

    method HandleRestComplete()
      requires Valid() && completion.None?
      modifies this
      ensures State() == RestCompleteState(config, old(State())) && Valid()
    {
      phase := Active;
      timeRemaining := config.holdSeconds;
    }

    method GoNext()
      requires Valid() && completion.None?
      modifies this
      ensures State() == GoNextState(config, old(State())) && Valid()
    {
      if phase == Rest {
        HandleRestComplete();
      } else {
        MoveToNextPose();
      }
    }

    method GoPrev()
      requires Valid() && completion.None?
      modifies this
      ensures State() == GoPrevState(config, old(State())) && Valid()
    {
      if currentStep > 0 {
        currentStep := currentStep - 1;
        phase := Active;
        timeRemaining := config.holdSeconds;
      }
    }

    /** One second of wall-clock time; see `TickState`. */
    method Tick()
      requires Valid() && completion.None?
      modifies this
      ensures State() == TickState(config, old(State())) && Valid()
    {
      if isPaused {
        return;
      }
      var before := totalElapsed;
      if timeRemaining <= 1 {
        if phase == Active {
          MoveToNextPose();
        } else {
          HandleRestComplete();
        }
      } else {
        timeRemaining := timeRemaining - 1;
      }
      totalElapsed := before + 1;
    }

    method TogglePause()
      requires Valid() && completion.None?
      modifies this
      ensures State() == old(State()).(paused := !old(State()).paused) && Valid()
    {
      isPaused := !isPaused;
    }
  }

  // ---------------------------------------------------------------------
  // Renderings and the saved record

  /** `formatTime(s)`: whole minutes, a colon, and the seconds as two digits. */
  function FormatTime(s: nat): (t: string)
    ensures |t| >= 4 && ':' in t
  {
    Show(s / 60) + ":" + PadStart2(Show(s % 60))
  }

  /** The clock text reads back as the seconds it was made from. */
  lemma FormatTimeRoundTrip(s: nat)
    ensures var t := FormatTime(s);
      && |t| >= 4 && t[|t| - 3] == ':'
      && AllDigits(t[..|t| - 3]) && AllDigits(t[|t| - 2..])
      && DigitsValue(t[|t| - 2..]) < 60
      && DigitsValue(t[..|t| - 3]) * 60 + DigitsValue(t[|t| - 2..]) == s
  {
    var minutes, seconds := ShowNat(s / 60), PadStart2(ShowNat(s % 60));
    TwoDigits(s % 60);
    DigitsValueOfShowNat(s / 60);
    var t := FormatTime(s);
    assert t == minutes + ":" + seconds;
    assert t[..|t| - 3] == minutes;
    assert t[|t| - 2..] == seconds;
  }

  /**
   * `getToday()`: the device's calendar date as `YYYY-MM-DD`, the month
   * counted from 1 and month and day padded to two digits. `monthIndex` is
   * `getMonth()` (0..11) and `day` is `getDate()` (1..31).
   */
  function GetToday(year: int, monthIndex: int, day: int): (key: string)
    requires 0 <= monthIndex < 12 && 1 <= day <= 31
    ensures |key| >= 7
  {
    Show(year) + "-" + PadStart2(Show(monthIndex + 1)) + "-" + PadStart2(Show(day))
  }

  /** The date key reads back as its year, 1-based month and day; four-digit years give ten characters. */
  lemma DateKeyRoundTrip(year: nat, monthIndex: int, day: int)
    requires 0 <= monthIndex < 12 && 1 <= day <= 31
    ensures var key := GetToday(year, monthIndex, day);
      && |key| >= 7 && key[|key| - 6] == '-' && key[|key| - 3] == '-'
      && AllDigits(key[..|key| - 6]) && DigitsValue(key[..|key| - 6]) == year
      && AllDigits(key[|key| - 5..|key| - 3]) && DigitsValue(key[|key| - 5..|key| - 3]) == monthIndex + 1
      && AllDigits(key[|key| - 2..]) && DigitsValue(key[|key| - 2..]) == day
      && (1000 <= year <= 9999 ==> |key| == 10)
    ensures ReadKey(GetToday(year, monthIndex, day)) == (year, monthIndex + 1, day)
  {
    var y, m, d := ShowNat(year), PadStart2(ShowNat(monthIndex + 1)), PadStart2(ShowNat(day));
    TwoDigits(monthIndex + 1);
    TwoDigits(day);
    DigitsValueOfShowNat(year);
    assert GetToday(year, monthIndex, day) == y + "-" + m + "-" + d;
    KeyFields(y, m, d);
    if 1000 <= year <= 9999 {
      FourDigits(year);
    }
  }

  /** A key joined from a year and two two-character fields splits back into them. */
  lemma KeyFields(y: string, m: string, d: string)
    requires |m| == 2 && |d| == 2
    ensures var key := y + "-" + m + "-" + d;
      && |key| == |y| + 6 && key[|key| - 6] == '-' && key[|key| - 3] == '-'
      && key[..|key| - 6] == y && key[|key| - 5..|key| - 3] == m && key[|key| - 2..] == d
  {
  }

  lemma FourDigits(n: nat)
    requires 1000 <= n <= 9999
    ensures |ShowNat(n)| == 4
  {
    assert ShowNat(n) == ShowNat(n / 10) + [DigitChar(n % 10)];
    assert ShowNat(n / 10) == ShowNat(n / 100) + [DigitChar(n / 10 % 10)];
    assert ShowNat(n / 100) == ShowNat(n / 1000) + [DigitChar(n / 100 % 10)];
  }

  /** The year, month and day a key spells, its last two fields two digits each. */
  function ReadKey(key: string): (int, int, int) {
    if |key| < 6 then (0, 0, 0)
    else (DigitsOrZero(key[..|key| - 6]), DigitsOrZero(key[|key| - 5..|key| - 3]), DigitsOrZero(key[|key| - 2..]))
  }

  function DigitsOrZero(s: string): nat {
    if AllDigits(s) then DigitsValue(s) else 0
  }

  /** Different days of the common era never share a key. */
  lemma DateKeysDistinct(y1: nat, m1: int, d1: int, y2: nat, m2: int, d2: int)
    requires 0 <= m1 < 12 && 1 <= d1 <= 31 && 0 <= m2 < 12 && 1 <= d2 <= 31
    requires GetToday(y1, m1, d1) == GetToday(y2, m2, d2)
    ensures y1 == y2 && m1 == m2 && d1 == d2
  {
    DateKeyRoundTrip(y1, m1, d1);
    DateKeyRoundTrip(y2, m2, d2);
    assert ReadKey(GetToday(y1, m1, d1)) == ReadKey(GetToday(y2, m2, d2));
  }

  /** `Math.ceil(elapsed / 60)`. */
  function CeilMinutes(elapsed: int): (minutes: int)
    ensures (minutes - 1) * 60 < elapsed <= minutes * 60
  {
    -((-elapsed) / 60)
  }

  /** The record `handleSave` writes for a finished session. */
  function SessionRecord(c: Completion): (r: SessionData)
    ensures r.completed && r.roundsDone == c.rounds && r.sessionType == "Surya Namaskar"
    ensures (r.durationMinutes - 1) * 60 < c.elapsed <= r.durationMinutes * 60
    ensures c.elapsed >= 0 ==> r.durationMinutes >= 0
  {
    SessionData(true, CeilMinutes(c.elapsed), c.rounds, "Surya Namaskar")
  }

  /** The screen around the session: configuring, practising, or finished with the data to save. */
  datatype ScreenPhase = Configuring | Practising | Finished

  class SessionScreen {
    var phase: ScreenPhase
    var sessionConfig: Option<Config>
    var completionData: Option<Completion>

    constructor ()
      ensures phase == Configuring && sessionConfig == None && completionData == None
    {
      phase, sessionConfig, completionData := Configuring, None, None;
    }

    /** `handleStart(config)`. */
    method HandleStart(c: Config)
      modifies this
      ensures phase == Practising && sessionConfig == Some(c) && completionData == old(completionData)
    {
      sessionConfig := Some(c);
      phase := Practising;
    }

    /** `handleComplete(rounds, elapsed)`: the `onComplete` of the running view. */
    method HandleComplete(c: Completion)
      modifies this
      ensures phase == Finished && completionData == Some(c) && sessionConfig == old(sessionConfig)
    {
      completionData := Some(c);
      phase := Finished;
    }

    /**
     * `handleSave`: with a signed-in user and a finished session, write the
     * record under today's date straight to the remote database; a failed
     * write is logged and swallowed. The device store is not written.
     */
    method HandleSave(remote: RemoteDatabase, user: Option<string>, year: int, monthIndex: int, day: int, saveFails: bool)
      requires 0 <= monthIndex < 12 && 1 <= day <= 31
      modifies remote
      ensures user.Some? && completionData.Some? && !saveFails ==>
        remote.tree == Set(old(remote.tree), SessionAt(user.value, GetToday(year, monthIndex, day)),
                           SessionNode(SessionRecord(completionData.value)))
      ensures !(user.Some? && completionData.Some? && !saveFails) ==> remote.tree == old(remote.tree)
    {
      if user.Some? && completionData.Some? {
        if !saveFails {
          remote.SaveSession(user.value, GetToday(year, monthIndex, day), SessionRecord(completionData.value));
        }
      }
    }
  }
}
