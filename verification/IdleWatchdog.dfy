/** The watchdog that cancels a stream after a period without activity, as a timed automaton: a clock, the
    recorded time of the last activity, a channel holding at most one token, a timer, and a goroutine whose
    loads, looks at the clock and resets interleave with the touches and with the passing of time. */
module IdleWatchdog {
  import opened Prelude

  datatype Timer = Off | Armed(at: int) | Fired

  /** Where the goroutine is: waiting in its select, or on its way from a touch or from the timer firing, before
      or after it has loaded the time t of the last activity. Once it has looked at the clock, it is about to set
      the timer to go off after the time it has computed, or to cancel. */
  datatype Pc =
    | Waiting
    | Touched | TouchedAt(t: int)
    | Rang | RangAt(t: int)
    | Resetting(t: int, looked: int, wait: int) | Cancelling(t: int, looked: int)
    | Done

  /** sending counts touches that have recorded their time and not yet offered their token. */
  datatype State = State(
    idle: int, now: int, last: int, sending: nat, token: bool, timer: Timer, pc: Pc, cancelled: Option<int>)

  datatype Step =
    | Tick(d: nat)
    | Ring
    | Record(at: int)
    | Offer
    | TakeTouch
    | LoadTouch
    | LookTouch
    | TakeRing
    | LoadRing
    | LookRing
    | Reset
    | Cancel
    | ParentDone

  function Init(idle: int, start: int): State {
    State(idle, start, start, 0, false, Armed(start + idle), Waiting, None)
  }

  predicate Enabled(s: State, step: Step) {
    match step
    case Tick(_) => true
    case Ring => s.timer.Armed? && s.timer.at <= s.now
    case Record(at) => at <= s.now
    case Offer => s.sending > 0
    case TakeTouch => s.pc == Waiting && s.token
    case LoadTouch => s.pc == Touched
    case LookTouch => s.pc.TouchedAt?
    case TakeRing => s.pc == Waiting && s.timer == Fired
    case LoadRing => s.pc == Rang
    case LookRing => s.pc.RangAt?
    case Reset => s.pc.Resetting?
    case Cancel => s.pc.Cancelling?
    case ParentDone => s.pc == Waiting
  }

  function Apply(s: State, step: Step): State
    requires Enabled(s, step)
  {
    match step
    case Tick(d) => s.(now := s.now + d)
    case Ring => s.(timer := Fired)
    case Record(at) => s.(last := at, sending := s.sending + 1)
    case Offer => s.(sending := s.sending - 1, token := true)
    case TakeTouch => s.(token := false, timer := Off, pc := Touched)
    case LoadTouch => s.(pc := TouchedAt(s.last))
    case LookTouch =>
      var wait := s.pc.t + s.idle - s.now;
      s.(pc := Resetting(s.pc.t, s.now, if wait <= 0 then s.idle else wait))
    case TakeRing => s.(timer := Off, pc := Rang)
    case LoadRing => s.(pc := RangAt(s.last))
    case LookRing =>
      var remaining := s.pc.t + s.idle - s.now;
      s.(pc := if remaining > 0 then Resetting(s.pc.t, s.now, remaining) else Cancelling(s.pc.t, s.now))
    case Reset => s.(timer := Armed(s.now + s.pc.wait), pc := Waiting)
    case Cancel => s.(pc := Done, cancelled := Some(s.now))
    case ParentDone => s.(timer := Off, pc := Done)
  }

  ghost predicate Linked(run: seq<State>, steps: seq<Step>, i: nat)
    requires i < |steps| && |run| == |steps| + 1
  {
    Enabled(run[i], steps[i]) && run[i + 1] == Apply(run[i], steps[i])
  }

  ghost predicate IsRun(idle: int, start: int, run: seq<State>, steps: seq<Step>) {
    && idle > 0 && |run| == |steps| + 1 && run[0] == Init(idle, start)
    && forall i: nat :: i < |steps| ==> Linked(run, steps, i)
  }

  // ---------- Whatever the scheduling ----------

  /** The goroutine is never left waiting with nothing to wake it. */
  predicate Alert(s: State) {
    && (s.pc == Waiting ==> s.timer.Armed? || s.timer == Fired)
    && (s.cancelled.Some? ==> s.pc == Done)
  }

  lemma {:induction false} NeverDeaf(idle: int, start: int, run: seq<State>, steps: seq<Step>, i: nat)
    requires IsRun(idle, start, run, steps) && i < |run|
    ensures Alert(run[i]) && run[i].idle == idle
    decreases i
  {
    if i > 0 {
      NeverDeaf(idle, start, run, steps, i - 1);
      assert Linked(run, steps, i - 1);
    }
  }

  /** What it loaded and when it looked at the clock, once it is about to cancel. */
  lemma {:induction false} LoadedAt(idle: int, start: int, run: seq<State>, steps: seq<Step>, i: nat) returns (j: nat)
    requires IsRun(idle, start, run, steps) && i < |run| && (run[i].pc.RangAt? || run[i].pc.Cancelling?)
    ensures j < i && steps[j] == LoadRing && run[j].last == run[i].pc.t && run[j].now <= run[i].now
    ensures run[i].pc.Cancelling? ==>
      run[i].pc.t + idle <= run[i].pc.looked && run[j].now <= run[i].pc.looked <= run[i].now
    decreases i
  {
    assert Linked(run, steps, i - 1);
    NeverDeaf(idle, start, run, steps, i - 1);
    if steps[i - 1].LoadRing? {
      j := i - 1;
    } else {
      j := LoadedAt(idle, start, run, steps, i - 1);
    }
  }

  /** It cancels only when, at the time it looked at the clock, the idle period had gone by since the last activity
      that had been recorded when it loaded it: j is the moment it loaded it. */
  lemma CancelsOnlyWhenIdle(idle: int, start: int, run: seq<State>, steps: seq<Step>, i: nat) returns (j: nat)
    requires IsRun(idle, start, run, steps) && i < |steps| && run[i].cancelled == None && run[i + 1].cancelled.Some?
    ensures j < i && steps[j] == LoadRing && steps[i] == Cancel && run[i].pc.Cancelling?
    ensures run[i + 1].cancelled == Some(run[i].now)
    ensures run[j].last + idle <= run[i].pc.looked && run[j].now <= run[i].pc.looked <= run[i].now
  {
    assert Linked(run, steps, i);
    j := LoadedAt(idle, start, run, steps, i);
  }

  // ---------- With a goroutine that runs as soon as it is woken ----------

  /** Time passes only when there is nothing to do, and stops at the timer; touches record the current time. */
  predicate Timely(s: State, step: Step) {
    match step
    case Tick(d) =>
      s.pc == Done || (s.pc == Waiting && !s.token && s.sending == 0 && s.timer.Armed? && s.now + d <= s.timer.at)
    case Record(at) => at == s.now
    case _ => true
  }

  predicate Busy(s: State) {
    s.token || s.sending > 0
  }

  predicate LoadedOnTime(s: State, t: int) {
    t <= s.last && (s.last == t || s.last == s.now) && (!Busy(s) ==> t == s.last)
  }

  /** While the watchdog is on, the deadline has not passed; a quiet watchdog is set to it exactly. */
  predicate OnTime(s: State) {
    && s.idle > 0 && s.last <= s.now && (s.pc != Done ==> s.now <= s.last + s.idle)
    && (s.pc != Done && Busy(s) ==> s.last == s.now)
    && match s.pc
       case Waiting =>
         s.timer.Armed? ==> s.now <= s.timer.at <= s.last + s.idle && (!Busy(s) ==> s.timer.at == s.last + s.idle)
       case Touched => s.last == s.now
       case TouchedAt(t) => s.last == s.now && t == s.now
       case Rang => true
       case RangAt(t) => LoadedOnTime(s, t) && s.now <= t + s.idle
       case Resetting(t, looked, wait) =>
         LoadedOnTime(s, t) && looked == s.now && wait == t + s.idle - s.now > 0
       case Cancelling(t, looked) => LoadedOnTime(s, t) && looked == s.now == t + s.idle
       case Done => s.cancelled.Some? ==> s.cancelled.value <= s.now
  }

  lemma TimelyStep(s: State, step: Step)
    requires Alert(s) && OnTime(s) && Enabled(s, step) && Timely(s, step)
    ensures OnTime(Apply(s, step))
    ensures step.Cancel? ==> s.now == s.pc.t + s.idle && (s.last == s.pc.t || s.last == s.now)
  {
  }

  lemma {:induction false} TimelyRun(idle: int, start: int, run: seq<State>, steps: seq<Step>, i: nat)
    requires IsRun(idle, start, run, steps) && i < |run|
    requires forall j :: 0 <= j < i ==> Timely(run[j], steps[j])
    ensures OnTime(run[i])
    decreases i
  {
    if i > 0 {
      TimelyRun(idle, start, run, steps, i - 1);
      NeverDeaf(idle, start, run, steps, i - 1);
      assert Linked(run, steps, i - 1);
      TimelyStep(run[i - 1], steps[i - 1]);
    }
  }

  /** Such a watchdog never lets more than the idle period go by without either activity or cancelling, and it
      cancels exactly one idle period after the last activity before that instant. */
  lemma CancelsOnTime(idle: int, start: int, run: seq<State>, steps: seq<Step>, i: nat)
    requires IsRun(idle, start, run, steps) && i < |steps|
    requires forall j :: 0 <= j <= i ==> Timely(run[j], steps[j])
    ensures run[i].pc != Done ==> run[i].now <= run[i].last + idle
    ensures run[i].cancelled == None && run[i + 1].cancelled.Some? ==>
      run[i].pc.Cancelling? && run[i + 1].cancelled == Some(run[i].pc.t + idle)
      && (run[i].last == run[i].pc.t || run[i].last == run[i].now)
  {
    TimelyRun(idle, start, run, steps, i);
    NeverDeaf(idle, start, run, steps, i);
    assert Linked(run, steps, i);
    TimelyStep(run[i], steps[i]);
  }

  /** One step after another, as long as they can be taken. */
  function Do(s: Option<State>, step: Step): Option<State> {
    if s.Some? && Enabled(s.value, step) then Some(Apply(s.value, step)) else None
  }

  /** Time passes, the timer fires, and the goroutine looks at the last activity. */
  function RingOut(s: Option<State>, d: nat): Option<State> {
    Do(Do(Do(Do(Do(Do(s, Tick(d)), Ring), TakeRing), LoadRing), LookRing), Cancel)
  }

  lemma RingsOut(s: State, d: nat)
    requires s.pc == Waiting && s.timer.Armed? && s.timer.at <= s.now + d && s.last + s.idle <= s.now + d
    ensures RingOut(Some(s), d) == Some(s.(now := s.now + d, timer := Off, pc := Done, cancelled := Some(s.now + d)))
  {
  }

  /** And it does cancel: left alone, the clock runs to the deadline and the goroutine cancels there. */
  lemma QuietWatchdogCancels(s: State)
    requires OnTime(s) && Alert(s) && s.pc == Waiting && !Busy(s) && s.timer.Armed?
    ensures var deadline := s.last + s.idle;
      && deadline >= s.now && Timely(s, Tick(deadline - s.now))
      && RingOut(Some(s), deadline - s.now)
           == Some(s.(now := deadline, timer := Off, pc := Done, cancelled := Some(deadline)))
  {
    RingsOut(s, s.last + s.idle - s.now);
  }

  // ---------- With a goroutine that comes late ----------

  /** The deadline of the activity recorded at time t. */
  function Deadline(s: State, t: int): int {
    t + s.idle
  }

  /** How long the timer will have to run, as seen at the time of the look. */
  predicate WaitOk(s: State) {
    s.pc.Resetting? ==> s.pc.wait == if s.pc.looked < Deadline(s, s.pc.t) then Deadline(s, s.pc.t) - s.pc.looked
      else s.idle
  }

  /** Where the goroutine looked at the clock before it set the timer. */
  lemma {:induction false} LookedAt(idle: int, start: int, run: seq<State>, steps: seq<Step>, i: nat) returns (j: nat)
    requires IsRun(idle, start, run, steps) && i < |run| && run[i].pc.Resetting?
    ensures j < i && (steps[j] == LookTouch || steps[j] == LookRing)
    ensures run[j].now == run[i].pc.looked <= run[i].now && WaitOk(run[i])
    decreases i
  {
    assert Linked(run, steps, i - 1);
    NeverDeaf(idle, start, run, steps, i - 1);
    if steps[i - 1].LookTouch? || steps[i - 1].LookRing? {
      j := i - 1;
    } else {
      j := LookedAt(idle, start, run, steps, i - 1);
    }
  }

  /** In every run, whatever the scheduling, after a touch as after the timer has fired: with j the moment of the look
      at the clock, the timer is set to the deadline of the loaded activity put off by the time since the look if
      that deadline was still ahead, and to a whole idle period from now if not. It is set to the deadline exactly
      if that was ahead and no time has passed. */
  lemma ResetMeetsDeadlineIff(idle: int, start: int, run: seq<State>, steps: seq<Step>, i: nat) returns (j: nat)
    requires IsRun(idle, start, run, steps) && i < |steps| && steps[i] == Reset
    ensures j < i && (steps[j] == LookTouch || steps[j] == LookRing) && run[i].pc.Resetting?
    ensures var deadline := run[i].pc.t + idle; var delay := run[i].now - run[j].now;
      && delay >= 0
      && run[i + 1].timer == Armed(if run[j].now < deadline then deadline + delay else run[i].now + idle)
      && (run[i + 1].timer == Armed(deadline) <==> run[j].now < deadline && delay == 0)
  {
    assert Linked(run, steps, i);
    j := LookedAt(idle, start, run, steps, i);
    NeverDeaf(idle, start, run, steps, i);
  }

  /** What the timer was last set by: the time of the loaded activity, and by how much it was set too late. */
  datatype Setting = Setting(loaded: int, excess: int)

  /** By how much a reset in state s comes too late: by the time since the look, if the deadline was ahead then, and
      otherwise by the time since the activity. */
  function ExcessOf(s: State): int
    requires s.pc.Resetting?
  {
    if s.pc.looked < Deadline(s, s.pc.t) then s.now - s.pc.looked else s.now - s.pc.t
  }

  ghost function LastSetting(run: seq<State>, steps: seq<Step>, i: nat): Setting
    requires i <= |steps| && |run| == |steps| + 1
  {
    if i == 0 then Setting(run[0].last, 0)
    else if steps[i - 1] == Reset && run[i - 1].pc.Resetting? then Setting(run[i - 1].pc.t, ExcessOf(run[i - 1]))
    else LastSetting(run, steps, i - 1)
  }

  lemma {:induction false} SetBy(idle: int, start: int, run: seq<State>, steps: seq<Step>, i: nat)
    requires IsRun(idle, start, run, steps) && i < |run|
    ensures run[i].timer.Armed? ==>
      run[i].timer.at == LastSetting(run, steps, i).loaded + idle + LastSetting(run, steps, i).excess
    ensures LastSetting(run, steps, i).excess >= 0
    decreases i
  {
    if i > 0 {
      SetBy(idle, start, run, steps, i - 1);
      NeverDeaf(idle, start, run, steps, i - 1);
      assert Linked(run, steps, i - 1);
      if steps[i - 1] == Reset {
        var _ := LookedAt(idle, start, run, steps, i - 1);
      }
    }
  }

  /** Touches record their times in order. */
  predicate InOrder(s: State, step: Step) {
    step.Record? ==> step.at >= s.last
  }

  /** What has been loaded is not later than the last activity. */
  predicate LoadedBefore(s: State, loaded: int) {
    && loaded <= s.last
    && (s.pc.TouchedAt? || s.pc.RangAt? || s.pc.Resetting? ==> s.pc.t <= s.last)
  }

  lemma {:induction false} LoadedInOrder(idle: int, start: int, run: seq<State>, steps: seq<Step>, i: nat)
    requires IsRun(idle, start, run, steps) && i < |run|
    requires forall j :: 0 <= j < i ==> InOrder(run[j], steps[j])
    ensures LoadedBefore(run[i], LastSetting(run, steps, i).loaded)
    decreases i
  {
    if i > 0 {
      LoadedInOrder(idle, start, run, steps, i - 1);
      assert Linked(run, steps, i - 1);
    }
  }

  /** In every run, whatever the scheduling and in whatever order the times of touches are recorded: the timer stands
      beyond one idle period after the recorded last activity exactly if that activity is earlier than the one the
      timer was set for, put off by the excess of that setting. Where times are recorded in order, this takes an
      excess: a reset that came some time after its look, or a look that came after the deadline. */
  lemma {:induction false} OverdueIff(idle: int, start: int, run: seq<State>, steps: seq<Step>, i: nat)
    requires IsRun(idle, start, run, steps) && i < |run| && run[i].timer.Armed?
    ensures var timing := LastSetting(run, steps, i);
      && (run[i].timer.at > run[i].last + idle <==> timing.loaded + timing.excess > run[i].last)
      && ((forall j :: 0 <= j < i ==> InOrder(run[j], steps[j])) ==>
            && timing.loaded <= run[i].last
            && (run[i].timer.at > run[i].last + idle ==> timing.excess > 0))
  {
    SetBy(idle, start, run, steps, i);
    NeverDeaf(idle, start, run, steps, i);
    if forall j :: 0 <= j < i ==> InOrder(run[j], steps[j]) {
      LoadedInOrder(idle, start, run, steps, i);
    }
  }

  /** One more step of a run. */
  lemma OneMoreStep(idle: int, start: int, run: seq<State>, steps: seq<Step>, step: Step) returns (longer: seq<State>)
    requires IsRun(idle, start, run, steps) && Enabled(run[|steps|], step)
    ensures longer == run + [Apply(run[|steps|], step)] && IsRun(idle, start, longer, steps + [step])
  {
    longer := run + [Apply(run[|steps|], step)];
    forall i: nat | i < |steps + [step]| ensures Linked(longer, steps + [step], i) {
      if i < |steps| {
        assert Linked(run, steps, i);
      }
    }
  }

  /** Where times are not recorded in order, the timer can stand beyond the recorded last activity although it was
      set without any excess: a touch reads the clock and is overtaken by a later one before it stores its reading. */
  lemma LastGoesBack(idle: int, start: int, d: nat) returns (run: seq<State>, steps: seq<Step>)
    requires idle > 0 && d > 0
    ensures IsRun(idle, start, run, steps) && |steps| == 8 && LastSetting(run, steps, 8).excess == 0
    ensures var s := run[8];
      s.last == start && s.now == start + d && s.timer == Armed(s.last + idle + d) && s.cancelled == None
  {
    run := OneMoreStep(idle, start, [Init(idle, start)], [], Tick(d));
    steps := [Tick(d)];
    run := OneMoreStep(idle, start, run, steps, Record(start + d));
    steps := steps + [Record(start + d)];
    run := OneMoreStep(idle, start, run, steps, Offer);
    steps := steps + [Offer];
    run := OneMoreStep(idle, start, run, steps, TakeTouch);
    steps := steps + [TakeTouch];
    run := OneMoreStep(idle, start, run, steps, LoadTouch);
    steps := steps + [LoadTouch];
    run := OneMoreStep(idle, start, run, steps, LookTouch);
    steps := steps + [LookTouch];
    run, steps := ResetAndGoBack(idle, start, d, run, steps);
  }

  lemma ResetAndGoBack(idle: int, start: int, d: nat, run: seq<State>, steps: seq<Step>)
    returns (run': seq<State>, steps': seq<Step>)
    requires IsRun(idle, start, run, steps) && d > 0
    requires var s := run[|steps|];
      s.last == s.now == start + d && s.pc == Resetting(start + d, start + d, idle) && s.cancelled == None
        && s.idle == idle
    ensures IsRun(idle, start, run', steps') && |steps'| == |steps| + 2
      && LastSetting(run', steps', |steps'|).excess == 0
    ensures var s := run'[|steps'|];
      s.last == start && s.now == start + d && s.timer == Armed(s.last + idle + d) && s.cancelled == None
  {
    var run1 := OneMoreStep(idle, start, run, steps, Reset);
    var steps1 := steps + [Reset];
    run' := OneMoreStep(idle, start, run1, steps1, Record(start));
    steps' := steps1 + [Record(start)];
  }

  /** The goroutine sleeps over the token of a touch, then takes it and looks at the clock, sleeps again, and sets the
      timer. */
  function SleepAndReset(s: State, d: nat, more: nat): Option<State> {
    Do(Do(Do(Do(Do(Do(Some(s), Tick(d)), TakeTouch), LoadTouch), LookTouch), Tick(more)), Reset)
  }

  /** Any touch, any two sleeps: left alone afterwards, the watchdog cancels at the deadline of that touch exactly if it
      looked at the clock before the deadline and set the timer at once; otherwise it cancels later by the second
      sleep, or, if it looked too late, a whole idle period after it has set the timer. */
  lemma SleepyWatchdogIsLateIff(s: State, d: nat, more: nat)
    requires s.idle > 0 && s.pc == Waiting && s.token
    ensures var looked := s.now + d; var deadline := s.last + s.idle;
      var at := if looked < deadline then deadline + more else looked + more + s.idle;
      && RingOut(SleepAndReset(s, d, more), at - (looked + more))
           == Some(s.(now := at, token := false, timer := Off, pc := Done, cancelled := Some(at)))
      && (at == deadline <==> looked < deadline && more == 0)
  {
    var looked, deadline := s.now + d, s.last + s.idle;
    var at := if looked < deadline then deadline + more else looked + more + s.idle;
    var timing := s.(now := looked + more, token := false, timer := Armed(at));
    assert SleepAndReset(s, d, more) == Some(timing);
    RingsOut(timing, at - (looked + more));
  }
}
