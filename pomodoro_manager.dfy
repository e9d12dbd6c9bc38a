/** The Pomodoro focus timer: a state machine over {focus, shortBreak,
    longBreak} driven by start, stop and reset commands and a one-second tick.
    The functions below give each command's effect on a state value; the
    class `Pomodoro` holds the state in fields and its methods are proved to
    have exactly those effects. */
module PomodoroManager {

  datatype Mode = Focus | ShortBreak | LongBreak

  /** Nominal durations, in seconds. */
  const FOCUS_DURATION: int := 25 * 60
  const SHORT_BREAK_DURATION: int := 5 * 60
  const LONG_BREAK_DURATION: int := 15 * 60

  function Nominal(mode: Mode): (d: int)
    ensures d > 0
    ensures mode == Focus ==> d == 1500
    ensures mode == ShortBreak ==> d == 300
    ensures mode == LongBreak ==> d == 900
  {
    match mode
    case Focus => FOCUS_DURATION
    case ShortBreak => SHORT_BREAK_DURATION
    case LongBreak => LONG_BREAK_DURATION
  }

  datatype PomodoroState = PomodoroState(
    enabled: bool,
    mode: Mode,
    remainingTime: int,
    focusSessionsCompleted: nat)

  /** What the timer sends out: runtime messages to the popup, desktop
      notifications, and the request to remove the blocking overlay. */
  datatype Event =
    | PomodoroTick(remainingTime: int, totalTime: int)
    | PomodoroComplete(nextMode: Mode, remainingTime: int, totalTime: int)
    | Notification(title: string, message: string)
    | RemoveOverlay

  function Initial(): PomodoroState {
    PomodoroState(false, Focus, FOCUS_DURATION, 0)
  }

  /** The remaining time lies between one second and the mode's full length. */
  predicate Inv(s: PomodoroState) {
    1 <= s.remainingTime <= Nominal(s.mode)
  }

  /** The mode that follows a completed `mode`, given the number of focus
      sessions completed once the count has been updated. */
  function NextMode(mode: Mode, completed: nat): (next: Mode)
    ensures mode != Focus ==> next == Focus
    ensures mode == Focus ==> (next == LongBreak <==> completed % 4 == 0)
    ensures mode == Focus ==> next != Focus
  {
    if mode == Focus then (if completed % 4 == 0 then LongBreak else ShortBreak) else Focus
  }

  function StartState(s: PomodoroState): PomodoroState {
    s.(enabled := true,
       remainingTime := if s.remainingTime <= 0 then Nominal(s.mode) else s.remainingTime)
  }

  function StopState(s: PomodoroState): PomodoroState {
    s.(enabled := false)
  }

  function ResetState(s: PomodoroState): PomodoroState {
    StopState(s).(mode := Focus, remainingTime := FOCUS_DURATION, focusSessionsCompleted := 0)
  }

  /** The state after the completion branch of a tick that found `s`. */
  function Completed(s: PomodoroState): PomodoroState {
    var count := if s.mode == Focus then s.focusSessionsCompleted + 1 else s.focusSessionsCompleted;
    var next := NextMode(s.mode, count);
    PomodoroState(false, next, Nominal(next), count)
  }

  /** One run of the interval body. */
  function TickState(s: PomodoroState): PomodoroState {
    if !s.enabled then s
    else if s.remainingTime - 1 <= 0 then Completed(s)
    else s.(remainingTime := s.remainingTime - 1)
  }

  function CompletionTitle(mode: Mode): string {
    if mode == Focus then "Focus Session Complete!" else "Break Time Over!"
  }

  function CompletionMessage(mode: Mode, next: Mode): string {
    if mode == Focus then
      "Time for a " + (if next == LongBreak then "long" else "short") +
      " break! Click \"Start\" when you're ready."
    else "Ready for another focus session? Click \"Start\" when you want to begin."
  }

  /** The messages one run of the interval body sends. */
  function TickEvents(s: PomodoroState): seq<Event> {
    if !s.enabled then []
    else
      var progress := PomodoroTick(s.remainingTime - 1, Nominal(s.mode));
      if s.remainingTime - 1 <= 0 then
        var c := Completed(s);
        [progress,
         Notification(CompletionTitle(s.mode), CompletionMessage(s.mode, c.mode)),
         PomodoroComplete(c.mode, c.remainingTime, c.remainingTime)]
      else [progress]
  }

  function StopEvents(s: PomodoroState): seq<Event> {
    [RemoveOverlay, PomodoroTick(s.remainingTime, Nominal(s.mode))]
  }

  function ResetEvents(s: PomodoroState): seq<Event> {
    StopEvents(s) + [RemoveOverlay, PomodoroTick(FOCUS_DURATION, FOCUS_DURATION)]
  }

  /** `n` runs of the interval body. */
  function Ticks(s: PomodoroState, n: nat): PomodoroState
    decreases n
  {
    if n == 0 then s else Ticks(TickState(s), n - 1)
  }

  /** Start, then let the timer run until it stops by itself. */
  function Cycle(s: PomodoroState): PomodoroState {
    var started := StartState(s);
    Ticks(started, if started.remainingTime > 0 then started.remainingTime else 0)
  }

  // ---------------------------------------------------------------------
  // Properties of the commands

  lemma InitialSatisfiesInv()
    ensures Inv(Initial())
    ensures !Initial().enabled && Initial().mode == Focus
    ensures Initial().remainingTime == 1500 && Initial().focusSessionsCompleted == 0
  {
  }

  /** Start enables the timer and resumes: remaining time is kept when it is
      positive and restored to the full length otherwise. */
  lemma StartResumes(s: PomodoroState)
    ensures StartState(s).enabled
    ensures StartState(s).mode == s.mode
    ensures StartState(s).focusSessionsCompleted == s.focusSessionsCompleted
    ensures s.remainingTime > 0 ==> StartState(s).remainingTime == s.remainingTime
    ensures s.remainingTime <= 0 ==> StartState(s).remainingTime == Nominal(s.mode)
  {
  }

  lemma TickWhileDisabled(s: PomodoroState)
    requires !s.enabled
    ensures TickState(s) == s && TickEvents(s) == []
  {
  }

  /** A tick that does not reach zero takes exactly one second off and
      broadcasts the current mode's full length as the total. */
  lemma TickCountsDown(s: PomodoroState)
    requires s.enabled && s.remainingTime > 1
    ensures TickState(s).remainingTime == s.remainingTime - 1
    ensures TickState(s).enabled && TickState(s).mode == s.mode
    ensures TickState(s).focusSessionsCompleted == s.focusSessionsCompleted
    ensures TickEvents(s) == [PomodoroTick(s.remainingTime - 1, Nominal(s.mode))]
  {
  }

  /** The completing tick: the timer stops, a completed focus session is
      counted, every fourth one is followed by the long break, every break by
      focus, and the next mode starts at its full length. */
  lemma TickCompletes(s: PomodoroState)
    requires s.enabled && s.remainingTime <= 1
    ensures !TickState(s).enabled
    ensures TickState(s).focusSessionsCompleted ==
            s.focusSessionsCompleted + (if s.mode == Focus then 1 else 0)
    ensures s.mode == Focus ==>
              TickState(s).mode == (if (s.focusSessionsCompleted + 1) % 4 == 0 then LongBreak else ShortBreak)
    ensures s.mode != Focus ==> TickState(s).mode == Focus
    ensures TickState(s).remainingTime == Nominal(TickState(s).mode)
    ensures |TickEvents(s)| == 3 && TickEvents(s)[2] ==
            PomodoroComplete(TickState(s).mode, Nominal(TickState(s).mode), Nominal(TickState(s).mode))
  {
  }

  /** Stopping keeps mode, remaining time and count, and is idempotent. */
  lemma StopKeepsProgress(s: PomodoroState)
    ensures !StopState(s).enabled
    ensures StopState(s).mode == s.mode && StopState(s).remainingTime == s.remainingTime
    ensures StopState(s).focusSessionsCompleted == s.focusSessionsCompleted
    ensures StopState(StopState(s)) == StopState(s)
  {
  }

  lemma ResetIsInitial(s: PomodoroState)
    ensures ResetState(s) == Initial()
  {
  }

  /** Every command keeps the remaining time within [1, nominal]. */
  lemma CommandsPreserveInv(s: PomodoroState)
    requires Inv(s)
    ensures Inv(StartState(s)) && Inv(TickState(s)) && Inv(StopState(s)) && Inv(ResetState(s))
  {
  }

  /** From a valid running state, remaining-time many ticks complete the
      session and no fewer do. */
  lemma {:induction false} RunToCompletion(s: PomodoroState)
    requires Inv(s) && s.enabled
    ensures Ticks(s, s.remainingTime) == Completed(s)
    ensures forall k :: 0 <= k < s.remainingTime ==> Ticks(s, k).enabled
    decreases s.remainingTime
  {
    if s.remainingTime == 1 {
      assert Ticks(s, 1) == Ticks(TickState(s), 0);
      assert Ticks(s, 0) == s;
    } else {
      var t := TickState(s);
      assert t == s.(remainingTime := s.remainingTime - 1);
      RunToCompletion(t);
      assert t.mode == s.mode && t.focusSessionsCompleted == s.focusSessionsCompleted;
      assert Completed(t) == Completed(s);
      forall k | 0 <= k < s.remainingTime ensures Ticks(s, k).enabled {
        if k > 0 {
          assert Ticks(s, k) == Ticks(t, k - 1);
        }
      }
    }
  }

  /** One start-and-run cycle from a valid state is exactly one completion. */
  lemma CycleCompletes(s: PomodoroState)
    requires Inv(s)
    ensures Cycle(s) == Completed(StartState(s))
    ensures Inv(Cycle(s))
  {
    CommandsPreserveInv(s);
    RunToCompletion(StartState(s));
  }

  /** The scenario of a fresh focus session: start, then 1500 ticks, leaves
      a stopped short break of 300 seconds and one completed session. */
  lemma FirstFocusSession()
    ensures StartState(Initial()).remainingTime == 1500
    ensures Ticks(StartState(Initial()), 1500) == PomodoroState(false, ShortBreak, 300, 1)
  {
    RunToCompletion(StartState(Initial()));
  }

  /** One cycle from a stopped focus session at full length. */
  lemma CycleFromFocus(count: nat)
    ensures Cycle(PomodoroState(false, Focus, FOCUS_DURATION, count)) ==
            PomodoroState(false, NextMode(Focus, count + 1), Nominal(NextMode(Focus, count + 1)), count + 1)
  {
    CycleCompletes(PomodoroState(false, Focus, FOCUS_DURATION, count));
  }

  /** One cycle from a stopped break at full length. */
  lemma CycleFromBreak(mode: Mode, count: nat)
    requires mode != Focus
    ensures Cycle(PomodoroState(false, mode, Nominal(mode), count)) ==
            PomodoroState(false, Focus, FOCUS_DURATION, count)
  {
    CycleCompletes(PomodoroState(false, mode, Nominal(mode), count));
  }

  /** From reset, focus completions 1 to 3 lead to a short break and the
      fourth to the long break; every break leads back to focus. */
  lemma FourthFocusGoesToLongBreak()
    ensures Cycle(Initial()) == PomodoroState(false, ShortBreak, 300, 1)
    ensures Cycle(PomodoroState(false, ShortBreak, 300, 1)) == PomodoroState(false, Focus, 1500, 1)
    ensures Cycle(PomodoroState(false, Focus, 1500, 1)) == PomodoroState(false, ShortBreak, 300, 2)
    ensures Cycle(PomodoroState(false, ShortBreak, 300, 2)) == PomodoroState(false, Focus, 1500, 2)
    ensures Cycle(PomodoroState(false, Focus, 1500, 2)) == PomodoroState(false, ShortBreak, 300, 3)
    ensures Cycle(PomodoroState(false, ShortBreak, 300, 3)) == PomodoroState(false, Focus, 1500, 3)
    ensures Cycle(PomodoroState(false, Focus, 1500, 3)) == PomodoroState(false, LongBreak, 900, 4)
    ensures Cycle(PomodoroState(false, LongBreak, 900, 4)) == PomodoroState(false, Focus, 1500, 4)
  {
    CycleFromFocus(0);
    CycleFromBreak(ShortBreak, 1);
    CycleFromFocus(1);
    CycleFromBreak(ShortBreak, 2);
    CycleFromFocus(2);
    CycleFromBreak(ShortBreak, 3);
    CycleFromFocus(3);
    CycleFromBreak(LongBreak, 4);
  }

  /** The focus-session count goes up by one over exactly the focus cycles. */
  lemma CycleCounts(s: PomodoroState)
    requires Inv(s)
    ensures Cycle(s).focusSessionsCompleted ==
            s.focusSessionsCompleted + (if s.mode == Focus then 1 else 0)
    ensures s.mode == Focus ==>
              (Cycle(s).mode == LongBreak <==> (s.focusSessionsCompleted + 1) % 4 == 0)
  {
    CycleCompletes(s);
  }

  // ---------------------------------------------------------------------
  // The timer object

  class Pomodoro {
    var enabled: bool
    var mode: Mode
    var remainingTime: int
    var focusSessionsCompleted: nat
    /** Whether the one-second interval is installed (`pomodoroInterval != null`). */
    var intervalArmed: bool

    function State(): PomodoroState
      reads this
    {
      PomodoroState(enabled, mode, remainingTime, focusSessionsCompleted)
    }

    /** The interval runs exactly while the timer is enabled. */
    predicate Valid()
      reads this
    {
      intervalArmed == enabled
    }

    constructor ()
      ensures Valid() && State() == Initial() && Inv(State()) && !intervalArmed
    {
      enabled := false;
      mode := Focus;
      remainingTime := FOCUS_DURATION;
      focusSessionsCompleted := 0;
      intervalArmed := false;
    }

    method GetState() returns (s: PomodoroState)
      ensures s == State()
    {
      s := PomodoroState(enabled, mode, remainingTime, focusSessionsCompleted);
    }

    method Start()
      requires Valid()
      modifies this
      ensures Valid() && intervalArmed
      ensures State() == StartState(old(State()))
      ensures Inv(old(State())) ==> Inv(State())
    {
      enabled := true;
      if remainingTime <= 0 {
        remainingTime := Nominal(mode);
      }
      intervalArmed := true;
    }

    /** The body of the one-second interval. */
    method Tick() returns (events: seq<Event>)
      requires Valid()
      modifies this
      ensures Valid()
      ensures State() == TickState(old(State()))
      ensures Inv(old(State())) ==> Inv(State())
      ensures events == TickEvents(old(State()))
    {
      if !enabled {
        events := [];
        return;
      }
      remainingTime := remainingTime - 1;
      var totalTime := Nominal(mode);
      events := [PomodoroTick(remainingTime, totalTime)];
      if remainingTime <= 0 {
        intervalArmed := false;
        enabled := false;
        if mode == Focus {
          focusSessionsCompleted := focusSessionsCompleted + 1;
        }
        var nextMode := NextMode(mode, focusSessionsCompleted);
        events := events + [Notification(CompletionTitle(mode), CompletionMessage(mode, nextMode))];
        mode := nextMode;
        remainingTime := Nominal(nextMode);
        events := events + [PomodoroComplete(nextMode, remainingTime, remainingTime)];
      }
    }

    method Stop() returns (events: seq<Event>)
      requires Valid()
      modifies this
      ensures Valid() && !intervalArmed
      ensures State() == StopState(old(State()))
      ensures Inv(old(State())) ==> Inv(State())
      ensures events == StopEvents(old(State()))
    {
      enabled := false;
      intervalArmed := false;
      events := [RemoveOverlay, PomodoroTick(remainingTime, Nominal(mode))];
    }

    method Reset() returns (events: seq<Event>)
      requires Valid()
      modifies this
      ensures Valid() && !intervalArmed
      ensures State() == ResetState(old(State())) && State() == Initial() && Inv(State())
      ensures events == ResetEvents(old(State()))
    {
      events := Stop();
      mode := Focus;
      remainingTime := FOCUS_DURATION;
      focusSessionsCompleted := 0;
      events := events + [RemoveOverlay, PomodoroTick(remainingTime, FOCUS_DURATION)];
    }
  }
}
