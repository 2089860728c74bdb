/**
 * The interval timer's engine (src/hooks/useTimer.ts).
 *
 * The hook keeps a `TimerState` record and replaces it through updater
 * functions: one per clock tick, one each for start, pause and stop. The pure
 * part of this module is those updaters (`TickUpdate`, `Started`, `Paused`,
 * `Initial`), the phase sequencer they use (`NextPhase`) and the choice of cue
 * names (`PhaseCues`, `TickCues`). `TimerEngine` is the stateful object: it
 * holds the six fields of the record and the log of cue names handed to the
 * cue player, and its methods apply the updaters in place.
 */
module TimerHook {
  import opened TimerTypes
  import TimerScreen

  // ---------------------------------------------------------------------------
  // Cues

  /** The symbolic cue names the engine hands to the cue player. */
  datatype Cue =
    | PreparationCue
    | WorkStartCue
    | WorkAfterRestCue
    | RestCue
    | SetEndCue
    | BeforeNewSetCue
    | CompletionCue
    | TickCue

  /** The name under which the cue player is asked for each cue. */
  function CueName(c: Cue): string {
    match c
    case PreparationCue => "preparation"
    case WorkStartCue => "workStart"
    case WorkAfterRestCue => "workAfterRest"
    case RestCue => "rest"
    case SetEndCue => "setEnd"
    case BeforeNewSetCue => "beforeNewSet"
    case CompletionCue => "completion"
    case TickCue => "tick"
  }

  /** Every cue is asked for under a non-empty name of its own, so the cue player can tell them apart. */
  lemma CueNamesDistinct(a: Cue, b: Cue)
    ensures |CueName(a)| > 0
    ensures CueName(a) == CueName(b) <==> a == b
  {
  }

  /**
   * The cues for entering phase `to` from phase `from`. Entering a set rest
   * asks for two cues; the second one is played after a delay, which is not
   * modelled, so it simply follows the first.
   */
  function PhaseCues(to: Phase, from: Phase): seq<Cue> {
    match to
    case Preparation => [PreparationCue]
    case Work =>
      if from == Preparation || from == SetRest then [WorkStartCue]
      else if from == Rest then [WorkAfterRestCue]
      else []
    case Rest => [RestCue]
    case SetRest => [SetEndCue, BeforeNewSetCue]
    case Completed => [CompletionCue]
  }

  // ---------------------------------------------------------------------------
  // The phase sequencer

  /** All six settings are at least 1 (the form's validity check demands values in [1, 999]). */
  predicate PositiveSettings(s: Settings) {
    s.preparation >= 1 && s.work >= 1 && s.rest >= 1 && s.cycles >= 1 && s.setRest >= 1 && s.sets >= 1
  }

  /** A phase entered, with its counters and its full length in seconds. */
  datatype Transition = Transition(phase: Phase, cycle: int, setNo: int, time: int)

  /**
   * What follows `current` when its countdown runs out. Every running phase is
   * left; the new phase gets its full length, as the timer screen measures it,
   * and only entering a work phase moves the counters.
   */
  function NextPhase(s: Settings, current: Phase, cycle: int, setNo: int): (r: Transition)
    ensures r.phase == Completed ==> r.time == 0
    ensures r.phase != Completed ==> r.time == TimerScreen.TotalTime(s, r.phase)
    ensures r.phase == Work <==> current != Work && current != Completed
    ensures r.phase == Completed <==>
      current == Completed || (current == Work && cycle >= s.cycles && setNo >= s.sets)
    ensures r.phase != Work ==> r.cycle == cycle && r.setNo == setNo
  {
    match current
    case Preparation => Transition(Work, 1, 1, s.work)
    case Work =>
      if cycle < s.cycles then Transition(Rest, cycle, setNo, s.rest)
      else if setNo < s.sets then Transition(SetRest, cycle, setNo, s.setRest)
      else Transition(Completed, cycle, setNo, 0)
    case Rest => Transition(Work, cycle + 1, setNo, s.work)
    case SetRest => Transition(Work, 1, setNo + 1, s.work)
    case Completed => Transition(Completed, cycle, setNo, 0)
  }

  /** The sequencer's transition table, row by row. */
  lemma NextPhaseTable(s: Settings, cycle: int, setNo: int)
    ensures NextPhase(s, Preparation, cycle, setNo) == Transition(Work, 1, 1, s.work)
    ensures cycle < s.cycles ==>
      NextPhase(s, Work, cycle, setNo) == Transition(Rest, cycle, setNo, s.rest)
    ensures cycle >= s.cycles && setNo < s.sets ==>
      NextPhase(s, Work, cycle, setNo) == Transition(SetRest, cycle, setNo, s.setRest)
    ensures cycle >= s.cycles && setNo >= s.sets ==>
      NextPhase(s, Work, cycle, setNo) == Transition(Completed, cycle, setNo, 0)
    ensures NextPhase(s, Rest, cycle, setNo) == Transition(Work, cycle + 1, setNo, s.work)
    ensures NextPhase(s, SetRest, cycle, setNo) == Transition(Work, 1, setNo + 1, s.work)
    ensures NextPhase(s, Completed, cycle, setNo) == Transition(Completed, cycle, setNo, 0)
  {
  }

  /**
   * The phase and counter combinations a run passes through: counters within
   * their ranges, a rest only before the last cycle of a set, a set rest only
   * after the last cycle of a set that is not the last, and completion only
   * after the last cycle of the last set.
   */
  predicate Consistent(s: Settings, p: Phase, cycle: int, setNo: int) {
    && 1 <= cycle <= s.cycles
    && 1 <= setNo <= s.sets
    && match p
       case Preparation => cycle == 1 && setNo == 1
       case Work => true
       case Rest => cycle < s.cycles
       case SetRest => cycle == s.cycles && setNo < s.sets
       case Completed => cycle == s.cycles && setNo == s.sets
  }

  /** The sequencer never leaves the consistent combinations. */
  lemma NextPhaseKeepsConsistent(s: Settings, p: Phase, cycle: int, setNo: int)
    requires PositiveSettings(s) && Consistent(s, p, cycle, setNo)
    ensures var n := NextPhase(s, p, cycle, setNo); Consistent(s, n.phase, n.cycle, n.setNo)
  {
  }

  /** The number of work phases still to be entered before completion. */
  function WorkAhead(s: Settings, p: Phase, cycle: int, setNo: int): nat
    requires Consistent(s, p, cycle, setNo)
  {
    match p
    case Preparation => s.cycles * s.sets
    case Work => (s.cycles - cycle) + s.cycles * (s.sets - setNo)
    case Rest => (s.cycles - cycle) + s.cycles * (s.sets - setNo)
    case SetRest => s.cycles * (s.sets - setNo)
    case Completed => 0
  }

  /**
   * The number of phase changes still to come before completion: each work
   * phase ahead is entered and then left, and a current work phase is left.
   */
  function StepsAhead(s: Settings, p: Phase, cycle: int, setNo: int): nat
    requires Consistent(s, p, cycle, setNo)
  {
    2 * WorkAhead(s, p, cycle, setNo) + (if p == Work then 1 else 0)
  }

  /** One more set multiplies out to one more block of `c`. */
  lemma MulSucc(c: int, m: int)
    ensures c * (m + 1) == c * m + c
  {
  }

  /**
   * Each phase change brings completion exactly one step closer, and the work
   * phases still ahead drop by one exactly when the change enters a work phase.
   */
  lemma NextPhaseProgress(s: Settings, p: Phase, cycle: int, setNo: int)
    requires PositiveSettings(s) && Consistent(s, p, cycle, setNo) && p != Completed
    ensures var n := NextPhase(s, p, cycle, setNo);
      && Consistent(s, n.phase, n.cycle, n.setNo)
      && StepsAhead(s, n.phase, n.cycle, n.setNo) + 1 == StepsAhead(s, p, cycle, setNo)
      && WorkAhead(s, n.phase, n.cycle, n.setNo) + (if n.phase == Work then 1 else 0)
         == WorkAhead(s, p, cycle, setNo)
  {
    NextPhaseKeepsConsistent(s, p, cycle, setNo);
    match p
    case Preparation => MulSucc(s.cycles, s.sets - 1);
    case Work =>
    case Rest =>
    case SetRest => MulSucc(s.cycles, s.sets - (setNo + 1));
  }

  /** The phase entered at the start of a run, before the first expiry. */
  function FirstTransition(s: Settings): Transition {
    Transition(Preparation, 1, 1, s.preparation)
  }

  /** `n` expiries in a row, starting from `t`. */
  function Iterate(s: Settings, t: Transition, n: nat): Transition
    decreases n
  {
    if n == 0 then t else Iterate(s, NextPhase(s, t.phase, t.cycle, t.setNo), n - 1)
  }

  /** How many of the first `n` expiries from `t` enter a work phase. */
  function WorkPhases(s: Settings, t: Transition, n: nat): nat
    decreases n
  {
    if n == 0 then 0
    else
      var next := NextPhase(s, t.phase, t.cycle, t.setNo);
      (if next.phase == Work then 1 else 0) + WorkPhases(s, next, n - 1)
  }

  /** Any number of expiries keeps a consistent combination consistent. */
  lemma {:induction false} IterateKeepsConsistent(s: Settings, t: Transition, n: nat)
    requires PositiveSettings(s) && Consistent(s, t.phase, t.cycle, t.setNo)
    ensures var u := Iterate(s, t, n); Consistent(s, u.phase, u.cycle, u.setNo)
    decreases n
  {
    if n > 0 {
      NextPhaseKeepsConsistent(s, t.phase, t.cycle, t.setNo);
      IterateKeepsConsistent(s, NextPhase(s, t.phase, t.cycle, t.setNo), n - 1);
    }
  }

  /**
   * From any consistent combination the sequencer reaches `Completed` after
   * exactly `StepsAhead` expiries, not before, entering exactly `WorkAhead`
   * work phases on the way.
   */
  lemma {:induction false} RunCompletes(s: Settings, t: Transition)
    requires PositiveSettings(s) && Consistent(s, t.phase, t.cycle, t.setNo)
    ensures var n := StepsAhead(s, t.phase, t.cycle, t.setNo);
      && Iterate(s, t, n).phase == Completed
      && WorkPhases(s, t, n) == WorkAhead(s, t.phase, t.cycle, t.setNo)
      && forall k :: 0 <= k < n ==> Iterate(s, t, k).phase != Completed
    decreases StepsAhead(s, t.phase, t.cycle, t.setNo)
  {
    if t.phase != Completed {
      var next := NextPhase(s, t.phase, t.cycle, t.setNo);
      NextPhaseProgress(s, t.phase, t.cycle, t.setNo);
      RunCompletes(s, next);
      var n := StepsAhead(s, t.phase, t.cycle, t.setNo);
      forall k | 0 <= k < n ensures Iterate(s, t, k).phase != Completed {
        if k > 0 {
          assert Iterate(s, t, k) == Iterate(s, next, k - 1);
        }
      }
    }
  }

  /**
   * A whole run: from the first phase, with every setting at least 1, the
   * sequencer completes after exactly 2 * cycles * sets expiries, having
   * entered exactly cycles * sets work phases, and stops on the last cycle of
   * the last set.
   */
  lemma WholeRun(s: Settings)
    requires PositiveSettings(s)
    ensures var n := 2 * s.cycles * s.sets;
      && Iterate(s, FirstTransition(s), n).phase == Completed
      && Iterate(s, FirstTransition(s), n).cycle == s.cycles
      && Iterate(s, FirstTransition(s), n).setNo == s.sets
      && WorkPhases(s, FirstTransition(s), n) == s.cycles * s.sets
      && forall k :: 0 <= k < n ==> Iterate(s, FirstTransition(s), k).phase != Completed
  {
    RunCompletes(s, FirstTransition(s));
    IterateKeepsConsistent(s, FirstTransition(s), 2 * s.cycles * s.sets);
  }

  /**
   * A run never rests between cycles when a set has only one cycle, never
   * rests between sets when there is only one set, and its counters always
   * stay within their ranges.
   */
  lemma RunSkipsRestsItCannotHave(s: Settings, k: nat)
    requires PositiveSettings(s)
    ensures var u := Iterate(s, FirstTransition(s), k);
      && 1 <= u.cycle <= s.cycles
      && 1 <= u.setNo <= s.sets
      && (s.cycles == 1 ==> u.phase != Rest)
      && (s.sets == 1 ==> u.phase != SetRest)
  {
    IterateKeepsConsistent(s, FirstTransition(s), k);
  }

  /** The phases of a run with two cycles and two sets, in order. */
  lemma TwoCyclesTwoSets(s: Settings)
    requires PositiveSettings(s) && s.cycles == 2 && s.sets == 2
    ensures var t := FirstTransition(s);
      && Iterate(s, t, 1) == Transition(Work, 1, 1, s.work)
      && Iterate(s, t, 2) == Transition(Rest, 1, 1, s.rest)
      && Iterate(s, t, 3) == Transition(Work, 2, 1, s.work)
      && Iterate(s, t, 4) == Transition(SetRest, 2, 1, s.setRest)
      && Iterate(s, t, 5) == Transition(Work, 1, 2, s.work)
      && Iterate(s, t, 6) == Transition(Rest, 1, 2, s.rest)
      && Iterate(s, t, 7) == Transition(Work, 2, 2, s.work)
      && Iterate(s, t, 8) == Transition(Completed, 2, 2, 0)
  {
    var t := FirstTransition(s);
    assert Iterate(s, t, 1) == Transition(Work, 1, 1, s.work);
    assert Iterate(s, t, 2) == Iterate(s, Iterate(s, t, 1), 1);
    IterateSplit(s, t, 1, 1);
    IterateSplit(s, t, 2, 1);
    IterateSplit(s, t, 3, 1);
    IterateSplit(s, t, 4, 1);
    IterateSplit(s, t, 5, 1);
    IterateSplit(s, t, 6, 1);
    IterateSplit(s, t, 7, 1);
  }

  /** `a + b` expiries are `a` expiries followed by `b` more. */
  lemma {:induction false} IterateSplit(s: Settings, t: Transition, a: nat, b: nat)
    ensures Iterate(s, t, a + b) == Iterate(s, Iterate(s, t, a), b)
    decreases a
  {
    if a > 0 {
      IterateSplit(s, NextPhase(s, t.phase, t.cycle, t.setNo), a - 1, b);
    }
  }

  // ---------------------------------------------------------------------------
  // The record updaters

  /** The state a run starts from: preparation, first cycle of the first set, not running. */
  function Initial(s: Settings): TimerState {
    TimerState(Preparation, 1, 1, s.preparation, false, false)
  }

  /** What `start` does to the record. */
  function Started(st: TimerState): TimerState {
    st.(isRunning := true, isPaused := false)
  }

  /** What `pause` does to the record: it toggles between paused and resumed. */
  function Paused(st: TimerState): TimerState {
    st.(isPaused := !st.isPaused)
  }

  /** The cue `start` asks for, whatever the state. */
  function StartCues(): seq<Cue> {
    PhaseCues(Preparation, Preparation)
  }

  /**
   * One clock tick: count down while more than one second is left; otherwise
   * enter the next phase, with its counters and full length, and keep running
   * unless the run is complete.
   */
  function TickUpdate(s: Settings, st: TimerState): TimerState {
    if st.timeRemaining > 1 then
      st.(timeRemaining := st.timeRemaining - 1)
    else
      var next := NextPhase(s, st.phase, st.currentCycle, st.currentSet);
      st.(phase := next.phase, currentCycle := next.cycle, currentSet := next.setNo,
          timeRemaining := next.time, isRunning := next.phase != Completed)
  }

  /** The cues one clock tick asks for: a tick in the last seconds, or the cues of a phase change. */
  function TickCues(s: Settings, st: TimerState): seq<Cue> {
    (if st.timeRemaining <= 3 && st.timeRemaining > 1 then [TickCue] else [])
    + (if st.timeRemaining > 1 then []
       else
         var next := NextPhase(s, st.phase, st.currentCycle, st.currentSet);
         if next.phase != st.phase then PhaseCues(next.phase, st.phase) else [])
  }

  /**
   * The states a run can be in: positive settings, a consistent phase and
   * counters, and a time left between 1 and the phase's full length (0 once
   * complete), so the progress ring never shows more than 100%.
   */
  predicate ValidState(s: Settings, st: TimerState) {
    && PositiveSettings(s)
    && Consistent(s, st.phase, st.currentCycle, st.currentSet)
    && (if st.phase == Completed then st.timeRemaining == 0
        else 1 <= st.timeRemaining <= TimerScreen.TotalTime(s, st.phase))
  }

  /** Every updater keeps a run in its valid states, and a run starts in one. */
  lemma UpdatersKeepValid(s: Settings, st: TimerState)
    requires PositiveSettings(s)
    ensures ValidState(s, Initial(s))
    ensures ValidState(s, st) ==> ValidState(s, TickUpdate(s, st))
    ensures ValidState(s, st) ==> ValidState(s, Started(st)) && ValidState(s, Paused(st))
  {
    if ValidState(s, st) && st.timeRemaining <= 1 {
      NextPhaseKeepsConsistent(s, st.phase, st.currentCycle, st.currentSet);
    }
  }

  /** A tick with more than one second left takes exactly one second off and changes nothing else. */
  lemma TickCountsDown(s: Settings, st: TimerState)
    requires st.timeRemaining > 1
    ensures TickUpdate(s, st) == st.(timeRemaining := st.timeRemaining - 1)
    ensures TickCues(s, st) == if st.timeRemaining <= 3 then [TickCue] else []
  {
  }

  /** The tick cue sounds exactly on the ticks that start with 2 or 3 seconds left. */
  lemma TickCueWindow(s: Settings, st: TimerState)
    ensures TickCue in TickCues(s, st) <==> 2 <= st.timeRemaining <= 3
  {
  }

  /**
   * A tick with at most one second left commits the next phase, its counters
   * and its length, keeps running exactly when the run is not complete, leaves
   * pausing alone, and asks for cues only if the phase changed.
   */
  lemma TickExpires(s: Settings, st: TimerState)
    requires st.timeRemaining <= 1
    ensures var next := NextPhase(s, st.phase, st.currentCycle, st.currentSet);
      var after := TickUpdate(s, st);
      && after.phase == next.phase
      && after.currentCycle == next.cycle
      && after.currentSet == next.setNo
      && after.timeRemaining == next.time
      && after.isRunning == (next.phase != Completed)
      && after.isPaused == st.isPaused
      && (next.phase == st.phase ==> TickCues(s, st) == [])
      && (next.phase != st.phase ==> TickCues(s, st) == PhaseCues(next.phase, st.phase))
  {
  }

  /**
   * The cue of each phase change: starting work after preparation or a set
   * rest, work after a rest, a rest, the end of a set followed by the
   * announcement of the next one, and completion. Every change asks for at
   * least one cue, and none asks for a tick.
   */
  lemma TransitionCues(s: Settings, st: TimerState)
    requires ValidState(s, st) && st.timeRemaining <= 1
    ensures var to := TickUpdate(s, st).phase; var cues := TickCues(s, st);
      && (to == Work && (st.phase == Preparation || st.phase == SetRest) ==> cues == [WorkStartCue])
      && (to == Work && st.phase == Rest ==> cues == [WorkAfterRestCue])
      && (to == Rest ==> cues == [RestCue])
      && (to == SetRest ==> cues == [SetEndCue, BeforeNewSetCue])
      && (to == Completed && st.phase != Completed ==> cues == [CompletionCue])
      && (to == st.phase <==> cues == [])
      && TickCue !in cues
  {
  }

  /** A completed run stays completed: a tick changes nothing but stops the clock, and asks for no cue. */
  lemma CompletedIsAbsorbing(s: Settings, st: TimerState)
    requires ValidState(s, st) && st.phase == Completed
    ensures TickUpdate(s, st) == st.(isRunning := false)
    ensures TickCues(s, st) == []
  {
  }

  /** Pausing twice changes nothing, and pausing never touches the phase, the counters or the time. */
  lemma PauseTwiceIsIdentity(st: TimerState)
    ensures Paused(Paused(st)) == st
    ensures Paused(st).isPaused != st.isPaused
    ensures Paused(st).(isPaused := st.isPaused) == st
  {
  }

  /** Starting runs the clock, unpaused, from exactly where the record was. */
  lemma StartKeepsPosition(st: TimerState)
    ensures Started(st).isRunning && !Started(st).isPaused
    ensures Started(st).phase == st.phase && Started(st).timeRemaining == st.timeRemaining
    ensures Started(st).currentCycle == st.currentCycle && Started(st).currentSet == st.currentSet
    ensures StartCues() == [PreparationCue]
  {
  }

  // ---------------------------------------------------------------------------
  // Runs clock tick by clock tick

  /** `n` clock ticks in a row. */
  function Ticks(s: Settings, st: TimerState, n: nat): TimerState
    decreases n
  {
    if n == 0 then st else Ticks(s, TickUpdate(s, st), n - 1)
  }

  /** The state right after the current phase runs out. */
  function Expired(s: Settings, st: TimerState): TimerState {
    TickUpdate(s, st.(timeRemaining := 1))
  }

  /** `a + b` ticks are `a` ticks followed by `b` more. */
  lemma {:induction false} TicksSplit(s: Settings, st: TimerState, a: nat, b: nat)
    ensures Ticks(s, st, a + b) == Ticks(s, Ticks(s, st, a), b)
    decreases a
  {
    if a > 0 {
      TicksSplit(s, TickUpdate(s, st), a - 1, b);
    }
  }

  /**
   * A running phase lasts exactly as many ticks as it has seconds left: until
   * then only the time changes, and the last of them enters the next phase.
   */
  lemma {:induction false} TicksThroughPhase(s: Settings, st: TimerState)
    requires st.timeRemaining >= 1
    ensures Ticks(s, st, st.timeRemaining) == Expired(s, st)
    ensures forall k :: 0 <= k < st.timeRemaining ==>
      Ticks(s, st, k) == st.(timeRemaining := st.timeRemaining - k)
    decreases st.timeRemaining
  {
    var t := st.timeRemaining;
    if t > 1 {
      var st' := TickUpdate(s, st);
      assert st' == st.(timeRemaining := t - 1);
      TicksThroughPhase(s, st');
      assert Expired(s, st') == Expired(s, st);
      forall k | 0 <= k < t ensures Ticks(s, st, k) == st.(timeRemaining := t - k) {
        if k > 0 {
          assert Ticks(s, st, k) == Ticks(s, st', k - 1);
        }
      }
    }
  }

  /** The number of clock ticks until a run in state `st` completes. */
  function TicksLeft(s: Settings, st: TimerState): nat
    requires ValidState(s, st)
    decreases StepsAhead(s, st.phase, st.currentCycle, st.currentSet)
  {
    if st.phase == Completed then 0
    else
      NextPhaseProgress(s, st.phase, st.currentCycle, st.currentSet);
      UpdatersKeepValid(s, st.(timeRemaining := 1));
      st.timeRemaining + TicksLeft(s, Expired(s, st))
  }

  /**
   * A run completes after exactly `TicksLeft` ticks, on the last cycle of the
   * last set, with time 0, the clock stopped and pausing untouched; before
   * that it is never complete, and a running clock keeps running.
   */
  lemma {:induction false} TicksRunToCompletion(s: Settings, st: TimerState)
    requires ValidState(s, st)
    ensures var n := TicksLeft(s, st); var last := Ticks(s, st, n);
      && last.phase == Completed
      && last.currentCycle == s.cycles && last.currentSet == s.sets
      && last.timeRemaining == 0
      && (st.phase != Completed ==> !last.isRunning)
      && last.isPaused == st.isPaused
      && forall k :: 0 <= k < n ==>
           Ticks(s, st, k).phase != Completed && Ticks(s, st, k).isPaused == st.isPaused
           && (st.isRunning ==> Ticks(s, st, k).isRunning)
    decreases StepsAhead(s, st.phase, st.currentCycle, st.currentSet)
  {
    if st.phase != Completed {
      var t := st.timeRemaining;
      var e := Expired(s, st);
      NextPhaseProgress(s, st.phase, st.currentCycle, st.currentSet);
      UpdatersKeepValid(s, st.(timeRemaining := 1));
      TicksThroughPhase(s, st);
      TicksRunToCompletion(s, e);
      var n := TicksLeft(s, st);
      assert n == t + TicksLeft(s, e);
      TicksSplit(s, st, t, TicksLeft(s, e));
      forall k | 0 <= k < n
        ensures Ticks(s, st, k).phase != Completed && Ticks(s, st, k).isPaused == st.isPaused
        ensures st.isRunning ==> Ticks(s, st, k).isRunning
      {
        if k >= t {
          TicksSplit(s, st, t, k - t);
        }
      }
    }
  }

  /** The length of one set in ticks: its work phases and the rests between them. */
  function SetTicks(s: Settings): int {
    s.work + (s.cycles - 1) * (s.rest + s.work)
  }

  /** The length of a whole run in ticks, preparation included. */
  function TotalTicks(s: Settings): int {
    s.preparation + s.cycles * s.sets * s.work + s.sets * (s.cycles - 1) * s.rest
    + (s.sets - 1) * s.setRest
  }

  /** Ticks left, counted phase by phase: the current phase's time, then every full phase still ahead. */
  function TicksLeftByPhase(s: Settings, st: TimerState): int {
    var c, k, t := st.currentCycle, st.currentSet, st.timeRemaining;
    var setAndBreak := s.setRest + SetTicks(s);
    match st.phase
    case Preparation => t + s.sets * SetTicks(s) + (s.sets - 1) * s.setRest
    case Work => t + (s.cycles - c) * (s.rest + s.work) + (s.sets - k) * setAndBreak
    case Rest => t + s.work + (s.cycles - c - 1) * (s.rest + s.work) + (s.sets - k) * setAndBreak
    case SetRest => t + SetTicks(s) + (s.sets - k - 1) * setAndBreak
    case Completed => 0
  }

  /** Counting phase by phase, a phase's time plus what follows its end is what is left at its start. */
  lemma PhaseByPhaseStep(s: Settings, st: TimerState)
    requires ValidState(s, st) && st.phase != Completed
    ensures TicksLeftByPhase(s, st) == st.timeRemaining + TicksLeftByPhase(s, Expired(s, st))
  {
    var c, k := st.currentCycle, st.currentSet;
    var rw, sb := s.rest + s.work, s.setRest + SetTicks(s);
    var e := Expired(s, st);
    match st.phase
    case Preparation =>
      assert e == st.(phase := Work, timeRemaining := s.work, isRunning := true);
      SetsMultiplyOut(s.sets, SetTicks(s), s.setRest);
    case Work =>
      if c < s.cycles {
        assert e == st.(phase := Rest, timeRemaining := s.rest, isRunning := true);
        MulSucc(rw, s.cycles - c - 1);
      } else if k < s.sets {
        assert e == st.(phase := SetRest, timeRemaining := s.setRest, isRunning := true);
        MulSucc(sb, s.sets - k - 1);
      } else {
        assert e.phase == Completed;
      }
    case Rest =>
      assert e == st.(phase := Work, currentCycle := c + 1, timeRemaining := s.work, isRunning := true);
    case SetRest =>
      assert e == st.(phase := Work, currentCycle := 1, currentSet := k + 1, timeRemaining := s.work, isRunning := true);
  }

  /** `n` sets of length `len` with `n - 1` breaks of length `b` between them. */
  lemma SetsMultiplyOut(n: int, len: int, b: int)
    ensures n * len + (n - 1) * b == len + (n - 1) * (b + len)
  {
    MulSucc(len, n - 1);
    assert (n - 1) * (b + len) == (n - 1) * b + (n - 1) * len;
  }

  /** The ticks left agree with the phase-by-phase count. */
  lemma {:induction false} TicksLeftIsSumOfPhases(s: Settings, st: TimerState)
    requires ValidState(s, st)
    ensures TicksLeft(s, st) == TicksLeftByPhase(s, st)
    decreases StepsAhead(s, st.phase, st.currentCycle, st.currentSet)
  {
    if st.phase != Completed {
      var e := Expired(s, st);
      NextPhaseProgress(s, st.phase, st.currentCycle, st.currentSet);
      UpdatersKeepValid(s, st.(timeRemaining := 1));
      TicksLeftIsSumOfPhases(s, e);
      PhaseByPhaseStep(s, st);
    }
  }

  /** A whole run takes preparation + cycles*sets*work + sets*(cycles-1)*rest + (sets-1)*setRest ticks. */
  lemma WholeRunTicks(s: Settings)
    requires PositiveSettings(s)
    ensures TicksLeft(s, Initial(s)) == TotalTicks(s)
  {
    UpdatersKeepValid(s, Initial(s));
    TicksLeftIsSumOfPhases(s, Initial(s));
    var c, k := s.cycles, s.sets;
    assert k * SetTicks(s) == k * s.work + k * ((c - 1) * (s.rest + s.work));
    assert k * ((c - 1) * (s.rest + s.work)) == k * (c - 1) * s.rest + k * (c - 1) * s.work;
    assert k * s.work + k * (c - 1) * s.work == c * k * s.work;
  }

  /**
   * Preparation 3, work 5, rest 2, two cycles, set rest 10, one set: once
   * started, the run is complete after 3 + 5 + 2 + 5 = 15 ticks, on cycle 2
   * of set 1, and the clock keeps running until then.
   */
  lemma FifteenTickRun()
    ensures var s := Settings(3, 5, 2, 2, 10, 1); var st := BeginRun(s).state;
      && Ticks(s, st, 15) == TimerState(Completed, 2, 1, 0, false, false)
      && forall k :: 0 <= k < 15 ==> Ticks(s, st, k).phase != Completed && Ticks(s, st, k).isRunning
  {
    var s := Settings(3, 5, 2, 2, 10, 1);
    var st := BeginRun(s).state;
    UpdatersKeepValid(s, Initial(s));
    WholeRunTicks(s);
    TicksRunToCompletion(s, st);
    assert TicksLeft(s, st) == TicksLeft(s, Initial(s)) by {
      TicksLeftIsSumOfPhases(s, st);
      TicksLeftIsSumOfPhases(s, Initial(s));
    }
  }

  // ---------------------------------------------------------------------------
  // Where the run's first state comes from

  /** What the hook remembers between renders: the settings it was last given and its state record. */
  datatype Hook = Hook(settings: Settings, state: TimerState)

  /** The first render: the state record is derived from the settings of that render. */
  function Mount(s: Settings): Hook {
    Hook(s, Initial(s))
  }

  /**
   * A new run as the page starts it: it renders the hook with the run's
   * settings and then calls `start`. The state record is only derived from
   * settings at the first render and at `stop`, so the run keeps counting down
   * whatever preparation time those earlier settings had.
   */
  function BeginRunAsWritten(h: Hook, s: Settings): Hook {
    Hook(s, Started(h.state))
  }

  /** A new run whose first state is derived from the settings it runs with. */
  function BeginRun(s: Settings): Hook {
    Hook(s, Started(Initial(s)))
  }

  /**
   * As written, a first run with preparation 5 counts down from the default
   * 15, more than its phase's full length.
   */
  lemma StalePreparationTime()
    ensures var defaults := Settings(15, 30, 10, 5, 120, 3);
      var chosen := Settings(5, 30, 10, 5, 120, 3);
      var h := BeginRunAsWritten(Mount(defaults), chosen);
      && h.state.timeRemaining == 15
      && TimerScreen.TotalTime(chosen, h.state.phase) == 5
      && !ValidState(chosen, h.state)
  {
  }

  /**
   * A run begun from its own settings starts valid: in preparation, on the
   * first cycle of the first set, with the full preparation time, running.
   */
  lemma BeginRunStartsValid(s: Settings)
    requires PositiveSettings(s)
    ensures var st := BeginRun(s).state;
      && ValidState(s, st)
      && st.phase == Preparation && st.timeRemaining == s.preparation
      && st.currentCycle == 1 && st.currentSet == 1
      && st.isRunning && !st.isPaused
  {
  }

  // ---------------------------------------------------------------------------
  // The engine

  /**
   * The running timer: the six fields of the state record, the settings of the
   * run, and the cue names handed to the cue player so far, oldest first.
   * A run gets its own engine, built from the run's settings (see `BeginRun`).
   */
  class TimerEngine {
    const settings: Settings
    var phase: Phase
    var currentCycle: int
    var currentSet: int
    var timeRemaining: int
    var isRunning: bool
    var isPaused: bool
    var cues: seq<Cue>

    function State(): TimerState
      reads this
    {
      TimerState(phase, currentCycle, currentSet, timeRemaining, isRunning, isPaused)
    }

    ghost predicate Valid()
      reads this
    {
      ValidState(settings, State())
    }

    constructor (s: Settings)
      requires PositiveSettings(s)
      ensures settings == s
      ensures Valid() && State() == Initial(s) && cues == []
    {
      settings := s;
      phase, currentCycle, currentSet := Preparation, 1, 1;
      timeRemaining := s.preparation;
      isRunning, isPaused := false, false;
      cues := [];
    }

    /** One tick of the one-second clock, which only ticks while running and not paused. */
    method Tick()
      requires Valid() && isRunning && !isPaused
      modifies this
      ensures Valid()
      ensures State() == TickUpdate(settings, old(State()))
      ensures cues == old(cues) + TickCues(settings, old(State()))
    {
      UpdatersKeepValid(settings, State());
      if timeRemaining <= 3 && timeRemaining > 1 {
        cues := cues + [TickCue];
      }
      if timeRemaining > 1 {
        timeRemaining := timeRemaining - 1;
      } else {
        var next := NextPhase(settings, phase, currentCycle, currentSet);
        if next.phase != phase {
          cues := cues + PhaseCues(next.phase, phase);
        }
        phase, currentCycle, currentSet := next.phase, next.cycle, next.setNo;
        timeRemaining := next.time;
        isRunning := next.phase != Completed;
      }
    }

    /** Runs the clock from where the record is, and asks for the preparation cue. */
    method Start()
      requires Valid()
      modifies this
      ensures Valid()
      ensures State() == Started(old(State()))
      ensures cues == old(cues) + StartCues()
    {
      UpdatersKeepValid(settings, State());
      cues := cues + PhaseCues(Preparation, Preparation);
      isRunning, isPaused := true, false;
    }

    /** Toggles between paused and resumed. */
    method Pause()
      requires Valid()
      modifies this
      ensures Valid()
      ensures State() == Paused(old(State()))
      ensures cues == old(cues)
    {
      UpdatersKeepValid(settings, State());
      isPaused := !isPaused;
    }

    /** Stops the clock and discards the run's progress. */
    method Stop()
      requires Valid()
      modifies this
      ensures Valid()
      ensures State() == Initial(settings)
      ensures cues == old(cues)
    {
      UpdatersKeepValid(settings, State());
      phase, currentCycle, currentSet := Preparation, 1, 1;
      timeRemaining := settings.preparation;
      isRunning, isPaused := false, false;
    }

    /** The same as `Stop`. */
    method Reset()
      requires Valid()
      modifies this
      ensures Valid()
      ensures State() == Initial(settings)
      ensures cues == old(cues)
    {
      Stop();
    }
  }
}
