/** The records shared by the timer's hook and screens (src/types/timer.ts). */
module TimerTypes {

  /** The six user settings: four durations in whole seconds and two repeat counts. */
  datatype Settings = Settings(
    preparation: int,
    work: int,
    rest: int,
    cycles: int,
    setRest: int,
    sets: int)

  /** The stage of a workout; `Completed` is terminal. */
  datatype Phase = Preparation | Work | Rest | SetRest | Completed

  /** The observable state of a run. */
  datatype TimerState = TimerState(
    phase: Phase,
    currentCycle: int,
    currentSet: int,
    timeRemaining: int,
    isRunning: bool,
    isPaused: bool)
}
