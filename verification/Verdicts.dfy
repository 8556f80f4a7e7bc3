/** The words a verdict can use. */
module Verdicts {
  datatype State = Healthy | Insufficient | Watch | Alarm | Escalating | Change

  /** What the banks alone can say of a calibrated asset. */
  datatype Level = HealthyLevel | WatchLevel | AlarmLevel

  /** What a tick reports of an asset: its state, the evidence behind it and the channels it is attributed to. */
  datatype Verdict = Verdict(state: State, evidence: real, attribution: seq<string>)

  function LevelState(l: Level): State {
    match l
    case HealthyLevel => Healthy
    case WatchLevel => Watch
    case AlarmLevel => Alarm
  }
}
