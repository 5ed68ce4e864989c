/**
 * `GetDeviceInfoUseCase`: each invocation is a flow that emits `Loading`,
 * then asks the repository for a snapshot and emits `Success` with it, or
 * `Error` with the exception's message when the repository throws.  The
 * repository's two methods both return `collectDeviceInfo()`, so its
 * outcome is a `Collector.Collection`; the flow is the list of states it
 * emits.
 */
module UseCase {
  import opened KotlinRuntime
  import opened DeviceInfoModel
  import opened UiModels
  import opened Collector

  const UNKNOWN_ERROR: string := "Unknown error occurred"

  /** `e.message ?: "Unknown error occurred"`. */
  function ErrorMessage(message: Option<string>): string
  {
    if message.Some? then message.value else UNKNOWN_ERROR
  }

  /**
   * The states one collection of `invoke()` or `refresh()` emits, given
   * what the repository call did.  (`refresh()` differs only in calling
   * `refreshDeviceInfo`, which is the same collector call.)
   */
  function Emissions(outcome: Collection): (states: seq<UiState>)
    ensures |states| == 2 && states[0] == Loading
  {
    match outcome
    case Collected(info) => [Loading, Success(info)]
    case Aborted(message) => [Loading, Error(ErrorMessage(message))]
  }

  /**
   * The flow emits `Loading` once, first, then exactly one of `Success`
   * and `Error`: `Success(d)` is emitted iff the repository returned `d`,
   * `Error(m)` iff it threw, with `m` its message or the fallback.
   */
  lemma EmissionsFacts(outcome: Collection, d: DeviceInfo, m: string)
    ensures Success(d) in Emissions(outcome) <==> outcome == Collected(d)
    ensures Error(m) in Emissions(outcome) <==> outcome.Aborted? && m == ErrorMessage(outcome.message)
    ensures forall i :: 0 < i < |Emissions(outcome)| ==> Emissions(outcome)[i] != Loading
    ensures !((exists i :: 0 <= i < |Emissions(outcome)| && Emissions(outcome)[i].Success?) &&
              (exists i :: 0 <= i < |Emissions(outcome)| && Emissions(outcome)[i].Error?))
  {
  }

  /**
   * End to end: the flow ends in `Success` exactly when none of the
   * collector's throwing probes threw.
   */
  lemma EmissionsOfCollection(r: Readings)
    ensures Emissions(DeviceInfoOf(r))[1].Success? <==>
              !(r.memory.Threw? || r.battery.Threw? || r.display.Threw? || r.network.Threw? || r.sensors.Threw?)
  {
    CollectionFacts(r);
  }
}
