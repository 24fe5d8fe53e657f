/** The busy-indicator bracket around every background workflow: a busy
    indicator with a `running` property and the `enabled` flags of the
    controls that are locked while the workflow runs. */
module BusyIndicators {

  /** The QML busy indicator; the Go code passes it as a possibly nil object. */
  class BusyIndicator {
    var running: bool

    constructor (running: bool)
      ensures this.running == running
    {
      this.running := running;
    }
  }

  /** The GUI is in state `busy`: a present indicator spins exactly when busy,
      and every control is enabled exactly when not busy. */
  ghost predicate Busy(indicator: BusyIndicator?, enabled: array<bool>, busy: bool)
    reads indicator, enabled
  {
    && (indicator != null ==> indicator.running == busy)
    && forall i :: 0 <= i < enabled.Length ==> enabled[i] == !busy
  }

  method EnableAllObjects(enabled: array<bool>)
    modifies enabled
    ensures forall i :: 0 <= i < enabled.Length ==> enabled[i]
  {
    for i := 0 to enabled.Length
      invariant forall k :: 0 <= k < i ==> enabled[k]
    {
      enabled[i] := true;
    }
  }

  method DisableAllObjects(enabled: array<bool>)
    modifies enabled
    ensures forall i :: 0 <= i < enabled.Length ==> !enabled[i]
  {
    for i := 0 to enabled.Length
      invariant forall k :: 0 <= k < i ==> !enabled[k]
    {
      enabled[i] := false;
    }
  }

  /** Enters (`run`) or leaves (`!run`) the busy state. */
  method ToggleIndicatorAndObjects(indicator: BusyIndicator?, enabled: array<bool>, run: bool)
    modifies indicator, enabled
    ensures Busy(indicator, enabled, run)
  {
    if run {
      if indicator != null {
        indicator.running := true;
      }
      if enabled.Length > 0 {
        DisableAllObjects(enabled);
      }
    } else {
      if indicator != null {
        indicator.running := false;
      }
      if enabled.Length > 0 {
        EnableAllObjects(enabled);
      }
    }
  }
}
