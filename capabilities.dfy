/**
  Reading a device's capability list, as both discovery and refresh do:
  the on/off value is the one of the last on/off capability (false when
  there is none), and a range capability for brightness ends the read
  with a fault, because the code then indexes the instance name (a string)
  with the key "value".
*/
module Capabilities {
  import opened Wrappers
  import opened VendorApi

  /** The fault a brightness capability raises (a Python TypeError: a string indexed by a key). */
  datatype Fault = BrightnessTypeError

  predicate IsOnOff(c: Capability) {
    c.capType == EnabledState
  }

  predicate IsBrightnessRange(c: Capability) {
    c.capType == TypeRange && c.state.instance == BrightnessStateInstance
  }

  /** Some capability is a range capability for brightness. */
  predicate ReportsBrightness(caps: seq<Capability>) {
    exists i :: 0 <= i < |caps| && IsBrightnessRange(caps[i])
  }

  /** The state value of the last on/off capability, if there is one. */
  function LastOnOff(caps: seq<Capability>): Option<Value> {
    if caps == [] then None
    else if IsOnOff(caps[|caps| - 1]) then Some(caps[|caps| - 1].state.value)
    else LastOnOff(caps[..|caps| - 1])
  }

  /** The on/off state a read yields: the last on/off value, or false. */
  function Enabled(caps: seq<Capability>): Value {
    LastOnOff(caps).GetOr(Bool(false))
  }

  /** LastOnOff is None exactly when no capability is on/off. */
  lemma {:induction false} LastOnOffAbsent(caps: seq<Capability>)
    ensures LastOnOff(caps).None? <==> forall i :: 0 <= i < |caps| ==> !IsOnOff(caps[i])
  {
    if caps != [] {
      var n := |caps| - 1;
      var init := caps[..n];
      LastOnOffAbsent(init);
      assert forall i :: 0 <= i < n ==> init[i] == caps[i];
    }
  }

  /** When some capability is on/off, LastOnOff is the value of the one no later on/off follows. */
  lemma {:induction false} LastOnOffIsLast(caps: seq<Capability>, i: nat)
    requires i < |caps| && IsOnOff(caps[i])
    requires forall j :: i < j < |caps| ==> !IsOnOff(caps[j])
    ensures LastOnOff(caps) == Some(caps[i].state.value)
  {
    var n := |caps| - 1;
    if i < n {
      assert !IsOnOff(caps[n]);
      var init := caps[..n];
      assert init[i] == caps[i];
      assert forall j :: i < j < |init| ==> init[j] == caps[j];
      LastOnOffIsLast(init, i);
    }
  }

  /** The locals the capability loop leaves behind. */
  datatype Reading = Reading(enabled: Value, brightness: Option<int>)

  /**
    The capability loop of discovery (light.py:323-330) and refresh
    (light.py:292-299). The two loops test the capability types in
    opposite order, which is immaterial: a capability has one type.
  */
  method ReadCapabilities(caps: seq<Capability>) returns (r: Result<Reading, Fault>)
    ensures r.Success? <==> !ReportsBrightness(caps)
    ensures r.Success? ==> r.value == Reading(Enabled(caps), None)
  {
    var enabled := Bool(false);
    var brightness: Option<int> := None;
    for i := 0 to |caps|
      invariant forall j :: 0 <= j < i ==> !IsBrightnessRange(caps[j])
      invariant enabled == Enabled(caps[..i])
    {
      var capability := caps[i];
      if capability.capType == EnabledState {
        enabled := capability.state.value;
      }
      if capability.capType == TypeRange {
        if capability.state.instance == BrightnessStateInstance {
          // the percentage is looked up as capability.state.instance["value"]
          return Failure(BrightnessTypeError);
        }
      }
      assert caps[..i + 1][..i] == caps[..i];
    }
    assert caps[..|caps|] == caps;
    return Success(Reading(enabled, brightness));
  }
}
