/**
 * The shared generator protocol of `IGeneratorComponent`
 * (src/model/generator_interface.py): the inclusive setpoint bound check,
 * the droop-gain inverse and the power-sharing law. The generator classes
 * (modules GridFormingUnit and RenewableUnit) hold the base class's fields
 * themselves and apply these definitions.
 */
module GeneratorInterface {
  import opened Wrappers
  import opened Timeseries

  /** The `power_setpoint` setter's check: `min <= v <= max`, else `ValueError`. */
  function CheckSetpoint(bounds: Bounds, v: real): (r: Outcome)
    ensures r.Pass? <==> bounds.min <= v <= bounds.max
    ensures r.Fail? ==> r.error == ValueError
  {
    if bounds.min <= v <= bounds.max then Pass else Fail(ValueError)
  }

  /** `droop_gain_inverse`: 0 for a zero gain, else the reciprocal. */
  function DroopGainInverse(gain: real): (r: real)
    ensures gain == 0.0 ==> r == 0.0
    ensures gain != 0.0 ==> r * gain == 1.0
    ensures gain >= 0.0 ==> r >= 0.0
  {
    if gain == 0.0 then 0.0 else 1.0 / gain
  }

  /**
   * `participate_power_sharing`: the new `power_sharing` for frequency
   * deviation `deltaFrequency` and droop-gain inverse `inverse`. A
   * non-negative inverse always gives `−Δf·inverse` (0 for a zero inverse).
   */
  function PowerSharing(inverse: real, deltaFrequency: real): (r: real)
    ensures inverse >= 0.0 ==> r == -deltaFrequency * inverse
    ensures inverse <= 0.0 ==> r == 0.0
  {
    if inverse > 0.0 then -deltaFrequency * inverse else 0.0
  }
}
