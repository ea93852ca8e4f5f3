/** The gauge dial (components/Gauge.tsx): the clamped value that fills the arc, the colour
    picked from the raw value, and the pulsing badge. */
module Gauge {
  import opened Types
  import Dashboard

  const GaugeMax := 1000

  /** `Math.min(Math.max(value, 0), 1000)`: the value pulled into [0, 1000]. */
  function Normalize(value: int): (r: int)
    ensures 0 <= r <= GaugeMax
    ensures 0 <= value <= GaugeMax ==> r == value
    ensures value < 0 ==> r == 0
    ensures value > GaugeMax ==> r == GaugeMax
  {
    var atLeastZero := if value > 0 then value else 0;
    if atLeastZero < GaugeMax then atLeastZero else GaugeMax
  }

  lemma NormalizeIdempotent(value: int)
    ensures Normalize(Normalize(value)) == Normalize(value)
  {
  }

  lemma NormalizeMonotone(a: int, b: int)
    requires a <= b
    ensures Normalize(a) <= Normalize(b)
  {
  }

  /** The arc and the reading's colours. */
  datatype GaugeColour = Green | Amber | Red

  /** The colour cascade: green, overwritten by amber above 200, overwritten by red above 500.
      It reads the raw value, not the clamped one. */
  function Colour(value: int): (r: GaugeColour)
    ensures r == Green <==> value <= 200
    ensures r == Amber <==> 200 < value <= 500
    ensures r == Red <==> value > 500
  {
    var start := Green;
    var afterAmber := if value > 200 then Amber else start;
    if value > 500 then Red else afterAmber
  }

  /** The colour that stands for each tier. */
  function TierColour(level: AlertLevel): GaugeColour
  {
    match level
    case Safe => Green
    case Caution => Amber
    case Danger => Red
  }

  /** The dial's colour always agrees with the tier of the caption printed beneath it. */
  lemma ColourMatchesTier(value: int)
    ensures Colour(value) == TierColour(Dashboard.Classify(value))
  {
  }

  /** Out-of-range readings keep the colour of their raw value even though the arc is clamped. */
  lemma ColourUsesRawValue()
    ensures Colour(1500) == Red && Normalize(1500) == GaugeMax
    ensures Colour(-5) == Green && Normalize(-5) == 0
  {
  }

  /** The label badge pulses red above 500. */
  function BadgePulses(value: int): (r: bool)
    ensures r <==> Colour(value) == Red
    ensures r <==> Dashboard.Classify(value) == Danger
  {
    value > 500
  }
}
