/** The battery panel (app/components/BatteryStatus.tsx): the colour band of
    the level badge and of the level bar, the bar width and the ETA label. */
module BatteryStatus {

  /** The three colour bands. */
  datatype Band = Green | Yellow | Red

  /** The threshold rule of the panel: above 50 green, above 20 yellow, else red. */
  function BandOf(level: real): (b: Band)
    ensures b == Green <==> level > 50.0
    ensures b == Yellow <==> 20.0 < level <= 50.0
    ensures b == Red <==> level <= 20.0
  {
    if level > 50.0 then Green else if level > 20.0 then Yellow else Red
  }

  /** The two boundaries belong to the lower band. */
  lemma BandBoundaries()
    ensures BandOf(50.0) == Yellow && BandOf(20.0) == Red
    ensures BandOf(15.0) == Red && BandOf(60.0) == Green
  {
  }

  /** Higher levels never fall in a worse band. */
  function Rank(b: Band): nat
  {
    match b
    case Red => 0
    case Yellow => 1
    case Green => 2
  }

  lemma BandMonotone(a: real, b: real)
    requires a <= b
    ensures Rank(BandOf(a)) <= Rank(BandOf(b))
  {
  }

  /** The badge's classes, as the component's own conditional chain computes them. */
  function BadgeClass(level: real): string
  {
    if level > 50.0 then "border-green-700 text-green-500"
    else if level > 20.0 then "border-yellow-700 text-yellow-500"
    else "border-red-700 text-red-500"
  }

  /** The bar's class, from its own conditional chain. */
  function BarClass(level: real): string
  {
    if level > 50.0 then "bg-green-700" else if level > 20.0 then "bg-yellow-700" else "bg-red-700"
  }

  function BadgeClassFor(b: Band): string
  {
    match b
    case Green => "border-green-700 text-green-500"
    case Yellow => "border-yellow-700 text-yellow-500"
    case Red => "border-red-700 text-red-500"
  }

  function BarClassFor(b: Band): string
  {
    match b
    case Green => "bg-green-700"
    case Yellow => "bg-yellow-700"
    case Red => "bg-red-700"
  }

  /** Both chains are the band rule, so badge and bar always show the same band. */
  lemma BadgeAndBarAgree(level: real)
    ensures BadgeClass(level) == BadgeClassFor(BandOf(level))
    ensures BarClass(level) == BarClassFor(BandOf(level))
  {
  }

  /** The bar is `level` percent wide: the level is not clamped. */
  function BarWidthPercent(level: real): (w: real)
    ensures w == level
    ensures 0.0 <= level <= 100.0 ==> 0.0 <= w <= 100.0
    // a level outside 0..100 gives a width outside it as well
    ensures level > 100.0 ==> w > 100.0
    ensures level < 0.0 ==> w < 0.0
  {
    level
  }

  /** A higher level never gives a narrower bar. */
  lemma BarWidthMonotone(a: real, b: real)
    requires a <= b
    ensures BarWidthPercent(a) <= BarWidthPercent(b)
  {
  }

  /** The ETA label is a fixed text that does not depend on the level. */
  const EtaLabel: string := "00:22:15"
}
