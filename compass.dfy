/** The compass and attitude panel (app/components/Compass.tsx): the
    attitude held in component state, the twelve tick marks of the dial and
    the roll, pitch and yaw bars. Numbers are modelled as reals. */
module Compass {

  datatype Attitude = Attitude(roll: real, pitch: real, yaw: real, heading: real)

  /** The component state, replaced wholesale by each "attitude" event. */
  class AttitudeView {
    var attitude: Attitude

    constructor ()
      ensures attitude == Attitude(0.0, 0.0, 0.0, 0.0)
    {
      attitude := Attitude(0.0, 0.0, 0.0, 0.0);
    }

    /** `setAttitude(data)`: all four fields come from the event. */
    method OnAttitude(data: Attitude)
      modifies this
      ensures attitude == data
    {
      attitude := data;
    }
  }

  function Abs(x: real): real
  {
    if x < 0.0 then -x else x
  }

  function Min(a: real, b: real): real
  {
    if a <= b then a else b
  }

  /** A bar's style: `width` and `marginLeft`, both in percent. */
  datatype Bar = Bar(width: real, marginLeft: real)

  /** `width: min(|angle| * scale, 100)%`; a negative angle anchors the bar at
      the right end (`marginLeft: 100 - width`), otherwise at the left. */
  function AngleBar(angle: real, scale: real): (b: Bar)
    requires scale > 0.0
    ensures 0.0 <= b.width <= 100.0
    ensures b.width == 100.0 <==> Abs(angle) * scale >= 100.0
    ensures b.width < 100.0 ==> b.width == Abs(angle) * scale
    ensures angle < 0.0 ==> b.marginLeft + b.width == 100.0
    ensures angle >= 0.0 ==> b.marginLeft == 0.0
    ensures 0.0 <= b.marginLeft <= 100.0
  {
    var width := Min(Abs(angle) * scale, 100.0);
    Bar(width, if angle < 0.0 then 100.0 - Min(Abs(angle) * scale, 100.0) else 0.0)
  }

  const RollPitchScale: real := 2.0
  const YawScale: real := 0.5

  function RollBar(a: Attitude): Bar { AngleBar(a.roll, RollPitchScale) }
  function PitchBar(a: Attitude): Bar { AngleBar(a.pitch, RollPitchScale) }
  function YawBar(a: Attitude): Bar { AngleBar(a.yaw, YawScale) }

  /** The width does not depend on the sign of the angle. */
  lemma AngleBarSymmetric(angle: real, scale: real)
    requires scale > 0.0
    ensures AngleBar(angle, scale).width == AngleBar(-angle, scale).width
  {
  }

  /** The roll and pitch bars fill at 50 degrees, the yaw bar at 200. */
  lemma BarsSaturate(a: Attitude)
    ensures RollBar(a).width == 100.0 <==> Abs(a.roll) >= 50.0
    ensures PitchBar(a).width == 100.0 <==> Abs(a.pitch) >= 50.0
    ensures YawBar(a).width == 100.0 <==> Abs(a.yaw) >= 200.0
  {
  }

  const TickCount: nat := 12

  /** A tick mark: its rotation in degrees and its height and top offset in pixels. */
  datatype Tick = Tick(rotation: int, heightPx: nat, topPx: nat)

  /** Tick `i`: `angle = i * 30 - 90`, drawn rotated by `angle + 90`; every
      third one is a long cardinal tick. */
  function TickAt(i: nat): Tick
  {
    var angle := i * 30 - 90;
    var isCardinal := i % 3 == 0;
    Tick(angle + 90, if isCardinal then 12 else 8, if isCardinal then 2 else 4)
  }

  function Ticks(): (ts: seq<Tick>)
    ensures |ts| == TickCount
    ensures forall i :: 0 <= i < |ts| ==> ts[i] == TickAt(i)
  {
    seq(TickCount, i requires 0 <= i => TickAt(i))
  }

  predicate Cardinal(t: Tick)
  {
    t.heightPx == 12
  }

  /** Tick i is turned by 30·i degrees; exactly the ticks at 0, 90, 180 and
      270 degrees are the 12px cardinal ones, all other ticks are 8px. */
  lemma TickGeometry()
    ensures forall i :: 0 <= i < |Ticks()| ==> Ticks()[i].rotation == 30 * i
    ensures forall i :: 0 <= i < |Ticks()| ==> (Cardinal(Ticks()[i]) <==> i % 3 == 0)
    ensures forall i :: 0 <= i < |Ticks()| ==> Ticks()[i].heightPx == 12 || Ticks()[i].heightPx == 8
    ensures (set i | 0 <= i < |Ticks()| && Cardinal(Ticks()[i]) :: Ticks()[i].rotation) == {0, 90, 180, 270}
  {
    var ts := Ticks();
    var cardinals := set i | 0 <= i < |ts| && Cardinal(ts[i]) :: ts[i].rotation;
    assert ts[0].rotation == 0 && ts[3].rotation == 90 && ts[6].rotation == 180 && ts[9].rotation == 270;
    assert Cardinal(ts[0]) && Cardinal(ts[3]) && Cardinal(ts[6]) && Cardinal(ts[9]);
    forall r | r in cardinals
      ensures r in {0, 90, 180, 270}
    {
      var i :| 0 <= i < |ts| && Cardinal(ts[i]) && ts[i].rotation == r;
      assert i == 0 || i == 3 || i == 6 || i == 9;
    }
  }
}
