/**
 The per-frame scalar state of the `Birds` class in src/scripts/Birds.js:
 the wall clock, the clamped time step, the raw pointer offset and the
 predator uniform derived from it.

 JavaScript numbers are modelled as exact reals. The one place where the
 source can leave the finite numbers is a division by a window half-extent
 of zero, which `Num` records instead of excluding it.
 */
module Frame {

  /** A JavaScript number that is either finite or the result of dividing by
      zero (an infinity or NaN). */
  datatype Num = Finite(value: real) | NonFinite

  /** `a / b` in JavaScript, for finite `a` and `b`. */
  function Div(a: real, b: real): (r: Num)
    ensures b != 0.0 <==> r.Finite?
    ensures r.Finite? ==> r.value * b == a
  {
    if b == 0.0 then NonFinite else Finite(a / b)
  }

  /** The `predator` uniform of the velocity kernel. */
  datatype Vec3 = Vec3(x: Num, y: Num, z: Num)

  /** A material's `time` and `delta` uniforms. */
  datatype Clock = Clock(time: real, delta: real)

  /** The fields of a `Birds` instance that the frame driver reads and
      writes. `now` and `delta` are only assigned by `update`. */
  datatype Birds = Birds(
    windowHalfX: real,
    windowHalfY: real,
    last: real,
    now: real,
    delta: real,
    mouseX: real,
    mouseY: real,
    predator: Vec3,
    positionClock: Clock,
    velocityClock: Clock,
    birdClock: Clock)

  /** Pointer value stored after each frame: "far away". */
  const Sentinel: real := 10000.0

  /** Milliseconds per time unit of `delta`. */
  const MillisPerUnit: real := 1000.0

  /** Largest time step handed to the kernels. */
  const MaxDelta: real := 1.0

  /** The constructor together with the uniform initial values: the window
      half-extents, the start time, a zero pointer, a zero predator, and the
      time/delta pairs of the three materials. */
  function Init(innerWidth: real, innerHeight: real, start: real): (b: Birds)
    ensures b.windowHalfX * 2.0 == innerWidth && b.windowHalfY * 2.0 == innerHeight
    ensures b.last == start
    ensures b.mouseX == 0.0 && b.mouseY == 0.0
    ensures b.predator == Vec3(Finite(0.0), Finite(0.0), Finite(0.0))
    ensures b.positionClock == Clock(0.0, 0.0)
    ensures b.velocityClock == Clock(1.0, 0.0) && b.birdClock == Clock(1.0, 0.0)
  {
    Birds(innerWidth / 2.0, innerHeight / 2.0, start, start, 0.0, 0.0, 0.0,
          Vec3(Finite(0.0), Finite(0.0), Finite(0.0)),
          Clock(0.0, 0.0), Clock(1.0, 0.0), Clock(1.0, 0.0))
  }

  /** `onDocumentMouseMove` run with `this` bound to the `Birds` instance:
      the pointer is stored as an offset from the window centre. */
  function OnMouseMove(b: Birds, clientX: real, clientY: real): (r: Birds)
    ensures r.mouseX + b.windowHalfX == clientX
    ensures r.mouseY + b.windowHalfY == clientY
    ensures r.(mouseX := b.mouseX, mouseY := b.mouseY) == b
  {
    b.(mouseX := clientX - b.windowHalfX, mouseY := clientY - b.windowHalfY)
  }

  /** The time step `update` derives from the wall clock. */
  function ClampedDelta(last: real, now: real): (d: real)
    ensures d <= MaxDelta
    ensures d == MaxDelta || d == (now - last) / MillisPerUnit
    ensures (now - last) / MillisPerUnit <= MaxDelta ==> d == (now - last) / MillisPerUnit
    ensures d <= (now - last) / MillisPerUnit
  {
    var d := (now - last) / MillisPerUnit;
    if d > MaxDelta then MaxDelta else d
  }

  /** The predator uniform for a pointer offset: the offset normalised by the
      window half-extents and halved, with y flipped and z zero. */
  function PredatorFor(b: Birds, mouseX: real, mouseY: real): (p: Vec3)
    ensures p.z == Finite(0.0)
    ensures b.windowHalfX != 0.0 ==> p.x.Finite? && p.x.value * b.windowHalfX == 0.5 * mouseX
    ensures b.windowHalfY != 0.0 ==> p.y.Finite? && p.y.value * b.windowHalfY == -0.5 * mouseY
    ensures b.windowHalfX == 0.0 ==> p.x == NonFinite
    ensures b.windowHalfY == 0.0 ==> p.y == NonFinite
  {
    Vec3(Div(0.5 * mouseX, b.windowHalfX), Div(-0.5 * mouseY, b.windowHalfY), Finite(0.0))
  }

  /** `update` without the compute pass and the render-target lookups: the
      clock advances to `now`, every material sees the same clamped step, the
      pointer is consumed into the predator and reset to the sentinel. */
  function Update(b: Birds, now: real): (r: Birds)
    ensures r.now == now && r.last == now
    ensures r.delta <= MaxDelta
    ensures (now - b.last) / MillisPerUnit <= MaxDelta ==> r.delta == (now - b.last) / MillisPerUnit
    ensures (now - b.last) / MillisPerUnit > MaxDelta ==> r.delta == MaxDelta
    ensures r.positionClock == r.velocityClock == r.birdClock == Clock(now, r.delta)
    ensures r.predator.z == Finite(0.0)
    ensures r.predator == PredatorFor(b, b.mouseX, b.mouseY)
    ensures r.mouseX == Sentinel && r.mouseY == Sentinel
    ensures r.windowHalfX == b.windowHalfX && r.windowHalfY == b.windowHalfY
  {
    var delta := ClampedDelta(b.last, now);
    var clock := Clock(now, delta);
    b.(now := now, delta := delta, last := now,
       positionClock := clock, velocityClock := clock, birdClock := clock,
       predator := PredatorFor(b, b.mouseX, b.mouseY),
       mouseX := Sentinel, mouseY := Sentinel)
  }

  /** A wall-clock gap of five time units is cut to a step of exactly one. */
  lemma StallIsClamped(b: Birds)
    ensures Update(b, b.last + 5.0 * MillisPerUnit).delta == 1.0
  {
  }

  /** Between frames the step is measured from the previous frame's clock,
      and a clock that does not run backwards gives a step in [0, 1]. */
  lemma ConsecutiveFrames(b: Birds, t1: real, t2: real)
    requires t1 <= t2
    ensures Update(Update(b, t1), t2).delta == ClampedDelta(t1, t2)
    ensures 0.0 <= Update(Update(b, t1), t2).delta <= 1.0
  {
  }

  /** A pointer inside the window gives a predator in [-0.5, 0.5]^2 x {0}. */
  lemma PredatorInsideWindow(b: Birds, clientX: real, clientY: real, now: real)
    requires 0.0 < b.windowHalfX && 0.0 < b.windowHalfY
    requires 0.0 <= clientX <= 2.0 * b.windowHalfX && 0.0 <= clientY <= 2.0 * b.windowHalfY
    ensures Update(OnMouseMove(b, clientX, clientY), now).predator.x.Finite?
    ensures Update(OnMouseMove(b, clientX, clientY), now).predator.y.Finite?
    ensures -0.5 <= Update(OnMouseMove(b, clientX, clientY), now).predator.x.value <= 0.5
    ensures -0.5 <= Update(OnMouseMove(b, clientX, clientY), now).predator.y.value <= 0.5
    ensures Update(OnMouseMove(b, clientX, clientY), now).predator.z == Finite(0.0)
  {
    var p := Update(OnMouseMove(b, clientX, clientY), now).predator;
    var hx, hy := b.windowHalfX, b.windowHalfY;
    assert p.x.value * hx == 0.5 * (clientX - hx);
    assert p.y.value * hy == -0.5 * (clientY - hy);
    BoundedQuotient(p.x.value, hx, 0.5 * (clientX - hx));
    BoundedQuotient(p.y.value, hy, -0.5 * (clientY - hy));
  }

  lemma BoundedQuotient(q: real, h: real, a: real)
    requires 0.0 < h && q * h == a && -0.5 * h <= a <= 0.5 * h
    ensures -0.5 <= q <= 0.5
  {
  }

  /** The predator a sentinel pointer produces. */
  function SentinelPredator(b: Birds): Vec3 {
    PredatorFor(b, Sentinel, Sentinel)
  }

  /** The predator signal is momentary: a frame without pointer input after
      a frame that consumed one sees the sentinel, whatever the pointer was. */
  lemma PredatorIsMomentary(b: Birds, clientX: real, clientY: real, t1: real, t2: real)
    ensures Update(Update(OnMouseMove(b, clientX, clientY), t1), t2).predator == SentinelPredator(b)
  {
  }

  /** For any window narrower than twice the sentinel, the sentinel predator lies
      outside the [-0.5, 0.5] range of every pointer inside the window. */
  lemma SentinelIsFarAway(b: Birds)
    requires 0.0 < b.windowHalfX < Sentinel
    ensures SentinelPredator(b).x.Finite? && SentinelPredator(b).x.value > 0.5
  {
  }

  // ---------------------------------------------------------------------------
  // The listener as registered: `this` is not the Birds instance
  // ---------------------------------------------------------------------------

  /** What a host delivers to the driver: pointer moves and animation frames. */
  datatype Event = Move(clientX: real, clientY: real) | Tick(time: real)

  /** The driver with the handler bound to the instance. The window
      half-extents never change; after a final frame the clock stands at that
      frame's time and the pointer at the sentinel; after a final move the
      pointer is that move's offset from the window centre. */
  function Run(b: Birds, events: seq<Event>): (r: Birds)
    ensures r.windowHalfX == b.windowHalfX && r.windowHalfY == b.windowHalfY
    ensures events != [] && events[|events| - 1].Tick? ==>
      r.last == events[|events| - 1].time && r.mouseX == Sentinel && r.mouseY == Sentinel
    ensures events != [] && events[|events| - 1].Move? ==>
      r.mouseX + b.windowHalfX == events[|events| - 1].clientX &&
      r.mouseY + b.windowHalfY == events[|events| - 1].clientY
    decreases |events|
  {
    if events == [] then b
    else
      var b' := match events[0]
        case Move(x, y) => OnMouseMove(b, x, y)
        case Tick(t) => Update(b, t);
      Run(b', events[1..])
  }

  /** The driver as the source registers it: the listener is passed unbound,
      so its assignments land on the `document` object and a pointer move
      leaves the `Birds` instance as it was. Without a frame the instance is
      untouched; after any frame its pointer is the sentinel. */
  function RunAsWritten(b: Birds, events: seq<Event>): (r: Birds)
    ensures r.windowHalfX == b.windowHalfX && r.windowHalfY == b.windowHalfY
    ensures (forall i :: 0 <= i < |events| ==> events[i].Move?) ==> r == b
    ensures (exists i :: 0 <= i < |events| && events[i].Tick?) ==>
      r.mouseX == Sentinel && r.mouseY == Sentinel
    decreases |events|
  {
    if events == [] then b
    else
      var b' := match events[0]
        case Move(_, _) => b
        case Tick(t) => Update(b, t);
      assert forall i :: 1 <= i < |events| ==> events[1..][i - 1] == events[i];
      RunAsWritten(b', events[1..])
  }

  /** The frames of an event sequence, in order. */
  function FramesOf(events: seq<Event>): (r: seq<Event>)
    ensures |r| <= |events|
    ensures forall e :: e in r <==> e in events && e.Tick?
  {
    if events == [] then []
    else if events[0].Tick? then [events[0]] + FramesOf(events[1..])
    else FramesOf(events[1..])
  }

  /** As written, pointer moves have no effect on the driver at all. */
  lemma {:induction false} AsWrittenIgnoresPointer(b: Birds, events: seq<Event>)
    ensures RunAsWritten(b, events) == Run(b, FramesOf(events))
    decreases |events|
  {
    if events != [] {
      var rest := events[1..];
      AsWrittenIgnoresPointer(if events[0].Tick? then Update(b, events[0].time) else b, rest);
      if events[0].Tick? {
        assert ([events[0]] + FramesOf(rest))[1..] == FramesOf(rest);
      }
    }
  }

  /** A pointer at the centre of an 800 x 600 window, moved between two
      frames: the bound handler yields a predator at the origin, the handler
      as registered yields the sentinel predator (12.5, -16.66..., 0). */
  lemma UnboundListenerLosesPointer()
    ensures Run(Init(800.0, 600.0, 0.0), [Tick(16.0), Move(400.0, 300.0), Tick(32.0)]).predator
         == Vec3(Finite(0.0), Finite(0.0), Finite(0.0))
    ensures RunAsWritten(Init(800.0, 600.0, 0.0), [Tick(16.0), Move(400.0, 300.0), Tick(32.0)]).predator
         == Vec3(Finite(12.5), Finite(-5000.0 / 300.0), Finite(0.0))
  {
    var es := [Tick(16.0), Move(400.0, 300.0), Tick(32.0)];
    var b0 := Init(800.0, 600.0, 0.0);
    assert es[1..] == [Move(400.0, 300.0), Tick(32.0)];
    assert es[1..][1..] == [Tick(32.0)];
    assert es[1..][1..][1..] == [];
  }

  /** With the bound handler, the predator of a frame comes from the last of
      the pointer moves delivered before it. */
  lemma {:induction false} BoundHandlerDeliversPointer(b: Birds, moves: seq<Event>, t: real)
    requires moves != [] && forall i :: 0 <= i < |moves| ==> moves[i].Move?
    ensures Run(b, moves + [Tick(t)]).predator
         == PredatorFor(b, moves[|moves| - 1].clientX - b.windowHalfX,
                           moves[|moves| - 1].clientY - b.windowHalfY)
    decreases |moves|
  {
    var b1 := OnMouseMove(b, moves[0].clientX, moves[0].clientY);
    assert (moves + [Tick(t)])[1..] == moves[1..] + [Tick(t)];
    assert Run(b, moves + [Tick(t)]) == Run(b1, moves[1..] + [Tick(t)]);
    if |moves| == 1 {
      assert moves[1..] + [Tick(t)] == [Tick(t)];
      assert [Tick(t)][1..] == [];
      assert Run(b1, [Tick(t)]) == Update(b1, t);
    } else {
      BoundHandlerDeliversPointer(b1, moves[1..], t);
    }
  }
}
