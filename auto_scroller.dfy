/**
 * The drag auto-scroller: while a dragged box is pushed towards an edge of
 * its scroll container, a repeating timer scrolls the container that way,
 * faster the further the box has gone past half its own extent.
 *
 * The decision of one `update` is the pure function `Choose`; the scroller
 * itself is the class `AutoScroller`, whose one-slot `interval` field is the
 * timer handle and whose `Tick` is the body of the repeating callback.
 */
module AutoScroll {
  import opened Wrappers

  /** The dragged box's translation, in the coordinates of the drag bounds. */
  datatype Position = Position(x: real, y: real)

  /** A scroll delta applied by one tick and reported to `onScroll`. */
  datatype Offset = Offset(left: real, top: real)

  /** Scroll direction per axis: -1, 0 or +1. */
  datatype Direction = Direction(x: int, y: int)

  /** Scroll speed per axis, in pixels per tick. */
  datatype Speed = Speed(x: real, y: real)

  /** What the timer started by `update` captures: the direction and the speed. */
  datatype Plan = Plan(direction: Direction, speed: Speed)

  /** The six scroll metrics read from the container at the start of `update`. */
  datatype Metrics = Metrics(scrollTop: real, scrollLeft: real,
                             scrollHeight: real, scrollWidth: real,
                             clientHeight: real, clientWidth: real)

  /** The dragged box's size and the drag's allowed translation bounds. */
  datatype Envelope = Envelope(width: real, height: real,
                               minTranslate: Position, maxTranslate: Position)

  const Acceleration: real := 10.0
  const DefaultSpeed: real := 1.0
  const Still := Direction(0, 0)

  predicate WellFormed(e: Envelope) {
    e.width > 0.0 && e.height > 0.0
  }

  function Abs(r: real): (a: real)
    ensures a >= 0.0 && (a == r || a == -r)
  {
    if r < 0.0 then -r else r
  }

  // Boundary flags: the container cannot scroll further that way.

  predicate IsTop(m: Metrics) { m.scrollTop == 0.0 }
  predicate IsBottom(m: Metrics) { m.scrollHeight - m.scrollTop - m.clientHeight == 0.0 }
  predicate IsLeft(m: Metrics) { m.scrollLeft == 0.0 }
  predicate IsRight(m: Metrics) { m.scrollWidth - m.scrollLeft - m.clientWidth == 0.0 }

  // The four edge conditions, each on its own (before priority is applied).

  function DownThreshold(e: Envelope): real { e.maxTranslate.y - e.height / 2.0 }
  function RightThreshold(e: Envelope): real { e.maxTranslate.x - e.width / 2.0 }
  function UpThreshold(e: Envelope): real { e.minTranslate.y + e.height / 2.0 }
  function LeftThreshold(e: Envelope): real { e.minTranslate.x + e.width / 2.0 }

  predicate WantsDown(t: Position, e: Envelope, m: Metrics) {
    t.y >= DownThreshold(e) && !IsBottom(m)
  }
  predicate WantsRight(t: Position, e: Envelope, m: Metrics) {
    t.x >= RightThreshold(e) && !IsRight(m)
  }
  predicate WantsUp(t: Position, e: Envelope, m: Metrics) {
    t.y <= UpThreshold(e) && !IsTop(m)
  }
  predicate WantsLeft(t: Position, e: Envelope, m: Metrics) {
    t.x <= LeftThreshold(e) && !IsLeft(m)
  }

  predicate IsUnit(d: int) { d == -1 || d == 0 || d == 1 }

  predicate Moving(p: Plan) { p.direction != Still }

  /**
   * The decision of one `update`: the first of down, right, up, left whose
   * condition holds, with a speed proportional to how far the box is past
   * the threshold; the axis not chosen keeps direction 0 and speed 1.
   */
  function Choose(t: Position, e: Envelope, m: Metrics): (p: Plan)
    requires WellFormed(e)
    ensures p.direction.x == 0 || p.direction.y == 0
    ensures IsUnit(p.direction.x) && IsUnit(p.direction.y)
    ensures p.direction.x == 0 ==> p.speed.x == DefaultSpeed
    ensures p.direction.y == 0 ==> p.speed.y == DefaultSpeed
    ensures p.speed.x >= 0.0 && p.speed.y >= 0.0
    ensures Moving(p) <==> WantsDown(t, e, m) || WantsRight(t, e, m) || WantsUp(t, e, m) || WantsLeft(t, e, m)
  {
    if WantsDown(t, e, m) then
      Plan(Direction(0, 1), Speed(DefaultSpeed, Acceleration * Abs((e.maxTranslate.y - e.height / 2.0 - t.y) / e.height)))
    else if WantsRight(t, e, m) then
      Plan(Direction(1, 0), Speed(Acceleration * Abs((e.maxTranslate.x - e.width / 2.0 - t.x) / e.width), DefaultSpeed))
    else if WantsUp(t, e, m) then
      Plan(Direction(0, -1), Speed(DefaultSpeed, Acceleration * Abs((t.y - e.height / 2.0 - e.minTranslate.y) / e.height)))
    else if WantsLeft(t, e, m) then
      Plan(Direction(-1, 0), Speed(Acceleration * Abs((t.x - e.width / 2.0 - e.minTranslate.x) / e.width), DefaultSpeed))
    else
      Plan(Still, Speed(DefaultSpeed, DefaultSpeed))
  }

  /** The offset one tick of the timer applies and reports. */
  function TickOffset(p: Plan): (o: Offset)
    ensures p.direction.x == 0 ==> o.left == 0.0
    ensures p.direction.x == 1 ==> o.left == p.speed.x
    ensures p.direction.x == -1 ==> o.left == -p.speed.x
    ensures p.direction.y == 0 ==> o.top == 0.0
    ensures p.direction.y == 1 ==> o.top == p.speed.y
    ensures p.direction.y == -1 ==> o.top == -p.speed.y
  {
    Offset(p.speed.x * p.direction.x as real, p.speed.y * p.direction.y as real)
  }

  /** First match wins: each direction is chosen exactly when its condition holds and no earlier one does. */
  lemma FirstMatchWins(t: Position, e: Envelope, m: Metrics)
    requires WellFormed(e)
    ensures var d := Choose(t, e, m).direction;
      && (d == Direction(0, 1) <==> WantsDown(t, e, m))
      && (d == Direction(1, 0) <==> !WantsDown(t, e, m) && WantsRight(t, e, m))
      && (d == Direction(0, -1) <==> !WantsDown(t, e, m) && !WantsRight(t, e, m) && WantsUp(t, e, m))
      && (d == Direction(-1, 0) <==> !WantsDown(t, e, m) && !WantsRight(t, e, m) && !WantsUp(t, e, m) && WantsLeft(t, e, m))
      && (d == Still <==> !WantsDown(t, e, m) && !WantsRight(t, e, m) && !WantsUp(t, e, m) && !WantsLeft(t, e, m))
  {
  }

  /** Scroll Down takes priority over every other condition that also holds. */
  lemma DownHasPriority(t: Position, e: Envelope, m: Metrics)
    requires WellFormed(e)
    requires t.y >= e.maxTranslate.y - e.height / 2.0 && !IsBottom(m)
    ensures Choose(t, e, m).direction == Direction(0, 1)
  {
  }

  /**
   * Scroll Right is checked before Scroll Up, so when both conditions hold
   * (and Scroll Down's does not) the container scrolls right, not up.
   */
  lemma RightBeforeUp(t: Position, e: Envelope, m: Metrics)
    requires WellFormed(e)
    requires !WantsDown(t, e, m) && WantsRight(t, e, m) && WantsUp(t, e, m)
    ensures Choose(t, e, m).direction == Direction(1, 0)
  {
  }

  /** A container at an edge is never scrolled further towards it, wherever the box is. */
  lemma BoundarySuppression(t: Position, e: Envelope, m: Metrics)
    requires WellFormed(e)
    ensures IsBottom(m) ==> Choose(t, e, m).direction.y != 1
    ensures IsRight(m) ==> Choose(t, e, m).direction.x != 1
    ensures IsTop(m) ==> Choose(t, e, m).direction.y != -1
    ensures IsLeft(m) ==> Choose(t, e, m).direction.x != -1
  {
  }

  /** Abs((a) / h) is |a| / h when h is positive. */
  lemma AbsOverPositive(a: real, h: real)
    requires h > 0.0
    ensures Abs(a / h) == Abs(a) / h
  {
    if a < 0.0 {
      assert a / h < 0.0;
      assert -(a / h) == (-a) / h;
    } else {
      assert a / h >= 0.0;
    }
  }

  /** Ten pixels per tick for each full extent the box has gone past the threshold. */
  function SpeedFor(distance: real, extent: real): (v: real)
    requires extent > 0.0
    ensures v >= 0.0
  {
    Acceleration * (Abs(distance) / extent)
  }

  /** On the chosen axis the speed is ten times the distance past the threshold, per unit of extent. */
  lemma SpeedFormula(t: Position, e: Envelope, m: Metrics)
    requires WellFormed(e)
    ensures var p := Choose(t, e, m);
      && (p.direction.y == 1 ==> p.speed.y == SpeedFor(DownThreshold(e) - t.y, e.height))
      && (p.direction.x == 1 ==> p.speed.x == SpeedFor(RightThreshold(e) - t.x, e.width))
      && (p.direction.y == -1 ==> p.speed.y == SpeedFor(t.y - UpThreshold(e), e.height))
      && (p.direction.x == -1 ==> p.speed.x == SpeedFor(t.x - LeftThreshold(e), e.width))
  {
    if WantsDown(t, e, m) {
      var a := e.maxTranslate.y - e.height / 2.0 - t.y;
      assert a == DownThreshold(e) - t.y;
      AbsOverPositive(a, e.height);
    } else if WantsRight(t, e, m) {
      var a := e.maxTranslate.x - e.width / 2.0 - t.x;
      assert a == RightThreshold(e) - t.x;
      AbsOverPositive(a, e.width);
    } else if WantsUp(t, e, m) {
      var a := t.y - e.height / 2.0 - e.minTranslate.y;
      assert a == t.y - UpThreshold(e);
      AbsOverPositive(a, e.height);
    } else if WantsLeft(t, e, m) {
      var a := t.x - e.width / 2.0 - e.minTranslate.x;
      assert a == t.x - LeftThreshold(e);
      AbsOverPositive(a, e.width);
    }
  }

  lemma SpeedForMonotone(a: real, b: real, extent: real)
    requires extent > 0.0 && 0.0 <= a <= b
    ensures SpeedFor(a, extent) <= SpeedFor(b, extent)
  {
    assert a / extent <= b / extent;
  }

  /** Pushing further down keeps Scroll Down chosen and never slows it. */
  lemma DownSpeedMonotone(t1: Position, t2: Position, e: Envelope, m: Metrics)
    requires WellFormed(e)
    requires Choose(t1, e, m).direction == Direction(0, 1) && t1.y <= t2.y
    ensures Choose(t2, e, m).direction == Direction(0, 1)
    ensures Choose(t1, e, m).speed.y <= Choose(t2, e, m).speed.y
  {
    SpeedFormula(t1, e, m);
    SpeedFormula(t2, e, m);
    SpeedForMonotone(t1.y - DownThreshold(e), t2.y - DownThreshold(e), e.height);
  }

  /** Pushing further right (at the same height) keeps Scroll Right chosen and never slows it. */
  lemma RightSpeedMonotone(t1: Position, t2: Position, e: Envelope, m: Metrics)
    requires WellFormed(e)
    requires Choose(t1, e, m).direction == Direction(1, 0) && t1.x <= t2.x && t1.y == t2.y
    ensures Choose(t2, e, m).direction == Direction(1, 0)
    ensures Choose(t1, e, m).speed.x <= Choose(t2, e, m).speed.x
  {
    SpeedFormula(t1, e, m);
    SpeedFormula(t2, e, m);
    SpeedForMonotone(t1.x - RightThreshold(e), t2.x - RightThreshold(e), e.width);
  }

  /** Pushing further up (at the same horizontal position) keeps Scroll Up chosen and never slows it. */
  lemma UpSpeedMonotone(t1: Position, t2: Position, e: Envelope, m: Metrics)
    requires WellFormed(e)
    requires Choose(t1, e, m).direction == Direction(0, -1) && t2.y <= t1.y && t1.x == t2.x
    ensures Choose(t2, e, m).direction == Direction(0, -1)
    ensures Choose(t1, e, m).speed.y <= Choose(t2, e, m).speed.y
  {
    SpeedFormula(t1, e, m);
    SpeedFormula(t2, e, m);
    SpeedForMonotone(UpThreshold(e) - t1.y, UpThreshold(e) - t2.y, e.height);
  }

  /** Pushing further left (at the same height) keeps Scroll Left chosen and never slows it. */
  lemma LeftSpeedMonotone(t1: Position, t2: Position, e: Envelope, m: Metrics)
    requires WellFormed(e)
    requires Choose(t1, e, m).direction == Direction(-1, 0) && t2.x <= t1.x && t1.y == t2.y
    ensures Choose(t2, e, m).direction == Direction(-1, 0)
    ensures Choose(t1, e, m).speed.x <= Choose(t2, e, m).speed.x
  {
    SpeedFormula(t1, e, m);
    SpeedFormula(t2, e, m);
    SpeedForMonotone(LeftThreshold(e) - t1.x, LeftThreshold(e) - t2.x, e.width);
  }

  /**
   * A tick moves only along the chosen axis, by the chosen speed in the chosen
   * direction: the other axis gets 0 because its direction stays 0 although
   * its speed stays 1.
   */
  lemma TickFollowsPlan(t: Position, e: Envelope, m: Metrics)
    requires WellFormed(e)
    ensures var p := Choose(t, e, m); var o := TickOffset(p);
      && (p.direction.x == 0 ==> o.left == 0.0)
      && (p.direction.y == 0 ==> o.top == 0.0)
      && (p.direction.y == 1 ==> o.top == p.speed.y && o.top >= 0.0)
      && (p.direction.y == -1 ==> o.top == -p.speed.y && o.top <= 0.0)
      && (p.direction.x == 1 ==> o.left == p.speed.x && o.left >= 0.0)
      && (p.direction.x == -1 ==> o.left == -p.speed.x && o.left <= 0.0)
  {
  }

  /** Scenario: a box 40 high pushed to y = 470 of 480 in an unscrolled container scrolls down at 2.5. */
  lemma ScrollDownNearBottom()
    ensures var m := Metrics(0.0, 0.0, 1000.0, 500.0, 500.0, 500.0);
      var e := Envelope(40.0, 40.0, Position(0.0, 0.0), Position(0.0, 480.0));
      && Choose(Position(0.0, 470.0), e, m) == Plan(Direction(0, 1), Speed(1.0, 2.5))
      && Choose(Position(0.0, 470.0), e, m.(scrollTop := 500.0)).direction == Still
  {
  }

  /** Scenario: in a container scrolled to the bottom, only the top edge starts a scroll. */
  lemma ScrollUpAtBottom()
    ensures var m := Metrics(500.0, 0.0, 1000.0, 500.0, 500.0, 500.0);
      var e := Envelope(40.0, 40.0, Position(0.0, 0.0), Position(0.0, 480.0));
      && Choose(Position(0.0, 470.0), e, m).direction == Still
      && Choose(Position(0.0, 0.0), e, m) == Plan(Direction(0, -1), Speed(1.0, 5.0))
      && Choose(Position(0.0, 10.0), e, m) == Plan(Direction(0, -1), Speed(1.0, 2.5))
  {
  }

  /** The scrollable element: its six scroll metrics as plain numbers. */
  class Container {
    var scrollTop: real
    var scrollLeft: real
    var scrollHeight: real
    var scrollWidth: real
    var clientHeight: real
    var clientWidth: real

    constructor (m: Metrics)
      ensures ReadMetrics() == m
    {
      scrollTop, scrollLeft := m.scrollTop, m.scrollLeft;
      scrollHeight, scrollWidth := m.scrollHeight, m.scrollWidth;
      clientHeight, clientWidth := m.clientHeight, m.clientWidth;
    }

    /** The six metrics as they stand now; `update` reads them afresh on every call. */
    function ReadMetrics(): (m: Metrics)
      reads this
      ensures m.scrollTop == scrollTop && m.scrollLeft == scrollLeft
      ensures m.scrollHeight == scrollHeight && m.scrollWidth == scrollWidth
      ensures m.clientHeight == clientHeight && m.clientWidth == clientWidth
    {
      Metrics(scrollTop, scrollLeft, scrollHeight, scrollWidth, clientHeight, clientWidth)
    }
  }

  /**
   * The controller bound to one container. `interval` is the one-slot timer
   * handle, holding the direction and speed its callback captured. The ghost
   * counters record every timer started and every timer cleared, so that
   * "never two live timers" is a statement about them; `scrollLog` records
   * every offset handed to `onScroll`.
   */
  class AutoScroller {
    const container: Container
    const width: real
    const height: real
    const minTranslate: Position
    const maxTranslate: Position

    var interval: Option<Plan>

    ghost var timersStarted: nat
    ghost var timersCleared: nat
    ghost var scrollLog: seq<Offset>

    function Geometry(): Envelope {
      Envelope(width, height, minTranslate, maxTranslate)
    }

    /** At most one timer is live, it is the one in `interval`, and it scrolls somewhere. */
    ghost predicate Valid()
      reads this
    {
      && WellFormed(Geometry())
      && timersStarted == timersCleared + (if interval.Some? then 1 else 0)
      && (interval.Some? ==> Moving(interval.value))
    }

    ghost function LiveTimers(): (n: int)
      reads this
      requires Valid()
      ensures 0 <= n <= 1
      ensures n == 1 <==> interval.Some?
    {
      timersStarted - timersCleared
    }

    constructor (container: Container, width: real, height: real,
                 minTranslate: Position, maxTranslate: Position)
      requires width > 0.0 && height > 0.0
      ensures Valid()
      ensures this.container == container && this.width == width && this.height == height
      ensures this.minTranslate == minTranslate && this.maxTranslate == maxTranslate
      ensures interval == None && timersStarted == 0 && scrollLog == []
    {
      this.container := container;
      this.width, this.height := width, height;
      this.minTranslate, this.maxTranslate := minTranslate, maxTranslate;
      interval := None;
      timersStarted, timersCleared := 0, 0;
      scrollLog := [];
    }

    /** Clears the live timer, if any; with none, it changes nothing. */
    method Stop()
      requires Valid()
      modifies this
      ensures Valid() && interval == None && LiveTimers() == 0
      ensures timersCleared == old(timersCleared) + (if old(interval).Some? then 1 else 0)
      ensures timersStarted == old(timersStarted) && scrollLog == old(scrollLog)
      ensures old(interval) == None ==> unchanged(this)
    {
      if interval.Some? {
        interval := None;
        timersCleared := timersCleared + 1;
      }
    }

    /**
     * Reads the container's metrics, picks a direction and speed, clears the
     * running timer, and starts a new one exactly when a direction was picked.
     */
    method Update(translate: Position)
      requires Valid()
      modifies this
      ensures Valid()
      ensures var plan := Choose(translate, Geometry(), container.ReadMetrics());
        interval == if Moving(plan) then Some(plan) else None
      ensures timersCleared == old(timersCleared) + (if old(interval).Some? then 1 else 0)
      ensures timersStarted == old(timersStarted) + (if interval.Some? then 1 else 0)
      ensures scrollLog == old(scrollLog)
    {
      var direction := Direction(0, 0);
      var speed := Speed(DefaultSpeed, DefaultSpeed);

      var scrollTop, scrollLeft := container.scrollTop, container.scrollLeft;
      var scrollHeight, scrollWidth := container.scrollHeight, container.scrollWidth;
      var clientHeight, clientWidth := container.clientHeight, container.clientWidth;

      var isTop := scrollTop == 0.0;
      var isBottom := scrollHeight - scrollTop - clientHeight == 0.0;
      var isLeft := scrollLeft == 0.0;
      var isRight := scrollWidth - scrollLeft - clientWidth == 0.0;

      if translate.y >= maxTranslate.y - height / 2.0 && !isBottom {
        direction := direction.(y := 1);
        speed := speed.(y := Acceleration * Abs((maxTranslate.y - height / 2.0 - translate.y) / height));
      } else if translate.x >= maxTranslate.x - width / 2.0 && !isRight {
        direction := direction.(x := 1);
        speed := speed.(x := Acceleration * Abs((maxTranslate.x - width / 2.0 - translate.x) / width));
      } else if translate.y <= minTranslate.y + height / 2.0 && !isTop {
        direction := direction.(y := -1);
        speed := speed.(y := Acceleration * Abs((translate.y - height / 2.0 - minTranslate.y) / height));
      } else if translate.x <= minTranslate.x + width / 2.0 && !isLeft {
        direction := direction.(x := -1);
        speed := speed.(x := Acceleration * Abs((translate.x - width / 2.0 - minTranslate.x) / width));
      }

      assert Plan(direction, speed) == Choose(translate, Geometry(), container.ReadMetrics());

      if interval.Some? {
        Stop();
      }

      if direction.x != 0 || direction.y != 0 {
        interval := Some(Plan(direction, speed));
        timersStarted := timersStarted + 1;
      }
    }

    /**
     * One firing of the timer: moves the container by the captured offset and
     * reports that offset to `onScroll`.
     */
    method Tick()
      requires Valid() && interval.Some?
      modifies container, this`scrollLog
      ensures Valid()
      ensures var o := TickOffset(interval.value);
        && container.scrollTop == old(container.scrollTop) + o.top
        && container.scrollLeft == old(container.scrollLeft) + o.left
        && scrollLog == old(scrollLog) + [o]
      ensures container.scrollHeight == old(container.scrollHeight) && container.scrollWidth == old(container.scrollWidth)
      ensures container.clientHeight == old(container.clientHeight) && container.clientWidth == old(container.clientWidth)
    {
      var plan := interval.value;
      var offset := Offset(plan.speed.x * plan.direction.x as real, plan.speed.y * plan.direction.y as real);
      container.scrollTop := container.scrollTop + offset.top;
      container.scrollLeft := container.scrollLeft + offset.left;
      scrollLog := scrollLog + [offset];
    }
  }

  /** Scenario: a box pushed near the bottom starts a timer that scrolls down by 2.5 per tick. */
  method ScrollDownScenario()
  {
    var box := new Container(Metrics(0.0, 0.0, 1000.0, 500.0, 500.0, 500.0));
    var scroller := new AutoScroller(box, 40.0, 40.0, Position(0.0, 0.0), Position(0.0, 480.0));
    ScrollDownNearBottom();
    scroller.Update(Position(0.0, 470.0));
    assert scroller.interval == Some(Plan(Direction(0, 1), Speed(1.0, 2.5)));
    scroller.Tick();
    assert box.scrollTop == 2.5 && box.scrollLeft == 0.0;
    assert scroller.scrollLog == [Offset(0.0, 2.5)];
  }

  /** Scenario: at the bottom the same position starts nothing; a new direction restarts the timer; stop twice. */
  method RestartAndStopScenario()
  {
    var m := Metrics(500.0, 0.0, 1000.0, 500.0, 500.0, 500.0);
    var box := new Container(m);
    var scroller := new AutoScroller(box, 40.0, 40.0, Position(0.0, 0.0), Position(0.0, 480.0));
    ScrollUpAtBottom();
    scroller.Update(Position(0.0, 470.0));
    assert scroller.interval == None;
    scroller.Update(Position(0.0, 0.0));
    assert scroller.LiveTimers() == 1;
    scroller.Update(Position(0.0, 10.0));
    assert scroller.timersCleared == 1 && scroller.LiveTimers() == 1;
    scroller.Stop();
    scroller.Stop();
    assert scroller.interval == None && scroller.LiveTimers() == 0 && scroller.timersStarted == 2;
  }
}
