/** The geometry and colouring of the project timeline chart
    (src/components/charts/TimelineChart.tsx). Dates are milliseconds since
    the epoch; the arithmetic is exact, except that division by zero follows
    IEEE-754 (an infinity or NaN) because a project that starts and ends on
    the same day reaches it. */
module TimelineChart {
  import opened Wrappers
  import opened Numeric
  import opened Construction

  /** `1000 * 60 * 60 * 24`. */
  const MillisPerDay := 86400000

  /** A JavaScript number produced by the chart's arithmetic. */
  datatype JsReal = Finite(x: real) | PlusInfinity | MinusInfinity | NaN

  /** A whole number of days from `Math.ceil`. `Math.ceil` of a value in
      (-1, 0) is negative zero, which decides the sign of an infinity when it
      is a divisor. */
  datatype Days = Days(n: int, minusZero: bool)

  /** `Math.ceil(ms / 86400000)`. */
  function CeilDays(ms: int): (r: Days)
    ensures r.minusZero ==> r.n == 0
    ensures r.n > 0 <==> ms > 0
    ensures r.n == 0 ==> -MillisPerDay < ms <= 0
    ensures (r.n - 1) * MillisPerDay < ms <= r.n * MillisPerDay
  {
    var n := Ceil(ms as real / MillisPerDay as real);
    Days(n, n == 0 && ms < 0)
  }

  /** `a / b`, where both are whole numbers of days. */
  function Quotient(a: Days, b: Days): (r: JsReal)
    ensures b.n != 0 <==> r.Finite?
    ensures r.NaN? <==> a.n == 0 && b.n == 0
  {
    if b.n != 0 then Finite(a.n as real / b.n as real)
    else if a.n == 0 then NaN
    else if (a.n > 0) != b.minusZero then PlusInfinity
    else MinusInfinity
  }

  function Times100(v: JsReal): (r: JsReal)
    ensures v.Finite? <==> r.Finite?
    ensures v.Finite? ==> r.x == v.x * 100.0
    ensures !v.Finite? ==> r == v
  {
    if v.Finite? then Finite(v.x * 100.0) else v
  }

  /** `Math.min(bound, v)`: NaN is contagious. */
  function JsMin(bound: real, v: JsReal): (r: JsReal)
    ensures r.NaN? <==> v.NaN?
    ensures r.Finite? ==> r.x <= bound
  {
    match v
    case Finite(x) => Finite(Min(bound, x))
    case PlusInfinity => Finite(bound)
    case MinusInfinity => MinusInfinity
    case NaN => NaN
  }

  /** `Math.max(bound, v)`: NaN is contagious. */
  function JsMax(bound: real, v: JsReal): (r: JsReal)
    ensures r.NaN? <==> v.NaN?
    ensures r.Finite? ==> r.x >= bound
    ensures r.Finite? || r.PlusInfinity? || r.NaN?
  {
    match v
    case Finite(x) => Finite(Max(bound, x))
    case PlusInfinity => PlusInfinity
    case MinusInfinity => Finite(bound)
    case NaN => NaN
  }

  /** `totalDays`: the project's length in days, rounded up; positive exactly
      when the project ends after it starts, and within a day of the exact
      length. */
  function TotalDays(projectStart: Millis, projectEnd: Millis): (r: Days)
    ensures r.n > 0 <==> projectEnd > projectStart
    ensures (r.n - 1) * MillisPerDay < projectEnd - projectStart <= r.n * MillisPerDay
  {
    CeilDays(projectEnd - projectStart)
  }

  /** `calculatePosition`: the bar's left offset, as a percentage of the
      track. It is never outside [0, 100]; it is NaN only for a date on the
      first day of a zero-length project. */
  function Position(date: Millis, projectStart: Millis, projectEnd: Millis): (r: JsReal)
    ensures r.NaN? <==> TotalDays(projectStart, projectEnd).n == 0 && CeilDays(date - projectStart).n == 0
    ensures !r.NaN? ==> r.Finite? && 0.0 <= r.x <= 100.0
  {
    var daysSinceStart := CeilDays(date - projectStart);
    JsMax(0.0, JsMin(100.0, Times100(Quotient(daysSinceStart, TotalDays(projectStart, projectEnd)))))
  }

  /** An item starting with the project sits at the left edge, unless the
      project has zero length. */
  lemma PositionAtStart(projectStart: Millis, projectEnd: Millis)
    requires TotalDays(projectStart, projectEnd).n != 0
    ensures Position(projectStart, projectStart, projectEnd) == Finite(0.0)
  {
    assert CeilDays(0).n == 0 by { CeilOfInt(0); }
  }

  /** An item starting when the project ends sits at the right edge. */
  lemma PositionAtEnd(projectStart: Millis, projectEnd: Millis)
    requires projectEnd > projectStart
    ensures Position(projectEnd, projectStart, projectEnd) == Finite(100.0)
  {
  }

  /** Clamping a day count scaled to a percentage is monotone in the count. */
  lemma ClampedShareMonotone(a: Days, b: Days, total: Days)
    requires total.n > 0 && a.n <= b.n
    ensures JsMax(0.0, JsMin(100.0, Times100(Quotient(a, total)))).x
      <= JsMax(0.0, JsMin(100.0, Times100(Quotient(b, total)))).x
  {
    QuotientMonotone(a.n as real, b.n as real, total.n as real);
  }

  /** Later dates are never placed further left. */
  lemma PositionMonotone(d1: Millis, d2: Millis, projectStart: Millis, projectEnd: Millis)
    requires projectEnd > projectStart && d1 <= d2
    ensures Position(d1, projectStart, projectEnd).x <= Position(d2, projectStart, projectEnd).x
  {
    CeilMonotone((d1 - projectStart) as real / MillisPerDay as real, (d2 - projectStart) as real / MillisPerDay as real);
    ClampedShareMonotone(CeilDays(d1 - projectStart), CeilDays(d2 - projectStart), TotalDays(projectStart, projectEnd));
  }

  /** `calculateWidth`: the bar's width as a percentage of the track. It is
      at least 2 and has no upper bound: an item longer than the project
      overflows the track, and in a zero-length project any item of positive
      length is infinitely wide. */
  function Width(itemStart: Millis, itemEnd: Millis, projectStart: Millis, projectEnd: Millis): (r: JsReal)
    ensures r.NaN? <==> TotalDays(projectStart, projectEnd).n == 0 && CeilDays(itemEnd - itemStart).n == 0
    ensures r.Finite? ==> r.x >= 2.0
    ensures r.Finite? || r.PlusInfinity? || r.NaN?
  {
    var duration := CeilDays(itemEnd - itemStart);
    JsMax(2.0, Times100(Quotient(duration, TotalDays(projectStart, projectEnd))))
  }

  /** Above the 2% floor the width is proportional to the item's length. */
  lemma WidthProportional(itemStart: Millis, itemEnd: Millis, projectStart: Millis, projectEnd: Millis)
    requires projectEnd > projectStart
    requires CeilDays(itemEnd - itemStart).n * 100 >= 2 * TotalDays(projectStart, projectEnd).n
    ensures Width(itemStart, itemEnd, projectStart, projectEnd)
      == Finite(CeilDays(itemEnd - itemStart).n as real * 100.0 / TotalDays(projectStart, projectEnd).n as real)
  {
    var t := TotalDays(projectStart, projectEnd).n as real;
    var d := CeilDays(itemEnd - itemStart).n as real;
    assert d / t * 100.0 == d * 100.0 / t;
    QuotientAtLeast(d * 100.0, t, 2.0);
  }

  /** The width is not capped at 100: an item twice as long as the project
      is drawn at least twice the track's width. */
  lemma WidthUncapped(itemStart: Millis, itemEnd: Millis, projectStart: Millis, projectEnd: Millis)
    requires projectEnd > projectStart
    requires CeilDays(itemEnd - itemStart).n >= 2 * TotalDays(projectStart, projectEnd).n
    ensures Width(itemStart, itemEnd, projectStart, projectEnd).x >= 200.0
  {
    var t := TotalDays(projectStart, projectEnd).n as real;
    var d := CeilDays(itemEnd - itemStart).n as real;
    QuotientAtLeast(d, t, 2.0);
  }

  /** In a zero-length project an item ending after it starts is drawn
      infinitely wide. */
  lemma WidthInfiniteWhenProjectEmpty(itemStart: Millis, itemEnd: Millis, projectStart: Millis)
    requires itemEnd > itemStart
    ensures Width(itemStart, itemEnd, projectStart, projectStart).PlusInfinity?
  {
    assert TotalDays(projectStart, projectStart) == Days(0, false) by { CeilOfInt(0); }
  }

  // ---------------------------------------------------------------------------
  // Status colours and icons

  /** The statuses a timeline item declares. */
  const ItemStatuses: seq<string> := ["completed", "in_progress", "pending", "delayed"]

  const Gray := "#6b7280"

  /** `getStatusColor`: green, blue, gray, red; anything else gray. */
  function StatusColor(status: string): (r: string)
    ensures r == Gray <==> status != "completed" && status != "in_progress" && status != "delayed"
  {
    if status == "completed" then "#10b981"
    else if status == "in_progress" then "#3b82f6"
    else if status == "pending" then Gray
    else if status == "delayed" then "#ef4444"
    else Gray
  }

  /** `getStatusIcon`; anything else is drawn as a plain ellipse. */
  function StatusIcon(status: string): (r: string)
    ensures r == "ellipse" <==> status !in ItemStatuses
  {
    if status == "completed" then "checkmark-circle"
    else if status == "in_progress" then "play-circle"
    else if status == "pending" then "time"
    else if status == "delayed" then "warning"
    else "ellipse"
  }

  /** The four declared statuses get four different colours and four
      different icons. */
  lemma StatusesDistinguished(i: nat, j: nat)
    requires i < j < |ItemStatuses|
    ensures StatusColor(ItemStatuses[i]) != StatusColor(ItemStatuses[j])
    ensures StatusIcon(ItemStatuses[i]) != StatusIcon(ItemStatuses[j])
  {
  }

  // ---------------------------------------------------------------------------
  // One bar of the chart

  datatype TimelineItem = TimelineItem(
    id: string,
    title: string,
    startDate: Millis,
    endDate: Millis,
    status: string,
    progress: Option<real>)

  /** What one row of the chart draws. */
  datatype Bar = Bar(icon: string, color: string, width: JsReal, marginLeft: JsReal, opacity: real)

  /** The row for one item: icon and bar in the status colour, the bar offset
      by the item's start and as wide as its duration, half transparent while
      pending. */
  function ItemBar(item: TimelineItem, projectStart: Millis, projectEnd: Millis): (r: Bar)
    ensures r.opacity == 0.5 <==> item.status == "pending"
    ensures r.opacity == 1.0 <==> item.status != "pending"
    ensures r.color == Gray <==> item.status != "completed" && item.status != "in_progress" && item.status != "delayed"
    ensures !r.marginLeft.NaN? ==> r.marginLeft.Finite? && 0.0 <= r.marginLeft.x <= 100.0
    ensures r.width.Finite? ==> r.width.x >= 2.0
    ensures r.marginLeft == Position(item.startDate, projectStart, projectEnd)
    ensures r.width == Width(item.startDate, item.endDate, projectStart, projectEnd)
    ensures r.color == StatusColor(item.status) && r.icon == StatusIcon(item.status)
  {
    Bar(
      StatusIcon(item.status),
      StatusColor(item.status),
      Width(item.startDate, item.endDate, projectStart, projectEnd),
      Position(item.startDate, projectStart, projectEnd),
      if item.status == "pending" then 0.5 else 1.0)
  }

  /** A quantity is a hundred percent of itself. */
  lemma WholeShare(t: real)
    requires t > 0.0
    ensures t * 100.0 / t == 100.0
  {
  }

  /** An item spanning the whole project is drawn from the left edge across
      the full track. */
  lemma {:induction false} WholeProjectBar(item: TimelineItem, projectStart: Millis, projectEnd: Millis)
    requires projectEnd > projectStart
    requires item.startDate == projectStart && item.endDate == projectEnd
    ensures ItemBar(item, projectStart, projectEnd).marginLeft == Finite(0.0)
    ensures ItemBar(item, projectStart, projectEnd).width == Finite(100.0)
  {
    var t := TotalDays(projectStart, projectEnd);
    assert CeilDays(projectEnd - projectStart) == t;
    PositionAtStart(projectStart, projectEnd);
    WidthProportional(projectStart, projectEnd, projectStart, projectEnd);
    WholeShare(t.n as real);
  }
}
