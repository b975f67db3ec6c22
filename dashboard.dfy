/** The admin dashboard's chart and activity arithmetic: the chart's scale, a bar's height,
    the "time ago" text of an activity and the revenue change between the last two points.
    Numbers are exact reals; the clock reading is a parameter. */
module Dashboard {
  import opened Text

  const ChartFloor: real := 100.0

  /** `getMaxRevenue`: `Math.max(...revenues, 100)`, and 100 for no data. */
  function MaxRevenue(revenues: seq<real>): (m: real)
    ensures m >= ChartFloor
    ensures forall i :: 0 <= i < |revenues| ==> revenues[i] <= m
    ensures m == ChartFloor || exists i :: 0 <= i < |revenues| && revenues[i] == m
  {
    if revenues == [] then ChartFloor
    else
      var rest := MaxRevenue(revenues[..|revenues| - 1]);
      var last := revenues[|revenues| - 1];
      if last > rest then last else rest
  }

  /** `getBarHeight`'s number: the revenue as a percentage of the chart's scale. */
  function BarHeight(revenue: real, revenues: seq<real>): real
  {
    revenue / MaxRevenue(revenues) * 100.0
  }

  /** Every non-negative revenue in the data gets a bar between 0% and 100%, and the largest
      one, when it reaches the floor of 100, gets the full height. */
  lemma BarHeightBounds(revenues: seq<real>, i: nat)
    requires i < |revenues| && revenues[i] >= 0.0
    ensures 0.0 <= BarHeight(revenues[i], revenues) <= 100.0
    ensures revenues[i] == MaxRevenue(revenues) ==> BarHeight(revenues[i], revenues) == 100.0
  {
    var m := MaxRevenue(revenues);
    FractionBounds(revenues[i], m);
  }

  lemma FractionBounds(r: real, m: real)
    requires 0.0 <= r <= m && m > 0.0
    ensures 0.0 <= r / m * 100.0 <= 100.0
    ensures r == m ==> r / m * 100.0 == 100.0
  {
    assert r / m <= 1.0;
  }

  const MinuteMillis := 60000
  const HourMillis := 3600000
  const DayMillis := 86400000

  /** How long ago something happened, in the largest whole unit. */
  datatype Elapsed = JustNow | Ago(count: nat, unit: string)

  /** `getTimeAgo`'s choice: whole minutes, then hours of those minutes, then days of those
      hours, each floored. */
  function ElapsedOf(diff: int): Elapsed
  {
    var minutes := diff / MinuteMillis;
    var hours := minutes / 60;
    var days := hours / 24;
    if days > 0 then Ago(days, "day")
    else if hours > 0 then Ago(hours, "hour")
    else if minutes > 0 then Ago(minutes, "minute")
    else JustNow
  }

  /** The text: the count, the unit with an `s` when the count is above 1, and `ago`. */
  function Render(e: Elapsed): string
  {
    match e
    case JustNow => "Just now"
    case Ago(n, unit) => NatToString(n) + " " + unit + (if n > 1 then "s" else "") + " ago"
  }

  /** `getTimeAgo` for an event `diff` milliseconds before now. */
  function TimeAgo(diff: int): string
  {
    Render(ElapsedOf(diff))
  }

  /** Nested floors by the unit sizes are floors by the larger unit. */
  lemma NestedFloors(diff: int)
    ensures (diff / MinuteMillis) / 60 == diff / HourMillis
    ensures ((diff / MinuteMillis) / 60) / 24 == diff / DayMillis
  {
    var m := diff / MinuteMillis;
    var h := m / 60;
    var d := h / 24;
    assert diff == MinuteMillis * m + diff % MinuteMillis;
    assert m == 60 * h + m % 60;
    assert h == 24 * d + h % 24;
    assert diff == HourMillis * h + (MinuteMillis * (m % 60) + diff % MinuteMillis);
    assert diff == DayMillis * d + (HourMillis * (h % 24) + MinuteMillis * (m % 60) + diff % MinuteMillis);
  }

  /** The unit chosen is the largest one that fits at least once, and its count is the
      number of whole units elapsed; under a minute, or in the future, it is "Just now". */
  lemma ElapsedUnits(diff: int)
    ensures diff >= DayMillis ==> ElapsedOf(diff) == Ago(diff / DayMillis, "day")
    ensures HourMillis <= diff < DayMillis ==> ElapsedOf(diff) == Ago(diff / HourMillis, "hour")
    ensures MinuteMillis <= diff < HourMillis ==> ElapsedOf(diff) == Ago(diff / MinuteMillis, "minute")
    ensures diff < MinuteMillis ==> ElapsedOf(diff) == JustNow
  {
    NestedFloors(diff);
  }

  /** Sample texts: one day, two hours, a minute and 59 seconds, and under a minute. */
  lemma TimeAgoExamples()
    ensures TimeAgo(DayMillis) == "1 day ago" && TimeAgo(2 * HourMillis) == "2 hours ago"
    ensures TimeAgo(MinuteMillis + 59999) == "1 minute ago" && TimeAgo(59999) == "Just now"
  {
    ElapsedUnits(DayMillis);
    ElapsedUnits(2 * HourMillis);
    ElapsedUnits(MinuteMillis + 59999);
    assert NatToString(1) == "1";
    assert NatToString(2) == "2";
  }

  /** A percentage change and its direction. */
  datatype Change = Change(value: real, isPositive: bool)

  /** `getRevenueChange` over the revenue series: the change from the second-last point to
      the last, as a percentage of the second-last. */
  function RevenueChange(revenues: seq<real>): (c: Change)
    ensures c.value >= 0.0
    ensures |revenues| < 2 ==> c == Change(0.0, true)
  {
    if |revenues| < 2 then Change(0.0, true)
    else
      var current := revenues[|revenues| - 1];
      var previous := revenues[|revenues| - 2];
      if previous == 0.0 then Change(0.0, true)
      else
        var change := (current - previous) / previous * 100.0;
        Change(if change < 0.0 then -change else change, change >= 0.0)
  }

  /** With two points and a non-zero previous value, the value is the size of the change
      relative to the previous value, and for a positive previous value the direction says
      whether revenue held or grew. */
  lemma RevenueChangeMeaning(revenues: seq<real>)
    requires |revenues| >= 2
    ensures var current, previous := revenues[|revenues| - 1], revenues[|revenues| - 2];
            var c := RevenueChange(revenues);
            (previous == 0.0 ==> c == Change(0.0, true)) &&
            (previous != 0.0 ==> c.value * Abs(previous) == Abs(current - previous) * 100.0) &&
            (previous > 0.0 ==> (c.isPositive <==> current >= previous)) &&
            (previous < 0.0 ==> (c.isPositive <==> current <= previous))
  {
    var current, previous := revenues[|revenues| - 1], revenues[|revenues| - 2];
    if previous != 0.0 {
      var q := (current - previous) / previous;
      assert q * previous == current - previous;
      if previous > 0.0 {
        assert q >= 0.0 <==> current - previous >= 0.0;
      } else {
        assert q >= 0.0 <==> current - previous <= 0.0;
      }
      assert Abs(q) * Abs(previous) == Abs(current - previous);
    }
  }

  function Abs(x: real): real
  {
    if x < 0.0 then -x else x
  }
}
