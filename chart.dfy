/**
 * The graph mode of the day-one screen: each record becomes one point of a
 * line series, and the axes are bounded by the first and the last point.
 */
module Chart {
  import opened Wrappers
  import opened Dates
  import opened CasesText

  /**
   * A `DataPoint`: `x` is the record's day as an integer key that orders
   * days the way their timestamps do, `y` its count of cases.
   */
  datatype Point = Point(x: int, y: int)

  /** The manual bounds of the graph's viewport. */
  datatype Viewport = Viewport(minX: int, maxX: int, minY: int, maxY: int)

  /** The point of one record, or what parsing its date throws. */
  function PointOf(item: DayOneItem): (r: Result<Point, DateError>)
    ensures r.Success? <==> ParseIsoPrefix(item.date).Success?
    ensures r.Success? ==> r.value.y == item.cases
  {
    match ParseIsoPrefix(item.date)
    case Success(d) => Success(Point(DateKey(d), item.cases))
    case Failure(e) => Failure(e)
  }

  /** The points of all records, in input order, or what the first unreadable date throws. */
  function Points(items: seq<DayOneItem>): (r: Result<seq<Point>, DateError>)
    ensures r.Success? ==> |r.value| == |items|
  {
    if items == [] then Success([])
    else
      var prefix := Points(items[..|items| - 1]);
      if prefix.Failure? then prefix
      else
        match PointOf(items[|items| - 1])
        case Failure(e) => Failure(e)
        case Success(p) => Success(prefix.value + [p])
  }

  /** The record's point, when every date of the response can be read. */
  predicate PointMatches(item: DayOneItem, p: Point) {
    ParseIsoPrefix(item.date).Success? && p == Point(DateKey(ParseIsoPrefix(item.date).value), item.cases)
  }

  /**
   * The series is built exactly when every date can be read; it then has one
   * point per record, and point `i` is record `i`'s day and count.
   */
  lemma {:induction false} PointsSpec(items: seq<DayOneItem>)
    ensures Points(items).Success? <==> forall i :: 0 <= i < |items| ==> ParseIsoPrefix(items[i].date).Success?
    ensures Points(items).Success? ==>
              |Points(items).value| == |items| &&
              forall i :: 0 <= i < |items| ==> PointMatches(items[i], Points(items).value[i])
  {
    if items != [] {
      var init := items[..|items| - 1];
      PointsSpec(init);
      assert forall i :: 0 <= i < |init| ==> init[i] == items[i];
    }
  }

  /** A failing series fails on the first record whose date cannot be read. */
  lemma {:induction false} PointsFailAtFirst(items: seq<DayOneItem>)
    requires Points(items).Failure?
    ensures exists i :: 0 <= i < |items| && ParseIsoPrefix(items[i].date) == Failure(Points(items).error) &&
                        forall j :: 0 <= j < i ==> ParseIsoPrefix(items[j].date).Success?
  {
    var init := items[..|items| - 1];
    if Points(init).Failure? {
      PointsFailAtFirst(init);
      var i :| 0 <= i < |init| && ParseIsoPrefix(init[i].date) == Failure(Points(init).error) &&
               forall j :: 0 <= j < i ==> ParseIsoPrefix(init[j].date).Success?;
      assert items[i] == init[i];
      assert forall j :: 0 <= j < i ==> items[j] == init[j];
    } else {
      PointsSpec(init);
      assert forall j :: 0 <= j < |init| ==> items[j] == init[j];
    }
  }

  /** The preparation loop: one point appended per record, in order; a bad date stops it. */
  method PreparePoints(items: seq<DayOneItem>) returns (r: Result<seq<Point>, DateError>)
    ensures r == Points(items)
  {
    var points: seq<Point> := [];
    var i := 0;
    while i < |items|
      invariant i <= |items|
      invariant Points(items[..i]) == Success(points)
    {
      assert items[..i + 1][..i] == items[..i];
      var date := ParseIsoPrefix(items[i].date);
      if date.Failure? {
        assert Points(items[..i + 1]) == Failure(date.error);
        PointsStayFailed(items[..i + 1], items[i + 1..]);
        assert items[..i + 1] + items[i + 1..] == items;
        return Failure(date.error);
      }
      points := points + [Point(DateKey(date.value), items[i].cases)];
      i := i + 1;
    }
    assert items[..i] == items;
    r := Success(points);
  }

  /** Once a date has thrown, the records after it are never reached. */
  lemma {:induction false} PointsStayFailed(items: seq<DayOneItem>, rest: seq<DayOneItem>)
    requires Points(items).Failure?
    ensures Points(items + rest) == Points(items)
  {
    if rest != [] {
      assert (items + rest)[..|items + rest| - 1] == items + rest[..|rest| - 1];
      PointsStayFailed(items, rest[..|rest| - 1]);
    } else {
      assert items + rest == items;
    }
  }

  /** Days in strictly chronological order give points with strictly increasing `x`. */
  lemma ChronologicalSeries(items: seq<DayOneItem>)
    requires forall i :: 0 <= i < |items| ==> ParseIsoPrefix(items[i].date).Success?
    requires forall i :: 0 <= i < |items| - 1 ==>
               Before(ParseIsoPrefix(items[i].date).value, ParseIsoPrefix(items[i + 1].date).value)
    ensures Points(items).Success?
    ensures var ps := Points(items).value;
            forall i :: 0 <= i < |ps| - 1 ==> ps[i].x < ps[i + 1].x
  {
    PointsSpec(items);
    var ps := Points(items).value;
    forall i | 0 <= i < |ps| - 1
      ensures ps[i].x < ps[i + 1].x
    {
      assert PointMatches(items[i], ps[i]) && PointMatches(items[i + 1], ps[i + 1]);
      DateKeyOrder(ParseIsoPrefix(items[i].date).value, ParseIsoPrefix(items[i + 1].date).value);
    }
  }

  /**
   * The bounds set for a series: none for an empty one; otherwise the `x`
   * and the `y` of the first point as minima and of the last as maxima.
   */
  function Bounds(points: seq<Point>): (v: Option<Viewport>)
    ensures v.None? <==> points == []
  {
    if points == [] then None
    else Some(Viewport(points[0].x, points[|points| - 1].x, points[0].y, points[|points| - 1].y))
  }

  /** Each neighbour is at least as large as the one before it (cumulative counts never fall). */
  predicate NonDecreasing(ys: seq<int>) {
    forall i :: 0 <= i < |ys| - 1 ==> ys[i] <= ys[i + 1]
  }

  function Xs(points: seq<Point>): (xs: seq<int>)
    ensures |xs| == |points|
  {
    seq(|points|, i requires 0 <= i < |points| => points[i].x)
  }

  function Ys(points: seq<Point>): (ys: seq<int>)
    ensures |ys| == |points|
  {
    seq(|points|, i requires 0 <= i < |points| => points[i].y)
  }

  /** In a non-decreasing sequence the first element is the least and the last the greatest. */
  lemma {:induction false} EndpointsAreExtrema(ys: seq<int>, k: nat)
    requires NonDecreasing(ys) && k < |ys|
    ensures ys[0] <= ys[k] <= ys[|ys| - 1]
    decreases |ys| - k
  {
    FirstIsLeast(ys, k);
    if k + 1 < |ys| {
      EndpointsAreExtrema(ys, k + 1);
    }
  }

  lemma {:induction false} FirstIsLeast(ys: seq<int>, k: nat)
    requires NonDecreasing(ys) && k < |ys|
    ensures ys[0] <= ys[k]
  {
    if k > 0 {
      FirstIsLeast(ys, k - 1);
    }
  }

  /**
   * When the days and the counts of a series never decrease, the bounds
   * enclose every point.
   */
  lemma BoundsEncloseMonotoneSeries(points: seq<Point>)
    requires points != [] && NonDecreasing(Xs(points)) && NonDecreasing(Ys(points))
    ensures var v := Bounds(points).value;
            forall p :: p in points ==> v.minX <= p.x <= v.maxX && v.minY <= p.y <= v.maxY
  {
    var xs, ys := Xs(points), Ys(points);
    forall p | p in points
      ensures points[0].x <= p.x <= points[|points| - 1].x && points[0].y <= p.y <= points[|points| - 1].y
    {
      var k :| 0 <= k < |points| && points[k] == p;
      EndpointsAreExtrema(xs, k);
      EndpointsAreExtrema(ys, k);
    }
  }

  /**
   * The bounds come from the endpoints, not from the extrema: a count that
   * falls between the first and the last day (a corrected total) gives a
   * minimum `y` above the maximum, and a peak in between lies outside them.
   */
  lemma EndpointsAreNotExtrema()
    ensures var points := [Point(0, 5), Point(1, 3)];
            Bounds(points).value.minY > Bounds(points).value.maxY
    ensures var points := [Point(0, 1), Point(1, 9), Point(2, 4)];
            Point(1, 9) in points && Bounds(points).value.maxY < 9
  {
  }

  /**
   * The two day-one records of 1 and 2 March 2020, with 5 and 9 cases, give
   * two points in that order, and the axes run from the first day to the
   * second and from 5 to 9.
   */
  lemma ChartScenario()
    ensures var first, second := DateKey(Date(2020, 3, 1)), DateKey(Date(2020, 3, 2));
            && Points(ScenarioDayOne().dayOne) == Success([Point(first, 5), Point(second, 9)])
            && Bounds([Point(first, 5), Point(second, 9)]) == Some(Viewport(first, second, 5, 9))
            && first < second
  {
    var items := ScenarioDayOne().dayOne;
    FirstOfMarchParses();
    SecondOfMarchParses();
    assert items[0] == DayOneItem(5, "2020-03-01T00:00:00Z") && items[1] == DayOneItem(9, "2020-03-02T00:00:00Z");
    assert forall i :: 0 <= i < |items| ==> ParseIsoPrefix(items[i].date).Success?;
    PointsSpec(items);
    var ps := Points(items).value;
    assert PointMatches(items[0], ps[0]) && PointMatches(items[1], ps[1]);
    assert ps == [ps[0], ps[1]];
    DateKeyOrder(Date(2020, 3, 1), Date(2020, 3, 2));
  }
}
