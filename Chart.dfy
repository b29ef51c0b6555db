/** The geometry of `GraficoLinea`: the running totals of the series are
    normalised into a 100 x 60 view box with a padding of 8, and joined into a
    path of one "M" command followed by "L" commands. The markup around the
    path is not part of this model. */
module Chart {
  import Series
  import Draws

  const Width: real := 100.0
  const Height: real := 60.0
  const Padding: real := 8.0
  const ChartWidth: real := Width - Padding * 2.0
  const ChartHeight: real := Height - Padding * 2.0

  /** A point of `puntos`: its coordinates and the running total it shows. */
  datatype Point = Point(x: real, y: real, value: int)

  /** `valores`: the running total of each record. */
  function Values(datos: seq<Series.DayRecord>): (vs: seq<int>)
    ensures |vs| == |datos|
  {
    seq(|datos|, i requires 0 <= i < |datos| => datos[i].cumulative)
  }

  /** `Math.min(...valores)`: the least value. */
  function Min(s: seq<int>): (m: int)
    requires |s| > 0
    ensures m in s && forall i :: 0 <= i < |s| ==> m <= s[i]
  {
    if |s| == 1 then s[0]
    else
      var m := Min(s[..|s| - 1]);
      assert forall i :: 0 <= i < |s| - 1 ==> s[..|s| - 1][i] == s[i];
      if s[|s| - 1] < m then s[|s| - 1] else m
  }

  /** `Math.max(...valores)`: the greatest value. */
  function Max(s: seq<int>): (m: int)
    requires |s| > 0
    ensures m in s && forall i :: 0 <= i < |s| ==> s[i] <= m
  {
    if |s| == 1 then s[0]
    else
      var m := Max(s[..|s| - 1]);
      assert forall i :: 0 <= i < |s| - 1 ==> s[..|s| - 1][i] == s[i];
      if s[|s| - 1] > m then s[|s| - 1] else m
  }

  /** `max - min || 1`: the spread of the values, or 1 when they are all
      equal, so that every value lies between the least value and the least
      value plus the range. */
  function Range(s: seq<int>): (r: int)
    requires |s| > 0
    ensures r >= 1
    ensures forall i :: 0 <= i < |s| ==> 0 <= s[i] - Min(s) <= r
  {
    if Max(s) - Min(s) == 0 then 1 else Max(s) - Min(s)
  }

  /** The horizontal position of the index-th of n points. */
  function X(index: nat, n: nat): (x: real)
    requires n >= 2
    ensures index == 0 ==> x == Padding
    ensures index == n - 1 ==> x == Padding + ChartWidth
    ensures index <= n - 1 ==> Padding <= x <= Padding + ChartWidth
  {
    var ratio := index as real / (n - 1) as real;
    assert index <= n - 1 ==> 0.0 <= ratio <= 1.0 by {
      if index <= n - 1 {
        RatioBounds(index, n - 1);
      }
    }
    assert index == n - 1 ==> ratio == 1.0;
    Padding + ratio * ChartWidth
  }

  /** The vertical position of a value: the least value at the bottom of the
      plot area, higher values higher up. */
  function Y(v: int, lo: int, range: int): (y: real)
    requires range >= 1
    ensures v == lo ==> y == Padding + ChartHeight
    ensures v == lo + range ==> y == Padding
    ensures lo <= v <= lo + range ==> Padding <= y <= Padding + ChartHeight
  {
    var ratio := (v - lo) as real / range as real;
    assert lo <= v <= lo + range ==> 0.0 <= ratio <= 1.0 by {
      if lo <= v <= lo + range {
        RatioBounds(v - lo, range);
      }
    }
    assert v == lo + range ==> ratio == 1.0;
    Padding + ChartHeight - ratio * ChartHeight
  }

  /** `puntos`. */
  function Points(datos: seq<Series.DayRecord>): (ps: seq<Point>)
    requires |datos| >= 2
    ensures |ps| == |datos|
  {
    var vs := Values(datos);
    var lo, range := Min(vs), Range(vs);
    seq(|datos|, i requires 0 <= i < |datos| => Point(X(i, |datos|), Y(vs[i], lo, range), vs[i]))
  }

  lemma DivideMonotone(a: real, b: real, d: real)
    requires a < b && d > 0.0
    ensures a / d < b / d
  {
    assert b / d - a / d == (b - a) / d;
  }

  lemma XFacts(n: nat)
    requires n >= 2
    ensures X(0, n) == 8.0 && X(n - 1, n) == 92.0
    ensures forall i: nat, j: nat :: i < j ==> X(i, n) < X(j, n)
  {
    forall i: nat, j: nat | i < j
      ensures X(i, n) < X(j, n)
    {
      DivideMonotone(i as real, j as real, (n - 1) as real);
    }
  }

  /** Horizontally the points run from the left padding to the right
      padding, strictly left to right in the order of the records. */
  lemma PointsHorizontal(datos: seq<Series.DayRecord>)
    requires |datos| >= 2
    ensures var ps := Points(datos);
      ps[0].x == 8.0 && ps[|ps| - 1].x == 92.0 &&
      forall i, j :: 0 <= i < j < |ps| ==> ps[i].x < ps[j].x
  {
    var ps, n := Points(datos), |datos|;
    XFacts(n);
    assert forall i :: 0 <= i < n ==> ps[i].x == X(i, n);
  }

  lemma RatioBounds(a: int, r: int)
    requires 0 <= a <= r && r >= 1
    ensures 0.0 <= a as real / r as real <= 1.0
  {
    assert a as real / r as real <= r as real / r as real by {
      if a < r {
        DivideMonotone(a as real, r as real, r as real);
      }
    }
  }

  /** The vertical mapping of one value v with lo <= v <= lo + range. */
  lemma YFacts(v: int, w: int, lo: int, range: int)
    requires range >= 1 && lo <= v <= lo + range && lo <= w <= lo + range
    ensures 8.0 <= Y(v, lo, range) <= 52.0
    ensures v == lo ==> Y(v, lo, range) == 52.0
    ensures v == lo + range ==> Y(v, lo, range) == 8.0
    ensures v <= w ==> Y(w, lo, range) <= Y(v, lo, range)
  {
    if v < w {
      DivideMonotone((v - lo) as real, (w - lo) as real, range as real);
    }
  }

  /** Vertically every point lies inside the padding; the least value is drawn
      at the bottom, the greatest, when it differs, at the top; when all values
      are equal every point is at the bottom; and a larger value is never drawn
      lower than a smaller one. */
  lemma PointsVertical(datos: seq<Series.DayRecord>)
    requires |datos| >= 2
    ensures var ps, vs := Points(datos), Values(datos);
      (forall i :: 0 <= i < |ps| ==> 8.0 <= ps[i].y <= 52.0 && ps[i].value == datos[i].cumulative) &&
      (forall i :: 0 <= i < |ps| && vs[i] == Min(vs) ==> ps[i].y == 52.0) &&
      (forall i :: 0 <= i < |ps| && vs[i] == Max(vs) && Max(vs) > Min(vs) ==> ps[i].y == 8.0) &&
      (Max(vs) == Min(vs) ==> forall i :: 0 <= i < |ps| ==> ps[i].y == 52.0) &&
      (forall i, j :: 0 <= i < |ps| && 0 <= j < |ps| && vs[i] <= vs[j] ==> ps[j].y <= ps[i].y)
  {
    var ps, vs := Points(datos), Values(datos);
    var lo, range := Min(vs), Range(vs);
    assert forall i :: 0 <= i < |ps| ==> ps[i].y == Y(vs[i], lo, range) && vs[i] == datos[i].cumulative;
    forall i, j | 0 <= i < |ps| && 0 <= j < |ps|
      ensures 8.0 <= ps[i].y <= 52.0
      ensures vs[i] == lo ==> ps[i].y == 52.0
      ensures vs[i] == Max(vs) && Max(vs) > lo ==> ps[i].y == 8.0
      ensures vs[i] <= vs[j] ==> ps[j].y <= ps[i].y
    {
      YFacts(vs[i], vs[j], lo, range);
    }
  }

  /** One path command: `M x y` for the first point, `L x y` for the others.
      `num` renders a coordinate the way the runtime turns a number into a
      string. */
  function Segment(index: nat, p: Point, num: real -> string): (s: string)
    ensures |s| >= 2 + |num(p.x)| && s[0] == (if index == 0 then 'M' else 'L') && s[1] == ' '
    ensures s[2..2 + |num(p.x)|] == num(p.x)
  {
    [if index == 0 then 'M' else 'L'] + " " + num(p.x) + " " + num(p.y)
  }

  /** `parts.join(sep)`. */
  function Join(parts: seq<string>, sep: string): (r: string)
    ensures |parts| == 0 ==> r == ""
    ensures |parts| > 0 ==> |parts[0]| <= |r| && r[..|parts[0]|] == parts[0]
    ensures |parts| > 0 ==> var last := parts[|parts| - 1];
      |last| <= |r| && r[|r| - |last|..] == last
  {
    if |parts| == 0 then ""
    else if |parts| == 1 then parts[0]
    else parts[0] + sep + Join(parts[1..], sep)
  }

  /** `pathD`. */
  function PathData(ps: seq<Point>, num: real -> string): (d: string)
    ensures |ps| > 0 ==> |d| >= 2 && d[0] == 'M' && d[1] == ' '
  {
    var segs := seq(|ps|, i requires 0 <= i < |ps| => Segment(i, ps[i], num));
    assert |ps| > 0 ==> segs[0][0] == 'M' && segs[0][1] == ' ';
    Join(segs, " ")
  }

  /** The number of occurrences of c in s. */
  function Count(c: char, s: string): nat {
    if |s| == 0 then 0 else (if s[0] == c then 1 else 0) + Count(c, s[1..])
  }

  /** The occurrences of c over all the parts. */
  function CountAll(c: char, parts: seq<string>): nat {
    if |parts| == 0 then 0 else Count(c, parts[0]) + CountAll(c, parts[1..])
  }

  lemma {:induction false} CountConcat(c: char, a: string, b: string)
    ensures Count(c, a + b) == Count(c, a) + Count(c, b)
  {
    if |a| == 0 {
      assert a + b == b;
    } else {
      assert (a + b)[1..] == a[1..] + b;
      CountConcat(c, a[1..], b);
    }
  }

  lemma {:induction false} CountJoin(c: char, parts: seq<string>)
    requires c != ' '
    ensures Count(c, Join(parts, " ")) == CountAll(c, parts)
  {
    if |parts| == 1 {
      assert parts[1..] == [];
    } else if |parts| > 1 {
      CountJoin(c, parts[1..]);
      CountConcat(c, parts[0] + " ", Join(parts[1..], " "));
      CountConcat(c, parts[0], " ");
      assert Count(c, " ") == 0;
    }
  }

  lemma {:induction false} CountAllConstant(c: char, parts: seq<string>, k: nat)
    requires forall i :: 0 <= i < |parts| ==> Count(c, parts[i]) == k
    ensures CountAll(c, parts) == k * |parts|
  {
    if |parts| > 0 {
      CountAllConstant(c, parts[1..], k);
    }
  }

  lemma CountSegment(c: char, index: nat, p: Point, num: real -> string)
    requires c != ' ' && c !in num(p.x) && c !in num(p.y)
    ensures Count(c, Segment(index, p, num)) == if c == (if index == 0 then 'M' else 'L') then 1 else 0
  {
    var letter := if index == 0 then 'M' else 'L';
    assert Segment(index, p, num) == [letter] + (" " + num(p.x) + " " + num(p.y));
    CountConcat(c, [letter], " " + num(p.x) + " " + num(p.y));
    CountConcat(c, " " + num(p.x) + " ", num(p.y));
    CountConcat(c, " " + num(p.x), " ");
    CountConcat(c, " ", num(p.x));
    CountNotIn(c, num(p.x));
    CountNotIn(c, num(p.y));
    assert Count(c, " ") == 0;
    assert Count(c, [letter]) == if c == letter then 1 else 0;
  }

  lemma {:induction false} CountNotIn(c: char, s: string)
    requires c !in s
    ensures Count(c, s) == 0
  {
    if |s| > 0 {
      CountNotIn(c, s[1..]);
    }
  }

  /** As long as the rendering of a number contains neither letter, the path
      starts with "M", has exactly one "M" command and one "L" command for
      every further point. */
  lemma PathCommands(ps: seq<Point>, num: real -> string)
    requires |ps| >= 1
    requires forall v :: 'M' !in num(v) && 'L' !in num(v)
    ensures var d := PathData(ps, num);
      |d| > 0 && d[0] == 'M' && Count('M', d) == 1 && Count('L', d) == |ps| - 1
  {
    var segs := seq(|ps|, i requires 0 <= i < |ps| => Segment(i, ps[i], num));
    CountJoin('M', segs);
    CountJoin('L', segs);
    forall i | 0 <= i < |segs|
      ensures Count('M', segs[i]) == (if i == 0 then 1 else 0)
      ensures Count('L', segs[i]) == (if i == 0 then 0 else 1)
    {
      CountSegment('M', i, ps[i], num);
      CountSegment('L', i, ps[i], num);
    }
    CountAllConstant('M', segs[1..], 0);
    CountAllConstant('L', segs[1..], 1);
  }

  /** The chart of a generated series has fourteen points, and its last point
      shows the target. */
  lemma ChartOfGenerated(r: real, days: seq<Series.DayDraws>, labels: seq<string>)
    requires Draws.IsDraw(r) && Series.ValidDays(days) && |labels| == Series.DayCount
    ensures var ps := Points(Series.Generated(r, days, labels));
      |ps| == 14 && ps[13].value == Series.Target(r) && ps[13].x == 92.0
  {
    Series.GeneratedEndsAtTarget(r, days, labels);
    PointsHorizontal(Series.Generated(r, days, labels));
  }
}
