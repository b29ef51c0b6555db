/** `generarDatos14Dias`: fourteen daily earnings records for the last two
    weeks, with a running total that is forced to end at a randomly chosen
    target. The random draws and the day labels (derived from the clock in the
    source) are parameters. */
module Series {
  import opened Draws

  /** One day of the series (`DatosDia`): `dia`, `fecha`, `ganancia`,
      `acumulado`. */
  datatype DayRecord = DayRecord(day: int, date: string, earning: int, cumulative: int)

  /** The two `Math.random()` draws made for one day, in the order the source
      makes them: the one behind the +-5% variation, then the one behind the
      extra jitter. */
  datatype DayDraws = DayDraws(variation: real, extra: real)

  const DayCount: nat := 14
  const TargetBase: int := 26000000
  const TargetSpread: nat := 999999
  /** A difference larger than this is moved into the last day's earning. */
  const Tolerance: int := 1000

  /** The `factor` of each entry of `patrones`, first day first. */
  const Factors: seq<real> := [1.3, 1.1, 0.9, 0.7, 1.2, 0.8, 1.4, 1.0, 0.9, 1.1, 0.85, 1.25, 1.05, 1.15]

  predicate ValidDays(days: seq<DayDraws>) {
    |days| == DayCount &&
    forall k :: 0 <= k < |days| ==> IsDraw(days[k].variation) && IsDraw(days[k].extra)
  }

  /** `totalObjetivo`: the base plus `Math.floor(Math.random() * 999999)`. */
  function Target(r: real): (t: int)
    requires IsDraw(r)
    ensures 26000000 <= t <= 26999998
  {
    TargetBase + FloorScaled(r, TargetSpread)
  }

  /** `baseDiaria`, in exact arithmetic. */
  function DailyBase(t: int): real {
    t as real / 14.0
  }

  /** `Math.floor(baseDiaria * 0.5)`: the least earning a day can have before
      reconciliation. */
  function MinDaily(t: int): (m: int)
    ensures m == t / 28
  {
    var q := t / 28;
    assert DailyBase(t) * 0.5 == t as real / 28.0;
    assert q as real <= t as real / 28.0 < q as real + 1.0 by {
      assert t == 28 * q + t % 28;
    }
    (DailyBase(t) * 0.5).Floor
  }

  /** `gananciaDia`: the day's pattern factor applied to the daily base, with
      the +-5% variation `(Math.random() - 0.5) * 0.1`. */
  function Shaped(t: int, k: nat, v: real): (s: int)
    requires k < DayCount
    ensures t >= 0 && IsDraw(v) ==>
      DailyBase(t) * Factors[k] * 0.95 - 1.0 < s as real <= DailyBase(t) * Factors[k] * 1.05
  {
    var b, m := DailyBase(t) * Factors[k], 1.0 + (v - 0.5) * 0.1;
    assert t >= 0 && IsDraw(v) ==> b * 0.95 - 1.0 < (b * m).Floor as real <= b * 1.05 by {
      if t >= 0 && IsDraw(v) {
        FactorPositive(k);
        ScaleBounds(b, m);
      }
    }
    (b * m).Floor
  }

  lemma FactorPositive(k: nat)
    requires k < DayCount
    ensures Factors[k] > 0.0
  {
  }

  /** Scaling a non-negative amount by a multiplier within 5% of 1. */
  lemma ScaleBounds(b: real, m: real)
    requires b >= 0.0 && 0.95 <= m <= 1.05
    ensures b * 0.95 - 1.0 < (b * m).Floor as real <= b * 1.05
  {
    var up, down := m - 0.95, 1.05 - m;
    assert b * up >= 0.0 && b * down >= 0.0;
    assert b * m == b * 0.95 + b * up && b * m == b * 1.05 - b * down;
    assert (b * m).Floor as real <= b * m < (b * m).Floor as real + 1.0;
  }

  /** `variacionExtra`: `Math.floor(Math.random() * 5000) - 2500`. */
  function Extra(e: real): (x: int)
    requires IsDraw(e)
    ensures -2500 <= x <= 2499
  {
    FloorScaled(e, 5000) - 2500
  }

  function Max(a: int, b: int): int {
    if a >= b then a else b
  }

  /** `gananciaFinal` of day k. */
  function Earning(t: int, k: nat, d: DayDraws): (e: int)
    requires k < DayCount && IsDraw(d.variation) && IsDraw(d.extra)
    ensures e >= MinDaily(t) && e >= Shaped(t, k, d.variation) + Extra(d.extra)
    ensures e == MinDaily(t) || e == Shaped(t, k, d.variation) + Extra(d.extra)
  {
    Max(Shaped(t, k, d.variation) + Extra(d.extra), MinDaily(t))
  }

  function Earnings(t: int, days: seq<DayDraws>): (e: seq<int>)
    requires ValidDays(days)
    ensures |e| == DayCount
  {
    seq(DayCount, k requires 0 <= k < DayCount => Earning(t, k, days[k]))
  }

  function Sum(s: seq<int>): int {
    if |s| == 0 then 0 else Sum(s[..|s| - 1]) + s[|s| - 1]
  }

  /** The sum of the `earning` fields of a run of records. */
  function SumOfEarnings(rs: seq<DayRecord>): int {
    if |rs| == 0 then 0 else SumOfEarnings(rs[..|rs| - 1]) + rs[|rs| - 1].earning
  }

  /** The series as the loop leaves it, before reconciliation: day k + 1, its
      label, its earning and the sum of the earnings of days 1 to k + 1. */
  function RawSeries(t: int, days: seq<DayDraws>, labels: seq<string>): (raw: seq<DayRecord>)
    requires ValidDays(days) && |labels| == DayCount
    ensures |raw| == DayCount
  {
    var e := Earnings(t, days);
    seq(DayCount, k requires 0 <= k < DayCount =>
      DayRecord(k + 1, labels[k], e[k], Sum(e[..k + 1])))
  }

  function Abs(x: int): int {
    if x < 0 then -x else x
  }

  /** The adjustment after the loop, given the running total `acum`: a
      difference to the target beyond the tolerance is added to the last
      earning; in every case the last running total becomes the target. */
  function Reconciled(datos: seq<DayRecord>, acum: int, t: int): (out: seq<DayRecord>)
    ensures |out| == |datos|
    ensures |datos| > 0 ==> var n := |datos|;
      out[..n - 1] == datos[..n - 1] &&
      out[n - 1].day == datos[n - 1].day && out[n - 1].date == datos[n - 1].date &&
      out[n - 1].cumulative == t &&
      out[n - 1].earning == datos[n - 1].earning + (if Abs(t - acum) > Tolerance then t - acum else 0)
  {
    var diff := t - acum;
    if |datos| > 0 && Abs(diff) > Tolerance then
      var last := datos[|datos| - 1];
      datos[|datos| - 1 := last.(earning := last.earning + diff, cumulative := t)]
    else if |datos| > 0 then
      datos[|datos| - 1 := datos[|datos| - 1].(cumulative := t)]
    else
      datos
  }

  /** The series the generator returns. */
  function Generated(r: real, days: seq<DayDraws>, labels: seq<string>): (g: seq<DayRecord>)
    requires IsDraw(r) && ValidDays(days) && |labels| == DayCount
    ensures |g| == DayCount && g[DayCount - 1].cumulative == Target(r)
    ensures g[..DayCount - 1] == RawSeries(Target(r), days, labels)[..DayCount - 1]
  {
    var t := Target(r);
    Reconciled(RawSeries(t, days, labels), Sum(Earnings(t, days)), t)
  }

  /** `total` in the page: the last running total, or 0 for an empty series. */
  function DisplayedTotal(datos: seq<DayRecord>): (total: int)
    ensures |datos| > 0 ==> total == datos[|datos| - 1].cumulative
    ensures |datos| == 0 ==> total == 0
  {
    if |datos| == 0 then 0 else datos[|datos| - 1].cumulative
  }

  /** The generator: counts i down from 13 to 0, pushes day 13 - i with the
      running total, then overwrites the last record. */
  method GenerateSeries(r: real, days: seq<DayDraws>, labels: seq<string>) returns (datos: seq<DayRecord>)
    requires IsDraw(r) && ValidDays(days) && |labels| == DayCount
    ensures datos == Generated(r, days, labels)
  {
    datos := [];
    var acumulado := 0;
    var total := Target(r);
    ghost var e := Earnings(total, days);
    ghost var raw := RawSeries(total, days, labels);
    for i := 14 downto 0
      invariant |datos| == 14 - i
      invariant datos == raw[..14 - i]
      invariant acumulado == Sum(e[..14 - i])
    {
      var indice := 13 - i;
      var ganancia := Earning(total, indice, days[indice]);
      RawSeriesStep(total, days, labels, indice);
      acumulado := acumulado + ganancia;
      datos := datos + [DayRecord(indice + 1, labels[indice], ganancia, acumulado)];
    }
    assert e[..14] == e && raw[..14] == raw;
    datos := Reconcile(datos, acumulado, total);
  }

  /** The adjustment after the loop, updating the last record in place. */
  method Reconcile(datos: seq<DayRecord>, acumulado: int, total: int) returns (out: seq<DayRecord>)
    ensures out == Reconciled(datos, acumulado, total)
  {
    out := datos;
    var diferencia := total - acumulado;
    if |out| > 0 && Abs(diferencia) > Tolerance {
      var last := out[|out| - 1];
      out := out[|out| - 1 := last.(earning := last.earning + diferencia)];
      out := out[|out| - 1 := out[|out| - 1].(cumulative := total)];
    } else if |out| > 0 {
      out := out[|out| - 1 := out[|out| - 1].(cumulative := total)];
    }
  }

  /** One step of the loop: the next record extends the prefix built so far,
      and its running total adds its earning to the previous one. */
  lemma RawSeriesStep(t: int, days: seq<DayDraws>, labels: seq<string>, k: nat)
    requires ValidDays(days) && |labels| == DayCount && k < DayCount
    ensures var e, raw := Earnings(t, days), RawSeries(t, days, labels);
      e[k] == Earning(t, k, days[k]) &&
      Sum(e[..k + 1]) == Sum(e[..k]) + e[k] &&
      raw[..k + 1] == raw[..k] + [DayRecord(k + 1, labels[k], e[k], Sum(e[..k + 1]))]
  {
    var e, raw := Earnings(t, days), RawSeries(t, days, labels);
    assert e[..k + 1][..k] == e[..k];
    assert raw[..k + 1] == raw[..k] + [raw[k]];
  }

  /** With the target in its range, the least earning is well above the
      tolerance. */
  lemma MinDailyOfTarget(t: int)
    requires 26000000 <= t <= 26999998
    ensures MinDaily(t) > Tolerance
  {
  }

  lemma {:induction false} SumOfEarningsOfRaw(t: int, days: seq<DayDraws>, labels: seq<string>, k: nat)
    requires ValidDays(days) && |labels| == DayCount && k <= DayCount
    ensures SumOfEarnings(RawSeries(t, days, labels)[..k]) == Sum(Earnings(t, days)[..k])
  {
    if k > 0 {
      var raw, e := RawSeries(t, days, labels), Earnings(t, days);
      SumOfEarningsOfRaw(t, days, labels, k - 1);
      assert raw[..k][..k - 1] == raw[..k - 1];
      assert e[..k][..k - 1] == e[..k - 1];
    }
  }

  /** Before reconciliation: fourteen records in order, record k is day k + 1
      with the k-th label, every earning is at least the least earning, and
      every running total is the sum of the earnings of the records up to and
      including it. */
  lemma RawSeriesShape(t: int, days: seq<DayDraws>, labels: seq<string>)
    requires ValidDays(days) && |labels| == DayCount
    ensures var raw := RawSeries(t, days, labels);
      |raw| == 14 &&
      (forall k :: 0 <= k < 14 ==> raw[k].day == k + 1 && raw[k].date == labels[k]) &&
      (forall k :: 0 <= k < 14 ==> raw[k].earning >= MinDaily(t)) &&
      (forall k :: 0 <= k < 14 ==> raw[k].cumulative == SumOfEarnings(raw[..k + 1]))
  {
    var raw := RawSeries(t, days, labels);
    forall k | 0 <= k < 14
      ensures raw[k].cumulative == SumOfEarnings(raw[..k + 1])
    {
      SumOfEarningsOfRaw(t, days, labels, k + 1);
    }
  }

  /** Before reconciliation the running totals rise strictly from day to day,
      since every earning is positive. */
  lemma RawSeriesIncreasing(r: real, days: seq<DayDraws>, labels: seq<string>)
    requires IsDraw(r) && ValidDays(days) && |labels| == DayCount
    ensures var raw := RawSeries(Target(r), days, labels);
      forall k :: 0 < k < 14 ==> raw[k - 1].cumulative < raw[k].cumulative
  {
    var t := Target(r);
    var e := Earnings(t, days);
    MinDailyOfTarget(t);
    forall k | 0 < k < 14
      ensures Sum(e[..k]) < Sum(e[..k + 1])
    {
      assert e[..k + 1][..k] == e[..k];
    }
  }

  /** The reconciliation keeps every record but the last, and the last ends at
      the target. A difference beyond the tolerance goes into the last
      earning, so that in a consistent series the last earning closes the gap
      from the previous running total to the target; otherwise the last
      earning is left as it was. */
  lemma ReconciledShape(datos: seq<DayRecord>, acum: int, t: int)
    requires |datos| >= 2
    requires acum == datos[|datos| - 1].cumulative
    requires datos[|datos| - 1].cumulative == datos[|datos| - 2].cumulative + datos[|datos| - 1].earning
    ensures var out, n := Reconciled(datos, acum, t), |datos|;
      |out| == n && out[..n - 1] == datos[..n - 1] &&
      out[n - 1].day == datos[n - 1].day && out[n - 1].date == datos[n - 1].date &&
      out[n - 1].cumulative == t &&
      (Abs(t - acum) > Tolerance ==> out[n - 2].cumulative + out[n - 1].earning == t) &&
      (Abs(t - acum) <= Tolerance ==> out[n - 1].earning == datos[n - 1].earning)
  {
  }

  /** The generated series: fourteen records, day k + 1 at position k, the
      first thirteen exactly as the loop built them, and the last running
      total, which the page shows as the total, equal to the target. Beyond
      the tolerance the last earning closes the gap from the thirteenth
      running total to the target; within it the last earning is the one the
      loop computed. */
  lemma GeneratedEndsAtTarget(r: real, days: seq<DayDraws>, labels: seq<string>)
    requires IsDraw(r) && ValidDays(days) && |labels| == DayCount
    ensures var g, raw := Generated(r, days, labels), RawSeries(Target(r), days, labels);
      |g| == 14 &&
      (forall k :: 0 <= k < 14 ==> g[k].day == k + 1 && g[k].date == labels[k]) &&
      g[..13] == raw[..13] &&
      (forall k :: 0 <= k < 13 ==> g[k].earning >= MinDaily(Target(r))) &&
      g[13].cumulative == Target(r) &&
      DisplayedTotal(g) == Target(r) &&
      (Abs(Target(r) - Sum(Earnings(Target(r), days))) > Tolerance ==> g[12].cumulative + g[13].earning == Target(r)) &&
      (Abs(Target(r) - Sum(Earnings(Target(r), days))) <= Tolerance ==> g[13].earning == raw[13].earning)
  {
    var t := Target(r);
    var raw := RawSeries(t, days, labels);
    RawSeriesShape(t, days, labels);
    assert Earnings(t, days)[..14] == Earnings(t, days);
    assert raw[..13 + 1][..13] == raw[..13];
    ReconciledShape(raw, Sum(Earnings(t, days)), t);
  }

  /** When the loop's total is within the tolerance of the target, the last
      earning is kept and the series still rises strictly to the target. */
  lemma SmallDifferenceKeepsRising(r: real, days: seq<DayDraws>, labels: seq<string>)
    requires IsDraw(r) && ValidDays(days) && |labels| == DayCount
    requires Abs(Target(r) - Sum(Earnings(Target(r), days))) <= Tolerance
    ensures var g := Generated(r, days, labels);
      forall k :: 0 < k < 14 ==> g[k - 1].cumulative < g[k].cumulative
  {
    var t := Target(r);
    var raw := RawSeries(t, days, labels);
    RawSeriesShape(t, days, labels);
    RawSeriesIncreasing(r, days, labels);
    MinDailyOfTarget(t);
    assert Earnings(t, days)[..14] == Earnings(t, days);
    assert raw[..13 + 1][..13] == raw[..13];
    ReconciledShape(raw, Sum(Earnings(t, days)), t);
  }

  /** The series need not rise on its last day, and the last earning can be
      negative: with the smallest target and every day's draws at 0.99, the
      first thirteen days already pass the target, and the reconciliation pulls
      the last running total back below the previous one. */
  lemma LastDayCanFall()
    ensures var g := Generated(0.0, seq(14, _ => DayDraws(0.99, 0.99)), seq(14, _ => ""));
      g[12].cumulative == 26429181 && g[13].cumulative == 26000000 &&
      g[13].earning == -429181 && g[13].cumulative < g[12].cumulative
  {
    var days, labels := seq(14, _ => DayDraws(0.99, 0.99)), seq(14, _ => "");
    var t := Target(0.0);
    var d := DayDraws(0.99, 0.99);
    assert t == 26000000;
    assert Extra(0.99) == 2450;
    assert MinDaily(t) == 928571 by {
      MinDailyOfTarget(t);
    }
    assert Earning(t, 0, d) == 2535035;
    assert Earning(t, 1, d) == 2145407;
    assert Earning(t, 2, d) == 1755778;
    assert Earning(t, 3, d) == 1366150;
    assert Earning(t, 4, d) == 2340221;
    assert Earning(t, 5, d) == 1560964;
    assert Earning(t, 6, d) == 2729850;
    assert Earning(t, 7, d) == 1950592;
    assert Earning(t, 8, d) == 1755778;
    assert Earning(t, 9, d) == 2145407;
    assert Earning(t, 10, d) == 1658371;
    assert Earning(t, 11, d) == 2437628;
    assert Earning(t, 12, d) == 2048000;
    assert Earning(t, 13, d) == 2242814;
    var e := Earnings(t, days);
    assert e == [2535035, 2145407, 1755778, 1366150, 2340221, 1560964, 2729850, 1950592, 1755778, 2145407, 1658371, 2437628, 2048000, 2242814];
    assert e[..1][..0] == e[..0];
    assert Sum(e[..1]) == 2535035;
    assert e[..2][..1] == e[..1];
    assert Sum(e[..2]) == 4680442;
    assert e[..3][..2] == e[..2];
    assert Sum(e[..3]) == 6436220;
    assert e[..4][..3] == e[..3];
    assert Sum(e[..4]) == 7802370;
    assert e[..5][..4] == e[..4];
    assert Sum(e[..5]) == 10142591;
    assert e[..6][..5] == e[..5];
    assert Sum(e[..6]) == 11703555;
    assert e[..7][..6] == e[..6];
    assert Sum(e[..7]) == 14433405;
    assert e[..8][..7] == e[..7];
    assert Sum(e[..8]) == 16383997;
    assert e[..9][..8] == e[..8];
    assert Sum(e[..9]) == 18139775;
    assert e[..10][..9] == e[..9];
    assert Sum(e[..10]) == 20285182;
    assert e[..11][..10] == e[..10];
    assert Sum(e[..11]) == 21943553;
    assert e[..12][..11] == e[..11];
    assert Sum(e[..12]) == 24381181;
    assert e[..13][..12] == e[..12];
    assert Sum(e[..13]) == 26429181;
    assert e[..14][..13] == e[..13];
    assert Sum(e[..14]) == 28671995;
    assert e[..14] == e;
    var raw := RawSeries(t, days, labels);
    assert raw[12].cumulative == 26429181 && raw[13].earning == 2242814;
  }
}
