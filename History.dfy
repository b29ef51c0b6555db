/** The transaction list of `HistorialGanhos`: `generarNumeroAleatorio`,
    `generarHorarios` and `generarDatosMock`. The random draws are parameters,
    and the clock is the current minute of the day. */
module History {
  import opened Draws
  import opened Digits

  /** One entry of the list (`GanhoItem`): `id`, `fecha`, `hora`, `ganancia`. */
  datatype Entry = Entry(id: string, date: string, time: string, amount: int)

  /** The two `Math.random()` draws behind one amount, in the order the
      source makes them. */
  datatype AmountDraws = AmountDraws(base: real, variation: real)

  const MinutesPerDay: int := 1440
  const AmountMin: int := 10000
  const AmountMax: int := 80000

  predicate ValidAmountDraws(d: AmountDraws) {
    IsDraw(d.base) && IsDraw(d.variation)
  }

  /** `generarNumeroAleatorio(min, max)`: an integer in [min, max] plus an
      integer in [0, 998]. */
  function RandomAmount(min: int, max: int, d: AmountDraws): (r: int)
    requires ValidAmountDraws(d)
    ensures min <= max ==> min <= r <= max + 998
  {
    var span := max - min + 1;
    var base := (d.base * span as real).Floor + min;
    assert span >= 1 ==> base == FloorScaled(d.base, span as nat) + min;
    base + FloorScaled(d.variation, 999)
  }

  /** `minutosAtras` of the i-th time: two minutes per step back, plus zero to
      two more. */
  function MinutesAgo(i: nat, r: real): (m: int)
    requires IsDraw(r)
    ensures 2 * i <= m <= 2 * i + 2
  {
    i * 2 + FloorScaled(r, 3)
  }

  /** The minute of the day `minutes` before minute `now`, wrapping to the
      previous day (Euclidean remainder, never negative). */
  function MinuteOfDay(now: int, minutes: int): (t: int)
    ensures 0 <= t < MinutesPerDay
  {
    (now - minutes) % MinutesPerDay
  }

  /** `HH:MM` of a minute of the day, both parts padded to two digits. */
  function TimeLabel(minute: int): (s: string)
    requires 0 <= minute < MinutesPerDay
    ensures |s| == 5 && s[2] == ':'
  {
    TwoDigits(minute / 60) + ":" + TwoDigits(minute % 60)
  }

  /** The two decimal digits of a number below 100, tens first. */
  function TwoDigits(n: nat): (s: string)
    requires n < 100
    ensures |s| == 2 && AllDigits(s) && Value(s) == n
  {
    var s := [DigitChar(n / 10), DigitChar(n % 10)];
    assert s[..1] == [DigitChar(n / 10)] && s[..1][..0] == [];
    assert DigitValue(s[0]) == n / 10 && DigitValue(s[1]) == n % 10;
    assert Value(s[..1]) == n / 10;
    s
  }

  /** `n.toString().padStart(2, '0')` of a number below 100 is its two
      digits. */
  lemma PadStartTwoDigits(n: nat)
    requires n < 100
    ensures PadStart2(DecimalDigits(n)) == TwoDigits(n)
  {
    if n < 10 {
      assert DecimalDigits(n) == [DigitChar(n)];
      assert DigitChar(0) == '0';
    } else {
      assert DecimalDigits(n / 10) == [DigitChar(n / 10)];
      assert DecimalDigits(n) == [DigitChar(n / 10), DigitChar(n % 10)];
    }
  }

  /** A time label is five characters `HH:MM` whose hours read back as a
      number below 24 and whose minutes as a number below 60, and together
      they give back the minute of the day. */
  lemma TimeLabelRoundTrip(minute: int)
    requires 0 <= minute < MinutesPerDay
    ensures var s := TimeLabel(minute);
      |s| == 5 && s[2] == ':' && AllDigits(s[..2]) && AllDigits(s[3..]) &&
      Value(s[..2]) < 24 && Value(s[3..]) < 60 &&
      60 * Value(s[..2]) + Value(s[3..]) == minute
  {
    var s := TimeLabel(minute);
    assert s[..2] == TwoDigits(minute / 60);
    assert s[3..] == TwoDigits(minute % 60);
  }

  /** The body of `generarHorarios` for one time: hours and minutes, each
      padded to two digits, joined by ":". */
  method FormatTime(minute: int) returns (stamp: string)
    requires 0 <= minute < MinutesPerDay
    ensures stamp == TimeLabel(minute)
  {
    var hours := PadStart2(DecimalDigits(minute / 60));
    var minutes := PadStart2(DecimalDigits(minute % 60));
    PadStartTwoDigits(minute / 60);
    PadStartTwoDigits(minute % 60);
    stamp := hours + ":" + minutes;
  }

  predicate ValidTimeDraws(draws: seq<real>) {
    forall i :: 0 <= i < |draws| ==> IsDraw(draws[i])
  }

  /** The labels `generarHorarios` produces: the i-th is the time
      `MinutesAgo(i)` minutes before `now`. */
  function Times(now: int, draws: seq<real>): (ts: seq<string>)
    requires ValidTimeDraws(draws)
    ensures |ts| == |draws|
  {
    seq(|draws|, i requires 0 <= i < |draws| => TimeLabel(MinuteOfDay(now, MinutesAgo(i, draws[i]))))
  }

  /** `generarHorarios(cantidad)`: one label per step, each `minutosAtras`
      minutes before `now`. */
  method GenerateTimes(count: nat, now: int, draws: seq<real>) returns (times: seq<string>)
    requires |draws| == count && ValidTimeDraws(draws)
    ensures times == Times(now, draws)
  {
    times := [];
    ghost var spec := Times(now, draws);
    for i := 0 to count
      invariant times == spec[..i]
    {
      var minutesAgo := MinutesAgo(i, draws[i]);
      var t := MinuteOfDay(now, minutesAgo);
      var stamp := FormatTime(t);
      assert spec[..i + 1] == spec[..i] + [stamp];
      times := times + [stamp];
    }
    assert spec[..count] == spec;
  }

  /** The offsets never decrease along the list: each time is at least as far
      back as the one before it, and steps apart by at most four minutes. */
  lemma MinutesAgoOrdered(draws: seq<real>, i: nat, j: nat)
    requires forall k :: 0 <= k < |draws| ==> IsDraw(draws[k])
    requires i < j < |draws|
    ensures MinutesAgo(i, draws[i]) <= MinutesAgo(j, draws[j])
    ensures j == i + 1 ==> MinutesAgo(j, draws[j]) - MinutesAgo(i, draws[i]) <= 4
  {
  }

  /** Consecutive entries are not always two to four minutes apart: a first
      draw of 0.9 and a second of 0.0 put both entries two minutes back, so
      they show the same time. */
  lemma MinutesAgoCanRepeat(now: int)
    ensures MinutesAgo(0, 0.9) == 2 && MinutesAgo(1, 0.0) == 2
    ensures TimeLabel(MinuteOfDay(now, MinutesAgo(0, 0.9))) == TimeLabel(MinuteOfDay(now, MinutesAgo(1, 0.0)))
  {
    assert FloorScaled(0.9, 3) == 2;
    assert FloorScaled(0.0, 3) == 0;
  }

  /** The id of the index-th entry: `ganho-`, then digits that read back as
      the index. */
  function EntryId(index: nat): (id: string)
    ensures |id| > 6 && id[..6] == "ganho-" && AllDigits(id[6..]) && Value(id[6..]) == index
  {
    ValueOfDecimalDigits(index);
    var id := "ganho-" + DecimalDigits(index);
    assert id[6..] == DecimalDigits(index);
    id
  }

  lemma EntryIdsDistinct(i: nat, j: nat)
    requires i != j
    ensures EntryId(i) != EntryId(j)
  {
  }

  predicate ValidAmounts(draws: seq<AmountDraws>) {
    forall i :: 0 <= i < |draws| ==> ValidAmountDraws(draws[i])
  }

  /** The list `generarDatosMock` produces: for each time, in order, an entry
      with its index-based id, the date "Hoy", that time and an amount of its
      own draws. */
  function Entries(now: int, timeDraws: seq<real>, amountDraws: seq<AmountDraws>): (es: seq<Entry>)
    requires |amountDraws| == |timeDraws| && ValidTimeDraws(timeDraws) && ValidAmounts(amountDraws)
    ensures |es| == |timeDraws|
    ensures forall i :: 0 <= i < |es| ==> AmountMin <= es[i].amount <= AmountMax + 998
  {
    var ts := Times(now, timeDraws);
    seq(|ts|, i requires 0 <= i < |ts| =>
      Entry(EntryId(i), "Hoy", ts[i], RandomAmount(AmountMin, AmountMax, amountDraws[i])))
  }

  /** The ids of the list are pairwise distinct. */
  lemma EntriesDistinctIds(now: int, timeDraws: seq<real>, amountDraws: seq<AmountDraws>)
    requires |amountDraws| == |timeDraws| && ValidTimeDraws(timeDraws) && ValidAmounts(amountDraws)
    ensures var es := Entries(now, timeDraws, amountDraws);
      forall i, j :: 0 <= i < j < |es| ==> es[i].id != es[j].id
  {
    var es := Entries(now, timeDraws, amountDraws);
    forall i, j | 0 <= i < j < |es|
      ensures es[i].id != es[j].id
    {
      EntryIdsDistinct(i, j);
    }
  }

  /** `generarDatosMock(cantidad)`: the times first, then one entry per time,
      with an amount between 10000 and 80000 + 998. */
  method GenerateEntries(count: nat, now: int, timeDraws: seq<real>, amountDraws: seq<AmountDraws>)
    returns (entries: seq<Entry>)
    requires |timeDraws| == count && ValidTimeDraws(timeDraws)
    requires |amountDraws| == count && ValidAmounts(amountDraws)
    ensures entries == Entries(now, timeDraws, amountDraws)
  {
    var times := GenerateTimes(count, now, timeDraws);
    ghost var spec := Entries(now, timeDraws, amountDraws);
    entries := [];
    for index := 0 to |times|
      invariant entries == spec[..index]
    {
      var amount := RandomAmount(AmountMin, AmountMax, amountDraws[index]);
      var entry := Entry("ganho-" + DecimalDigits(index), "Hoy", times[index], amount);
      assert entry == spec[index];
      assert spec[..index + 1] == spec[..index] + [entry];
      entries := entries + [entry];
    }
    assert spec[..count] == spec;
  }
}
