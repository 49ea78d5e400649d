/**
 * The power-budgeted admission scheduler of the scheduling page
 * (`computeSchedule(targetMode)`).
 *
 * The processes are copied into a working list, which the power-saving mode
 * sorts by power (a stable sort).  Walking the list once, each process is
 * admitted when the remaining battery covers its draw (derated to 80 % above
 * 20 W in power-saving mode): the battery drops by the draw, a Gantt bar
 * starting at the current time and a pie slice are recorded, and the time
 * advances by the burst.  A process that does not fit is skipped for good.
 *
 * Power and battery are whole hundredths of a watt, bursts whole milliseconds.
 * The functions Draw, SortByPower, Admit and Simulate specify the page; the
 * methods SortByPowerInPlace and ComputeSchedule run it on an array and are
 * proved to compute them.
 */
module PowSav {

  import opened Opt

  /** The two scheduling modes of the page. */
  datatype Mode = Performance | PowerSaving

  /**
   * A process as the page receives it: `id` is "" when it has none, `power`
   * is in hundredths of a watt, `burst` in milliseconds and None while blank.
   */
  datatype Proc = Proc(id: string, power: nat, burst: Option<nat>)

  /**
   * A copy of a process in the working list: `name` is its displayed id and
   * `index` its position in the input list (the i of the default id "P"+i).
   */
  datatype Entry = Entry(name: string, index: nat, power: nat, burst: Option<nat>)

  /** A bar of the Gantt chart. */
  datatype Bar = Bar(name: string, start: nat, duration: nat, power: nat)

  /** A slice of the consumption pie chart. */
  datatype Slice = Slice(name: string, value: nat)

  /** What computeSchedule returns. */
  datatype Schedule = Schedule(pieData: seq<Slice>, ganttData: seq<Bar>, total: int, left: int)

  /** Powers above this (20 W) are derated in power-saving mode. */
  const DerateThreshold: nat := 2000

  // ---------------------------------------------------------------------------
  // Names

  function DigitChar(d: nat): (c: char)
    requires d < 10
    ensures '0' <= c <= '9'
  {
    (('0' as int) + d) as char
  }

  function DigitValue(c: char): int {
    (c as int) - ('0' as int)
  }

  /** Decimal digits of n, as in the template string `P${i}`. */
  function Decimal(n: nat): (s: string)
    ensures |s| >= 1
    ensures forall c :: c in s ==> '0' <= c <= '9'
  {
    if n < 10 then [DigitChar(n)] else Decimal(n / 10) + [DigitChar(n % 10)]
  }

  /** The number a string of decimal digits denotes. */
  function DecimalValue(s: string): int {
    if s == [] then 0 else DecimalValue(s[..|s| - 1]) * 10 + DigitValue(s[|s| - 1])
  }

  /** Reading the digits back gives the index: distinct positions get distinct default ids. */
  lemma {:induction false} DecimalRoundTrip(n: nat)
    ensures DecimalValue(Decimal(n)) == n
  {
    if n >= 10 {
      DecimalRoundTrip(n / 10);
      var s := Decimal(n);
      assert s[..|s| - 1] == Decimal(n / 10);
    }
  }

  lemma DefaultNamesDistinct(i: nat, j: nat)
    requires i != j
    ensures "P" + Decimal(i) != "P" + Decimal(j)
  {
    DecimalRoundTrip(i);
    DecimalRoundTrip(j);
    assert ("P" + Decimal(i))[1..] == Decimal(i);
    assert ("P" + Decimal(j))[1..] == Decimal(j);
  }

  /** `p.id || \`P${i}\`` */
  function DisplayName(p: Proc, i: nat): string {
    if p.id != "" then p.id else "P" + Decimal(i)
  }

  // ---------------------------------------------------------------------------
  // The working list

  /** `processes.map((p, i) => ({ ...p, __id: p.id || \`P${i}\` }))` */
  function Tagged(procs: seq<Proc>): (w: seq<Entry>)
    ensures |w| == |procs|
    ensures forall i :: 0 <= i < |procs| ==>
      w[i] == Entry(DisplayName(procs[i], i), i, procs[i].power, procs[i].burst)
  {
    seq(|procs|, i requires 0 <= i < |procs| =>
      Entry(DisplayName(procs[i], i), i, procs[i].power, procs[i].burst))
  }

  /** Insert x into a list sorted by power, after every entry whose power is not above its own. */
  function Insert(s: seq<Entry>, x: Entry): seq<Entry> {
    if s == [] || s[|s| - 1].power <= x.power then s + [x]
    else Insert(s[..|s| - 1], x) + [s[|s| - 1]]
  }

  /** The list sorted by power, ties kept in list order (insertion sort). */
  function SortByPower(s: seq<Entry>): seq<Entry> {
    if s == [] then [] else Insert(SortByPower(s[..|s| - 1]), s[|s| - 1])
  }

  /** Inserting adds exactly x. */
  lemma {:induction false} InsertPermutes(s: seq<Entry>, x: Entry)
    ensures multiset(Insert(s, x)) == multiset(s) + multiset{x}
  {
    if s != [] && s[|s| - 1].power > x.power {
      assert s == s[..|s| - 1] + [s[|s| - 1]];
      InsertPermutes(s[..|s| - 1], x);
    }
  }

  /** Sorting neither loses, duplicates nor invents an entry. */
  lemma {:induction false} SortPermutes(s: seq<Entry>)
    ensures multiset(SortByPower(s)) == multiset(s)
  {
    if s != [] {
      assert s == s[..|s| - 1] + [s[|s| - 1]];
      SortPermutes(s[..|s| - 1]);
      InsertPermutes(SortByPower(s[..|s| - 1]), s[|s| - 1]);
    }
  }

  /** a comes before b in the power-saving order: lower power, or equal power and earlier input position. */
  predicate Precedes(a: Entry, b: Entry) {
    a.power < b.power || (a.power == b.power && a.index < b.index)
  }

  /** Sorted by power, and entries of equal power in the order of their input positions. */
  predicate StablySorted(s: seq<Entry>) {
    forall j, k :: 0 <= j < k < |s| ==> Precedes(s[j], s[k])
  }

  /** The entries are in the order of their input positions. */
  predicate InInputOrder(s: seq<Entry>) {
    forall j, k :: 0 <= j < k < |s| ==> s[j].index < s[k].index
  }

  /** Everything in the list and x precede z, so everything after inserting x does. */
  lemma InsertPrecedes(s: seq<Entry>, x: Entry, z: Entry)
    requires forall y :: y in s ==> Precedes(y, z)
    requires Precedes(x, z)
    ensures forall y :: y in Insert(s, x) ==> Precedes(y, z)
  {
  }

  lemma {:induction false} InsertStable(s: seq<Entry>, x: Entry)
    requires StablySorted(s)
    requires forall y :: y in s ==> y.index < x.index
    ensures StablySorted(Insert(s, x))
    decreases |s|
  {
    if s != [] && s[|s| - 1].power > x.power {
      var init, last := s[..|s| - 1], s[|s| - 1];
      InsertStable(init, x);
      forall y | y in init
        ensures Precedes(y, last)
      {
        var q :| 0 <= q < |init| && init[q] == y;
        assert s[q] == y;
      }
      InsertPrecedes(init, x, last);
      var r := Insert(init, x);
      assert forall j :: 0 <= j < |r| ==> r[j] in r;
    }
  }

  /** Sorting in power-saving mode: a permutation, sorted by power, ties in input order. */
  lemma {:induction false} SortByPowerStable(s: seq<Entry>)
    requires InInputOrder(s)
    ensures StablySorted(SortByPower(s))
  {
    if s != [] {
      var init, x := s[..|s| - 1], s[|s| - 1];
      SortByPowerStable(init);
      SortPermutes(init);
      forall y | y in SortByPower(init)
        ensures y.index < x.index
      {
        assert y in multiset(SortByPower(init));
        var q :| 0 <= q < |init| && init[q] == y;
      }
      InsertStable(SortByPower(init), x);
    }
  }

  /** Sorted nondecreasingly by power. */
  predicate PowerSorted(s: seq<Entry>) {
    forall j, k :: 0 <= j < k < |s| ==> s[j].power <= s[k].power
  }

  /** Inserting into a list sorted by power keeps it sorted by power. */
  lemma {:induction false} InsertSorted(s: seq<Entry>, x: Entry)
    requires PowerSorted(s)
    ensures PowerSorted(Insert(s, x))
    decreases |s|
  {
    if s != [] && s[|s| - 1].power > x.power {
      var init, last := s[..|s| - 1], s[|s| - 1];
      InsertSorted(init, x);
      InsertPermutes(init, x);
      var r := Insert(init, x);
      forall j | 0 <= j < |r|
        ensures r[j].power <= last.power
      {
        assert r[j] in multiset(r);
        if r[j] != x {
          var q :| 0 <= q < |init| && init[q] == r[j];
          assert s[q] == r[j];
        }
      }
    }
  }

  /** For every list, sorting by power gives a list nondecreasing by power. */
  lemma {:induction false} SortByPowerSorted(s: seq<Entry>)
    ensures PowerSorted(SortByPower(s))
  {
    if s != [] {
      SortByPowerSorted(s[..|s| - 1]);
      InsertSorted(SortByPower(s[..|s| - 1]), s[|s| - 1]);
    }
  }

  /** The sorted list is a permutation of its input and nondecreasing by power. */
  lemma SortedPermutation(s: seq<Entry>)
    ensures multiset(SortByPower(s)) == multiset(s) && PowerSorted(SortByPower(s))
  {
    SortPermutes(s);
    SortByPowerSorted(s);
  }

  /** The list the schedule walks: the input order in performance mode, sorted by power in power-saving mode. */
  function WorkingList(procs: seq<Proc>, mode: Mode): seq<Entry> {
    if mode == PowerSaving then SortByPower(Tagged(procs)) else Tagged(procs)
  }

  /**
   * The working list holds a copy of every process exactly once; in
   * performance mode it is the input order, in power-saving mode it is
   * sorted nondecreasingly by power with ties in input order.
   */
  lemma WorkingOrder(procs: seq<Proc>, mode: Mode)
    ensures multiset(WorkingList(procs, mode)) == multiset(Tagged(procs))
    ensures mode == Performance ==> WorkingList(procs, mode) == Tagged(procs)
    ensures mode == PowerSaving ==> StablySorted(WorkingList(procs, mode))
  {
    if mode == PowerSaving {
      SortPermutes(Tagged(procs));
      SortByPowerStable(Tagged(procs));
    }
  }

  // ---------------------------------------------------------------------------
  // Admission

  /**
   * The draw of a process: in power-saving mode a power above 20 W is
   * derated to 80 %, rounded to the nearest hundredth; otherwise the power.
   */
  function Draw(mode: Mode, power: nat): (d: nat)
    ensures mode == PowerSaving && power > DerateThreshold ==>
      d < power && -2 <= 5 * d - 4 * power <= 2
    ensures !(mode == PowerSaving && power > DerateThreshold) ==> d == power
  {
    if mode == PowerSaving && power > DerateThreshold then (4 * power + 2) / 5 else power
  }

  /** Derating makes a 20.01 W process draw less than a 20 W one: sorting by power is not sorting by draw. */
  lemma DerateNotMonotone()
    ensures Draw(PowerSaving, 2000) == 2000 && Draw(PowerSaving, 2001) == 1601
  {
  }

  /** `parseFloat(p.burst) || 0` */
  function Duration(e: Entry): nat {
    match e.burst
    case None => 0
    case Some(b) => b
  }

  /** The variables of the loop: `battery`, `consumed`, `timeline`, `gantt` and `pie`. */
  datatype Meter = Meter(battery: int, consumed: int, timeline: nat, gantt: seq<Bar>, pie: seq<Slice>)

  /** One step of the `forEach`: admit e when the battery covers its draw, else leave everything as it is. */
  function Admit(mode: Mode, m: Meter, e: Entry): Meter {
    var d := Draw(mode, e.power);
    if m.battery < d then m
    else Meter(m.battery - d, m.consumed + d, m.timeline + Duration(e),
               m.gantt + [Bar(e.name, m.timeline, Duration(e), d)],
               m.pie + [Slice(e.name, d)])
  }

  /** The loop's variables after it has walked the list w, starting from a full battery. */
  function Simulate(mode: Mode, limit: int, w: seq<Entry>): Meter {
    if w == [] then Meter(limit, 0, 0, [], [])
    else Admit(mode, Simulate(mode, limit, w[..|w| - 1]), w[|w| - 1])
  }

  /** What the page shows for one mode. */
  function ScheduleOf(procs: seq<Proc>, limit: int, mode: Mode): Schedule {
    var m := Simulate(mode, limit, WorkingList(procs, mode));
    Schedule(m.pie, m.gantt, m.consumed, m.battery)
  }

  function TotalPower(bars: seq<Bar>): int {
    if bars == [] then 0 else TotalPower(bars[..|bars| - 1]) + bars[|bars| - 1].power
  }

  function TotalDuration(bars: seq<Bar>): int {
    if bars == [] then 0 else TotalDuration(bars[..|bars| - 1]) + bars[|bars| - 1].duration
  }

  function TotalValue(slices: seq<Slice>): int {
    if slices == [] then 0 else TotalValue(slices[..|slices| - 1]) + slices[|slices| - 1].value
  }

  lemma TotalsOfAppend(bars: seq<Bar>, b: Bar, slices: seq<Slice>, s: Slice)
    ensures TotalPower(bars + [b]) == TotalPower(bars) + b.power
    ensures TotalDuration(bars + [b]) == TotalDuration(bars) + b.duration
    ensures TotalValue(slices + [s]) == TotalValue(slices) + s.value
  {
  }

  /** Conservation: what was consumed plus what is left is the limit. */
  lemma {:induction false} Conservation(mode: Mode, limit: int, w: seq<Entry>)
    ensures Simulate(mode, limit, w).consumed + Simulate(mode, limit, w).battery == limit
  {
    if w != [] {
      Conservation(mode, limit, w[..|w| - 1]);
    }
  }

  /** The consumption is the sum of the admitted draws, as listed in either chart. */
  lemma {:induction false} ConsumedIsSumOfDraws(mode: Mode, limit: int, w: seq<Entry>)
    ensures Simulate(mode, limit, w).consumed == TotalPower(Simulate(mode, limit, w).gantt)
    ensures Simulate(mode, limit, w).consumed == TotalValue(Simulate(mode, limit, w).pie)
  {
    if w != [] {
      var m := Simulate(mode, limit, w[..|w| - 1]);
      var e := w[|w| - 1];
      ConsumedIsSumOfDraws(mode, limit, w[..|w| - 1]);
      var d := Draw(mode, e.power);
      if m.battery >= d {
        TotalsOfAppend(m.gantt, Bar(e.name, m.timeline, Duration(e), d), m.pie, Slice(e.name, d));
      }
    }
  }

  /** The battery never goes below zero, never grows, and with a negative limit nothing is admitted. */
  lemma {:induction false} BatteryBounds(mode: Mode, limit: int, w: seq<Entry>)
    ensures Simulate(mode, limit, w).battery <= limit
    ensures limit >= 0 ==> Simulate(mode, limit, w).battery >= 0
    ensures limit < 0 ==> Simulate(mode, limit, w).gantt == []
  {
    if w != [] {
      BatteryBounds(mode, limit, w[..|w| - 1]);
    }
  }

  /**
   * The step for the k-th entry of the list: it is admitted exactly when the
   * battery covers its draw; the battery then drops by the draw, which leaves
   * it non-negative; a skipped entry changes nothing.
   */
  lemma AdmissionRule(mode: Mode, limit: int, w: seq<Entry>, k: nat)
    requires k < |w|
    ensures var before, after, d := Simulate(mode, limit, w[..k]), Simulate(mode, limit, w[..k + 1]),
                                    Draw(mode, w[k].power);
      && (|after.gantt| == |before.gantt| + 1 <==> before.battery >= d)
      && (before.battery >= d ==> after.battery == before.battery - d >= 0)
      && (before.battery < d ==> after == before)
  {
    assert w[..k + 1][..k] == w[..k];
  }

  /** Along the list the battery only falls. */
  lemma {:induction false} BatteryFalls(mode: Mode, limit: int, w: seq<Entry>, j: nat, k: nat)
    requires j <= k <= |w|
    ensures Simulate(mode, limit, w[..k]).battery <= Simulate(mode, limit, w[..j]).battery
    decreases k - j
  {
    if j < k {
      BatteryFalls(mode, limit, w, j, k - 1);
      assert w[..k][..k - 1] == w[..k - 1];
    }
  }

  /**
   * A skipped process is never admitted later: what is left at the end does
   * not cover its draw either, so a second walk would not admit it.
   */
  lemma SkippedStaysOut(mode: Mode, limit: int, w: seq<Entry>, k: nat)
    requires k < |w|
    requires Simulate(mode, limit, w[..k]).battery < Draw(mode, w[k].power)
    ensures Simulate(mode, limit, w).battery < Draw(mode, w[k].power)
  {
    BatteryFalls(mode, limit, w, k, |w|);
    assert w[..|w|] == w;
  }

  /** The bars are laid end to end from time 0: each starts when the bars before it are done. */
  predicate Chained(bars: seq<Bar>) {
    bars == [] || (Chained(bars[..|bars| - 1]) && bars[|bars| - 1].start == TotalDuration(bars[..|bars| - 1]))
  }

  /** In a chained list, bar k starts at the total duration of bars 0 .. k-1. */
  lemma {:induction false} ChainedAt(bars: seq<Bar>, k: nat)
    requires Chained(bars) && k < |bars|
    ensures bars[k].start == TotalDuration(bars[..k])
  {
    var init := bars[..|bars| - 1];
    if k < |init| {
      ChainedAt(init, k);
      assert init[..k] == bars[..k];
    }
  }

  /** A bar appended where the chained bars end keeps them chained, and extends their total duration. */
  lemma ChainAppend(bars: seq<Bar>, b: Bar)
    requires Chained(bars) && b.start == TotalDuration(bars)
    ensures Chained(bars + [b])
    ensures TotalDuration(bars + [b]) == TotalDuration(bars) + b.duration
  {
  }

  /** The walk keeps the Gantt chart chained, and the timeline at its end. */
  lemma {:induction false} GanttChained(mode: Mode, limit: int, w: seq<Entry>)
    ensures var m := Simulate(mode, limit, w);
      m.timeline == TotalDuration(m.gantt) && Chained(m.gantt)
  {
    if w != [] {
      GanttChained(mode, limit, w[..|w| - 1]);
      var m0 := Simulate(mode, limit, w[..|w| - 1]);
      var e := w[|w| - 1];
      var d := Draw(mode, e.power);
      if m0.battery >= d {
        ChainAppend(m0.gantt, Bar(e.name, m0.timeline, Duration(e), d));
      }
    }
  }

  /** Every bar starts when the bars before it are done, and the timeline ends after all of them. */
  lemma GanttStarts(mode: Mode, limit: int, w: seq<Entry>)
    ensures var m := Simulate(mode, limit, w);
      && m.timeline == TotalDuration(m.gantt)
      && forall k :: 0 <= k < |m.gantt| ==> m.gantt[k].start == TotalDuration(m.gantt[..k])
  {
    GanttChained(mode, limit, w);
    var g := Simulate(mode, limit, w).gantt;
    forall k | 0 <= k < |g|
      ensures g[k].start == TotalDuration(g[..k])
    {
      ChainedAt(g, k);
    }
  }

  /**
   * Gantt timing: the first bar starts at 0 and every later bar where the
   * one before it ends.
   */
  lemma GanttTiming(mode: Mode, limit: int, w: seq<Entry>)
    ensures var g := Simulate(mode, limit, w).gantt;
      && (|g| > 0 ==> g[0].start == 0)
      && (forall k :: 0 < k < |g| ==> g[k].start == g[k - 1].start + g[k - 1].duration)
  {
    GanttChained(mode, limit, w);
    var g := Simulate(mode, limit, w).gantt;
    if |g| > 0 {
      ChainedAt(g, 0);
    }
    forall k | 0 < k < |g|
      ensures g[k].start == g[k - 1].start + g[k - 1].duration
    {
      ChainedAt(g, k);
      ChainedAt(g, k - 1);
      assert g[..k] == g[..k - 1] + [g[k - 1]];
      TotalsOfAppend(g[..k - 1], g[k - 1], [], Slice("", 0));
    }
  }

  /** The pie and the Gantt chart list the same processes in the same order with the same draws. */
  lemma {:induction false} PieMatchesGantt(mode: Mode, limit: int, w: seq<Entry>)
    ensures var m := Simulate(mode, limit, w);
      && |m.pie| == |m.gantt|
      && forall k :: 0 <= k < |m.pie| ==> m.pie[k] == Slice(m.gantt[k].name, m.gantt[k].power)
  {
    if w != [] {
      PieMatchesGantt(mode, limit, w[..|w| - 1]);
    }
  }

  /** A bar records the entry it was made from: its name, its draw and its burst. */
  predicate Matches(mode: Mode, b: Bar, e: Entry) {
    b.name == e.name && b.power == Draw(mode, e.power) && b.duration == Duration(e)
  }

  /** The bars are made from a subsequence of the list, in list order. */
  predicate Embeds(mode: Mode, bars: seq<Bar>, w: seq<Entry>)
    decreases |w|
  {
    if bars == [] then true
    else if w == [] then false
    else
      || (Matches(mode, bars[|bars| - 1], w[|w| - 1]) && Embeds(mode, bars[..|bars| - 1], w[..|w| - 1]))
      || Embeds(mode, bars, w[..|w| - 1])
  }

  /** The Gantt chart lists admitted processes in list order, each once, with its own draw and burst. */
  lemma {:induction false} GanttEmbeds(mode: Mode, limit: int, w: seq<Entry>)
    ensures Embeds(mode, Simulate(mode, limit, w).gantt, w)
  {
    if w != [] {
      var m := Simulate(mode, limit, w[..|w| - 1]);
      GanttEmbeds(mode, limit, w[..|w| - 1]);
      var g := Simulate(mode, limit, w).gantt;
      if g != m.gantt {
        assert g[..|g| - 1] == m.gantt;
      }
    }
  }

  /** The copy of (power 10 W, burst 5), (30 W, 3), (25 W, 2) scheduled with a 50 W limit. */
  const Sample: seq<Proc> := [Proc("", 1000, Some(5)), Proc("", 3000, Some(3)), Proc("", 2500, Some(2))]

  /** The schedule of a mode is read off the walk over its working list. */
  lemma ScheduleFromWalk(procs: seq<Proc>, limit: int, mode: Mode, w: seq<Entry>, m: Meter)
    requires WorkingList(procs, mode) == w && Simulate(mode, limit, w) == m
    ensures ScheduleOf(procs, limit, mode) == Schedule(m.pie, m.gantt, m.consumed, m.battery)
  {
  }

  /** The working list of the sample before sorting: default ids P0, P1, P2. */
  lemma SampleTagged()
    ensures Tagged(Sample) == [Entry("P0", 0, 1000, Some(5)), Entry("P1", 1, 3000, Some(3)), Entry("P2", 2, 2500, Some(2))]
  {
    assert Decimal(0) == "0" && Decimal(1) == "1" && Decimal(2) == "2";
    var t := Tagged(Sample);
    assert |t| == 3 && t[0] == Entry("P0", 0, 1000, Some(5)) && t[1] == Entry("P1", 1, 3000, Some(3))
      && t[2] == Entry("P2", 2, 2500, Some(2));
  }

  /** Walking a three-entry list is three admission steps from a full battery. */
  lemma WalkOfThree(mode: Mode, limit: int, a: Entry, b: Entry, c: Entry)
    ensures Simulate(mode, limit, [a, b, c])
         == Admit(mode, Admit(mode, Admit(mode, Meter(limit, 0, 0, [], []), a), b), c)
  {
    assert [a, b, c][..2] == [a, b] && [a, b][..1] == [a] && [a][..0] == [];
    assert Simulate(mode, limit, [a]) == Admit(mode, Meter(limit, 0, 0, [], []), a);
    assert Simulate(mode, limit, [a, b]) == Admit(mode, Simulate(mode, limit, [a]), b);
  }

  /** Performance mode admits P0 at 0 and P1 at 5, skips P2 (10 W left < 25 W): 40 W used, 10 W left. */
  lemma ScenarioPerformance()
    ensures ScheduleOf(Sample, 5000, Performance)
         == Schedule([Slice("P0", 1000), Slice("P1", 3000)],
                     [Bar("P0", 0, 5, 1000), Bar("P1", 5, 3, 3000)], 4000, 1000)
  {
    var e0, e1, e2 := Entry("P0", 0, 1000, Some(5)), Entry("P1", 1, 3000, Some(3)), Entry("P2", 2, 2500, Some(2));
    SampleTagged();
    var m1 := Meter(4000, 1000, 5, [Bar("P0", 0, 5, 1000)], [Slice("P0", 1000)]);
    var m2 := Meter(1000, 4000, 8, [Bar("P0", 0, 5, 1000), Bar("P1", 5, 3, 3000)],
                    [Slice("P0", 1000), Slice("P1", 3000)]);
    WalkOfThree(Performance, 5000, e0, e1, e2);
    assert Admit(Performance, Meter(5000, 0, 0, [], []), e0) == m1;
    assert Admit(Performance, m1, e1) == m2;
    assert Admit(Performance, m2, e2) == m2;
    ScheduleFromWalk(Sample, 5000, Performance, [e0, e1, e2], m2);
  }

  /** The first two sample entries are already in power order. */
  lemma SampleSortedPrefix(e0: Entry, e1: Entry)
    requires e0.power <= e1.power
    ensures SortByPower([e0, e1]) == [e0, e1]
  {
    assert [e0, e1][..1] == [e0] && [e0][..0] == [];
    assert SortByPower([e0]) == [e0];
  }

  /** The third sample entry goes between the other two. */
  lemma SampleSortedAll(e0: Entry, e1: Entry, e2: Entry)
    requires e0.power <= e2.power < e1.power && e0.power <= e1.power
    ensures SortByPower([e0, e1, e2]) == [e0, e2, e1]
  {
    SampleSortedPrefix(e0, e1);
    assert [e0, e1, e2][..2] == [e0, e1] && [e0, e1][..1] == [e0];
    assert Insert([e0], e2) == [e0, e2];
  }

  /** Sorting the sample by power gives P0 (10 W), P2 (25 W), P1 (30 W). */
  lemma SampleSorted()
    ensures WorkingList(Sample, PowerSaving)
         == [Entry("P0", 0, 1000, Some(5)), Entry("P2", 2, 2500, Some(2)), Entry("P1", 1, 3000, Some(3))]
  {
    SampleTagged();
    SampleSortedAll(Entry("P0", 0, 1000, Some(5)), Entry("P1", 1, 3000, Some(3)), Entry("P2", 2, 2500, Some(2)));
  }

  /** The power-saving walk over P0, P2, P1 from 50 W: draws 10 W, 20 W and 24 W. */
  lemma SavingWalk()
    ensures Simulate(PowerSaving, 5000, [Entry("P0", 0, 1000, Some(5)), Entry("P2", 2, 2500, Some(2)), Entry("P1", 1, 3000, Some(3))])
         == Meter(2000, 3000, 7, [Bar("P0", 0, 5, 1000), Bar("P2", 5, 2, 2000)], [Slice("P0", 1000), Slice("P2", 2000)])
  {
    var e0, e1, e2 := Entry("P0", 0, 1000, Some(5)), Entry("P1", 1, 3000, Some(3)), Entry("P2", 2, 2500, Some(2));
    var m1 := Meter(4000, 1000, 5, [Bar("P0", 0, 5, 1000)], [Slice("P0", 1000)]);
    var m2 := Meter(2000, 3000, 7, [Bar("P0", 0, 5, 1000), Bar("P2", 5, 2, 2000)],
                    [Slice("P0", 1000), Slice("P2", 2000)]);
    WalkOfThree(PowerSaving, 5000, e0, e2, e1);
    assert Draw(PowerSaving, 1000) == 1000 && Draw(PowerSaving, 2500) == 2000 && Draw(PowerSaving, 3000) == 2400;
    assert Admit(PowerSaving, Meter(5000, 0, 0, [], []), e0) == m1;
    assert Admit(PowerSaving, m1, e2) == m2;
  }

  /**
   * Power-saving mode walks P0 (10 W), P2 (25 W derated to 20 W), P1 (30 W
   * derated to 24 W): it admits P0 and P2 and skips P1 (20 W left < 24 W).
   */
  lemma ScenarioPowerSaving()
    ensures ScheduleOf(Sample, 5000, PowerSaving)
         == Schedule([Slice("P0", 1000), Slice("P2", 2000)],
                     [Bar("P0", 0, 5, 1000), Bar("P2", 5, 2, 2000)], 3000, 2000)
  {
    SampleSorted();
    SavingWalk();
    ScheduleFromWalk(Sample, 5000, PowerSaving,
      [Entry("P0", 0, 1000, Some(5)), Entry("P2", 2, 2500, Some(2)), Entry("P1", 1, 3000, Some(3))],
      Meter(2000, 3000, 7, [Bar("P0", 0, 5, 1000), Bar("P2", 5, 2, 2000)], [Slice("P0", 1000), Slice("P2", 2000)]));
  }

  // ---------------------------------------------------------------------------
  // The page's code, on an array

  /** Insert puts x after the entries not above its power and before the run of greater ones that ends the list. */
  lemma {:induction false} InsertSplit(sorted: seq<Entry>, x: Entry, j: nat)
    requires j <= |sorted| && (j == 0 || sorted[j - 1].power <= x.power)
    requires forall q :: j <= q < |sorted| ==> sorted[q].power > x.power
    ensures Insert(sorted, x) == sorted[..j] + [x] + sorted[j..]
    decreases |sorted| - j
  {
    if j < |sorted| {
      var init := sorted[..|sorted| - 1];
      InsertSplit(init, x, j);
      assert init[..j] == sorted[..j];
      assert init[j..] + [sorted[|sorted| - 1]] == sorted[j..];
    } else {
      assert sorted[..j] == sorted;
    }
  }

  /** Swap a[i] leftwards while its left neighbour has greater power; j is where it comes to rest. */
  method SiftLeft(a: array<Entry>, i: nat) returns (j: nat)
    requires i < a.Length
    modifies a
    ensures j <= i && a[j] == old(a[i])
    ensures forall q :: 0 <= q < j ==> a[q] == old(a[q])
    ensures forall q :: j < q <= i ==> a[q] == old(a[q - 1])
    ensures forall q :: i < q < a.Length ==> a[q] == old(a[q])
    ensures j == 0 || old(a[j - 1]).power <= old(a[i]).power
    ensures forall q :: j <= q < i ==> old(a[q]).power > old(a[i]).power
  {
    j := i;
    while j > 0 && a[j - 1].power > a[j].power
      invariant 0 <= j <= i
      invariant a[j] == old(a[i])
      invariant forall q :: 0 <= q < j ==> a[q] == old(a[q])
      invariant forall q :: j < q <= i ==> a[q] == old(a[q - 1])
      invariant forall q :: i < q < a.Length ==> a[q] == old(a[q])
      invariant forall q :: j <= q < i ==> old(a[q]).power > old(a[i]).power
    {
      a[j - 1], a[j] := a[j], a[j - 1];
      j := j - 1;
    }
  }

  /** One round of the insertion sort: a[..i + 1] becomes a[..i] with a[i] inserted by power. */
  method InsertAt(a: array<Entry>, i: nat)
    requires i < a.Length
    modifies a
    ensures a[..i + 1] == Insert(old(a[..i]), old(a[i]))
    ensures a[i + 1..] == old(a[i + 1..])
  {
    ghost var sorted := a[..i];
    ghost var x := a[i];
    var j := SiftLeft(a, i);
    InsertSplit(sorted, x, j);
    ghost var r := sorted[..j] + [x] + sorted[j..];
    assert forall q :: 0 <= q <= i ==> a[q] == r[q];
    assert a[..i + 1] == r;
  }

  /** `list.sort((a, b) => a.power - b.power)`: a stable in-place sort by power. */
  method SortByPowerInPlace(a: array<Entry>)
    modifies a
    ensures a[..] == SortByPower(old(a[..]))
    ensures multiset(a[..]) == multiset(old(a[..])) && PowerSorted(a[..])
  {
    ghost var input := a[..];
    for i := 0 to a.Length
      invariant a[..i] == SortByPower(input[..i])
      invariant a[i..] == input[i..]
    {
      assert a[i] == input[i];
      InsertAt(a, i);
      assert input[..i + 1][..i] == input[..i];
    }
    assert input[..a.Length] == input;
    SortedPermutation(input);
  }

  /** The results of a schedule: conservation, the battery's bounds, matching charts, and bars drawn from the list in order. */
  lemma ScheduleProperties(procs: seq<Proc>, limit: int, mode: Mode)
    ensures var r := ScheduleOf(procs, limit, mode);
      && r.total + r.left == limit
      && (limit >= 0 ==> 0 <= r.left <= limit)
      && r.total == TotalPower(r.ganttData) == TotalValue(r.pieData)
      && |r.pieData| == |r.ganttData|
      && Embeds(mode, r.ganttData, WorkingList(procs, mode))
  {
    var w := WorkingList(procs, mode);
    Conservation(mode, limit, w);
    ConsumedIsSumOfDraws(mode, limit, w);
    BatteryBounds(mode, limit, w);
    PieMatchesGantt(mode, limit, w);
    GanttEmbeds(mode, limit, w);
  }

  /** The `forEach` over the working list, with `battery`, `consumed`, `timeline`, `gantt` and `pie` as loop variables. */
  method Walk(list: array<Entry>, powerLimit: int, mode: Mode) returns (m: Meter)
    ensures m == Simulate(mode, powerLimit, list[..])
  {
    var battery := powerLimit;
    var consumed := 0;
    var timeline := 0;
    var gantt := [];
    var pie := [];
    for i := 0 to list.Length
      invariant Meter(battery, consumed, timeline, gantt, pie) == Simulate(mode, powerLimit, list[..i])
    {
      assert list[..i + 1][..i] == list[..i];
      var p := list[i];
      var powerReq := Draw(mode, p.power);
      if battery < powerReq {
        continue;
      }
      battery := battery - powerReq;
      consumed := consumed + powerReq;
      var duration := Duration(p);
      gantt := gantt + [Bar(p.name, timeline, duration, powerReq)];
      timeline := timeline + duration;
      pie := pie + [Slice(p.name, powerReq)];
    }
    assert list[..list.Length] == list[..];
    m := Meter(battery, consumed, timeline, gantt, pie);
  }

  /**
   * computeSchedule(targetMode): copy the processes, sort the copy in
   * power-saving mode, then admit greedily in one walk over the copy.
   */
  method ComputeSchedule(procs: seq<Proc>, powerLimit: int, mode: Mode) returns (result: Schedule)
    ensures result == ScheduleOf(procs, powerLimit, mode)
    ensures result.total + result.left == powerLimit
    ensures powerLimit >= 0 ==> 0 <= result.left <= powerLimit
    ensures |result.pieData| == |result.ganttData|
    ensures Embeds(mode, result.ganttData, WorkingList(procs, mode))
  {
    var list := new Entry[|procs|](i requires 0 <= i < |procs| =>
      Entry(DisplayName(procs[i], i), i, procs[i].power, procs[i].burst));
    assert list[..] == Tagged(procs);
    if mode == PowerSaving {
      SortByPowerInPlace(list);
    }
    assert list[..] == WorkingList(procs, mode);
    var m := Walk(list, powerLimit, mode);
    result := Schedule(m.pie, m.gantt, m.consumed, m.battery);
    ScheduleProperties(procs, powerLimit, mode);
  }
}
