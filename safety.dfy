/**
 * The resource-safety test run when the process table is submitted
 * (`checkDeadlock`): the classical safety test of the banker's algorithm.
 *
 * `work` starts as a copy of the free resources; passes over the processes
 * in index order grant every unfinished process whose request is covered by
 * `work`, which then releases its allocation into `work`.  The passes stop
 * when one grants nothing; the state is safe when every process finished.
 *
 * The algorithm is specified by the functions Visit, PassUpTo and Run (one
 * process, one pass, all passes); the method CheckDeadlock runs it on arrays
 * and is proved to compute SafetyTest.  The lemmas say what the result means:
 * the sequence is a valid (partial) safe sequence, the final state is a fixed
 * point, and the verdict is "safe" exactly when SOME safe sequence exists.
 */
module Safety {

  /** Number of resource kinds (A, B, C) in every vector of the table. */
  const Kinds: nat := 3

  /** One count per resource kind. */
  type Vector = seq<nat>

  /** What the safety test reads: the free resources and, per process, what it holds and what it awaits. */
  datatype Snapshot = Snapshot(available: Vector, allocation: seq<Vector>, request: seq<Vector>)
  {
    /** Number of processes. */
    function N(): nat { |allocation| }

    /** Every vector has one entry per resource kind and every process has both vectors. */
    predicate WellShaped() {
      && |available| == Kinds
      && |request| == |allocation|
      && (forall i :: 0 <= i < |allocation| ==> |allocation[i]| == Kinds)
      && (forall i :: 0 <= i < |request| ==> |request[i]| == Kinds)
    }
  }

  /** The grant test: every requested count is at most what `work` holds (equality is enough). */
  predicate Covered(request: Vector, work: Vector) {
    forall j :: 0 <= j < |request| ==> j < |work| && request[j] <= work[j]
  }

  /** Componentwise sum: `work[j] += allocation[i][j]` for every kind j. */
  function AddVec(work: Vector, alloc: Vector): (r: Vector)
    requires |work| == |alloc|
    ensures |r| == |work|
    ensures forall k :: 0 <= k < |r| ==> r[k] == work[k] + alloc[k]
  {
    seq(|work|, k requires 0 <= k < |work| => work[k] + alloc[k])
  }

  predicate Indices(sn: Snapshot, s: seq<nat>) {
    forall j :: 0 <= j < |s| ==> s[j] < sn.N()
  }

  predicate Distinct(s: seq<nat>) {
    forall j, k :: 0 <= j < k < |s| ==> s[j] != s[k]
  }

  function Elements(s: seq<nat>): set<nat> {
    set x | x in s
  }

  function Range(n: nat): (r: set<nat>)
    ensures forall i :: i in r <==> 0 <= i < n
  {
    if n == 0 then {} else Range(n - 1) + {n - 1}
  }

  /** Units of kind k released by the processes of s once they have finished. */
  function Released(sn: Snapshot, s: seq<nat>, k: nat): nat
    requires sn.WellShaped() && Indices(sn, s) && k < Kinds
  {
    if s == [] then 0
    else Released(sn, s[..|s| - 1], k) + sn.allocation[s[|s| - 1]][k]
  }

  /** The free resources once the processes of s have finished: available plus their allocations. */
  function WorkAfter(sn: Snapshot, s: seq<nat>): (w: Vector)
    requires sn.WellShaped() && Indices(sn, s)
    ensures |w| == Kinds
  {
    seq(Kinds, k requires 0 <= k < Kinds => sn.available[k] + Released(sn, s, k))
  }

  /**
   * s is a (partial) safe sequence: distinct processes, each of whose request
   * is covered by what is free once every process before it has finished.
   */
  predicate SafeOrder(sn: Snapshot, s: seq<nat>)
    requires sn.WellShaped()
  {
    && Indices(sn, s)
    && Distinct(s)
    && forall j :: 0 <= j < |s| ==> Covered(sn.request[s[j]], WorkAfter(sn, s[..j]))
  }

  /** A safe sequence that finishes every process. */
  predicate SafeSequence(sn: Snapshot, s: seq<nat>)
    requires sn.WellShaped()
  {
    SafeOrder(sn, s) && |s| == sn.N()
  }

  /** The state is safe: some order lets every process finish. */
  ghost predicate SafeState(sn: Snapshot)
    requires sn.WellShaped()
  {
    exists s :: SafeSequence(sn, s)
  }

  // ---------------------------------------------------------------------------
  // The algorithm as functions

  /** The three variables the loop updates: `work`, `finish` and `safeSequence`. */
  datatype Progress = Progress(work: Vector, finish: seq<bool>, sequence: seq<nat>)

  predicate Shaped(sn: Snapshot, st: Progress) {
    |st.work| == Kinds && |st.finish| == sn.N()
  }

  /** `work = [...available]`, `finish = Array(n).fill(false)`, `safeSequence = []`. */
  function Start(sn: Snapshot): Progress {
    Progress(sn.available, seq(sn.N(), _ => false), [])
  }

  /** One iteration of the inner loop, for process i. */
  function Visit(sn: Snapshot, st: Progress, i: nat): (r: Progress)
    requires sn.WellShaped() && Shaped(sn, st) && i < sn.N()
    ensures Shaped(sn, r)
  {
    if !st.finish[i] && Covered(sn.request[i], st.work) then
      Progress(AddVec(st.work, sn.allocation[i]), st.finish[i := true], st.sequence + [i])
    else
      st
  }

  /** The state after the inner loop has visited processes 0 .. i-1. */
  function PassUpTo(sn: Snapshot, st: Progress, i: nat): (r: Progress)
    requires sn.WellShaped() && Shaped(sn, st) && i <= sn.N()
    ensures Shaped(sn, r)
  {
    if i == 0 then st else Visit(sn, PassUpTo(sn, st, i - 1), i - 1)
  }

  /** Number of unfinished processes. */
  function Pending(finish: seq<bool>): nat {
    if finish == [] then 0
    else Pending(finish[..|finish| - 1]) + (if finish[|finish| - 1] then 0 else 1)
  }

  /** The `while (changed)` loop: repeat passes until one grants nothing. */
  function Run(sn: Snapshot, st: Progress): (r: Progress)
    requires sn.WellShaped() && Shaped(sn, st)
    ensures Shaped(sn, r)
    decreases Pending(st.finish)
  {
    var p := PassUpTo(sn, st, sn.N());
    PassCount(sn, st, sn.N());
    if |p.sequence| > |st.sequence| then Run(sn, p) else p
  }

  /** `finish.every(f => f)` */
  predicate AllFinished(finish: seq<bool>) {
    forall i :: 0 <= i < |finish| ==> finish[i]
  }

  /** What checkDeadlock decides: the verdict and the safe sequence it found. */
  datatype Verdict = Verdict(isSafe: bool, safeSequence: seq<nat>)

  function SafetyTest(sn: Snapshot): Verdict
    requires sn.WellShaped()
  {
    var f := Run(sn, Start(sn));
    Verdict(AllFinished(f.finish), f.sequence)
  }

  // ---------------------------------------------------------------------------
  // Counting: every grant finishes one more process

  lemma {:induction false} PendingMark(finish: seq<bool>, i: nat)
    requires i < |finish| && !finish[i]
    ensures Pending(finish[i := true]) + 1 == Pending(finish)
    decreases |finish|
  {
    var m := |finish| - 1;
    var f' := finish[i := true];
    assert f'[..m] == if i < m then finish[..m][i := true] else finish[..m];
    if i < m {
      PendingMark(finish[..m], i);
    }
  }

  lemma {:induction false} PendingAllFalse(n: nat)
    ensures Pending(seq(n, _ => false)) == n
  {
    if n > 0 {
      assert seq(n, _ => false)[..n - 1] == seq(n - 1, _ => false);
      PendingAllFalse(n - 1);
    }
  }

  /** A pass finishes exactly as many processes as it appends, and never shortens the sequence. */
  lemma {:induction false} PassCount(sn: Snapshot, st: Progress, i: nat)
    requires sn.WellShaped() && Shaped(sn, st) && i <= sn.N()
    ensures Pending(PassUpTo(sn, st, i).finish) + |PassUpTo(sn, st, i).sequence|
         == Pending(st.finish) + |st.sequence|
    ensures |PassUpTo(sn, st, i).sequence| >= |st.sequence|
  {
    if i > 0 {
      PassCount(sn, st, i - 1);
      var q := PassUpTo(sn, st, i - 1);
      if !q.finish[i - 1] && Covered(sn.request[i - 1], q.work) {
        PendingMark(q.finish, i - 1);
      }
    }
  }

  // ---------------------------------------------------------------------------
  // The invariant of the loop

  /**
   * At every point: the sequence is a partial safe sequence, `finish[i]` holds
   * exactly for the indices in it, and `work` is available plus the
   * allocations of the finished processes.
   */
  ghost predicate Consistent(sn: Snapshot, st: Progress)
    requires sn.WellShaped()
  {
    && Shaped(sn, st)
    && SafeOrder(sn, st.sequence)
    && (forall i :: 0 <= i < sn.N() ==> (st.finish[i] <==> i in st.sequence))
    && st.work == WorkAfter(sn, st.sequence)
  }

  lemma StartConsistent(sn: Snapshot)
    requires sn.WellShaped()
    ensures Consistent(sn, Start(sn))
  {
  }

  lemma ReleasedExtend(sn: Snapshot, s: seq<nat>, i: nat, k: nat)
    requires sn.WellShaped() && Indices(sn, s) && i < sn.N() && k < Kinds
    ensures Indices(sn, s + [i])
    ensures Released(sn, s + [i], k) == Released(sn, s, k) + sn.allocation[i][k]
  {
  }

  /** Granting process i keeps the invariant; so does skipping it. */
  lemma VisitConsistent(sn: Snapshot, st: Progress, i: nat)
    requires sn.WellShaped() && Consistent(sn, st) && i < sn.N()
    ensures Consistent(sn, Visit(sn, st, i))
  {
    if !st.finish[i] && Covered(sn.request[i], st.work) {
      var s := st.sequence;
      var s' := s + [i];
      forall k | 0 <= k < Kinds
        ensures WorkAfter(sn, s')[k] == AddVec(st.work, sn.allocation[i])[k]
      {
        ReleasedExtend(sn, s, i, k);
      }
      assert WorkAfter(sn, s') == AddVec(st.work, sn.allocation[i]);
      forall j | 0 <= j < |s'|
        ensures Covered(sn.request[s'[j]], WorkAfter(sn, s'[..j]))
      {
        if j < |s| {
          assert s'[..j] == s[..j];
        } else {
          assert s'[..j] == s;
        }
      }
    }
  }

  /** Visiting process i after the pass up to i keeps the invariant. */
  lemma PassStepConsistent(sn: Snapshot, st: Progress, i: nat)
    requires sn.WellShaped() && Shaped(sn, st) && i < sn.N()
    requires Consistent(sn, PassUpTo(sn, st, i))
    ensures Consistent(sn, PassUpTo(sn, st, i + 1))
  {
    VisitConsistent(sn, PassUpTo(sn, st, i), i);
  }

  lemma PassConsistent(sn: Snapshot, st: Progress, i: nat)
    requires sn.WellShaped() && Consistent(sn, st) && i <= sn.N()
    ensures Consistent(sn, PassUpTo(sn, st, i))
  {
    var j := 0;
    while j < i
      invariant j <= i && Consistent(sn, PassUpTo(sn, st, j))
    {
      PassStepConsistent(sn, st, j);
      j := j + 1;
    }
  }

  /** A pass that appends nothing changes nothing, and it found no process it could grant. */
  lemma {:induction false} QuietPass(sn: Snapshot, st: Progress, i: nat)
    requires sn.WellShaped() && Shaped(sn, st) && i <= sn.N()
    requires |PassUpTo(sn, st, i).sequence| == |st.sequence|
    ensures PassUpTo(sn, st, i) == st
    ensures forall j :: 0 <= j < i && !st.finish[j] ==> !Covered(sn.request[j], st.work)
  {
    if i > 0 {
      PassCount(sn, st, i - 1);
      QuietPass(sn, st, i - 1);
    }
  }

  /** No unfinished process can be granted: the state where the passes stop. */
  ghost predicate FixedPoint(sn: Snapshot, st: Progress)
    requires sn.WellShaped() && Shaped(sn, st)
  {
    forall i :: 0 <= i < sn.N() && !st.finish[i] ==> !Covered(sn.request[i], st.work)
  }

  lemma {:induction false} RunProperties(sn: Snapshot, st: Progress)
    requires sn.WellShaped() && Consistent(sn, st)
    ensures Consistent(sn, Run(sn, st))
    ensures FixedPoint(sn, Run(sn, st))
    decreases Pending(st.finish)
  {
    var p := PassUpTo(sn, st, sn.N());
    PassCount(sn, st, sn.N());
    PassConsistent(sn, st, sn.N());
    if |p.sequence| > |st.sequence| {
      RunProperties(sn, p);
    } else {
      QuietPass(sn, st, sn.N());
    }
  }

  // ---------------------------------------------------------------------------
  // Counting elements

  lemma {:induction false} RangeCard(n: nat)
    ensures |Range(n)| == n
  {
    if n > 0 {
      var below := Range(n - 1);
      RangeCard(n - 1);
      assert n - 1 !in below;
      assert below !! {n - 1};
    }
  }

  lemma {:induction false} DistinctCard(s: seq<nat>)
    requires Distinct(s)
    ensures |Elements(s)| == |s|
  {
    if s != [] {
      var m := |s| - 1;
      assert Elements(s) == Elements(s[..m]) + {s[m]};
      assert s[m] !in Elements(s[..m]);
      DistinctCard(s[..m]);
    }
  }

  lemma {:induction false} SubsetCard(a: set<nat>, b: set<nat>)
    requires a <= b
    ensures |a| <= |b|
    decreases |a|
  {
    if a != {} {
      var x :| x in a;
      SubsetCard(a - {x}, b - {x});
    }
  }

  /** A partial safe sequence never lists more processes than there are. */
  lemma OrderLength(sn: Snapshot, s: seq<nat>)
    requires sn.WellShaped() && SafeOrder(sn, s)
    ensures |s| <= sn.N()
  {
    DistinctCard(s);
    RangeCard(sn.N());
    SubsetCard(Elements(s), Range(sn.N()));
  }

  /** For a partial safe sequence, finishing all processes, listing all of them and having length n agree. */
  lemma FullOrder(sn: Snapshot, s: seq<nat>)
    requires sn.WellShaped() && SafeOrder(sn, s)
    ensures |s| == sn.N() <==> forall i :: 0 <= i < sn.N() ==> i in s
  {
    DistinctCard(s);
    RangeCard(sn.N());
    assert Elements(s) <= Range(sn.N());
    if |s| == sn.N() {
      forall i | 0 <= i < sn.N()
        ensures i in s
      {
        if i !in s {
          SubsetCard(Elements(s), Range(sn.N()) - {i});
        }
      }
    }
    if forall i :: 0 <= i < sn.N() ==> i in s {
      assert Elements(s) == Range(sn.N());
    }
  }

  // ---------------------------------------------------------------------------
  // Work only grows: released units over a subset never exceed those over the whole

  lemma {:induction false} ReleasedAppend(sn: Snapshot, a: seq<nat>, b: seq<nat>, k: nat)
    requires sn.WellShaped() && Indices(sn, a) && Indices(sn, b) && k < Kinds
    ensures Indices(sn, a + b)
    ensures Released(sn, a + b, k) == Released(sn, a, k) + Released(sn, b, k)
    decreases |b|
  {
    if b == [] {
      assert a + b == a;
    } else {
      var m := |b| - 1;
      assert (a + b)[..|a + b| - 1] == a + b[..m];
      ReleasedAppend(sn, a, b[..m], k);
    }
  }

  /** Taking the entry at position p out of s takes its allocation out of what s releases. */
  lemma ReleasedRemove(sn: Snapshot, s: seq<nat>, p: nat, k: nat)
    requires sn.WellShaped() && Indices(sn, s) && p < |s| && k < Kinds
    ensures Indices(sn, s[..p] + s[p + 1..])
    ensures Released(sn, s, k) == Released(sn, s[..p] + s[p + 1..], k) + sn.allocation[s[p]][k]
  {
    var x := s[p];
    assert s == s[..p] + ([x] + s[p + 1..]);
    ReleasedAppend(sn, s[..p], [x] + s[p + 1..], k);
    ReleasedAppend(sn, [x], s[p + 1..], k);
    assert Released(sn, [x], k) == sn.allocation[x][k] by {
      assert [x][..0] == [];
    }
    ReleasedAppend(sn, s[..p], s[p + 1..], k);
  }

  /** Every element of v other than s[p] is still in s once position p is taken out. */
  lemma RemoveKeepsOthers(v: seq<nat>, s: seq<nat>, p: nat)
    requires p < |s|
    requires forall y :: y in v ==> y in s && y != s[p]
    ensures forall y :: y in v ==> y in s[..p] + s[p + 1..]
  {
  }

  lemma {:induction false} ReleasedSubset(sn: Snapshot, u: seq<nat>, s: seq<nat>, k: nat)
    requires sn.WellShaped() && Indices(sn, u) && Indices(sn, s) && k < Kinds
    requires Distinct(u)
    requires forall x :: x in u ==> x in s
    ensures Released(sn, u, k) <= Released(sn, s, k)
    decreases |u|
  {
    if u != [] {
      var m := |u| - 1;
      var x := u[m];
      assert x in u;
      var p :| 0 <= p < |s| && s[p] == x;
      ReleasedRemove(sn, s, p, k);
      forall y | y in u[..m]
        ensures y in s && y != s[p]
      {
        var q :| 0 <= q < m && u[q] == y;
        assert u[q] in u;
      }
      RemoveKeepsOthers(u[..m], s, p);
      ReleasedSubset(sn, u[..m], s[..p] + s[p + 1..], k);
    }
  }

  /** What is free after a set of finished processes is at most what is free after a superset. */
  lemma WorkAfterSubset(sn: Snapshot, u: seq<nat>, s: seq<nat>)
    requires sn.WellShaped() && Indices(sn, u) && Indices(sn, s) && Distinct(u)
    requires forall x :: x in u ==> x in s
    ensures forall k :: 0 <= k < Kinds ==> WorkAfter(sn, u)[k] <= WorkAfter(sn, s)[k]
  {
    forall k | 0 <= k < Kinds
      ensures WorkAfter(sn, u)[k] <= WorkAfter(sn, s)[k]
    {
      ReleasedSubset(sn, u, s, k);
    }
  }

  /** The first entry of t that s does not list. */
  lemma FirstMissing(s: seq<nat>, t: seq<nat>, q0: nat) returns (m: nat)
    requires q0 < |t| && t[q0] !in s
    ensures m <= q0 && t[m] !in s
    ensures forall x :: x in t[..m] ==> x in s
  {
    m := 0;
    while t[m] in s
      invariant 0 <= m <= q0
      invariant forall j :: 0 <= j < m ==> t[j] in s
      decreases q0 - m
    {
      m := m + 1;
    }
    forall x | x in t[..m]
      ensures x in s
    {
      var q :| 0 <= q < m && t[..m][q] == x;
      assert t[q] == x;
    }
  }

  /** A partial safe sequence the passes could not extend decides safety: if it is not complete, no safe sequence exists. */
  lemma ClosedOrderDecides(sn: Snapshot, s: seq<nat>, t: seq<nat>)
    requires sn.WellShaped() && SafeOrder(sn, s)
    requires forall i :: 0 <= i < sn.N() && i !in s ==> !Covered(sn.request[i], WorkAfter(sn, s))
    requires SafeSequence(sn, t)
    ensures |s| == sn.N()
  {
    FullOrder(sn, s);
    FullOrder(sn, t);
    OrderLength(sn, s);
    if |s| < sn.N() {
      var i0 :| 0 <= i0 < sn.N() && i0 !in s;
      assert i0 in t;
      var q0 :| 0 <= q0 < |t| && t[q0] == i0;
      var m := FirstMissing(s, t, q0);
      assert Distinct(t[..m]) && Indices(sn, t[..m]);
      WorkAfterSubset(sn, t[..m], s);
      assert false;
    }
  }

  // ---------------------------------------------------------------------------
  // What SafetyTest decides

  lemma RunStartProperties(sn: Snapshot)
    requires sn.WellShaped()
    ensures Consistent(sn, Run(sn, Start(sn)))
    ensures FixedPoint(sn, Run(sn, Start(sn)))
  {
    StartConsistent(sn);
    RunProperties(sn, Start(sn));
  }

  /**
   * Every index in the safe sequence was covered by `work` when it was
   * granted, no index appears twice, and every process left out of it is
   * still not covered by the final `work` (the fixed point).
   */
  lemma SafetyTestSound(sn: Snapshot)
    requires sn.WellShaped()
    ensures SafeOrder(sn, SafetyTest(sn).safeSequence)
    ensures forall i :: 0 <= i < sn.N() && i !in SafetyTest(sn).safeSequence ==>
              !Covered(sn.request[i], WorkAfter(sn, SafetyTest(sn).safeSequence))
  {
    RunStartProperties(sn);
  }

  /** `isSafe` holds iff every process finished, iff the sequence lists every process (a permutation of 0 .. n-1). */
  lemma SafetyTestVerdict(sn: Snapshot)
    requires sn.WellShaped()
    ensures SafetyTest(sn).isSafe <==> |SafetyTest(sn).safeSequence| == sn.N()
    ensures SafetyTest(sn).isSafe <==> forall i :: 0 <= i < sn.N() ==> i in SafetyTest(sn).safeSequence
  {
    RunStartProperties(sn);
    FullOrder(sn, SafetyTest(sn).safeSequence);
  }

  /** The greedy passes are complete: they report safe exactly when some safe sequence exists. */
  lemma SafetyTestComplete(sn: Snapshot)
    requires sn.WellShaped()
    ensures SafetyTest(sn).isSafe <==> SafeState(sn)
  {
    SafetyTestSound(sn);
    SafetyTestVerdict(sn);
    var s := SafetyTest(sn).safeSequence;
    if SafeState(sn) {
      var t :| SafeSequence(sn, t);
      ClosedOrderDecides(sn, s, t);
    }
    if SafetyTest(sn).isSafe {
      assert SafeSequence(sn, s);
    }
  }

  /** A process that requests nothing is granted in the first pass, whatever is free. */
  lemma {:induction false} ZeroRequestFirstPass(sn: Snapshot, st: Progress, i: nat, p: nat)
    requires sn.WellShaped() && Shaped(sn, st) && i < p <= sn.N()
    requires forall k :: 0 <= k < Kinds ==> sn.request[i][k] == 0
    ensures PassUpTo(sn, st, p).finish[i]
  {
    if p - 1 > i {
      ZeroRequestFirstPass(sn, st, i, p - 1);
    }
  }

  lemma ZeroRequestGranted(sn: Snapshot, i: nat)
    requires sn.WellShaped() && i < sn.N()
    requires forall k :: 0 <= k < Kinds ==> sn.request[i][k] == 0
    ensures PassUpTo(sn, Start(sn), sn.N()).finish[i]
    ensures i in SafetyTest(sn).safeSequence
  {
    ZeroRequestFirstPass(sn, Start(sn), i, sn.N());
    SafetyTestSound(sn);
  }

  /** A process whose request is covered by the free resources alone always ends up in the safe sequence. */
  lemma StartableGranted(sn: Snapshot, i: nat)
    requires sn.WellShaped() && i < sn.N()
    requires Covered(sn.request[i], sn.available)
    ensures i in SafetyTest(sn).safeSequence
  {
    SafetyTestSound(sn);
    var s := SafetyTest(sn).safeSequence;
    assert forall k :: 0 <= k < Kinds ==> sn.available[k] <= WorkAfter(sn, s)[k];
    assert Covered(sn.request[i], WorkAfter(sn, s));
  }

  /** The first process of a safe sequence needs no more than is free at the start. */
  lemma FirstCoveredByAvailable(sn: Snapshot, s: seq<nat>)
    requires sn.WellShaped() && SafeOrder(sn, s) && s != []
    ensures Covered(sn.request[s[0]], sn.available)
  {
  }

  /** When no request is covered by the free resources alone, nothing is ever granted. */
  lemma NothingStartable(sn: Snapshot)
    requires sn.WellShaped()
    requires forall i :: 0 <= i < sn.N() ==> !Covered(sn.request[i], sn.available)
    ensures SafetyTest(sn).safeSequence == []
    ensures SafetyTest(sn).isSafe <==> sn.N() == 0
  {
    SafetyTestSound(sn);
    SafetyTestVerdict(sn);
    var s := SafetyTest(sn).safeSequence;
    if s != [] {
      FirstCoveredByAvailable(sn, s);
      assert false;
    }
  }

  /** Two processes each waiting for one unit of A while none is free: deadlock, and nothing is granted. */
  lemma ScenarioDeadlock()
    ensures SafetyTest(Snapshot([0, 0, 0], [[0, 0, 0], [0, 0, 0]], [[1, 0, 0], [1, 0, 0]]))
         == Verdict(false, [])
  {
    var sn := Snapshot([0, 0, 0], [[0, 0, 0], [0, 0, 0]], [[1, 0, 0], [1, 0, 0]]);
    assert forall i :: 0 <= i < 2 ==> sn.request[i][0] > sn.available[0];
    NothingStartable(sn);
  }

  /** One process waiting for the one free unit of A: safe, with safe sequence [0]. */
  lemma ScenarioSafe()
    ensures SafetyTest(Snapshot([1, 0, 0], [[0, 0, 0]], [[1, 0, 0]])) == Verdict(true, [0])
  {
  }

  /**
   * Every request being covered by the free resources plus ALL allocations
   * does not make a state safe: here neither process can start.
   */
  lemma TotalCoverNotSafe()
    ensures var sn := Snapshot([0, 0, 0], [[0, 0, 0], [1, 0, 0]], [[1, 0, 0], [1, 0, 0]]);
      && sn.WellShaped()
      && (forall i :: 0 <= i < sn.N() ==> Covered(sn.request[i], WorkAfter(sn, [0, 1])))
      && !SafetyTest(sn).isSafe
      && !SafeState(sn)
  {
    var sn := Snapshot([0, 0, 0], [[0, 0, 0], [1, 0, 0]], [[1, 0, 0], [1, 0, 0]]);
    assert [0, 1][..1] == [0];
    assert [0][..0] == [];
    forall k | 0 <= k < Kinds
      ensures WorkAfter(sn, [0, 1])[k] == [1, 0, 0][k]
    {
      assert Released(sn, [0], k) == sn.allocation[0][k];
      assert Released(sn, [0, 1], k) == sn.allocation[1][k];
    }
    assert forall i :: 0 <= i < 2 ==> sn.request[i][0] > sn.available[0];
    NothingStartable(sn);
    SafetyTestComplete(sn);
  }

  // ---------------------------------------------------------------------------
  // The loop, on arrays

  /** One count that `work` does not cover is enough to refuse the request. */
  lemma NotCoveredAt(request: Vector, work: Vector, j: nat)
    requires j < |request| && (j >= |work| || request[j] > work[j])
    ensures !Covered(request, work)
  {
    if j >= |work| {
      assert request[j] >= 0;
    }
  }

  /** `request.every((r, j) => r <= work[j])`, stopping at the first count that is not covered. */
  method Covers(request: Vector, work: array<nat>) returns (ok: bool)
    ensures ok == Covered(request, work[..])
  {
    var j := 0;
    while j < |request|
      invariant 0 <= j <= |request|
      invariant Covered(request[..j], work[..])
    {
      if j >= work.Length || request[j] > work[j] {
        NotCoveredAt(request, work[..], j);
        return false;
      }
      j := j + 1;
    }
    assert request[..j] == request;
    return true;
  }

  /** `for (let j = 0; j < 3; j++) work[j] += allocation[i][j]` */
  method Release(work: array<nat>, alloc: Vector)
    requires work.Length == |alloc|
    modifies work
    ensures work[..] == AddVec(old(work[..]), alloc)
  {
    for j := 0 to work.Length
      invariant forall k :: 0 <= k < j ==> work[k] == old(work[k]) + alloc[k]
      invariant forall k :: j <= k < work.Length ==> work[k] == old(work[k])
    {
      work[j] := work[j] + alloc[j];
    }
  }

  /** One pass of the inner `for` loop over processes 0 .. n-1; `changed` says whether it granted any. */
  method Pass(sn: Snapshot, work: array<nat>, finish: array<bool>, sequence: seq<nat>)
    returns (sequence': seq<nat>, changed: bool)
    requires sn.WellShaped() && work.Length == Kinds && finish.Length == sn.N()
    modifies work, finish
    ensures Progress(work[..], finish[..], sequence')
         == PassUpTo(sn, Progress(old(work[..]), old(finish[..]), sequence), sn.N())
    ensures changed <==> |sequence'| > |sequence|
  {
    ghost var st0 := Progress(work[..], finish[..], sequence);
    sequence' := sequence;
    changed := false;
    for i := 0 to finish.Length
      invariant Progress(work[..], finish[..], sequence') == PassUpTo(sn, st0, i)
      invariant changed <==> |sequence'| > |sequence|
    {
      PassCount(sn, st0, i);
      if !finish[i] {
        var ok := Covers(sn.request[i], work);
        if ok {
          Release(work, sn.allocation[i]);
          finish[i] := true;
          sequence' := sequence' + [i];
          changed := true;
        }
      }
    }
  }

  /**
   * checkDeadlock's algorithm: returns `finish.every(f => f)` and the safe
   * sequence.  It works on its own copy of `available`, so the caller's
   * vector is untouched; `passes` counts the iterations of `while (changed)`.
   */
  method CheckDeadlock(sn: Snapshot) returns (isSafe: bool, safeSequence: seq<nat>, ghost passes: nat)
    requires sn.WellShaped()
    ensures Verdict(isSafe, safeSequence) == SafetyTest(sn)
    ensures SafeOrder(sn, safeSequence)
    ensures isSafe <==> SafeState(sn)
    ensures passes <= sn.N() + 1
  {
    var n := |sn.allocation|;
    var work := new nat[|sn.available|](k requires 0 <= k < |sn.available| => sn.available[k]);
    var finish := new bool[n](_ => false);
    safeSequence := [];
    assert work[..] == sn.available;
    assert finish[..] == Start(sn).finish;
    ghost var target := Run(sn, Start(sn));
    StartConsistent(sn);
    passes := 0;

    var changed := true;
    while changed
      invariant work.Length == Kinds && finish.Length == n
      invariant Consistent(sn, Progress(work[..], finish[..], safeSequence))
      invariant (if changed then Run(sn, Progress(work[..], finish[..], safeSequence))
                 else Progress(work[..], finish[..], safeSequence)) == target
      invariant passes <= |safeSequence| + (if changed then 0 else 1)
      decreases Pending(finish[..]) + (if changed then 1 else 0)
    {
      ghost var st0 := Progress(work[..], finish[..], safeSequence);
      safeSequence, changed := Pass(sn, work, finish, safeSequence);
      PassCount(sn, st0, n);
      PassConsistent(sn, st0, n);
      passes := passes + 1;
    }

    isSafe := true;
    for i := 0 to n
      invariant isSafe == forall j :: 0 <= j < i ==> finish[j]
    {
      isSafe := isSafe && finish[i];
    }

    OrderLength(sn, safeSequence);
    SafetyTestSound(sn);
    SafetyTestComplete(sn);
  }
}
