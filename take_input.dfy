/**
 * The state behind the process-input page: the power limit and process
 * count typed by the user, the free resource vector, the process table and
 * the deadlock verdict.  Each handler of the page is a method that updates
 * exactly the fields it sets; submitting the table runs the safety test of
 * module Safety on a snapshot of the table.
 *
 * Power values are whole hundredths of a watt, so the accepted power limit
 * of 1 to 100 W is 100 to 10000.
 */
module TakeInput {

  import opened Opt
  import opened Safety

  /** One row of the process table: what the process holds, what it awaits, and its power draw. */
  datatype ProcessRow = ProcessRow(allocation: Vector, request: Vector, power: nat)

  /** The two vector columns of a row (the `type` argument of updateCell). */
  datatype Column = Allocation | Request

  /** Smallest and largest accepted power limit, in hundredths of a watt. */
  const MinPowerLimit: int := 100
  const MaxPowerLimit: int := 10000

  predicate RowShaped(row: ProcessRow) {
    |row.allocation| == Kinds && |row.request| == Kinds
  }

  /** The guard of handleInitialSubmit. */
  predicate SetupValid(powerLimit: int, numProcesses: int) {
    MinPowerLimit <= powerLimit <= MaxPowerLimit && numProcesses > 0
  }

  /** The table built on submit: n rows, every allocation, request and power zero. */
  function BlankTable(n: nat): (t: seq<ProcessRow>)
    ensures |t| == n
    ensures forall i :: 0 <= i < n ==>
      t[i].allocation == [0, 0, 0] && t[i].request == [0, 0, 0] && t[i].power == 0
  {
    seq(n, _ => ProcessRow([0, 0, 0], [0, 0, 0], 0))
  }

  /** The entry of a row shown in column `col`, resource kind k. */
  function Cell(row: ProcessRow, col: Column, k: nat): nat
    requires RowShaped(row) && k < Kinds
  {
    match col
    case Allocation => row.allocation[k]
    case Request => row.request[k]
  }

  /** `updated[i][type][index] = value` on one row: one entry changes, every other entry and the power stay. */
  function SetCell(row: ProcessRow, col: Column, k: nat, v: nat): (r: ProcessRow)
    requires RowShaped(row) && k < Kinds
    ensures RowShaped(r) && r.power == row.power
    ensures forall c, q :: 0 <= q < Kinds ==>
      Cell(r, c, q) == if c == col && q == k then v else Cell(row, c, q)
  {
    match col
    case Allocation => row.(allocation := row.allocation[k := v])
    case Request => row.(request := row.request[k := v])
  }

  /** What checkDeadlock reads: `available`, and the allocation and request of every row. */
  function TableSnapshot(available: Vector, rows: seq<ProcessRow>): (sn: Snapshot)
    requires |available| == Kinds && forall i :: 0 <= i < |rows| ==> RowShaped(rows[i])
    ensures sn.WellShaped() && sn.N() == |rows| && sn.available == available
    ensures forall i :: 0 <= i < |rows| ==>
      sn.allocation[i] == rows[i].allocation && sn.request[i] == rows[i].request
  {
    var allocation := seq(|rows|, i requires 0 <= i < |rows| => rows[i].allocation);
    var request := seq(|rows|, i requires 0 <= i < |rows| => rows[i].request);
    assert forall i :: 0 <= i < |rows| ==>
      RowShaped(rows[i]) && |allocation[i]| == Kinds && |request[i]| == Kinds;
    Snapshot(available, allocation, request)
  }

  /** A freshly built table is safe whatever is free: no process requests anything. */
  lemma BlankTableSafe(available: Vector, n: nat)
    requires |available| == Kinds
    ensures SafetyTest(TableSnapshot(available, BlankTable(n))).isSafe
    ensures SafeState(TableSnapshot(available, BlankTable(n)))
  {
    var sn := TableSnapshot(available, BlankTable(n));
    forall i | 0 <= i < n
      ensures i in SafetyTest(sn).safeSequence
    {
      ZeroRequestGranted(sn, i);
    }
    SafetyTestVerdict(sn);
    SafetyTestComplete(sn);
  }

  class InputForm {
    /** The power limit as typed, in hundredths of a watt; 0 while blank. */
    var powerLimit: int
    /** The process count as typed; 0 while blank. */
    var numProcesses: int
    var available: Vector
    var showTable: bool
    var processes: seq<ProcessRow>
    /** None until the table is submitted, then whether a deadlock was detected. */
    var deadlock: Option<bool>

    ghost predicate Valid()
      reads this
    {
      |available| == Kinds && forall i :: 0 <= i < |processes| ==> RowShaped(processes[i])
    }

    /** The initial state of the page. */
    constructor ()
      ensures Valid()
      ensures powerLimit == 0 && numProcesses == 0 && available == [0, 0, 0]
      ensures !showTable && processes == [] && deadlock == None
    {
      powerLimit, numProcesses := 0, 0;
      available := [0, 0, 0];
      showTable := false;
      processes := [];
      deadlock := None;
    }

    /** The snapshot the safety test reads. */
    function Snapshot(): (sn: Safety.Snapshot)
      requires Valid()
      reads this
      ensures sn.WellShaped() && sn.N() == |processes|
    {
      TableSnapshot(available, processes)
    }

    /** The page offers the two scheduling modes only once the table was found free of deadlock. */
    predicate ModesOffered()
      reads this
    {
      deadlock == Some(false)
    }

    /** The power-limit field's change handler (`setPowerLimit`). */
    method SetPowerLimit(v: int)
      modifies this`powerLimit
      ensures powerLimit == v
    {
      powerLimit := v;
    }

    /** The process-count field's change handler (`setNumProcesses`). */
    method SetNumProcesses(v: int)
      modifies this`numProcesses
      ensures numProcesses == v
    {
      numProcesses := v;
    }

    /** handleInitialSubmit: build a blank table of numProcesses rows when the limit and count are valid, else only alert. */
    method HandleInitialSubmit() returns (accepted: bool)
      requires Valid()
      modifies this`processes, this`showTable
      ensures Valid()
      ensures accepted <==> SetupValid(powerLimit, numProcesses)
      ensures accepted ==> processes == BlankTable(numProcesses) && showTable
      ensures !accepted ==> processes == old(processes) && showTable == old(showTable)
    {
      accepted := MinPowerLimit <= powerLimit <= MaxPowerLimit && numProcesses > 0;
      if accepted {
        processes := BlankTable(numProcesses);
        showTable := true;
      }
    }

    /** updateCell: set one allocation or request entry of row i; every other entry is unchanged. */
    method UpdateCell(i: nat, col: Column, k: nat, v: nat)
      requires Valid() && i < |processes| && k < Kinds
      modifies this`processes
      ensures Valid() && |processes| == |old(processes)|
      ensures forall j, c, q :: 0 <= j < |processes| && 0 <= q < Kinds ==>
        Cell(processes[j], c, q) == if j == i && c == col && q == k then v else Cell(old(processes)[j], c, q)
      ensures forall j :: 0 <= j < |processes| ==> processes[j].power == old(processes)[j].power
    {
      processes := processes[i := SetCell(processes[i], col, k, v)];
    }

    /** updatePower: set the power of row i; every other value of the table is unchanged. */
    method UpdatePower(i: nat, v: nat)
      requires Valid() && i < |processes|
      modifies this`processes
      ensures Valid() && |processes| == |old(processes)|
      ensures forall j :: 0 <= j < |processes| ==>
        processes[j].power == (if j == i then v else old(processes)[j].power)
      ensures forall j, c, q :: 0 <= j < |processes| && 0 <= q < Kinds ==>
        Cell(processes[j], c, q) == Cell(old(processes)[j], c, q)
    {
      processes := processes[i := processes[i].(power := v)];
    }

    /** handleAvailableChange: set the free count of resource kind k. */
    method HandleAvailableChange(k: nat, v: nat)
      requires Valid() && k < Kinds
      modifies this`available
      ensures Valid()
      ensures available == old(available)[k := v]
    {
      available := available[k := v];
    }

    /** checkDeadlock: run the safety test on the table and record whether a deadlock was detected. */
    method CheckDeadlock() returns (safeSequence: seq<nat>)
      requires Valid()
      modifies this`deadlock
      ensures deadlock == Some(!SafetyTest(Snapshot()).isSafe)
      ensures safeSequence == SafetyTest(Snapshot()).safeSequence
      ensures ModesOffered() <==> SafeState(Snapshot())
    {
      var isSafe, sequence, _ := Safety.CheckDeadlock(TableSnapshot(available, processes));
      deadlock := Some(!isSafe);
      safeSequence := sequence;
    }
  }

  /**
   * No handler but checkDeadlock touches the verdict, so an edit made after a
   * safe verdict leaves both modes offered for a table that is no longer safe:
   * a 50 W limit, one process, checked while blank (safe), then its request
   * for A raised to 1 while nothing is free.
   */
  method StaleVerdict() returns (form: InputForm)
    ensures form.Valid() && form.ModesOffered()
    ensures form.processes == [ProcessRow([0, 0, 0], [1, 0, 0], 0)] && form.available == [0, 0, 0]
    ensures !SafeState(form.Snapshot())
  {
    form := new InputForm();
    form.SetPowerLimit(5000);
    form.SetNumProcesses(1);
    var accepted := form.HandleInitialSubmit();
    BlankTableSafe(form.available, 1);
    var _ := form.CheckDeadlock();
    form.UpdateCell(0, Request, 0, 1);
    var row := form.processes[0];
    assert Cell(row, Allocation, 0) == 0 && Cell(row, Allocation, 1) == 0 && Cell(row, Allocation, 2) == 0;
    assert Cell(row, Request, 0) == 1 && Cell(row, Request, 1) == 0 && Cell(row, Request, 2) == 0;
    assert row.allocation == [0, 0, 0] && row.request == [1, 0, 0];
    var sn := form.Snapshot();
    assert !Covered(sn.request[0], sn.available);
    NothingStartable(sn);
    SafetyTestComplete(sn);
  }
}
