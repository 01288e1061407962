/**
 The batch writer of a processor (services/ping-processor/processor.go, services/stamp-processor/processor.go):
 measurements are collected, stored in one transaction and only then acknowledged. If anything fails,
 nothing is stored and the whole batch goes back to the queue.
 */
module Flusher {
  const FLUSH_SIZE := 50

  /** One measurement row and its probe rows, from one message. */
  datatype Pending = Pending(msg: nat, measurement: string, probes: seq<string>)

  datatype Row = MeasurementRow(measurement: string) | ProbeRow(owner: nat, probe: string)

  datatype State = State(batch: seq<Pending>, table: seq<Row>, acked: seq<Pending>, returned: seq<Pending>)

  const EMPTY := State([], [], [], [])

  /** Where a flush fails, if it does: at the start, at a row of some entry, or at the commit. */
  datatype Fault = NoFault | AtBegin | AtMeasurement(entry: nat) | AtProbes(entry: nat) | AtCommit

  predicate Aborts(fault: Fault, batch: seq<Pending>) {
    match fault
    case NoFault => false
    case AtMeasurement(i) => i < |batch|
    case AtProbes(i) => i < |batch| && batch[i].probes != []
    case _ => true
  }

  function ProbeRows(measurement: nat, probes: seq<string>): seq<Row> {
    seq(|probes|, i requires 0 <= i < |probes| => ProbeRow(measurement, probes[i]))
  }

  /** Probe rows name their measurement by its position in the table. */
  function Rows(table: seq<Row>, p: Pending): seq<Row> {
    table + [MeasurementRow(p.measurement)] + ProbeRows(|table|, p.probes)
  }

  function AllRows(table: seq<Row>, batch: seq<Pending>): seq<Row> {
    if batch == [] then table else Rows(AllRows(table, batch[..|batch| - 1]), batch[|batch| - 1])
  }

  function Flushed(s: State, fault: Fault): State {
    if Aborts(fault, s.batch) && s.batch != [] then s.(batch := [], returned := s.returned + s.batch)
    else State([], AllRows(s.table, s.batch), s.acked + s.batch, s.returned)
  }

  datatype Step = Received(p: Pending, fault: Fault) | Ticked(fault: Fault)

  function Next(s: State, step: Step): State {
    match step
    case Received(p, fault) =>
      var s' := s.(batch := s.batch + [p]);
      if |s'.batch| >= FLUSH_SIZE then Flushed(s', fault) else s'
    case Ticked(fault) => Flushed(s, fault)
  }

  function After(steps: seq<Step>): State {
    if steps == [] then EMPTY else Next(After(steps[..|steps| - 1]), steps[|steps| - 1])
  }

  function Arrived(steps: seq<Step>): seq<Pending> {
    if steps == [] then []
    else
      var last := steps[|steps| - 1];
      Arrived(steps[..|steps| - 1]) + if last.Received? then [last.p] else []
  }

  lemma {:induction false} RowsOfTwo(table: seq<Row>, a: seq<Pending>, b: seq<Pending>)
    ensures AllRows(table, a + b) == AllRows(AllRows(table, a), b)
    decreases |b|
  {
    hide Rows;
    if b == [] {
      assert a + b == a;
    } else {
      assert (a + b)[..|a + b| - 1] == a + b[..|b| - 1];
      RowsOfTwo(table, a, b[..|b| - 1]);
    }
  }

  // ------------------------------------------------------- what the table holds

  /** How many rows come before those of message i. */
  function RowsBefore(stored: seq<Pending>, i: nat): nat
    requires i <= |stored|
  {
    if i == 0 then 0 else RowsBefore(stored, i - 1) + 1 + |stored[i - 1].probes|
  }

  /** A measurement, followed by its probes in order, each naming it. */
  ghost predicate HeldAt(table: seq<Row>, at: nat, p: Pending) {
    && at + |p.probes| < |table|
    && table[at] == MeasurementRow(p.measurement)
    && forall j :: 0 <= j < |p.probes| ==> table[at + 1 + j] == ProbeRow(at, p.probes[j])
  }

  /** The rows of these messages, in order, and no other row. */
  ghost predicate Holds(table: seq<Row>, stored: seq<Pending>) {
    && |table| == RowsBefore(stored, |stored|)
    && forall i :: 0 <= i < |stored| ==> HeldAt(table, RowsBefore(stored, i), stored[i])
  }

  lemma RowsUpToLast(stored: seq<Pending>, n: nat)
    requires |stored| == n + 1
    ensures RowsBefore(stored, n + 1) == RowsBefore(stored, n) + 1 + |stored[n].probes|
  {
  }

  lemma {:induction false} SameRowsBefore(stored: seq<Pending>, n: nat, i: nat)
    requires i <= n <= |stored|
    ensures RowsBefore(stored[..n], i) == RowsBefore(stored, i)
  {
    if i > 0 {
      SameRowsBefore(stored, n, i - 1);
    }
  }

  lemma HeldInLonger(table: seq<Row>, more: seq<Row>, at: nat, p: Pending)
    requires HeldAt(table, at, p)
    ensures HeldAt(table + more, at, p)
  {
  }

  lemma RowsExtend(table: seq<Row>, p: Pending)
    ensures table <= Rows(table, p) && |Rows(table, p)| == |table| + 1 + |p.probes|
    ensures HeldAt(Rows(table, p), |table|, p)
  {
  }

  lemma HoldsOneMore(table: seq<Row>, stored: seq<Pending>, n: nat)
    requires |stored| == n + 1 && Holds(table, stored[..n])
    ensures Holds(Rows(table, stored[n]), stored)
  {
    hide Rows, HeldAt, RowsBefore;
    var longer := Rows(table, stored[n]);
    RowsExtend(table, stored[n]);
    RowsUpToLast(stored, n);
    SameRowsBefore(stored, n, n);
    forall i | 0 <= i < n
      ensures HeldAt(longer, RowsBefore(stored, i), stored[i])
    {
      SameRowsBefore(stored, n, i);
      assert stored[..n][i] == stored[i];
      HeldInLonger(table, longer[|table|..], RowsBefore(stored, i), stored[i]);
      assert longer == table + longer[|table|..];
    }
  }

  lemma {:induction false} TableHolds(stored: seq<Pending>)
    ensures Holds(AllRows([], stored), stored)
  {
    hide Rows, HeldAt;
    if stored != [] {
      var n := |stored| - 1;
      TableHolds(stored[..n]);
      HoldsOneMore(AllRows([], stored[..n]), stored, n);
    }
  }

  /** Every message that arrived is waiting, was stored and acknowledged, or was returned, exactly once;
      and the table holds the rows of the acknowledged ones and nothing else. */
  ghost predicate Settles(s: State, arrived: seq<Pending>) {
    && multiset(s.acked) + multiset(s.returned) + multiset(s.batch) == multiset(arrived)
    && s.table == AllRows([], s.acked)
  }

  lemma BagOfTwo(a: seq<Pending>, b: seq<Pending>)
    ensures multiset(a + b) == multiset(a) + multiset(b)
  {
  }

  lemma FlushSettles(s: State, fault: Fault, arrived: seq<Pending>)
    requires Settles(s, arrived)
    ensures Settles(Flushed(s, fault), arrived)
  {
    hide AllRows, Aborts;
    RowsOfTwo([], s.acked, s.batch);
    BagOfTwo(s.acked, s.batch);
    BagOfTwo(s.returned, s.batch);
  }

  lemma ReceivedSettles(s: State, p: Pending, arrived: seq<Pending>)
    requires Settles(s, arrived)
    ensures Settles(s.(batch := s.batch + [p]), arrived + [p])
  {
    hide AllRows;
    BagOfTwo(s.batch, [p]);
    BagOfTwo(arrived, [p]);
  }

  lemma StepSettles(s: State, step: Step, arrived: seq<Pending>)
    requires Settles(s, arrived) && |s.batch| < FLUSH_SIZE
    ensures Settles(Next(s, step), arrived + if step.Received? then [step.p] else [])
    ensures |Next(s, step).batch| < FLUSH_SIZE
  {
    hide Settles, AllRows, Aborts;
    match step {
      case Received(p, fault) =>
        ReceivedSettles(s, p, arrived);
        FlushSettles(s.(batch := s.batch + [p]), fault, arrived + [p]);
      case Ticked(fault) =>
        FlushSettles(s, fault, arrived);
        assert arrived + [] == arrived;
    }
  }

  lemma TableIsHeld(s: State, arrived: seq<Pending>)
    requires Settles(s, arrived)
    ensures Holds(s.table, s.acked)
  {
    TableHolds(s.acked);
  }

  lemma NothingSettles()
    ensures Settles(EMPTY, [])
  {
  }

  lemma {:induction false} EveryMessageIsSettled(steps: seq<Step>)
    ensures Settles(After(steps), Arrived(steps)) && |After(steps).batch| < FLUSH_SIZE
    ensures Holds(After(steps).table, After(steps).acked)
  {
    hide Flushed, Settles, Holds;
    if steps == [] {
      NothingSettles();
    } else {
      var n := |steps| - 1;
      EveryMessageIsSettled(steps[..n]);
      StepSettles(After(steps[..n]), steps[n], Arrived(steps[..n]));
    }
    TableIsHeld(After(steps), Arrived(steps));
  }

  class BatchWriter {
    var batch: seq<Pending>
    var table: seq<Row>
    var acked: seq<Pending>
    var returned: seq<Pending>

    function View(): State
      reads this
    {
      State(batch, table, acked, returned)
    }

    constructor ()
      ensures View() == EMPTY
    {
      batch, table, acked, returned := [], [], [], [];
    }

    method NakAll()
      modifies this`returned
      ensures returned == old(returned) + batch
    {
      for i := 0 to |batch|
        invariant returned == old(returned) + batch[..i]
      {
        returned := returned + [batch[i]];
      }
      assert batch[..|batch|] == batch;
    }

    method AckAll()
      modifies this`acked
      ensures acked == old(acked) + batch
    {
      for i := 0 to |batch|
        invariant acked == old(acked) + batch[..i]
      {
        acked := acked + [batch[i]];
      }
      assert batch[..|batch|] == batch;
    }

    /** The rows go into a transaction; they reach the table when it commits. */
    method Flush(fault: Fault)
      modifies this
      ensures View() == Flushed(old(View()), fault) && batch == []
      ensures fault == NoFault ==> acked == old(acked) + old(batch) && returned == old(returned)
      ensures fault == AtBegin || fault == AtCommit || (fault.AtMeasurement? && fault.entry < |old(batch)|) ==>
        acked == old(acked) && table == old(table) && returned == old(returned) + old(batch)
    {
      if |batch| == 0 {
        return;
      }
      var stored := false;
      var tx := table;
      if fault != AtBegin {
        var failed := false;
        var i := 0;
        while i < |batch| && !failed
          decreases |batch| - i, !failed
          invariant 0 <= i <= |batch|
          invariant failed ==>
            i < |batch| && (fault == AtMeasurement(i) || (fault == AtProbes(i) && batch[i].probes != []))
          invariant !failed ==> tx == AllRows(table, batch[..i])
          invariant !failed ==> !(fault.AtMeasurement? && fault.entry < i)
          invariant !failed ==> !(fault.AtProbes? && fault.entry < i && batch[fault.entry].probes != [])
        {
          var p := batch[i];
          assert batch[..i + 1][..i] == batch[..i];
          if fault == AtMeasurement(i) || (fault == AtProbes(i) && p.probes != []) {
            failed := true;
          } else {
            tx := Rows(tx, p);
            i := i + 1;
          }
        }
        stored := !failed && fault != AtCommit;
      }
      if stored {
        assert batch[..|batch|] == batch;
        table := tx;
        AckAll();
      } else {
        NakAll();
      }
      batch := [];
    }

    /** One turn of the loop: a measurement arrives. */
    method Receive(p: Pending, fault: Fault)
      modifies this
      ensures View() == Next(old(View()), Received(p, fault))
      ensures |old(batch)| < 49 ==> View() == old(View()).(batch := old(batch) + [p])
      ensures |old(batch)| >= 49 ==> batch == []
    {
      batch := batch + [p];
      if |batch| >= FLUSH_SIZE {
        Flush(fault);
      }
    }

    /** One turn of the loop: the ticker fires. */
    method Tick(fault: Fault)
      modifies this
      ensures View() == Next(old(View()), Ticked(fault)) && batch == []
    {
      Flush(fault);
    }
  }
}
