/**
  The table interpreter of the native workers (docker/bounded-dag-native/worker.h, tuc_run and the
  six runs of main) on everything but numbers: guards, readiness, publication and injected faults.
  On a table the C validator accepts none of its execution_error guards ever fires, whatever the
  fault, although a skipped event leaves its flags behind the validator's.
 */
module TableInterpreter {
  import opened Schedules
  import opened Tables

  const EXECUTION_ERROR := "execution_error"

  /** ready and published, the flags that say the fault has been spent, and the rows that took effect. */
  datatype TablePass = TablePass(ready: set<int>, published: set<int>, skippedOperation: bool,
                                 skippedCopy: bool, firstPublication: bool, ran: seq<Row>)

  datatype TableOutcome = TableGoing(pass: TablePass) | TableStopped(reason: string, ran: seq<Row>)

  const FRESH_PASS := TablePass({}, {}, false, false, true, [])

  predicate SlotValid(g: GraphTable, buffers: seq<BufferRow>, slot: int) {
    && SlotIn(buffers, slot)
    && var b := buffers[slot];
       && 0 <= b.tensor < |g.tensorBytes| && 0 <= b.space <= 1 && b.bytes == g.tensorBytes[b.tensor]
       && 0 < b.bytes <= MAX_BUFFER_BYTES && b.bytes % 4 == 0
  }

  function Failed(st: TablePass, reason: string): TableOutcome {
    TableStopped(reason, st.ran)
  }

  function Filled(st: TablePass, r: Row): TableOutcome {
    TableGoing(st.(ready := st.ready + {r.output}, ran := st.ran + [r]))
  }

  function BindEvent(g: GraphTable, buffers: seq<BufferRow>, st: TablePass, r: Row): TableOutcome {
    if !SlotValid(g, buffers, r.output) || r.output in st.ready then Failed(st, EXECUTION_ERROR)
    else if buffers[r.output].space != 0 || buffers[r.output].tensor !in g.inputs then Failed(st, EXECUTION_ERROR)
    else Filled(st, r)
  }

  function CopyEvent(fault: nat, g: GraphTable, buffers: seq<BufferRow>, st: TablePass, r: Row): TableOutcome {
    if !SlotValid(g, buffers, r.input0) || !SlotValid(g, buffers, r.output) then Failed(st, EXECUTION_ERROR)
    else if r.input0 !in st.ready then Failed(st, "missing_operand")
    else if r.output in st.ready then Failed(st, EXECUTION_ERROR)
    else
      var input, out := buffers[r.input0], buffers[r.output];
      if input.tensor != out.tensor || input.bytes != out.bytes || input.space == out.space
      then Failed(st, EXECUTION_ERROR)
      else if fault == 4 && !st.skippedCopy then TableGoing(st.(skippedCopy := true))
      else Filled(st, r)
  }

  /** The execute guards up to the first operand's readiness. */
  predicate ExecuteFits(g: GraphTable, buffers: seq<BufferRow>, ready: set<int>, r: Row)
    requires |g.targets| == |g.operations|
  {
    && 0 <= r.operation < |g.operations| && r.target <= 1 && r.target == g.targets[r.operation]
    && SlotValid(g, buffers, r.input0) && SlotValid(g, buffers, r.output)
    && buffers[r.input0].tensor == g.operations[r.operation].input0
    && buffers[r.output].tensor == g.operations[r.operation].output
    && buffers[r.input0].space == r.target && buffers[r.output].space == r.target
    && r.output !in ready
  }

  /** The guards on a second operand. */
  predicate SecondFits(g: GraphTable, buffers: seq<BufferRow>, r: Row)
    requires 0 <= r.operation < |g.operations|
  {
    var second := g.operations[r.operation].input1;
    if second == NONE then r.input1 == NONE
    else SlotValid(g, buffers, r.input1) && buffers[r.input1].tensor == second && buffers[r.input1].space == r.target
  }

  function ExecuteEvent(fault: nat, g: GraphTable, buffers: seq<BufferRow>, st: TablePass, r: Row): TableOutcome
    requires |g.targets| == |g.operations|
  {
    if !ExecuteFits(g, buffers, st.ready, r) then Failed(st, EXECUTION_ERROR)
    else if r.input0 !in st.ready then Failed(st, "missing_operand")
    else if !SecondFits(g, buffers, r) then Failed(st, EXECUTION_ERROR)
    else if g.operations[r.operation].input1 != NONE && r.input1 !in st.ready then Failed(st, "missing_operand")
    else if fault == 1 && !st.skippedOperation then TableGoing(st.(skippedOperation := true))
    else Filled(st, r)
  }

  function PublishEvent(fault: nat, g: GraphTable, buffers: seq<BufferRow>, st: TablePass, r: Row): TableOutcome {
    if !SlotValid(g, buffers, r.input0) then Failed(st, EXECUTION_ERROR)
    else if r.input0 !in st.ready then Failed(st, "missing_operand")
    else
      var input := buffers[r.input0];
      if input.space != 0 || input.tensor !in g.outputs || input.tensor in st.published then Failed(st, EXECUTION_ERROR)
      else if fault == 3 && st.firstPublication then TableGoing(st.(firstPublication := false))
      else if fault == 2 && st.firstPublication then Failed(st, "numeric_mismatch")
      else TableGoing(st.(published := st.published + {input.tensor}, ran := st.ran + [r]))
  }

  function TableEvent(fault: nat, g: GraphTable, buffers: seq<BufferRow>, st: TablePass, r: Row): TableOutcome
    requires |g.targets| == |g.operations|
  {
    if r.kind == 0 then BindEvent(g, buffers, st, r)
    else if r.kind == 1 then CopyEvent(fault, g, buffers, st, r)
    else if r.kind == 2 then ExecuteEvent(fault, g, buffers, st, r)
    else if r.kind == 3 then PublishEvent(fault, g, buffers, st, r)
    else Failed(st, EXECUTION_ERROR)
  }

  function RunTable(fault: nat, g: GraphTable, buffers: seq<BufferRow>, rows: seq<Row>): TableOutcome
    requires |g.targets| == |g.operations|
  {
    if rows == [] then TableGoing(FRESH_PASS)
    else
      match RunTable(fault, g, buffers, rows[..|rows| - 1])
      case TableStopped(reason, ran) => TableStopped(reason, ran)
      case TableGoing(st) => TableEvent(fault, g, buffers, st, rows[|rows| - 1])
  }

  /** One case: the events, then every output must have been published. */
  function RunCase(fault: nat, g: GraphTable, buffers: seq<BufferRow>, rows: seq<Row>): TableOutcome
    requires |g.targets| == |g.operations|
  {
    match RunTable(fault, g, buffers, rows)
    case TableStopped(reason, ran) => TableStopped(reason, ran)
    case TableGoing(st) => if g.outputs <= st.published then TableGoing(st) else Failed(st, "missing_publication")
  }

  lemma {:induction false} StoppedTableStays(fault: nat, g: GraphTable, buffers: seq<BufferRow>, rows: seq<Row>, n: nat)
    requires |g.targets| == |g.operations| && n <= |rows| && RunTable(fault, g, buffers, rows[..n]).TableStopped?
    ensures RunTable(fault, g, buffers, rows) == RunTable(fault, g, buffers, rows[..n])
  {
    if n == |rows| {
      assert rows[..n] == rows;
    } else {
      assert rows[..|rows| - 1][..n] == rows[..n];
      StoppedTableStays(fault, g, buffers, rows[..|rows| - 1], n);
    }
  }

  /** The interpreter's loop, its boolean arrays kept as sets and its flags in place. */
  method TucRun(fault: nat, g: GraphTable, buffers: seq<BufferRow>, rows: seq<Row>)
    returns (reason: string, ran: seq<Row>)
    requires |g.targets| == |g.operations|
    ensures
      var out := RunCase(fault, g, buffers, rows);
      if out.TableGoing? then reason == "none" && ran == out.pass.ran else reason == out.reason && ran == out.ran
  {
    var ready: set<int>, published: set<int> := {}, {};
    var skippedOperation, skippedCopy, firstPublication := false, false, true;
    ran := [];
    for i := 0 to |rows|
      invariant RunTable(fault, g, buffers, rows[..i])
             == TableGoing(TablePass(ready, published, skippedOperation, skippedCopy, firstPublication, ran))
    {
      var r := rows[i];
      ghost var st := TablePass(ready, published, skippedOperation, skippedCopy, firstPublication, ran);
      assert rows[..i + 1][..i] == rows[..i];
      assert RunTable(fault, g, buffers, rows[..i + 1]) == TableEvent(fault, g, buffers, st, r);
      if TableEvent(fault, g, buffers, st, r).TableStopped? {
        StoppedTableStays(fault, g, buffers, rows, i + 1);
      }
      if r.kind == 0 {
        if !SlotValid(g, buffers, r.output) || r.output in ready { return EXECUTION_ERROR, ran; }
        if buffers[r.output].space != 0 || buffers[r.output].tensor !in g.inputs { return EXECUTION_ERROR, ran; }
        ready := ready + {r.output};
        ran := ran + [r];
      } else if r.kind == 1 {
        if !SlotValid(g, buffers, r.input0) || !SlotValid(g, buffers, r.output) { return EXECUTION_ERROR, ran; }
        if r.input0 !in ready { return "missing_operand", ran; }
        if r.output in ready { return EXECUTION_ERROR, ran; }
        var input, out := buffers[r.input0], buffers[r.output];
        if input.tensor != out.tensor || input.bytes != out.bytes || input.space == out.space {
          return EXECUTION_ERROR, ran;
        }
        if fault == 4 && !skippedCopy {
          skippedCopy := true;
          continue;
        }
        ready := ready + {r.output};
        ran := ran + [r];
      } else if r.kind == 2 {
        if !ExecuteFits(g, buffers, ready, r) { return EXECUTION_ERROR, ran; }
        if r.input0 !in ready { return "missing_operand", ran; }
        if !SecondFits(g, buffers, r) { return EXECUTION_ERROR, ran; }
        if g.operations[r.operation].input1 != NONE && r.input1 !in ready { return "missing_operand", ran; }
        if fault == 1 && !skippedOperation {
          skippedOperation := true;
          continue;
        }
        ready := ready + {r.output};
        ran := ran + [r];
      } else if r.kind == 3 {
        if !SlotValid(g, buffers, r.input0) { return EXECUTION_ERROR, ran; }
        if r.input0 !in ready { return "missing_operand", ran; }
        var input := buffers[r.input0];
        if input.space != 0 || input.tensor !in g.outputs || input.tensor in published { return EXECUTION_ERROR, ran; }
        if fault == 3 && firstPublication {
          firstPublication := false;
          continue;
        }
        if fault == 2 && firstPublication { return "numeric_mismatch", ran; }
        published := published + {input.tensor};
        ran := ran + [r];
      } else {
        return EXECUTION_ERROR, ran;
      }
    }
    assert rows[..|rows|] == rows;
    reason := if g.outputs <= published then "none" else "missing_publication";
  }

  // ----- What takes effect is sound, on any table -----

  /** A slot the interpreter may touch. */
  predicate SlotSound(g: GraphTable, buffers: seq<BufferRow>, slot: int) {
    && 0 <= slot < |buffers|
    && 0 <= buffers[slot].tensor < |g.tensorBytes| && (buffers[slot].space == 0 || buffers[slot].space == 1)
    && buffers[slot].bytes == g.tensorBytes[buffers[slot].tensor]
    && 4 <= buffers[slot].bytes <= 7432 && buffers[slot].bytes % 4 == 0
  }

  predicate ExecutionSound(g: GraphTable, buffers: seq<BufferRow>, r: Row)
    requires |g.targets| == |g.operations|
  {
    && 0 <= r.operation < |g.operations| && r.target == g.targets[r.operation]
    && SlotSound(g, buffers, r.input0) && SlotSound(g, buffers, r.output)
    && buffers[r.input0].tensor == g.operations[r.operation].input0 && buffers[r.input0].space == r.target
    && buffers[r.output].tensor == g.operations[r.operation].output && buffers[r.output].space == r.target
    && if g.operations[r.operation].input1 == 255 then r.input1 == 255
       else && SlotSound(g, buffers, r.input1) && buffers[r.input1].space == r.target
            && buffers[r.input1].tensor == g.operations[r.operation].input1
  }

  /** A row that may take effect: slots in range, the tensors it names, the spaces its kind asks for. */
  predicate RowSound(g: GraphTable, buffers: seq<BufferRow>, r: Row)
    requires |g.targets| == |g.operations|
  {
    if r.kind == 0 then
      SlotSound(g, buffers, r.output) && buffers[r.output].space == 0 && buffers[r.output].tensor in g.inputs
    else if r.kind == 1 then
      && SlotSound(g, buffers, r.input0) && SlotSound(g, buffers, r.output)
      && buffers[r.input0].tensor == buffers[r.output].tensor
      && buffers[r.input0].space != buffers[r.output].space
    else if r.kind == 2 then ExecutionSound(g, buffers, r)
    else
      && r.kind == 3 && SlotSound(g, buffers, r.input0)
      && buffers[r.input0].space == 0 && buffers[r.input0].tensor in g.outputs
  }

  /** The slots some rows wrote. */
  function Written(ran: seq<Row>): set<int> {
    if ran == [] then {}
    else Written(ran[..|ran| - 1]) + (if ran[|ran| - 1].kind == 3 then {} else {ran[|ran| - 1].output})
  }

  /** What a row reads was written before it, and what it writes was not. */
  predicate InOrder(g: GraphTable, before: seq<Row>, r: Row) {
    && (r.kind != 0 ==> r.input0 in Written(before))
    && (r.kind == 2 && 0 <= r.operation < |g.operations| && g.operations[r.operation].input1 != 255 ==>
          r.input1 in Written(before))
    && (r.kind != 3 ==> r.output !in Written(before))
  }

  ghost predicate RunSound(g: GraphTable, buffers: seq<BufferRow>, ran: seq<Row>)
    requires |g.targets| == |g.operations|
  {
    forall i | 0 <= i < |ran| :: RowSound(g, buffers, ran[i]) && InOrder(g, ran[..i], ran[i])
  }

  lemma SoundNext(g: GraphTable, buffers: seq<BufferRow>, ran: seq<Row>, r: Row)
    requires |g.targets| == |g.operations| && RunSound(g, buffers, ran)
    requires RowSound(g, buffers, r) && InOrder(g, ran, r)
    ensures RunSound(g, buffers, ran + [r])
    ensures Written(ran + [r]) == Written(ran) + (if r.kind == 3 then {} else {r.output})
  {
    var all := ran + [r];
    assert all[..|ran|] == ran;
    forall i | 0 <= i < |ran|
      ensures all[i] == ran[i] && all[..i] == ran[..i]
    {
    }
  }

  /** The reasons a pass stops for before its end. */
  predicate Reason(reason: string) {
    reason == "execution_error" || reason == "missing_operand" || reason == "numeric_mismatch"
  }

  function RowsRan(o: TableOutcome): seq<Row> {
    if o.TableGoing? then o.pass.ran else o.ran
  }

  /** An event that either leaves things as they were or takes effect soundly. */
  ghost predicate StepSound(g: GraphTable, buffers: seq<BufferRow>, st: TablePass, r: Row, o: TableOutcome)
    requires |g.targets| == |g.operations|
  {
    if RowsRan(o) == st.ran then o.TableGoing? ==> o.pass.ready == st.ready
    else
      && RowsRan(o) == st.ran + [r] && RowSound(g, buffers, r) && InOrder(g, st.ran, r)
      && (o.TableGoing? ==> o.pass.ready == st.ready + (if r.kind == 3 then {} else {r.output}))
  }

  lemma ValidIsSound(g: GraphTable, buffers: seq<BufferRow>, slot: int)
    ensures SlotValid(g, buffers, slot) ==> SlotSound(g, buffers, slot)
  {
  }

  lemma BindSound(g: GraphTable, buffers: seq<BufferRow>, st: TablePass, r: Row)
    requires |g.targets| == |g.operations| && st.ready == Written(st.ran) && r.kind == 0
    ensures StepSound(g, buffers, st, r, BindEvent(g, buffers, st, r))
  {
    ValidIsSound(g, buffers, r.output);
  }

  lemma CopySound(fault: nat, g: GraphTable, buffers: seq<BufferRow>, st: TablePass, r: Row)
    requires |g.targets| == |g.operations| && st.ready == Written(st.ran) && r.kind == 1
    ensures StepSound(g, buffers, st, r, CopyEvent(fault, g, buffers, st, r))
  {
    ValidIsSound(g, buffers, r.input0);
    ValidIsSound(g, buffers, r.output);
  }

  lemma ExecutionFits(g: GraphTable, buffers: seq<BufferRow>, ready: set<int>, r: Row)
    requires |g.targets| == |g.operations| && ExecuteFits(g, buffers, ready, r) && SecondFits(g, buffers, r)
    ensures ExecutionSound(g, buffers, r)
  {
    ValidIsSound(g, buffers, r.input0);
    ValidIsSound(g, buffers, r.input1);
    ValidIsSound(g, buffers, r.output);
  }

  lemma ExecuteSound(fault: nat, g: GraphTable, buffers: seq<BufferRow>, st: TablePass, r: Row)
    requires |g.targets| == |g.operations| && st.ready == Written(st.ran) && r.kind == 2
    ensures StepSound(g, buffers, st, r, ExecuteEvent(fault, g, buffers, st, r))
  {
    if ExecuteFits(g, buffers, st.ready, r) && r.input0 in st.ready && SecondFits(g, buffers, r) {
      ExecutionFits(g, buffers, st.ready, r);
    }
  }

  lemma PublishSound(fault: nat, g: GraphTable, buffers: seq<BufferRow>, st: TablePass, r: Row)
    requires |g.targets| == |g.operations| && st.ready == Written(st.ran) && r.kind == 3
    ensures StepSound(g, buffers, st, r, PublishEvent(fault, g, buffers, st, r))
  {
    ValidIsSound(g, buffers, r.input0);
  }

  lemma EventSound(fault: nat, g: GraphTable, buffers: seq<BufferRow>, st: TablePass, r: Row)
    requires |g.targets| == |g.operations| && st.ready == Written(st.ran)
    ensures StepSound(g, buffers, st, r, TableEvent(fault, g, buffers, st, r))
  {
    if r.kind == 0 {
      BindSound(g, buffers, st, r);
    } else if r.kind == 1 {
      CopySound(fault, g, buffers, st, r);
    } else if r.kind == 2 {
      ExecuteSound(fault, g, buffers, st, r);
    } else if r.kind == 3 {
      PublishSound(fault, g, buffers, st, r);
    }
  }

  lemma EventReason(fault: nat, g: GraphTable, buffers: seq<BufferRow>, st: TablePass, r: Row)
    requires |g.targets| == |g.operations| && TableEvent(fault, g, buffers, st, r).TableStopped?
    ensures Reason(TableEvent(fault, g, buffers, st, r).reason)
  {
  }

  /** Whatever the table, validated or not, and whatever the fault: every row that takes effect stays
      within the arrays, names the graph's own tensors in the spaces its kind asks for, reads only what
      was written before and writes nothing twice. */
  lemma {:induction false} WhateverRunsIsSound(fault: nat, g: GraphTable, buffers: seq<BufferRow>, rows: seq<Row>)
    requires |g.targets| == |g.operations|
    ensures
      var o := RunTable(fault, g, buffers, rows);
      && RunSound(g, buffers, RowsRan(o)) && (o.TableGoing? ==> o.pass.ready == Written(o.pass.ran))
      && (o.TableStopped? ==> Reason(o.reason))
    ensures RowsRan(RunCase(fault, g, buffers, rows)) == RowsRan(RunTable(fault, g, buffers, rows))
  {
    if rows != [] {
      var n := |rows| - 1;
      WhateverRunsIsSound(fault, g, buffers, rows[..n]);
      var o := RunTable(fault, g, buffers, rows[..n]);
      if o.TableGoing? {
        EventSound(fault, g, buffers, o.pass, rows[n]);
        if TableEvent(fault, g, buffers, o.pass, rows[n]).TableStopped? {
          EventReason(fault, g, buffers, o.pass, rows[n]);
        }
        if RowsRan(TableEvent(fault, g, buffers, o.pass, rows[n])) != o.pass.ran {
          SoundNext(g, buffers, o.pass.ran, rows[n]);
        }
      }
    }
  }

  // ----- On validated tables the guards never fire -----

  /** What validation leaves true of a graph's tensors and operations. */
  ghost predicate UsableGraph(g: GraphTable) {
    && |g.targets| == |g.operations|
    && (forall t | 0 <= t < |g.tensorBytes| :: 0 < g.tensorBytes[t] <= MAX_BUFFER_BYTES && g.tensorBytes[t] % 4 == 0)
    && (forall i | 0 <= i < |g.operations| :: g.operations[i].kind == 0 <==> g.operations[i].input1 != NONE)
  }

  ghost predicate Usable(g: GraphTable, buffers: seq<BufferRow>) {
    UsableGraph(g) && BuffersOk(g, buffers) && |buffers| <= NONE
  }

  function TensorAt(buffers: seq<BufferRow>, slot: int): int {
    if SlotIn(buffers, slot) then buffers[slot].tensor else NONE
  }

  /** The interpreter without its guards: readiness and faults alone. */
  function Unguarded(fault: nat, buffers: seq<BufferRow>, st: TablePass, r: Row): TableOutcome {
    if r.kind == 0 then Filled(st, r)
    else if r.input0 !in st.ready then Failed(st, "missing_operand")
    else if r.kind == 1 then
      if fault == 4 && !st.skippedCopy then TableGoing(st.(skippedCopy := true)) else Filled(st, r)
    else if r.kind == 2 then
      if r.input1 != NONE && r.input1 !in st.ready then Failed(st, "missing_operand")
      else if fault == 1 && !st.skippedOperation then TableGoing(st.(skippedOperation := true))
      else Filled(st, r)
    else if fault == 3 && st.firstPublication then TableGoing(st.(firstPublication := false))
    else if fault == 2 && st.firstPublication then Failed(st, "numeric_mismatch")
    else TableGoing(st.(published := st.published + {TensorAt(buffers, r.input0)}, ran := st.ran + [r]))
  }

  /** A faulted pass trails the validator: faults 1 and 4 leave less ready, fault 2 stops before
      anything is published, and fault 3 publishes less. */
  ghost predicate Trails(fault: nat, st: TablePass, v: TableState) {
    && st.ready <= v.available && st.published <= v.published
    && (fault != 1 && fault != 4 ==> st.ready == v.available)
    && (fault != 3 ==> st.published == v.published)
    && (fault == 2 ==> st.firstPublication && v.published == {})
    && (fault == 3 ==>
          if st.firstPublication then v.published == {} else exists t :: t in v.published && t !in st.published)
  }

  lemma ValidSlot(g: GraphTable, buffers: seq<BufferRow>, slot: int)
    requires Usable(g, buffers) && SlotIn(buffers, slot)
    ensures SlotValid(g, buffers, slot)
  {
  }

  /** A row the validator lets through passes the interpreter's guards. */
  lemma GuardsHold(fault: nat, g: GraphTable, buffers: seq<BufferRow>, st: TablePass, v: TableState, r: Row)
    requires Usable(g, buffers) && RowOk(g, buffers, v, r) && Trails(fault, st, v)
    ensures TableEvent(fault, g, buffers, st, r) == Unguarded(fault, buffers, st, r)
  {
    if r.kind == 3 {
      ValidSlot(g, buffers, r.input0);
    } else {
      ValidSlot(g, buffers, r.output);
      if r.kind != 0 {
        ValidSlot(g, buffers, r.input0);
        if r.kind == 2 && r.input1 != NONE {
          ValidSlot(g, buffers, r.input1);
        }
      }
    }
  }

  lemma StillTrails(fault: nat, g: GraphTable, buffers: seq<BufferRow>, st: TablePass, v: TableState, r: Row)
    requires Usable(g, buffers) && RowOk(g, buffers, v, r) && Trails(fault, st, v)
    requires Unguarded(fault, buffers, st, r).TableGoing?
    ensures Trails(fault, Unguarded(fault, buffers, st, r).pass, RowNext(g, buffers, v, r))
  {
    if fault == 3 && r.kind == 3 {
      var t := buffers[r.input0].tensor;
      assert t !in v.published && t !in st.published;
      assert t in RowNext(g, buffers, v, r).published;
      if !st.firstPublication {
        var missed :| missed in v.published && missed !in st.published;
        assert missed in RowNext(g, buffers, v, r).published && missed != t;
      }
    }
  }

  /** Over a validated prefix the interpreter is going and trails the validator, or was stopped by the fault. */
  lemma {:induction false} TableTrails(fault: nat, g: GraphTable, buffers: seq<BufferRow>, rows: seq<Row>)
    requires Usable(g, buffers) && RunRows(g, buffers, rows).Some?
    ensures
      var out := RunTable(fault, g, buffers, rows);
      if out.TableGoing? then Trails(fault, out.pass, RunRows(g, buffers, rows).value)
      else if fault == 2 then out.reason == "numeric_mismatch"
      else out.reason == "missing_operand" && (fault == 1 || fault == 4)
  {
    if rows != [] {
      var n := |rows| - 1;
      TableTrails(fault, g, buffers, rows[..n]);
      var before := RunTable(fault, g, buffers, rows[..n]);
      if before.TableGoing? {
        var v := RunRows(g, buffers, rows[..n]).value;
        GuardsHold(fault, g, buffers, before.pass, v, rows[n]);
        if Unguarded(fault, buffers, before.pass, rows[n]).TableGoing? {
          StillTrails(fault, g, buffers, before.pass, v, rows[n]);
        }
      }
    }
  }

  lemma {:induction false} PublishedListed(g: GraphTable, buffers: seq<BufferRow>, rows: seq<Row>)
    requires |g.targets| == |g.operations| && RunRows(g, buffers, rows).Some?
    ensures RunRows(g, buffers, rows).value.published <= g.outputs
  {
    if rows != [] {
      PublishedListed(g, buffers, rows[..|rows| - 1]);
    }
  }

  /** The end of a case on a validated table, fault by fault; no execution_error is ever among them. */
  lemma CaseVerdict(fault: nat, g: GraphTable, buffers: seq<BufferRow>, rows: seq<Row>)
    requires Usable(g, buffers) && TableAccepts(g, buffers, rows) && g.outputs != {} && fault <= 4
    ensures
      var out, run := RunCase(fault, g, buffers, rows), RunTable(fault, g, buffers, rows);
      match fault
      case 0 => out.TableGoing? && out.pass.published == g.outputs
      case 2 => out == run && run.TableStopped? && out.reason == "numeric_mismatch"
      case 3 => run.TableGoing? && out == TableStopped("missing_publication", run.pass.ran)
      case _ => out == run && (out.TableStopped? ==> out.reason == "missing_operand")
  {
    TableTrails(fault, g, buffers, rows);
    PublishedListed(g, buffers, rows);
    var v := RunRows(g, buffers, rows).value;
    SubsetOfSameSize(v.published, g.outputs);
  }
}
