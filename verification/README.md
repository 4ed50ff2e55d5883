# Verified model of the bounded native compilation path

The repository compiles small tensor graphs (matmul, ReLU, row sum) into schedules over numbered
buffers in two memory spaces, and from those into C11 programs, CUDA kernels and integer tables run by
native workers. This project models that path in Dafny and proves what its parts promise each other,
for every graph, placement, schedule, shape and input, not for the fixed portfolio.

- **Schedules.** `Graphs` and `Residency` hold graphs, plans and the validator that replays a plan on
  metadata alone. `Schedules` gives plans their meaning and proves that every accepted plan computes
  its graph. `Conservation` counts slots and bytes and bounds every accepted plan's copies from below.
- **Planner.** `Planner` is the residency planner as an object with its tables; `PlannerProofs` shows
  exactly when it returns a plan, that its plans are accepted and that none is cheaper; `Placements`
  that it plans every family under every placement on the two targets.
- **Receipts and faults.** `Receipts` is the fault-injecting interpreter with its eleven counters, and
  the closed-form count; `Faults` gives the exact verdict and the exact events that ran under each
  fault, on every accepted plan; `Ledger` reads every counter of a clean run off the graph, the
  placement and the buffers. `Observations` is the fan-in workers' own record of thirteen figures with
  its repeats factor, and the observation expected under each mutation.
- **Generated C11 worker.** `CProgram` is the target language, an instruction datatype with
  uninitialised slots as arbitrary words; `Worker` is the generator; `WorkerProofs` shows that what it
  emits is the event machine with the worker's checks, on any vectors and whatever the slots held;
  `WorkerVerdicts` shows which exit code that gives and when its counters are the receipt's.
  `Portfolio` has the graph families and the hand-written oracle, and `EndToEnd` goes from a family's
  name to the worker's exit code. `Binary32` gives the words their values, and `AdmittedWorkers` shows
  that on the numeric contract's inputs the workers return 0.
- **Tables.** `Tables` holds the integer encoding with its sentinel 255 and the C validator, compared
  rule by rule with the Python one; `GraphTables` encodes and decodes whole graphs; `GraphChecks` is the
  C function's check of the graph and the function as a whole; `TableInterpreter` is the C interpreter
  with its guards and flags; `TableMachine` and `PlannedTables` show that it reports what the event
  machine prescribes, and that the planner's plans pass the C validator.
- **Numbers.** `Rounding` is the fraction-based binary32 rounding. `Arithmetic`, `ErrorBounds` and
  `NumericContract` prove the contract's gamma bound, including the absence of underflow and overflow,
  for all admitted inputs and all shapes with n u < 1. `Kernels` runs host loops and GPU threads in any
  interleaving; `QuarterIntegers` shows where nothing rounds at all.
- **Bridge.** `Bridge` is the slot-renaming lowering to opcode tables, `BridgeDispatch` the workers' check
  of such a table and the switch on opcode numbers that runs it.
- **Budgets.** `Scanner` bounds a JSON parser before it runs, `Metadata` is the worklist traversal,
  `Initializers` the C initializer renderer, and `TableText` shows that the tables fit it.

Loops and objects of the source are methods and a class here, each proved against a function; the
lemmas are about those functions. Tensors, operations and slots are numbered instead of named.

What the proofs found, where the code is narrower or wider than its description. Each comes with the
exact condition, and where an input shows the difference it is in `Witnesses`:

- The closed-form counters agree with six traversals exactly on the two known targets and whole-word
  buffers (`Receipts.ClosedFormIffSixPasses`); on accepted schedules only the targets matter
  (`Faults.CleanCountersIffKnownTargets`). Failing inputs: `StrayBackendMiscounted`, an accepted plan,
  and `RaggedBytesMiscounted`.
- A skipped first copy can go unnoticed on an accepted schedule whose copy nobody reads; the exact
  condition is `Faults.SkippedCopyCaughtIffRead`, and the planner never makes such a copy. Failing
  input: `IdleCopyGoesUnnoticed`.
- The C table validator is stricter than the Python validator in two ways: no (tensor, space) pair
  twice, and publications last (`PlannedTables.TableAcceptsIff`). Its rule that bindings come before
  the last execution excludes nothing. Refused plans: `PairHeldTwiceRefused`, `EarlyPublicationRefused`.
- It is also looser, because a table does not show everything: a buffer's shape, the name of its space,
  and whatever the sentinel and the row's width swallow. `Tables.ValidatorsAgree` is the exact
  condition for the two to agree. Tables that pass for refused plans: `TableForgetsShape`,
  `TableForgetsSpace`, `TableForgetsSentinel`. Equality with the reviewed descriptors
  (`GraphChecks.ValidatePlan`) is what stands between such a table and the workers.
- The bridge workers' check of their dispatch table is not enough to tell the chain from its neighbours:
  besides the two emitted tables it passes four that sum the unclamped product
  (`BridgeDispatch.PlanOkIff`, `BridgeDispatch.CheckedTableResult`).
- The renderer's comment speaks of eight characters a node; counting the separator it is nine
  (`Initializers.OutputBound`), and the 64 KiB bound holds all the same.
- Underflow and overflow, excluded by the contract for its ten cases, cannot occur on any admitted
  input of a shape with n u <= 1 (`NumericContract.RowSucceeds`).

Check everything with `dafny verify dfyconfig.toml`.

## Model

| member | source | states |
|---|---|---|
| `Graphs.ProducerEquation` | examples/bounded_dag_compiler.py:57-80 | evaluating a single-assignment graph in operation order gives every result the value of its operation on its operands' final values: the graph's equations hold at the end, not only when each operation ran |
| `Graphs.BoundaryIsLeast` | examples/bounded_native_io.py:34-38 | the inferred inputs (consumed, never produced) are exactly what must be bound for every operation to be executable, and the inferred outputs exactly what must be published for no result to go unused; each an if-and-only-if over all sets |
| `Residency.AcceptedStepEffect` | examples/bounded_native_fanin.py:177-251 | an event that passes the validator is one of four kinds, reads only ready slots, writes one fresh slot or none, has its tensors and spaces where its kind demands, and advances exactly its own part of the state |
| `Residency.AcceptedIffEffect` | examples/bounded_native_fanin.py:177-251 | past the buffer loop an event is accepted if and only if it has such an effect: nothing else passes, and nothing less |
| `Residency.InspectBufferList` | examples/bounded_native_fanin.py:156-174 | the buffer loop accepts exactly the lists whose every buffer has a known tensor and space, its tensor's shape and its exact byte size |
| `Residency.ReplaySteps` | examples/bounded_native_fanin.py:175-251 | the event loop, with its five variables updated in place, returns the state of the event-by-event definition, or stops with its error |
| `Residency.InspectSchedule` | examples/bounded_native_fanin.py:138-260 | the validator: refusals in source order, the joins it reports, and acceptance exactly of complete schedules |
| `Schedules.AcceptedScheduleComputesGraph` | examples/bounded_native_fanin.py:138-260 | meaning preservation: for any graph with single producers, placement, copies and initial slot contents, an accepted schedule never misses an operand, leaves in every slot its tensor's value, and publishes exactly the terminals with the values of direct evaluation |
| `Schedules.AcceptedSchedulesAgree` | examples/bounded_native_fanin.py:138-260 | two accepted schedules of one graph, under different deployments, copies and initial contents, publish the same set of values |
| `Schedules.LimitsDecide` | examples/bounded_native_fanin.py:138-155 | the limits decide only whether the numbers of buffers and events lie between them, and the join only whether the graph has a matmul |
| `Schedules.AcceptedGraphReadsBackward` | examples/bounded_native_fanin.py:192-193 | a schedule can only be accepted if the graph has no cycle, forward use or in-place result |
| `Schedules.PrefixSettled` | examples/bounded_native_fanin.py:192-251 | along every accepted prefix, what a ready slot holds can no longer change: later operations never write its tensor |
| `Schedules.ExecutionOf` | examples/bounded_native_fanin.py:215-238 | each operation counted as executed has its own execute event, found at the point where exactly the earlier operations had run |
| `Schedules.JoinOperandsAvailable` | examples/bounded_native_fanin.py:228-237 | the reported join is the execution of a matmul of the graph whose operand slots were both ready, and held that matmul's operands, when it ran |
| `Schedules.JoinIffMatmul` | examples/bounded_native_fanin.py:228-257 | a join is reported exactly when some executed operation is a matmul |
| `Conservation.AcceptedPlanConserves` | examples/bounded_native_fanin.py:175-259 | every slot is written exactly once; buffers = inputs + operations + copies; events = buffers + published outputs; total bytes = input bytes + result bytes + copied bytes |
| `Conservation.AcceptedHoldsNeeded` | examples/bounded_native_fanin.py:194-248 | a (tensor, space) pair that the boundary or an operation's placement calls for is held by some buffer of every accepted schedule |
| `Conservation.NeededOnlyIsCheapest` | src/tuc/runtime/residency.py:209-251 | a schedule holding only needed pairs, once each, copies no more often, copies no more bytes and reserves no more bytes than any accepted schedule of the same graph and placement |
| `Planner.ResidencyPlanner.constructor` | src/tuc/runtime/residency.py:200-208 | a new planner has empty tables |
| `Planner.ResidencyPlanner.Allocate` | src/tuc/runtime/residency.py:209-218 | a new slot for the pair with the tensor's shape and bytes, or the budget refusal; the complete new tables |
| `Planner.ResidencyPlanner.Ensure` | src/tuc/runtime/residency.py:220-227 | the pair's resident slot, or a new slot with a copy event from the tensor's origin |
| `Planner.ResidencyPlanner.Bind` | src/tuc/runtime/residency.py:229-247 | a tensor without an origin is bound to a host slot at first use, and only then |
| `Planner.ResidencyPlanner.FetchOne` | src/tuc/runtime/residency.py:232-237 | one operand: bound if it has no origin yet, then its slot in the operation's space, or the refusal |
| `Planner.ResidencyPlanner.Fetch` | src/tuc/runtime/residency.py:231-237 | the operands of one operation, in order, each bound and then brought to the operation's space, or the first refusal |
| `Planner.ResidencyPlanner.PlanOperation` | src/tuc/runtime/residency.py:229-247 | operands, then a slot for the result that becomes its origin, then the execute event |
| `Planner.ResidencyPlanner.PlanTerminal` | src/tuc/runtime/residency.py:248-251 | an unconsumed result is brought to the host and published; a consumed one changes nothing |
| `Planner.BrokenBudgetIsUnavoidable` | src/tuc/runtime/residency.py:209-218 | when the planner refuses for its budget, every accepted schedule of the same graph and placement exceeds that budget too |
| `PlannerProofs.PlanOperations` | src/tuc/runtime/residency.py:229-247 | after the operation loop every operation is executed, nothing is published, and the tables are sound: resident slots hold their pairs, copies are all read, only needed pairs are held; a refusal means the needed pairs themselves break the budget |
| `PlannerProofs.PlanTerminals` | src/tuc/runtime/residency.py:248-251 | after the terminal loop exactly the terminals are published, all of them after the last execution, by a schedule the validator replays |
| `PlannerProofs.GuardsMean` | src/tuc/runtime/residency.py:83-163 | the planner's guards let a graph and placement through if and only if there are 1 to 64 operations, at most 256 operands and results, 1 to 16 backends, exactly those assigned, one producer a tensor and no forward use |
| `PlannerProofs.PortsCounted` | src/tuc/runtime/residency.py:93-100 | the port count is the number of operands and results |
| `PlannerProofs.PlanResidency` | src/tuc/runtime/residency.py:67-252 | the whole planner, for operations of any number of operands the validator lets an event name: it returns a well-planned schedule if and only if graph and placement are as just said and no needed pairs number more than 512 or measure more than 128 MiB |
| `PlannerProofs.PlannedIsAccepted` | src/tuc/runtime/residency.py:67-252 | every plan the planner returns passes the independent validator, under any limits that admit its size |
| `PlannerProofs.WellPlannedIsAffordable` | src/tuc/runtime/residency.py:209-218 | if a plan was returned, no list of needed pairs breaks the budget |
| `PlannerProofs.PlannedIsCheapest` | src/tuc/runtime/residency.py:62-64 | no accepted schedule of the same graph and placement makes fewer copies, copies fewer bytes or reserves fewer bytes than the planner's |
| `Receipts.TraverseEvents` | examples/bounded_dag_native.py:276-307 | the inner loop: its verdict and reason are those of the event machine, and every counter grows by the events that took effect |
| `Receipts.TraversePass` | examples/bounded_dag_native.py:274-310 | one pass added to the receipt so far, with the missing-publication epilogue of fault 3 |
| `Receipts.ExpectedReceipt` | examples/bounded_dag_native.py:257-311 | the whole interpreter: it rejects exactly faults outside 0 to 4, fault 4 on an all-host plan and any fault in preflight; preflight gives a pass with every counter zero; otherwise verdict, reason and all eleven counters are those of six passes with early exit |
| `Receipts.Book` | examples/bounded_dag_native.py:281-306 | one event's counter updates, counter by counter |
| `Receipts.ManifestCounters` | examples/bounded_dag_native_equivalence.py:188-209 | the independent counter loop computes the closed form of every counter |
| `Receipts.BookSix` | examples/bounded_dag_native_equivalence.py:192-208 | one event's updates in the closed form, six times at once |
| `Receipts.CountAdditive` | examples/bounded_dag_native.py:274-311 | each of the interpreter's eleven counters is additive over concatenation of the events that took effect |
| `Receipts.CountSplits` | examples/bounded_dag_native.py:274-311 | splitting a schedule into the events kept and the events dropped splits each of the eleven counters; dropping events never raises one |
| `Receipts.ClosedFormIffSixPasses` | examples/bounded_dag_native_equivalence.py:188-209 | the closed form equals six traversals if and only if every execution names one of the two known targets and every published buffer is a whole number of words (6*bytes//4 and 6*(bytes//4) differ otherwise) |
| `Faults.CleanVerdict` | examples/bounded_dag_native.py:274-311 | without a fault every accepted schedule passes, and every event takes effect in each of six passes |
| `Faults.SkipCaught` | examples/bounded_dag_native.py:276-297 | skipping the first event of its kind whose slot is read later stops with missing_operand at the first reader, after exactly the events before it less the skipped one |
| `Faults.SkipMissed` | examples/bounded_dag_native.py:276-297 | skipping an event whose slot nobody reads passes, with exactly that event missing six times |
| `Faults.SkippedOperationCaught` | examples/bounded_dag_native.py:281-288 | fault 1 is caught on every accepted schedule of a nonempty graph, whoever the first reader is: an operation, a copy or a publication |
| `Faults.CorruptedPublicationCaught` | examples/bounded_dag_native.py:298-303 | fault 2 is caught at the first publication, before any later event takes effect |
| `Faults.MissingPublicationCaught` | examples/bounded_dag_native.py:303-310 | fault 3 is caught at the end of the first pass, when every event but the first publication took effect |
| `Faults.SkippedCopyCaughtIffRead` | examples/bounded_dag_native.py:289-297 | fault 4 is caught if and only if there is a copy and some later event reads the first copy's slot |
| `Faults.PlannedCopyFaultCaught` | src/tuc/runtime/residency.py:220-227 | on the planner's schedules no copy is idle, so fault 4 is caught whenever there is a copy at all |
| `Faults.ResultIsRead` | examples/bounded_native_fanin.py:138-260 | in an accepted schedule every operation's result slot is read by a later event |
| `Faults.WrittenBeforeRead` | examples/bounded_native_fanin.py:192-193 | whatever event reads a slot comes after the event that writes it |
| `Faults.UntouchedPrefix` | examples/bounded_dag_native.py:276-306 | until the first event a fault touches, the interpreter's ready set and counts are the validator's |
| `Faults.CleanCountersIffKnownTargets` | examples/bounded_dag_native_equivalence.py:188-209 | on every accepted schedule the clean receipt's eleven counters equal the closed form's if and only if every execution names one of the two targets |
| `Faults.CountRepeats` | examples/bounded_dag_native.py:274-311 | n traversals of a schedule count n times one traversal, counter by counter |
| `Faults.FaultedWithinOnePass` | examples/bounded_dag_native.py:274-311 | whenever the interpreter reports an error, on any schedule and under any fault, no case run is counted and no counter exceeds that of one clean traversal |
| `Faults.FirstPassOnly` | examples/bounded_dag_native.py:274-311 | a receipt that reports an error is its first pass's: a fault that lets one pass through lets all six through |
| `Faults.AcceptedAnswer` | examples/bounded_dag_native.py:274-311 | the whole answer on accepted plans, fault by fault: reason, case runs and the exact events that took effect, with fault 4 split into no copy, a copy nobody reads and a copy that is read |
| `Ledger.CopiesByStock` | examples/bounded_dag_native.py:289-297 | copies to the device, counted or in bytes, are what the plan holds there less the results computed there: slots are filled once |
| `Ledger.TraversalBooks` | examples/bounded_dag_native.py:281-306 | one clean traversal, counter by counter, from graph, placement and buffers alone: calls by the operations' targets, uploads and downloads by where the slots are, publications and scalar checks by the terminals |
| `Ledger.CleanReceiptBooks` | examples/bounded_dag_native.py:274-311 | the clean receipt of every accepted plan is six times those figures |
| `Observations.PlacementCounts` | examples/bounded_native_placements.py:301-319 | the seven base figures: one traversal counted in a loop, then scaled by repeats |
| `Observations.FanInCounts` | examples/bounded_native_fanin_workers.py:319-348 | the fan-in record of thirteen figures, the six further ones counted by adding repeats at each event, is repeats times one traversal's figures |
| `Observations.FiguresAdd` | examples/bounded_native_fanin_workers.py:319-348 | all thirteen figures are additive over concatenation of schedules |
| `Observations.RepeatsAreTraversals` | examples/bounded_native_fanin_workers.py:319-348 | the repeats factor counts that many traversals, one after the other |
| `Observations.FiguresSplit` | examples/bounded_native_fanout.py:464-495 | filtering a schedule splits every figure between what is kept and what is dropped, so dropping events never raises one |
| `Observations.UnpublishedFigures` | examples/bounded_native_fanout.py:465-474 | leaving out the publications leaves every figure unchanged but the steps and the publications, which become none |
| `Observations.ExpectedObservation` | examples/bounded_native_fanin_workers.py:351-463 | the expectation: mutations are refused in preflight; otherwise the clean record, the empty record of a static fault, or the record of the events before the first mutated one, with the reason and the calls |
| `Observations.MutatedWithinOneRun` | examples/bounded_native_fanin_workers.py:430-455 | a mutated observation counts the events before the mutated one, exactly as many steps as there are, and no figure more than one clean traversal |
| `Observations.CleanObservation` | examples/bounded_native_fanin_workers.py:389-406 | on an accepted schedule a clean record counts, once a run: a call for each operation, a publication for each terminal, every copy and every copied byte of the plan; the constant 44 is right exactly for graphs of four operations |
| `Observations.FiguresOfPlan` | examples/bounded_native_fanin_workers.py:319-348 | all thirteen figures of a traversal of any accepted plan, from graph, placement and buffers alone: which backend an operation has, where the slots are, which slots hold the left and the right operand |
| `Observations.MutationStops` | examples/bounded_native_fanin_workers.py:430-455 | mutation by mutation, an observation is execution_failed if and only if the schedule has an event of its figure, and then counts the events before the first of them; otherwise it is a whole traversal ending in a mismatch |
| `Observations.SkippedProducerStopsJoin` | examples/bounded_native_fanin_workers.py:430-455 | on every accepted schedule a skipped producer gives execution_failed, before its own call, and the join that consumes its result never completes |
| `Observations.ProducedBeforeRead` | examples/bounded_native_fanin.py:192-193 | in an accepted schedule whatever event reads a produced tensor, from whichever copy, comes after its producer's execution |
| `CProgram.CorruptedWordMismatches` | examples/bounded_dag_c11.py:231-255 | flipping the lowest bit of a word that matches its constant never leaves a match, not even between the two zeros |
| `CProgram.PoisonIsNotNormal` | examples/bounded_dag_c11.py:224-243 | a poisoned slot never passes the normal-or-zero check |
| `CProgram.MatchLength` | examples/bounded_dag_c11.py:244-255 | how far the check gets: every element before matches, and the next one does not |
| `Binary32.NormalMeans` | examples/bounded_dag_c11.py:51-52 | the workers' check on a word's fields holds if and only if its value is finite and zero or at least 2^-126 in magnitude, of either sign (section 3.4 of IEEE 754-2019) |
| `Binary32.SignMeans` | examples/bounded_dag_c11.py:237-243 | the sign bit negates the value and the check does not look at it |
| `Binary32.UnitWord` | examples/bounded_dag_c11.py:55-56 | the words 0x3f800000 and 0xbf800000 are one and minus one |
| `Binary32.SmallestNormal` | examples/bounded_dag_c11.py:51-52 | the word 0x00800000 is the smallest normal value, 2^-126 |
| `Binary32.SameValueSameWord` | examples/bounded_dag_c11.py:244-255 | two normal words with one value are the same word, or two zeros |
| `Binary32.MatchMeans` | examples/bounded_dag_c11.py:244-255 | comparing bits with the exception for zeros is comparing values: a word passes if and only if it is normal or zero and has the constant's value |
| `Binary32.RoundingIsNormal` | examples/reduction_fp32_contract.py:42-53 | the word packed from a rounding's significand and exponent is zero or normal and has the rounding's value |
| `Binary32.SumShows` | examples/bounded_composed_chain.py:122 | word arithmetic by round_f32 keeps in step with the reference over a whole sequential sum, every partial result passing the check |
| `Binary32.AdmittedBits` | examples/reduction_fp32_contract.py:65-66 | the contract's input check on a word's value is a range of its bits without the sign: zero, or 0x33800000 to 0x47800000 |
| `Worker.EmitSchedule` | examples/bounded_dag_c11.py:170-206 | the generator's event loop with its first_publication flag emits the specified lines, or refuses a schedule with a copy or unknown event |
| `Worker.EmitWorker` | examples/bounded_dag_c11.py:137-209 | the whole generator: refuses device operations and copies, one poison line a buffer, the events, the closing checks |
| `Worker.WorkerExists` | examples/bounded_dag_c11.py:137-206 | a plan has a worker if and only if it copies no bytes and consists of bindings with a slot, host executions with an operation number, and publications |
| `WorkerProofs.BindRuns` | examples/bounded_dag_c11.py:173-178 | the lines of a binding set the slot to the input vector and mark it ready, nothing else |
| `WorkerProofs.ExecuteRuns` | examples/bounded_dag_c11.py:179-190 | the lines of an execution return 1 on a missing operand, skip under fault 1 on operation 0, return 2 on a result that is not normal or zero, and otherwise store it and mark it ready |
| `WorkerProofs.PublishRuns` | examples/bounded_dag_c11.py:191-204 | the lines of a publication return 1 when not ready, skip under fault 3 and compare a corrupted copy under fault 2 (first publication only), return 2 at the first mismatch with the checks counted so far, and otherwise count the publication |
| `WorkerProofs.PoisonRuns` | examples/bounded_dag_c11.py:168-169 | after the poison lines every slot holds poison alone, whatever it held before, and nothing else has changed |
| `WorkerProofs.ReplayForgetsSlots` | examples/bounded_dag_c11.py:162-169 | whatever program follows the poison lines, two machines that differ in their slots alone come to the same exit, slots, code and counters included |
| `WorkerProofs.CaseForgetsSlots` | examples/bounded_dag_c11.py:161-208 | a whole case is independent of the slots it starts from, for all vectors, faults and kernels, whether it passes or fails |
| `WorkerProofs.ReplaysIndependent` | examples/bounded_dag_c11.py:164-208 | each replay after the first ends as it would from fresh slots, given only the counters its predecessors left |
| `WorkerProofs.CallComputes` | examples/bounded_dag_c11.py:182-187 | a kernel called on ready operands computes its tensor's value in the graph |
| `WorkerProofs.StepAgrees` | examples/bounded_dag_c11.py:171-206 | one event's lines do what the event machine with the worker's checks does on that event, for every fault and whether the check passes or not |
| `WorkerProofs.PrefixAgrees` | examples/bounded_dag_c11.py:171-206 | the generated lines stay in lockstep with that machine over every accepted copy-free prefix, counters of failing checks included |
| `WorkerProofs.PassAgrees` | examples/bounded_dag_c11.py:164-208 | one replay of the generated program ends as one pass of that machine: completed, or failed with its code and counters |
| `WorkerProofs.CaseAgrees` | examples/bounded_dag_c11.py:137-209 | the generated program is that machine: on every accepted host-only plan, for any vectors of the right extents, each with any fault, exit code and counters after any number of replays |
| `WorkerProofs.WorkerEmitted` | examples/bounded_dag_c11.py:142-206 | the generator accepts every accepted host-only plan |
| `WorkerVerdicts.EventVerdict` | examples/bounded_dag_c11.py:179-204 | a check only ever replaces a verdict by a mismatch: unless an event that takes effect fails its check, the worker does what the receipts machine does |
| `WorkerVerdicts.RunVerdict` | examples/bounded_dag_c11.py:171-206 | over a whole schedule the worker fails with code 2 if and only if some event that takes effect under the fault fails its check |
| `WorkerVerdicts.PassIsReceipt` | examples/bounded_dag_c11.py:164-208 | one pass against the receipt's: same verdict and counters when those checks pass |
| `WorkerVerdicts.ReceiptCode` | examples/bounded_dag_c11.py:184-207 | the receipt of fault 1, 2 or 3 carries the reason whose exit code is 1, 2 or 3, and only a clean run passes |
| `WorkerVerdicts.CorruptionSeen` | examples/bounded_dag_c11.py:231-255 | a flipped lowest bit is seen at the first word, against the value itself and against any constant the value matches |
| `WorkerVerdicts.WorkerRefinesReceipts` | examples/bounded_dag_c11.py:137-209 | refinement, on any vectors: the exit code is the fault's own exactly when the events that take effect before it shows pass their checks on the first vector (without a fault, when all events of all vectors do), and 2 otherwise; when it shows, the counters are the receipt's |
| `Rounding.ExponentBounds` | examples/reduction_fp32_contract.py:49-51 | bit lengths corrected by one comparison give the exponent e with 2^e <= value < 2^(e+1) |
| `Rounding.RoundingDomain` | examples/reduction_fp32_contract.py:44-48 | rounding is defined at zero and from 2^-100 to 2^100 in magnitude, and nowhere else |
| `Rounding.RoundHalfEvenNearest` | examples/reduction_fp32_contract.py:53 | rounding to an integer is nearest, ties to even |
| `Rounding.RoundingError` | examples/reduction_fp32_contract.py:42-53 | every accepted rounding is within the unit roundoff 2^-24, relatively |
| `Rounding.RoundsToNearest` | examples/reduction_fp32_contract.py:42-53 | no value with 24 significant bits is nearer than the rounding, and at a tie the rounding is the even one (section 4.3.1 of IEEE 754-2019) |
| `Rounding.RoundingIsRepresentable` | examples/reduction_fp32_contract.py:42-53 | a nonzero rounding is a normal binary32 significand: 24 bits with the leading one set |
| `Rounding.RepresentableIsExact` | examples/reduction_fp32_contract.py:42-53 | values with 24 significant bits in the domain round to themselves |
| `Rounding.RoundingIsOfTheValue` | examples/reduction_fp32_contract.py:42-53 | equal values round equally however the fraction is written, although the exponent estimate reads numerator and denominator |
| `Rounding.RoundingKeepsGrid` | examples/reduction_fp32_contract.py:42-53 | rounding never leaves a power-of-two grid its argument lies on |
| `Rounding.RoundingFindsGrid` | examples/reduction_fp32_contract.py:42-53 | a rounded value of magnitude at least 2^low lies on the grid of 2^(low-23) |
| `Arithmetic.OrderedReference` | examples/bounded_composed_chain.py:113-128 | the nested loops compute, for every row, the sequential column products, each clamped when ReLU is on, and their sequential sum |
| `ErrorBounds.SumInterchange` | examples/reduction_fp32_contract.py:68-74 | contracting B's rows first, as the exact reference does, gives the sum over columns of the products, for all shapes |
| `ErrorBounds.GrowthWithinGamma` | examples/reduction_fp32_contract.py:27-29 | (1+u)^n - 1 <= n u / (1 - n u) whenever n u < 1 |
| `ErrorBounds.WithinInNumbers` | examples/reduction_fp32_contract.py:27-29 | being within the budget, multiplied out: the error times 2^24 - n is at most n times the size |
| `ErrorBounds.SumStep` | examples/bounded_composed_chain.py:122 | one rounded addition raises the number of accumulated roundings by one |
| `ErrorBounds.SumError` | examples/bounded_composed_chain.py:124-126 | a sequential sum of k terms adds k roundings to its terms' error |
| `ErrorBounds.DotNear` | examples/bounded_composed_chain.py:119-122 | a sequential inner product of K terms is within K+1 roundings of the exact one |
| `ErrorBounds.ColumnsNear` | examples/bounded_composed_chain.py:47 | ReLU is 1-Lipschitz: the clamped columns are as near to the clamped exact columns |
| `ErrorBounds.ChainError` | examples/bounded_composed_chain.py:113-128 | the result is within (1+u)^n - 1 times the absolute sum, n = K + C + 1, in any arithmetic with relative error u |
| `ErrorBounds.ChainWithinGamma` | examples/bounded_composed_chain.py:39-50 | the contract's bound for every K, C and input with n u < 1: within gamma_n times the sum of the absolute products, with the ReLU or without |
| `NumericContract.Faithful32` | examples/reduction_fp32_contract.py:42-53 | the concrete rounded addition, multiplication and ReLU meet the error theorem's assumptions |
| `NumericContract.ProductSucceeds` | examples/reduction_fp32_contract.py:127 | a product of two admitted inputs is zero or inside the rounding domain, on a fixed grid |
| `NumericContract.SumSucceeds` | examples/reduction_fp32_contract.py:128-132 | sums of such terms never underflow or overflow: cancellation can only reach zero or stay on the grid |
| `NumericContract.RowSucceeds` | examples/reduction_fp32_contract.py:118-134 | the exclusion of underflow and overflow, stated for the fixed corpus, holds for every admitted input of every shape with n u <= 1: all intermediates stay normal or zero |
| `NumericContract.AdmittedWithinGamma` | examples/bounded_composed_chain.py:39-50 | the numeric contract outright: on every admitted input of every such shape the concrete evaluation succeeds and its error times 2^24 - n is at most n times the absolute sum, which is gamma_n without the division; K=7, C=5 is the stated gamma_13 |
| `NumericContract.CheckRow` | examples/bounded_composed_chain.py:139-141 | no admitted row leaves its budget |
| `NumericContract.CheckRows` | examples/bounded_composed_chain.py:139-141 | no row of an admitted case leaves its budget |
| `NumericContract.CheckCase` | examples/bounded_composed_chain.py:131-141 | the corpus check returns its evaluated rows exactly for rectangular matrices whose every entry is zero or has at most 24 significant bits and a magnitude from 2^-24 to 65536, of either sign: the budget test rejects none of them |
| `NumericContract.AdmittedMeans` | examples/reduction_fp32_contract.py:62-66 | the input check, which rounds and compares, admits a value if and only if it is zero or m times 2^i with m of at most 24 bits, between 2^-24 and 65536 in magnitude |
| `NumericContract.NegatedAdmitted` | examples/reduction_fp32_contract.py:65-66 | a value is admitted if and only if its negative is |
| `NumericContract.FanInAdmitted` | examples/bounded_native_fanin.py:303-313 | clamping both operands first is exact and keeps them admitted |
| `NumericContract.FanInSize` | examples/bounded_native_fanin.py:316-318 | for clamped operands the exact result is its own absolute sum, so the budget is relative |
| `NumericContract.FanInWithinGamma` | examples/bounded_native_fanin.py:54-63 | the fan-in result is within gamma_(K+C+1) times sum max(a,0) max(b,0), for all admitted inputs and shapes |
| `Kernels.FlatIsProduct` | examples/bounded_reduction_shapes.py:86-88 | the flat index is row * columns + column |
| `Kernels.SplitIsDivision` | examples/bounded_reduction_shapes.py:108-109 | the kernel's division and remainder undo the flat index |
| `Kernels.TucProjection` | examples/bounded_reduction_shapes.py:81-91 | the nested C loops write every cell of the product, in place |
| `Kernels.DotAt` | examples/bounded_reduction_shapes.py:84-87 | the innermost loop computes the cell the flat index names |
| `Kernels.TucSumAxis1` | examples/bounded_reduction_shapes.py:93-101 | the C row-sum loops write every row's sum |
| `Kernels.TucRelu` | examples/bounded_composed_chain.py:80-92 | the C ReLU loop clamps every cell |
| `Kernels.BlocksCover` | examples/bounded_reduction_shapes.py:188-189 | ceil(count/32) blocks of 32 threads cover every cell with fewer than 32 threads to spare |
| `Kernels.RunSound` | examples/bounded_reduction_shapes.py:105-127 | at every point of every interleaving each thread holds exactly its own partial sum, and only guarded threads store |
| `Kernels.StoredAtMostOnce` | examples/bounded_reduction_shapes.py:105-127 | at every point of every interleaving a cell was stored once, with its final value, or is untouched |
| `Kernels.AnyInterleavingFills` | examples/bounded_reduction_shapes.py:103-127 | once every guarded thread had its turns, in any order, each cell was stored exactly once and the array is the one the C loops write |
| `Kernels.ThreadsDistinct` | examples/bounded_reduction_shapes.py:106 | two threads of a launch never share a flat index |
| `Kernels.ScheduleExists` | examples/bounded_reduction_shapes.py:188-189 | every launch of every shape has a schedule that gives each guarded thread its turns |
| `Kernels.ProjectionIsMatmul` | examples/bounded_reduction_shapes.py:81-91 | the flat cells are the entries of the matrix product |
| `Kernels.KernelsComputeChain` | examples/bounded_composed_chain.py:80-94 | product, ReLU and row-sum launches compose to the ordered reference's row results |
| `QuarterIntegers.ExactRounding` | examples/bounded_reduction_shapes.py:142 | multiples of 1/16 with numerators up to 2^24 round to themselves |
| `QuarterIntegers.MulExact` | examples/bounded_reduction_shapes.py:86 | a product of two quarter-integers of magnitude at most 4 is not rounded |
| `QuarterIntegers.SumExact` | examples/bounded_reduction_shapes.py:86 | a sum of such terms is not rounded while its numerators stay within 2^24 |
| `QuarterIntegers.DotExact` | examples/bounded_reduction_shapes.py:84-87 | a column is exact, with numerator at most 256 K |
| `QuarterIntegers.EmittedOrderIsExact` | examples/bounded_reduction_shapes.py:78-101 | on quarter-integers with 256 K C <= 2^24 the emitted order rounds nowhere, with ReLU or without |
| `QuarterIntegers.KernelsMatchOracle` | examples/bounded_reduction_shapes.py:133-146 | the stored results, from C loops or any interleaving, are the oracle's that sums B's rows first |
| `Portfolio.GraphFor` | examples/bounded_dag_compiler.py:23-80 | the list-by-list constructor refuses exactly the shapes outside 1 to 64 and otherwise returns the family's graph |
| `Portfolio.OracleMatmul` | examples/bounded_dag_c11.py:93-102 | the oracle's triple loop computes the flat product |
| `Portfolio.OracleRowSums` | examples/bounded_dag_c11.py:104-111 | the oracle's double loop computes the row sums |
| `Portfolio.ReferenceOutputs` | examples/bounded_dag_c11.py:113-123 | the oracle's branches per family |
| `Portfolio.FamilyIsAGraph` | examples/bounded_dag_compiler.py:57-80 | every family is single-assignment and reads backward |
| `Portfolio.ProjectionAgrees` | examples/bounded_dag_c11.py:113-116 | the oracle's projection, clamped operands included, is the graph's |
| `Portfolio.TerminalsOf` | examples/bounded_dag_c11.py:117-123 | fanout and diamond publish raw and row_sum, chain and fan-in row_sum only |
| `Portfolio.OracleIsGraph` | examples/bounded_dag_c11.py:83-123 | for every family, shape, input and arithmetic the hand-written oracle's outputs are exactly the graph's terminals with the values of its operations run in order |
| `EndToEnd.HostPlanIsCompiled` | examples/bounded_dag_c11.py:137-143 | an accepted host plan of a graph with positive shapes has no copies and no device operation, as the generator demands |
| `EndToEnd.FineIffNormal` | examples/bounded_dag_c11.py:179-204 | against constants equal to the graph's values, checks pass exactly on values that are normal or zero |
| `EndToEnd.PlanNormal` | examples/bounded_dag_c11.py:179-204 | over a whole accepted plan that means every operation's result |
| `EndToEnd.HonestIsDetectable` | examples/bounded_dag_c11.py:231-255 | with such constants a corrupted publication is always seen |
| `EndToEnd.PortfolioWorkerCode` | examples/bounded_dag_c11.py:137-209 | family to exit code: for every family, positive shape, accepted host plan, arithmetic, input vectors, fault and initial slots, the generated worker with the oracle's constants returns the fault's own code (0 without one) exactly when no value is abnormal before the fault shows, and 2 otherwise |
| `AdmittedWorkers.ResultShows` | examples/bounded_composed_chain.py:113-128 | a row result computed on words has the reference's value and passes the check, with the ReLU or without |
| `AdmittedWorkers.FamilyNormal` | examples/bounded_dag_c11.py:179-190 | with round_f32's arithmetic every result of every operation of a chain, fan-out or fan-in graph is zero or normal, on all admitted inputs and shapes |
| `AdmittedWorkers.AdmittedWorkerReturns` | examples/bounded_dag_c11.py:137-209 | on admitted inputs the generated workers of those families return 0, and under faults 1 to 3 that fault's own code, for every admitted shape and accepted host plan and from any slots |
| `EndToEnd.HostWithinBudget` | src/tuc/runtime/residency.py:209-218 | no family of admitted shape can break the planner's budget on one host space |
| `EndToEnd.HostPlanIsSmall` | src/tuc/runtime/residency.py:67-252 | a planned family stays within 64 buffers and 192 events, from the exact count of buffers and events of accepted plans |
| `EndToEnd.BuildWorker` | examples/bounded_dag_c11.py:137-209 | graph, planner and generator composed refuse exactly the shapes the graph constructor refuses, and otherwise emit the worker of an accepted plan |
| `Placements.FamilyAdmissible` | examples/bounded_dag_compiler.py:86-113 | every family under every profile passes the planner's guards |
| `Placements.FamilyAffordable` | src/tuc/runtime/residency.py:209-218 | no family of admitted shape breaks the planner's budget under any placement on the two targets |
| `Placements.CompileCase` | examples/bounded_dag_compiler.py:83-113 | the compiler up to its plan refuses exactly the shapes outside 1 to 64 and the profiles that are not one c or g an operation; for every other family, shape and profile it returns a plan the validator accepts |
| `Placements.CompiledRunsOnWorkers` | docker/bounded-dag-native/worker.h:149-255 | a compiled case whose tensors fit the workers passes the C rules and gives the prescribed reason and counters there, for every fault |
| `Tables.DecodeUndoesEncode` | examples/bounded_dag_native.py:134-139 | decoding an event's row gives the event back if and only if the event has a known kind and target, at most two inputs and one output, and nothing numbered 255 |
| `GraphTables.TensorRoundTrip` | examples/bounded_dag_native.py:118-120 | a tensor's row gives its shape back if and only if it has rank 1 or 2 |
| `GraphTables.OperationRoundTrip` | examples/bounded_dag_native.py:121-124 | an operation's row gives the operation back if and only if it has the operands of its kind and its second one is not numbered 255 |
| `GraphTables.BoundaryRoundTrip` | examples/bounded_dag_native.py:127-128 | a padded boundary list gives the list back if and only if it fits its width and names no tensor 255 |
| `GraphTables.ManifestRoundTrip` | examples/bounded_dag_native.py:117-128 | decoding a graph's table gives shapes, operations, launches and boundary back exactly on the manifests the table has room for |
| `GraphTables.ViewIsEncoded` | docker/bounded-dag-native/contract.c:123-126 | the table of a manifest that lists its graph's boundary, read up to its counts, is the graph the validators are compared on |
| `Tables.RowsAgree` | docker/bounded-dag-native/contract.c:157-203 | past the buffer loops, an event's row passes the C check and loses nothing of the event exactly when the event passes the Python check and comes at a time the C function allows |
| `Tables.NextAgrees` | docker/bounded-dag-native/contract.c:157-203 | after such an event the two validators' states correspond |
| `Tables.TableRunsAgree` | docker/bounded-dag-native/contract.c:157-203 | past the buffer loops, the C validator gets through the rows and they lose nothing exactly when the Python validator gets through the events and all are timely; the states then correspond |
| `Tables.ValidateTable` | docker/bounded-dag-native/contract.c:128-206 | the C function's loops, arrays, totals and counters, but for its graph checks and the comparison with reviewed descriptors, accept exactly the tables whose profile, sizes and totals are in order and whose rows its rules let through |
| `Tables.ValidateBuffers` | docker/bounded-dag-native/contract.c:145-156 | the buffer loop with its running total: known tensors and spaces, exact sizes, no pair twice, within the byte budget |
| `Tables.ValidateEvents` | docker/bounded-dag-native/contract.c:157-203 | the event loop with its copy total and counts |
| `Tables.BuffersAgree` | docker/bounded-dag-native/contract.c:145-156 | the two buffer loops: the C one accepts and every buffer names a known space and has its tensor's shape exactly when the Python one accepts and no pair is held twice |
| `Tables.AcceptedEventFits` | examples/bounded_dag_native.py:134-139 | every event the Python validator accepts has a row that loses nothing |
| `Tables.FinishedIsComplete` | docker/bounded-dag-native/contract.c:204-206 | the C function's counts of bound inputs and published outputs decide the sets the Python function compares |
| `Tables.ValidatorsAgree` | docker/bounded-dag-native/contract.c:145-206 | a plan that has a table passes the C rules, with no buffer mislabelled, no event cut short by its row and within the Python validator's limits, if and only if the Python validator accepts it, no (tensor, space) pair is held twice and every event is timely |
| `TableInterpreter.TucRun` | docker/bounded-dag-native/worker.h:149-255 | the interpreter's loop with its arrays and flags: reason and the rows that took effect, guard by guard |
| `TableInterpreter.GuardsHold` | docker/bounded-dag-native/worker.h:164-236 | a row the validator lets through passes every execution_error guard of the interpreter, even in a faulted pass that trails the validator's state |
| `TableInterpreter.WhateverRunsIsSound` | docker/bounded-dag-native/worker.h:149-255 | on any table, validated or not, and under any fault: a row that takes effect stays within the arrays, names the graph's own tensors in the right spaces, reads only slots written before and writes none twice |
| `TableInterpreter.TableTrails` | docker/bounded-dag-native/worker.h:163-250 | over a validated prefix the interpreter is either stopped by the fault's own reason or holds the validator's state less what the fault left out |
| `TableInterpreter.CaseVerdict` | docker/bounded-dag-native/worker.h:149-255 | on every validated table a clean case publishes exactly the outputs, fault 2 ends in numeric_mismatch, fault 3 in missing_publication, faults 1 and 4 in missing_operand or a pass; execution_error is unreachable |
| `TableMachine.TableLockstep` | docker/bounded-dag-native/worker.h:163-250 | on the table of an accepted plan the interpreter, which finds faults by flags, moves in lockstep with the event machine, which finds them by numbers |
| `TableMachine.TwinsCount` | docker/bounded-dag-native/worker.h:190-242 | rows count what their events count, on all of the interpreter's counters |
| `TableMachine.CaseAgrees` | docker/bounded-dag-native/worker.h:149-255 | a case ends as a pass of the machine, the epilogue over unpublished outputs included |
| `TableMachine.TableReceiptAgrees` | docker/bounded-dag-native/worker.h:308-311 | verdict, case runs and effective events agree after any number of runs |
| `TableMachine.WorkersReportReceipt` | examples/bounded_dag_native.py:257-311 | every counter and the reason the workers print after six runs are those the expected receipt prescribes, for a clean run and every fault |
| `PlannedTables.BindingsAreTimely` | docker/bounded-dag-native/contract.c:174-177 | once all operations have executed no accepted schedule has anything left to bind, so the C rule on bindings excludes nothing |
| `PlannedTables.TimelyIffPublishesLast` | docker/bounded-dag-native/contract.c:161-177 | an accepted schedule satisfies the C function's timing rules if and only if its publications come after its last execution |
| `PlannedTables.TableAcceptsIff` | docker/bounded-dag-native/contract.c:145-206 | an accepted plan's table passes the C validator if and only if the plan holds no pair twice and publishes last |
| `PlannedTables.HeaderIff` | docker/bounded-dag-native/contract.c:132-156 | an accepted plan's header passes exactly when the plan fits the arrays and byte budgets and is placed as its profile says: the totals recomputed from rows are the plan's |
| `PlannedTables.PlannedTableIsValid` | docker/bounded-dag-native/contract.c:145-206 | every plan the planner returns for the two-target deployment passes the C validator |
| `PlannedTables.PlannedRunsOnWorkers` | docker/bounded-dag-native/worker.h:149-255 | planner to receipt: on planned schedules the native workers report the prescribed reason and counters |
| `Witnesses.TableForgetsShape` | docker/bounded-dag-native/contract.c:146-148 | a plan whose buffer has another shape of the same size: its table passes the C rules, the Python validator refuses it |
| `Witnesses.TableForgetsSpace` | examples/bounded_dag_native.py:132-133 | a plan with a buffer in an unknown space: its row passes for the device, the Python validator refuses it |
| `Witnesses.TableForgetsSentinel` | examples/bounded_dag_native.py:139 | a publication that also names an output slot 255: its row passes for none, the Python validator refuses it |
| `Witnesses.PairHeldTwiceRefused` | docker/bounded-dag-native/contract.c:149-152 | an accepted plan that holds a pair twice and whose table the C rules refuse |
| `Witnesses.EarlyPublicationRefused` | docker/bounded-dag-native/contract.c:161-164 | an accepted plan that publishes before its last execution and whose table the C rules refuse |
| `Witnesses.IdleCopyGoesUnnoticed` | examples/bounded_dag_native.py:289-297 | an accepted plan with a copy on which fault 4 passes all six traversals |
| `Witnesses.StrayBackendMiscounted` | examples/bounded_dag_native_equivalence.py:194-196 | an accepted plan on a third backend on which the closed form and the interpreter disagree |
| `Witnesses.RaggedBytesMiscounted` | examples/bounded_dag_native_equivalence.py:208 | a published buffer of five bytes on which six times a quarter and a quarter of six times differ |
| `GraphChecks.CollectPorts` | docker/bounded-dag-native/contract.c:73-82 | the first loop over the operations: accepts exactly when every operand and result is in the table, kinds and sentinels fit and no tensor has two producers; the two arrays then hold exactly what is written and what is read |
| `GraphChecks.FollowOperands` | docker/bounded-dag-native/contract.c:88-109 | the second loop: operands available when they are read, results fresh, shapes and launches right, and the running work, checked at every operation, within the limit exactly when the total is |
| `GraphChecks.ValidateGraph` | docker/bounded-dag-native/contract.c:53-121 | the graph check's six loops over arrays accept exactly the tables that satisfy each rule outright |
| `GraphChecks.GraphCheckIff` | docker/bounded-dag-native/contract.c:53-121 | what those rules mean: the C graph check accepts a manifest's table, and the table loses nothing of it, if and only if the graph is single-assignment, reads backward, leaves no tensor unused, lists exactly its inferred inputs and outputs without repetition, has conforming shapes of at most 64, a launch for every result cell, and at most a million units of work |
| `GraphChecks.ThereReadsBackward` | docker/bounded-dag-native/contract.c:88-109 | operands that are listed inputs or earlier results, with one producer a tensor and no produced input, exclude cycles and forward use |
| `GraphChecks.ValidatePlan` | docker/bounded-dag-native/contract.c:128-213 | the whole C function: a plan passes if and only if graph, plan and expected plan are the reviewed ones and every rule of graph, header, buffers and events holds |
| `GraphChecks.PlanRulesIff` | docker/bounded-dag-native/contract.c:128-206 | on the tables of a plan the Python validator accepts, all rules of the C function together hold if and only if the manifest is well formed, the plan fits its profile and the budgets, no pair is held twice and publications come last |
| `Bridge.LowerSnapshot` | examples/bounded_plan_native_bridge.py:119-124 | the lowering loop emits one row an operation with the slots of its operands and result |
| `Bridge.LoweredComputesGraph` | examples/bounded_plan_native_bridge.py:110-124 | under every injective slot naming the table leaves each operation's value of the graph in its result's slot, whatever other slots held |
| `Bridge.InputsSuffice` | examples/bounded_plan_native_bridge.py:110-124 | the results depend on the external inputs alone |
| `Bridge.NamingsAgree` | examples/bounded_plan_native_bridge.py:110-112 | tables lowered under two injective namings compute the same results |
| `Bridge.BothTargetsName` | examples/bounded_plan_native_bridge.py:110-112 | the C11 and the CUDA slot maps are injective, so the previous rows apply to both |
| `BridgeDispatch.PlanValid` | docker/plan-native-bridge/dispatch_contract.h:10-53 | the workers' check of their dispatch table, plan faults included, accepts exactly three-step tables for the worker's own target whose steps satisfy the rules one after the other |
| `BridgeDispatch.PlanOkIff` | docker/plan-native-bridge/dispatch_contract.h:22-53 | those rules let exactly six tables through: for either slot of the product, the chain, the sum that bypasses the ReLU and the sum before it |
| `BridgeDispatch.LoweredTables` | examples/bounded_plan_native_bridge.py:110-124 | the two tables the bridge emits, in numbers |
| `BridgeDispatch.LoweredPass` | docker/plan-native-bridge/dispatch_contract.h:10-20 | both pass the check, and with any injected change of their first step they do not |
| `BridgeDispatch.CheckedTableResult` | docker/plan-native-bridge/host.c:14-33 | run by the switch on opcode numbers, a checked table leaves the row sums of the clamped product if it is one of the two, and of the product itself otherwise |
| `BridgeDispatch.BridgeComputesChain` | docker/plan-native-bridge/host.c:14-33 | the emitted tables, run by that switch, leave in every result's slot the value the graph's own kernels give it, on both targets and whatever the slots held |
| `Metadata.ChildrenComplete` | examples/bounded_plan_native_bridge.py:47-51 | pushing an item's children, keys included, loses nothing of its weight |
| `Metadata.Taken` | examples/bounded_plan_native_bridge.py:39-51 | taking any pending item and pushing its children leaves everything but the item's own weight |
| `Metadata.NoMisfit` | examples/bounded_plan_native_bridge.py:42-46 | the recursive limits hold if and only if every text in the tree, keys included, has at most 16384 characters and every integer lies strictly between -2^63 and 2^63 |
| `Metadata.TextLength` | examples/bounded_plan_native_bridge.py:40-42 | the running total is the length of all the tree's texts, keys included, one after the other |
| `Metadata.BoundedMetadata` | examples/bounded_plan_native_bridge.py:35-51 | the worklist terminates and accepts exactly the trees whose texts and integers are within those limits and whose texts together have at most 65536 characters, whichever pending item is taken at each step |
| `Initializers.RenderList` | examples/bounded_dag_native.py:95-112 | rendering a list succeeds exactly within the limits and the counter, and lowers the shared counter by the nodes visited |
| `Initializers.RenderFields` | examples/bounded_dag_native.py:101-111 | the field loop, likewise, over the remaining budget |
| `Initializers.RenderField` | examples/bounded_dag_native.py:103-111 | one field: nested list, integer in range, or rejection |
| `Initializers.RenderableMeans` | examples/bounded_dag_native.py:95-111 | the recursive limits are limits on whatever occurs anywhere in the list |
| `Initializers.RenderArray` | examples/bounded_dag_native.py:90-114 | the renderer accepts exactly the lists with at most 96 items a list, five levels, integers from 0 to a million and 4096 nodes, and its output stays below 64 KiB |
| `Initializers.OutputBound` | examples/bounded_dag_native.py:91-92 | at most nine characters a node, separator included |
| `Initializers.RenderInverts` | examples/bounded_dag_native.py:95-112 | a parser undoes the renderer whatever text follows |
| `Initializers.RoundTrip` | examples/bounded_dag_native.py:90-114 | parsing the rendering of any accepted list gives the list back with nothing left |
| `Initializers.RenderingIsInjective` | examples/bounded_dag_native.py:90-114 | lists with equal renderings are equal |
| `TableText.GraphTextFits` | examples/bounded_dag_native.py:117-128 | every graph the C check accepts renders: its table is within the limits, in at most 113 nodes |
| `TableText.PlanTextFits` | examples/bounded_dag_native.py:131-143 | every accepted plan that fits a profile renders, in at most 207 nodes |
| `TableText.TextDeterminesGraph` | examples/bounded_dag_native.py:117-128 | two checked graphs with one initializer text are one graph, launches and boundary included |
| `Scanner.ScanText` | examples/bounded_dag_c11.py:394-421 | the scanner's loop, byte budget first, accepts exactly the texts whose depth and items stay within their limits at every character |
| `Scanner.ValueTracked` | examples/bounded_dag_c11.py:401-421 | from any point outside a string, parsing one value moves scanner and parser alike: same depth afterwards, same peak, at least as many items as values |
| `Scanner.DocumentTracked` | examples/bounded_dag_c11.py:394-421 | on the prefix the parser consumed of any text, valid or not, the scanner's peak depth is the parser's deepest stack, and its items bound the values started |
| `Scanner.ScanBoundsParser` | examples/bounded_dag_c11.py:397-421 | pre-scan safety: a parser run on an accepted text never holds more than the limit of containers open nor starts more than the item limit plus one of values |
| `Scanner.ScanExactOnDocuments` | examples/bounded_dag_native_equivalence.py:62-82 | on valid documents the scanner rejects for size alone, never because of brackets, quotes or separators inside strings |

## Left out

- Residency.InspectSchedule: generalised from the fan-in names, limits (6 to 9 buffers, 7 to 10 events), two operand producers and single publication to any graph, deployment, limits and one publication a tensor; type checks, dtype (float32 only) and the physical kind of a space are not modelled, and the join report keeps the event's index and slots but not its names.
- PlannerProofs.PlanResidency: the reconciliation of the partition plan's transfer edges, layouts and dtypes (src/tuc/runtime/residency.py:164-201) is not modelled; operations have any number of operands but one result.
- Receipts.ExpectedReceipt: selection of the plan by index (whether it is all on the host is a parameter) and the receipt's schema, digest and status strings are not modelled.
- Observations.ExpectedObservation: the three tensors the record singles out are parameters, and of the observation only the reason, the calls and the counters are modelled.
- Observations.FiguresSplit: the fan-out record's own three extra figures (fan-out execution, raw and activated copies) are not modelled; its filtered schedules are.
- Worker.EmitWorker: the boundary checks on input and output names, the constants' text and C syntax are not modelled; constants are parameters of the run.
- WorkerVerdicts.WorkerRefinesReceipts: for fault 2 alone the constants must differ from the corrupted values at the first word, as constants equal to the values always do (`WorkerVerdicts.CorruptionSeen`).
- AdmittedWorkers.AdmittedWorkerReturns: not for the diamond family, whose second product takes unadmitted operands: there `EndToEnd.PortfolioWorkerCode` says when a worker returns 0, and results below 2^-100 leave the domain of round_f32.
- Placements.CompileCase: the partitioner is replaced by the profile's assignment, and lowering to sources is not modelled.
- BridgeDispatch.BridgeComputesChain: poisoning of the intermediate arrays and the call counter are not modelled.
- EndToEnd.PortfolioWorkerCode: the fixed input generator is replaced by arbitrary input vectors.
- Portfolio.OracleIsGraph: stated for arbitrary rounded operations; that the binary64 evaluation inside `_f32` rounds twice is not modelled, and NaN operands of ReLU do not occur.
- NumericContract.CheckCase: signed zeros are equal, the interval encoding of the bound is not modelled, and the ten-case corpora are replaced by all admitted inputs.
- Kernels.AnyInterleavingFills: threads interleave at the granularity of one loop trip or one store, on sequentially consistent memory; 32-bit overflow of indices is not modelled.
- Scanner.ScanText: the length of the UTF-8 encoding is a parameter.
- Scanner.ScanBoundsParser: the lexical rules of numbers, literals and string contents are a parameter of the parser, so the result holds for strict and lenient ones; duplicate-key and number hooks are not modelled.
- Metadata.BoundedMetadata: the plain-JSON check before the traversal and the canonical-byte check after it are not modelled.
- Bridge.LowerSnapshot: the digest comparison and the placement check before the loop are not modelled.
- Tables.ValidateTable: the graph checks and the comparison with the reviewed descriptors are in GraphChecks.ValidatePlan instead; the arrays of flags are sets.
- GraphChecks.ValidatePlan: null pointers are not modelled, and fixed arrays keep the entries their counts cover, so the comparison of unused entries is not modelled.
- TableInterpreter.TucRun: ownership of slots, allocation, poisoning and the numbers themselves are not modelled: computed values are taken to be normal and to match, so only an injected corruption mismatches.
- PlannedTables.PlannedRunsOnWorkers: for plans with at most 255 buffers and tensors of at most 7432 bytes, which covers everything the workers hold.
- Size and width of C integers: counters and sizes are unbounded; the modelled limits keep them far below 32 bits.
- The one-based opcode tables of the fan-in workers: same shape as the tables modelled here.
- The numeric constants, digests, status fields and security flags of observations and reports: fixed values with nothing to prove about them.
- Docker, subprocesses, files, image identities and command lines: input, output and configuration.
