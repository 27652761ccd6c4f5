# Klotho kernel: a verified model

Klotho is a deterministic simulation kernel. Authored predicates and rites are compiled to bytecode,
checked, optimized and run inside a transactional tick; a tick admits proposals in key order, each on a
private copy of the world. This project models those parts in Dafny and proves what they are for. Code
that updates state in place is modelled by methods over arrays, fields and loops, each proved against a
specification function; the theorems are about those specifications, for all inputs.

`dafny verify dfyconfig.toml` checks everything.

## What is here

- **Island partition** (`Forest`, `Links`, `Partition`, `PartitionRun`, `OverlapGap`, `Membership`). Union-find over
  arrays, flood fill, joint fixpoint, grouping, ranking and caps compute the connected components of a
  stated edge relation, whatever the iteration order; the island column and the membership check follow.
- **Predicates** (`Pred`, `Atoms`, `Compile`, `Emitter`, `Eval`, `Meaning`, `Wiring`, `Pipeline`,
  `NestedScan`). Desugaring, interning, postfix emission and the stack interpreter with two budgets: what
  every compiled program computes and costs, exactly, and when that is what was authored.
- **Optimizer** (`Fold`, `FoldGap`, `FoldDoc`, `FoldedRuns`, `DeadNodes`, `Tables`). Folding, dead-node
  elimination and predicate-row interning: when they preserve what every law and every rite does.
- **Rites** (`Rites`, `Cfg`, `CfgOverlong`, `World`, `RiteVm`, `Recook`, `RiteSafety`, `RiteDrive`, `Bench`,
  `RiteCook`). The
  control-flow check decides soundness; sound rites never lose control and run each pc at most once in
  their whole life; cooked rites run as their guards are wired, and as authored where those are faithful.
- **Laws** (`Contradict`, `Laws`, `CapGap`, `PairGap`). The contradiction check raises no false alarm and is complete up to
  twelve leaves; admission decides the laws; an alarm means rejection.
- **Tick** (`Proposals`, `Admission`, `Kernel`, `CommitKernel`, `KernelRuns`). A tick is a function of the
  multiset of its queue, its write cells are disjoint, every item is accounted for, and the invariants
  hold along runs of any length.
- **Exact arithmetic and codecs** (`Space`, `Slab`, `Bytes`, `Placement`,
  `PlacementOrder`, `OptPlan`, `OptPlanRun`, `Mixer`). Three copies of rational slab clipping, the KPLM and KOPT codecs, the integer mixer.
- **Vocabulary** (`Prelude`, `Distinct`, `Sorting`).

## Where the code and its documentation or expectations part

The model follows the code.  The members named give a concrete input for each gap and the exact condition
under which the code does what is expected.

- A quantifier inside a scan body loses its payload when it is emitted, and at run time the scan counter
  starts from 0 in every body: the k-th quantifier of a body runs the k-th quantifier of the whole predicate
  outside scan bodies, or pushes false. The validator refuses nested quantifiers but not `OpaqueClosed`, whose
  sugar hides one (`Pred.FlatIffAccepted`). What such a predicate computes is the rewired predicate
  (`Pipeline.CompilerExact`). It is the authored one when each quantifier stands where the counter finds it
  (`Wiring.FaithfulMeans`); otherwise the answer can be silently wrong (`NestedScan.SilentlyWrong`), and a
  payload that reaches itself is always rejected for Budget where it has a neighbour
  (`NestedScan.NestedScanRejects`). `Pipeline.VerdictRightIff` says exactly when the verdict is right, wrong
  and Budget.
- Folding `a && a` drops quantifiers and so moves the payloads that nested ones run; it can turn a right
  answer into Budget (`FoldGap.FoldBreaks`, `Fold.FoldKeepsIff`, `FoldedRuns.FoldedLawsIff`).
- For the same reason a reported pair of contradictory laws need not clash at run time
  (`PairGap.PairSlips`); `Laws.PairRejectedIff` says exactly when it is rejected. Faithful pairs always clash
  (`Laws.PairAlarmMeansRejection`), and a single reported law never passes (`Laws.AlarmMeansRejection`).
  Documents with reported laws are not cooked.
- `aabb_near` adds three squared gaps in `i64`, which wraps for boxes far apart on all axes
  (`Atoms.NearExactIff`, `Atoms.NearWraps`).
- An unlabeled graph of more than 65536 nodes wraps its pcs: the control-flow check looks at the last node of
  each pc, the machine runs the first (`CfgOverlong.OverlongAccepted`, `CfgOverlong.VerdictRightIff`,
  `CfgOverlong.OverlongEscapes`).
- Bodies reached by a joint alone are not flooded again, so islands need not be closed under overlap
  (`OverlapGap.IslandsClosedIff`, `OverlapGap.JointReachIsNotFlooded`); overlaps are directed, because each
  query uses one hull.
- A Cap law is enforced whether or not its `when` holds (`CapGap.CapIgnoresWhen`); its count stops at the end of
  `u16`, which cannot matter below 131072 predicate ops (`Laws.CapDecides`, `Laws.PassesIffMet`).
- The audible-occlusion test is false for equal endpoints even inside the box (`Slab.OpenSegmentExact`).
- The mixer finds its place in the bed by a product that stops at the end of `u64`; past that, mixing in parts
  need not be mixing at once (`Mixer.ChunkIff`, `Mixer.BedSlips`).
- The KPLM writer lets an empty name through, the reader refuses it (`Placement.RoundTrip`). Groups are
  numbered by first appearance, so the bytes depend on the order of the rows
  (`PlacementOrder.SwapChangesBytes`, `PlacementOrder.PermutedBytesIff`).
- The KOPT builder lists permutation ids in struct order, which can be [2, 1]; its own decoder refuses
  such a plan (`OptPlan.IdsAscendIff`, `OptPlan.AlbedoAndMetal`, `OptPlan.BuiltPlanRefused`).

## Model

| member | source | states |
|---|---|---|
| `Forest.Find` | engine/crates/klotho-commit/src/partition.rs:70-77 | `find` with path splitting terminates, returns the representative of the class, and changes no element's representative; the forest stays valid |
| `Forest.Union` | engine/crates/klotho-commit/src/partition.rs:78-91 | `union` by rank merges exactly the classes of its two arguments: afterwards two elements share a root exactly when they did before or the merge joins them |
| `Forest.RankNeverSaturates` | engine/crates/klotho-commit/src/partition.rs:78-91 | with at most 2^32 nodes no rank exceeds 32, so the saturating `u8` increment never saturates (a root of rank r has at least 2^r members) |
| `Forest.HangRoots` | engine/crates/klotho-commit/src/partition.rs:83-90 | hanging one root below another relabels exactly the elements of the hung class |
| `Forest.SplitKeepsRoots` | engine/crates/klotho-commit/src/partition.rs:71-75 | one splitting step moves no root |
| `Links.LinkedAdd` | engine/crates/klotho-commit/src/partition.rs:78-91 | adding one edge to a graph merges exactly the two components it touches |
| `Partition.GroupOfMember` | engine/crates/klotho-commit/src/partition.rs:163-170 | groups are equivalence classes of undirected chains of contacts |
| `Partition.PartitionDetermined` | engine/crates/klotho-commit/src/partition.rs:93-199 | islands, ids, omitted counts: everything in the result is determined by the scene (bodies, seeds, directed overlaps, joints), so no iteration order can change it |
| `Partition.PartitionIgnoresOrder` | engine/crates/klotho-commit/src/partition.rs:43-199 | two views listing the same loci, candidates and constraints in any order publish the same islands |
| `Partition.SameIslandIffLinked` | engine/crates/klotho-commit/src/partition.rs:93-199 | two bodies share an island exactly when both are reached, joined by an undirected chain of flood-fill overlaps and reached joints, and their group is within the size cap and ranked under the island cap |
| `Partition.IslandIsGroup` | engine/crates/klotho-commit/src/partition.rs:172-198 | island i has id i, its members are a whole group, sorted, and within the size cap |
| `Partition.IslandsDisjoint` | engine/crates/klotho-commit/src/partition.rs:172-198 | no body is on two islands |
| `Partition.ComponentsAccounted` | engine/crates/klotho-commit/src/partition.rs:172-198 | islands + omitted_too_large + omitted_too_many = number of components: none split, none lost |
| `OverlapGap.ReachedClosedIff` | engine/crates/klotho-commit/src/partition.rs:135-161 | the reached bodies are closed under overlap exactly when those reached by joints only overlap nothing new |
| `OverlapGap.IslandsClosedIff` | engine/crates/klotho-commit/src/partition.rs:135-198 | the islands are closed under overlap exactly when each such body on an island overlaps only bodies its contacts couple it to |
| `OverlapGap.JointReachIsNotFlooded` | engine/crates/klotho-commit/src/partition.rs:135-161 | a view in which a reached body overlaps a body that is on no island |
| `PartitionRun.CollectHulls` | engine/crates/klotho-commit/src/partition.rs:49-64 | the hull table holds each physical body with posed bounds once, and the index maps its identity to its row |
| `PartitionRun.Visit` | engine/crates/klotho-commit/src/partition.rs:114-131 | visiting a body unites it with each candidate whose hull overlaps its own and stacks every such body not yet reached |
| `PartitionRun.Drain` | engine/crates/klotho-commit/src/partition.rs:107-132 | popping until the stack is empty closes the reached set under overlap from this seed, and every tracked union is an overlap edge out of a reached body |
| `PartitionRun.Flood` | engine/crates/klotho-commit/src/partition.rs:100-133 | after the flood fill, reached is exactly the overlap-closure of the seeds and the forest tracks exactly the overlap edges out of it |
| `PartitionRun.Couple` | engine/crates/klotho-commit/src/partition.rs:139-160 | one intact joint with a reached endpoint unites and reaches both; progress is reported exactly when something new was reached |
| `PartitionRun.CoupleJoints` | engine/crates/klotho-commit/src/partition.rs:135-161 | the joint fixpoint terminates with exactly the joint-closure of the flooded set, and the forest tracks exactly overlap edges plus reached joints |
| `PartitionRun.GroupByRoot` | engine/crates/klotho-commit/src/partition.rs:163-170 | rows are gathered by representative, each reached body in the row of its root |
| `PartitionRun.GatheredGroups` | engine/crates/klotho-commit/src/partition.rs:163-170 | the gathered rows are exactly the connected components of the scene |
| `PartitionRun.Sift` | engine/crates/klotho-commit/src/partition.rs:172-183 | rows within the size cap are sorted and keyed by least member, the others are counted |
| `PartitionRun.KeptRanking` | engine/crates/klotho-commit/src/partition.rs:184-198 | sorting by least member yields the unique ranking of the small groups |
| `PartitionRun.PartitionWithCaps` | engine/crates/klotho-commit/src/partition.rs:43-199 | for every view of distinct loci, the array algorithm returns the partition of the scene |
| `Membership.Repartition` | engine/crates/klotho-commit/src/kernel.rs:174-208 | after `CommitKernel::partition` the loci carrying island id k, sorted, are exactly the k-th returned list; loci on no list carry NO_ISLAND; sleep counters stay; one reject for each kind of omission that occurred, too-large first |
| `Membership.HomeIs` | engine/crates/klotho-commit/src/kernel.rs:178-200 | a locus carries the id of the island it is a member of, and no live id is NO_ISLAND |
| `Membership.ReturnedListPasses` | engine/crates/klotho-commit/src/kernel.rs:593-601 | a physical island naming a returned list passes the membership check while the column stands |
| `Membership.PassedListIsUnique` | engine/crates/klotho-commit/src/kernel.rs:593-601 | and only that list passes: for each id at most one member list is accepted, all loci the column puts there |
| `Pred.FlatIffAccepted` | engine/crates/klotho-ir/src/pred.rs:135-172 | the validator's no-nesting rule makes desugared scan bodies quantifier-free exactly when `OpaqueClosed` stays out of scan bodies |
| `Atoms.NearExactIff` | engine/crates/klotho-canon/src/eval.rs:256-284 | `aabb_near` decides the distance comparison it means exactly when the boxes intersect or the sum of squared gaps fits `i64` |
| `Atoms.NearWraps` | engine/crates/klotho-canon/src/eval.rs:256-284 | two unit boxes at opposite corners of the world are reported within one millimetre |
| `Compile.NamesStep` | engine/crates/klotho-canon/src/compile.rs:29-98 | interning only grows the tables, and after it every name of the predicate is interned and every scan body is within the op cap |
| `Compile.NamesIdle` | engine/crates/klotho-canon/src/compile.rs:29-98 | interning what is interned already changes nothing |
| `Emitter.Interner.InternAffordance` | engine/crates/klotho-canon/src/compile.rs:33-41 | known names keep their id, a new one takes the next dense id while it fits `u16`, otherwise the tables stay as they were |
| `Emitter.Interner.InternResource` | engine/crates/klotho-canon/src/compile.rs:42-50 | the same for resources |
| `Emitter.Interner.InternRite` | engine/crates/klotho-canon/src/compile.rs:51-59 | the same for rites |
| `Emitter.Interner.InternFact` | engine/crates/klotho-canon/src/compile.rs:60-68 | the same for facts |
| `Emitter.Interner.BindSlot` | engine/crates/klotho-canon/src/compile.rs:69-89 | a pinned name resolves to its pin, an unseen one becomes a pin or, once the pins are closed, an error |
| `Emitter.Interner.CookAtom` | engine/crates/klotho-canon/src/compile.rs:261-314 | cooking an atom interns its names left to right and yields the atom under the tables it leaves |
| `Emitter.InternAtom` | engine/crates/klotho-canon/src/compile.rs:252-259 | the position of an equal atom, or the next one, truncated to `u16` |
| `Emitter.Emit` | engine/crates/klotho-canon/src/compile.rs:175-250 | one pass over a mutable interner and mutable vectors emits the postfix code, the payloads in scan order and the atom table of the specification, or fails exactly as interning fails |
| `Emitter.CompilePredWith` | engine/crates/klotho-canon/src/compile.rs:143-165 | the compiler computes the specified program and tables, with the size check last |
| `Eval.EvalChunk` | engine/crates/klotho-canon/src/eval.rs:78-130 | the loop over ops with its stack, scan counter and two budgets computes the specified run |
| `Eval.EvalScan` | engine/crates/klotho-canon/src/eval.rs:132-168 | the neighbour loop, truncation included, computes the specified scan |
| `Eval.EvalPred` | engine/crates/klotho-canon/src/eval.rs:60-76 | one evaluation from a fresh 64-op meter |
| `Meaning.DesugarHolds` | engine/crates/klotho-canon/src/compile.rs:100-135 | desugaring keeps the meaning of every predicate in every store and context |
| `Meaning.FlatListCost` | engine/crates/klotho-canon/src/eval.rs:149-163 | the cost law of a flat scan: code length plus Halt, times the number of neighbours |
| `Wiring.FaithfulMeans` | engine/crates/klotho-canon/src/eval.rs:149-160 | where every quantifier is found again at the counter that runs it, the code decides the authored meaning for the authored cost |
| `Wiring.FlatFaithful` | engine/crates/klotho-canon/src/compile.rs:235-250 | predicates with quantifier-free desugared scan bodies are such |
| `Pipeline.TruncationUnobservable` | engine/crates/klotho-canon/src/eval.rs:132-168 | a neighbour list long enough to be cut cannot be paid for, cut or uncut and however its body is wired, so no Ok result was computed over a truncated list |
| `Pipeline.ScanRuns` | engine/crates/klotho-canon/src/eval.rs:132-168 | the payload at a counter decides its quantifier with the body rewired, over the complete neighbour list, for its exact price |
| `Pipeline.WiredRuns` | engine/crates/klotho-canon/src/eval.rs:78-130 | code started at any scan counter pushes its rewired meaning, leaves the stack below alone, moves the counter by its quantifiers and costs exactly its price, or drains a budget |
| `Pipeline.NoIndexWraps` | engine/crates/klotho-canon/src/compile.rs:252-259 | a validated and accepted predicate has at most 63 * 64 atoms, so no `u16` atom index wraps and every index finds its atom |
| `Pipeline.CompilerExact` | engine/crates/klotho-canon/src/compile.rs:143-165 | what every compiled program computes, nested quantifiers or not: for every store, context and tick budget the interpreter decides the rewired predicate and consumes exactly its price, or rejects with Budget and consumes exactly min(budget, 64) |
| `Pipeline.CompilerCorrect` | engine/crates/klotho-canon/src/compile.rs:143-165 | compiler correctness with exact cost: a validated predicate whose quantifiers stand where the counter finds them is decided as authored, for exactly the authored cost |
| `Pipeline.VerdictRightIff` | engine/crates/klotho-canon/src/eval.rs:60-76 | for every validated predicate: the verdict is the authored meaning exactly when the run is affordable and the rewired predicate agrees with the authored one, its negation exactly when it is affordable and they differ, Budget exactly when it is not affordable |
| `Pipeline.CookedRuns` | engine/crates/klotho-canon/src/eval.rs:60-76 | the exact statement under the final tables of the whole cook, whatever was interned afterwards |
| `NestedScan.NestedScanRejects` | engine/crates/klotho-canon/src/eval.rs:149-160 | every compiled predicate one of whose payloads reaches itself is rejected for Budget in every context where that payload has a neighbour |
| `NestedScan.OpaqueScanAlwaysRejects` | engine/crates/klotho-ir/src/pred.rs:135-172 | `OpaqueClosed` in the body of the only scan: validated, compiled, meaningful, and rejected in every context where anything is related |
| `NestedScan.SilentlyWrong` | engine/crates/klotho-canon/src/compile.rs:235-250 | a validated predicate and a context where the evaluation answers Ok(true) and the predicate is false: the hidden scan runs payload 0 |
| `Fold.FoldNormal` | engine/crates/klotho-compile/src/optimize.rs:534-558 | folding reaches a normal form: no equal operands, no double negation, anywhere |
| `Fold.FoldChanged` | engine/crates/klotho-compile/src/optimize.rs:534-558 | the returned count is zero exactly on normal forms, which are left as they are |
| `Fold.FoldIdempotent` | engine/crates/klotho-compile/src/optimize.rs:534-558 | a second pass does nothing and returns 0 |
| `Fold.FoldHolds` | engine/crates/klotho-compile/src/optimize.rs:534-558 | folding preserves the meaning in every context |
| `Fold.FoldCost` | engine/crates/klotho-compile/src/optimize.rs:534-558 | folding never raises the cost of an evaluation as authored |
| `Fold.FoldNames` | engine/crates/klotho-canon/src/compile.rs:143-233 | compiling the folded predicate leaves the interner in the same state as compiling the original |
| `Fold.FoldKeepsIff` | engine/crates/klotho-compile/src/optimize.rs:534-558 | the folded predicate compiles into the same tables; folding keeps a validated predicate exactly when, in every context and under every budget, every Ok(b) of the original is Ok(b) of the folded one with at least as much budget left |
| `Fold.FoldRefinesIff` | engine/crates/klotho-compile/src/optimize.rs:534-558 | the same for one context and one budget |
| `Fold.SafeKeeps` | engine/crates/klotho-compile/src/optimize.rs:534-558 | folding keeps a predicate that is faithful before and after |
| `Fold.FlatFoldSafe` | engine/crates/klotho-compile/src/optimize.rs:534-558 | it is where scan bodies are quantifier-free |
| `FoldGap.FoldBreaks` | engine/crates/klotho-compile/src/optimize.rs:538-545 | folding `a && a` moves payloads: a validated predicate the compiler gets right, whose folded form is rejected for Budget in the same context |
| `FoldDoc.PredCell.Fold` | engine/crates/klotho-compile/src/optimize.rs:534-558 | the in-place rewrite leaves the folded predicate and returns the number of rewrites |
| `FoldDoc.IntentDoc.FoldPredicates` | engine/crates/klotho-compile/src/optimize.rs:498-532 | every predicate of every law, affordance and rite node is folded where it stands, nothing else is touched, and the counts add up |
| `FoldDoc.FoldDocIdempotent` | engine/crates/klotho-compile/src/optimize.rs:498-532 | folding a folded document changes nothing and reports 0 |
| `FoldDoc.FoldKeepsVerdict` | engine/crates/klotho-canon/src/cfg.rs:10-32 | the control-flow check answers the same on a folded rite, down to the error it reports |
| `FoldedRuns.FoldedRiteRefines` | engine/crates/klotho-compile/src/optimize.rs:514-526 | a rite whose guards folding keeps, cooked from the folded document, takes the same path to the same end, world and events as the reference cook whenever that is not cut short by the predicate budget, with at least as many predicate ops left |
| `FoldedRuns.FoldedLawsRefine` | engine/crates/klotho-compile/src/optimize.rs:502-509 | laws that folding keeps admit and break exactly what the reference laws do within budget, down to the law named |
| `FoldedRuns.FoldedLawsIff` | engine/crates/klotho-compile/src/optimize.rs:502-509 | for any validated laws and any proposal: exactly when that is so under every budget |
| `FoldedRuns.FoldedCookSameTables` | engine/crates/klotho-canon/src/cook.rs:94-133 | cooking the folded laws, affordances and rites ends in the intern tables of the reference cook, with as many program rows |
| `FoldedRuns.OptimizedRiteRefines` | engine/crates/klotho-compile/src/optimize.rs:384-495 | the same for the folded, cooked and interned rite, each cook under the tables it ends in |
| `FoldedRuns.OptimizedLawsRefine` | engine/crates/klotho-compile/src/optimize.rs:384-495 | the same for the folded, cooked and interned laws |
| `Cfg.AssignPcs` | engine/crates/klotho-canon/src/cfg.rs:34-63 | mixed labeling is an error; the first repeated pc of a labeled graph is an error; otherwise the pcs in order and the op table, where a later unlabeled node overwrites an earlier one of the same wrapped pc |
| `Cfg.Bfs` | engine/crates/klotho-canon/src/cfg.rs:106-118 | the worklist returns exactly the pcs reachable from the entry |
| `Cfg.FindCycle` | engine/crates/klotho-canon/src/cfg.rs:120-155 | the three-colour DFS reports a cycle exactly when the successor graph has one |
| `Cfg.CheckRiteCfg` | engine/crates/klotho-canon/src/cfg.rs:10-32 | the check answers the specified verdict, error cases in the source's order |
| `Cfg.AcceptedIffSound` | engine/crates/klotho-canon/src/cfg.rs:10-155 | accepted if and only if labeling is uniform, pcs are distinct, entry and all jump and fall-through targets exist, every node is reachable from the entry and the control flow is acyclic; for graphs whose pcs fit 16 bits |
| `CfgOverlong.OverlongAccepted` | engine/crates/klotho-canon/src/cfg.rs:34-63 | an unlabeled graph past 65536 nodes is accepted exactly when, of its last writer at each pc, every one is reachable and their ring of control flow is acyclic |
| `CfgOverlong.VerdictRightIff` | engine/crates/klotho-canon/src/cfg.rs:10-155 | for every graph: the verdict says whether the graph is sound exactly when its pcs fit or that wrapped view is refused |
| `CfgOverlong.OverlongEscapes` | engine/crates/klotho-canon/src/cfg.rs:57 | with 65537 unlabeled nodes any first instruction at all is accepted, and it is the one the machine starts with |
| `World.SpecDelta.PushEvent` | engine/crates/klotho-world/src/spec.rs:53-80 | an event is applied to the private copy, queued, and its loci counted as written |
| `World.SpecDelta.Put` | engine/crates/klotho-world/src/spec.rs:83-181 | a column write changes the copy and counts its locus as written |
| `RiteVm.ExecFlow` | engine/crates/klotho-commit/src/rite.rs:17-326 | control leaves an instruction by one of its jumps or by falling through; only waits yield, only Halt and Complete end, and a missing successor is reported only by a falling-through instruction that has none |
| `RiteVm.WaitRow` | engine/crates/klotho-commit/src/rite.rs:104-172 | after a wait the machine row names the resume pc, the ticks, the target and the channel |
| `RiteVm.ExecKeeps` | engine/crates/klotho-commit/src/rite.rs:17-326 | an instruction writes no machine row but its own, loses no locus, and gives no row to an unknown actor |
| `RiteVm.EvalGuard` | engine/crates/klotho-commit/src/rite.rs:328-356 | the guard of a pc runs its program against the delta; a pc without one passes |
| `RiteVm.RunBurst` | engine/crates/klotho-commit/src/rite.rs:17-326 | the loop over the mutable delta computes the specified burst; `rite_steps` falls by exactly the instructions started, whatever the outcome |
| `RiteSafety.StepFlow` | engine/crates/klotho-commit/src/rite.rs:358-361 | in a checked rite every pc has an instruction, every falling-through instruction has a successor, and each way on is a control-flow edge |
| `RiteSafety.BurstSafe` | engine/crates/klotho-commit/src/rite.rs:17-326 | one burst of a checked rite runs no pc twice, never misses an instruction or a successor, and never ends FailBudget when `cap_steps` and `rite_steps` are at least the instruction count |
| `RiteSafety.LifeRunsOnce` | engine/crates/klotho-commit/src/rite.rs:17-326 | over its whole life, across all waits and resumes and whatever happens to the world in between, a checked rite executes each pc at most once |
| `RiteDrive.FirstRite` | engine/crates/klotho-world/src/proj.rs:1414-1421 | the active rite of an actor with the lowest id |
| `RiteDrive.DriveRite` | engine/crates/klotho-commit/src/rite.rs:410-496 | resume the first active rite from its row, or begin the picked one, burst, and after a hit run what it sets off; refusals and budgets as specified |
| `RiteDrive.DriveHit` | engine/crates/klotho-commit/src/rite.rs:573-678 | after something was emitted the victim, or the whole it is part of, runs apply_hit and, if it was part of something and has no integrity left, collapse |
| `RiteDrive.BurstKeepsRows` | engine/crates/klotho-commit/src/rite.rs:17-326 | whoever calls a checked rite, each machine row the burst leaves, its own and all others, resumes at an instruction of its rite |
| `RiteDrive.DriveKeepsRows` | engine/crates/klotho-commit/src/rite.rs:410-678 | every request, with all that a hit sets off, keeps that invariant, and none of its bursts is rejected for lost control flow |
| `RiteCook.CookRite` | engine/crates/klotho-canon/src/cook.rs:371-410 | cooking fails exactly on the graphs the check refuses, and else exactly where the node list cannot be compiled and interned in order; otherwise the rite is sound and each guard is found and is what its predicate compiled to |
| `RiteCook.GuardMeans` | engine/crates/klotho-commit/src/rite.rs:328-356 | a cooked guard decides what its code means, a faithful one what was authored, or the predicate budget is gone |
| `RiteCook.CookedRiteRunsAsWired` | engine/crates/klotho-commit/src/rite.rs:17-326 | any validated rite takes the path, end, world and events its guards decide as wired, unless a guard runs the predicate budget dry |
| `RiteCook.CookedRiteRunsAsAuthored` | engine/crates/klotho-commit/src/rite.rs:17-326 | end to end: a cooked rite with faithful guards takes the path, end, world and events of the authored one, unless a guard runs the predicate budget dry |
| `Recook.ExecRecooked` | engine/crates/klotho-commit/src/rite.rs:17-326 | what an instruction does depends on code, guard rows and program table only through the answer of its own guard |
| `DeadNodes.Eliminate` | engine/crates/klotho-compile/src/optimize.rs:571-632 | all-labeled graphs keep exactly their live nodes, in order; any other graph is left alone; the count is what was removed |
| `DeadNodes.LiveIff` | engine/crates/klotho-compile/src/optimize.rs:571-632 | the pcs kept are exactly those control can come to from the entry |
| `DeadNodes.PrunedRunsSame` | engine/crates/klotho-compile/src/optimize.rs:571-632 | from any live pc, in any world and with any budgets, the pruned rite runs step for step as the original, whatever the outcome |
| `DeadNodes.PrunedAllReachable` | engine/crates/klotho-compile/src/optimize.rs:571-632 | the pruned graph has no unreachable node |
| `DeadNodes.CheckedUntouched` | engine/crates/klotho-compile/src/optimize.rs:571-632 | nothing is removed from a graph the control-flow check accepts |
| `Tables.CanonTables.InternPredicates` | engine/crates/klotho-canon/src/tables.rs:151-190 | the table becomes its duplicate-free list in first-occurrence order, every reference of laws, affordances and guards is rewritten in place and stays in range, and the count of removed rows is returned |
| `Tables.Remap` | engine/crates/klotho-canon/src/tables.rs:151-166 | each old id maps to the row holding the same program |
| `Tables.FirstOccurrenceOrder` | engine/crates/klotho-canon/src/tables.rs:151-166 | the new table keeps the order of first occurrences |
| `Tables.LawsUnchanged` | engine/crates/klotho-canon/src/tables.rs:168-178 | every law is admitted or broken exactly as before, for the same ops |
| `Tables.RunsUnchanged` | engine/crates/klotho-canon/src/tables.rs:184-188 | every rite runs from the interned table exactly as from the original one |
| `Contradict.BruteForceExact` | engine/crates/klotho-canon/src/contradict.rs:100-141 | some bit pattern satisfies the numbered formula exactly when some valuation of the leaves satisfies the predicate |
| `Contradict.ConflictSound` | engine/crates/klotho-canon/src/contradict.rs:157-185 | a leaf both asserted and denied in a conjunction is a real contradiction |
| `Contradict.CheckUnsat` | engine/crates/klotho-canon/src/contradict.rs:127-141 | the loop over bit patterns, and past the cap the syntactic test, answer as specified |
| `Contradict.UnsatExact` | engine/crates/klotho-canon/src/contradict.rs:127-141 | no false alarm at any size; complete for at most 12 distinct leaves |
| `Contradict.EquivalentExact` | engine/crates/klotho-canon/src/contradict.rs:143-155 | what is reported equivalent is; complete up to 12 leaves and silent past them |
| `Contradict.UnsatNeverHolds` | engine/crates/klotho-canon/src/contradict.rs:127-141 | a predicate in alarm holds in no store and no context |
| `Contradict.UnsatNeverMeans` | engine/crates/klotho-canon/src/contradict.rs:127-141 | nor can any evaluation of its code answer true, whatever its nested quantifiers run |
| `Contradict.WalkOrFinds` | engine/crates/klotho-canon/src/contradict.rs:66-91 | the walk finds exactly whether a disjunct is a wielded key and whether one is an active rite |
| `Contradict.CheckFragment` | engine/crates/klotho-canon/src/contradict.rs:15-44 | passes exactly when the Lockable rule is met, no law is bad alone and no two are bad together; an alarm names offenders |
| `Contradict.CheckPairs` | engine/crates/klotho-canon/src/contradict.rs:30-42 | the pair loops report the first bad pair in order, and none exactly when there is none |
| `Contradict.BadPairNeverHolds` | engine/crates/klotho-canon/src/contradict.rs:30-42 | of a pair in alarm: both apply in the same contexts, and no context meets both |
| `Laws.CheckLaw` | engine/crates/klotho-commit/src/laws.rs:75-142 | one law of any kind, with the ops it uses |
| `Laws.CountMarked` | engine/crates/klotho-commit/src/laws.rs:161-198 | the cap loop: relation filter first, then the mark, saturating at `u16` |
| `Laws.CheckLaws` | engine/crates/klotho-commit/src/laws.rs:12-31 | the laws in order, stopping at the first rejection |
| `Laws.LawDecides` | engine/crates/klotho-commit/src/laws.rs:75-142 | one law, exactly: when its evaluations are payable it is admitted if it passes and broken if not, for just their price; otherwise the budget rejects |
| `Laws.CapDecides` | engine/crates/klotho-commit/src/laws.rs:112-135 | below 131072 predicate ops an answered cap decides its exact count, and agrees with the law as intended exactly when its `when` holds or the count is within the cap |
| `Laws.PassesIffMet` | engine/crates/klotho-commit/src/laws.rs:75-142 | under any budget: exactly when what passes and what is intended agree |
| `CapGap.CapIgnoresWhen` | engine/crates/klotho-commit/src/laws.rs:112-135 | a cap law whose `when` is false rejects a proposal all the same |
| `Laws.DocketDecides` | engine/crates/klotho-commit/src/laws.rs:12-73 | any sequence of laws before cases, exactly: when what is due up to the first failure is payable, that ruling is given for just its price; otherwise the budget rejects |
| `Laws.AdmissionDecides` | engine/crates/klotho-commit/src/laws.rs:12-31 | the same for all laws before one proposal |
| `Laws.RulingNames` | engine/crates/klotho-commit/src/laws.rs:12-31 | the ruling passes exactly when every law passes; a broken law it names does not pass, and all before it do |
| `Laws.AdmittedIff` | engine/crates/klotho-commit/src/laws.rs:12-31 | a proposal is admitted exactly when every law passes and every evaluation is payable |
| `Laws.AdmittedMeetsLaws` | engine/crates/klotho-commit/src/laws.rs:12-31 | below 131072 predicate ops, what admission passes meets every law as intended |
| `Laws.CheckPhysLaws` | engine/crates/klotho-commit/src/laws.rs:36-73 | the loop over laws and bodies, each body for itself and for its contact |
| `Laws.PhysAdmittedIff` | engine/crates/klotho-commit/src/laws.rs:36-73 | an island passes exactly when every body and every contact passes every law, no contact has an unknown channel, and what is due is payable |
| `Laws.AlarmMeansRejection` | engine/crates/klotho-canon/src/contradict.rs:15-44 | for a law in alarm: every proposal in a context where its `when` is decided true is rejected by `admit_laws`, whatever its budget and however the nested quantifiers of any law are wired |
| `Laws.PhysAlarmMeansRejection` | engine/crates/klotho-commit/src/laws.rs:36-73 | and by `admit_phys_laws`, where it is decided true for any body |
| `Laws.PairRejectedIff` | engine/crates/klotho-canon/src/contradict.rs:30-42 | for a pair in alarm: a proposal is rejected exactly when one of the two breaks as wired, another law fails, or the price is not payable; where the pair applies as written and is admitted all the same, one of its four predicates is misread |
| `Laws.PairAlarmMeansRejection` | engine/crates/klotho-canon/src/contradict.rs:30-42 | the same for a pair in alarm whose four predicates are faithful |
| `PairGap.PairSlips` | engine/crates/klotho-canon/src/contradict.rs:30-42 | a reported pair of validated laws that compile, and a proposal to which both apply, admitted exactly from 26 predicate ops on |
| `Proposals.KeyFixesKind` | engine/crates/klotho-commit/src/proposal.rs:223-272 | equal admission keys are of one kind |
| `Proposals.ClassComplete` | engine/crates/klotho-commit/src/kernel.rs:268-274 | in a sorted batch the leading run is the whole equivalence class of its key |
| `Admission.AdmitOneSettles` | engine/crates/klotho-commit/src/kernel.rs:310-556 | a rejected proposal leaves world and ledger unchanged; an admitted one takes only cells nobody had and publishes exactly its delta; op budgets only fall |
| `Admission.PhysSettles` | engine/crates/klotho-commit/src/kernel.rs:415-556 | the same for physical islands, whose cells include windows and everything the delta wrote, and which pay for windows and physical laws |
| `Kernel.ProcessOrder` | engine/crates/klotho-commit/src/kernel.rs:254-295 | an equivalence class is processed the same in any internal order |
| `Kernel.ArrivalOrderIrrelevant` | engine/crates/klotho-commit/src/kernel.rs:229-295 | a tick is a function of the multiset of queued proposals: world, ledger, events, rejects and budgets are the same for any arrival order |
| `Kernel.RetryIdempotent` | engine/crates/klotho-commit/src/kernel.rs:254-295 | an identical retry of an unambiguous proposal changes nothing at all |
| `Kernel.TickBalanced` | engine/crates/klotho-commit/src/kernel.rs:254-295 | the declared cells of admissions are pairwise disjoint and equal the `written` ledger; the world is the old one with exactly the admitted deltas in order |
| `Kernel.EveryItemCounted` | engine/crates/klotho-commit/src/kernel.rs:254-295 | batch size = admitted + rejected + collapsed retries |
| `Kernel.RunIsSlices` | engine/crates/klotho-commit/src/kernel.rs:254-295 | batch, log and rejects are the equivalence classes one after the other, pending rejects in front; a class of identical items is admitted once or rejected once, an ambiguous one gets one Conflict for each item and no admission |
| `Kernel.EveryItemAnswered` | engine/crates/klotho-commit/src/kernel.rs:254-295 | each item has one slice that holds its copies and its rivals and nothing else, identical items exactly when the item is unambiguous |
| `Kernel.GrantsUnambiguous` | engine/crates/klotho-commit/src/kernel.rs:254-295 | nothing of an ambiguous class is ever admitted |
| `CommitKernel.CommitKernel.Speculate` | engine/crates/klotho-commit/src/kernel.rs:338-393 | the delta is computed on a private copy: the live world is not in the frame |
| `CommitKernel.CommitKernel.Commit` | engine/crates/klotho-world/src/mutate.rs:209-216 | publication replaces the projection, appends the events and charges the cells |
| `CommitKernel.CommitKernel.AdmitGrain` | engine/crates/klotho-commit/src/kernel.rs:310-413 | the admission of one proposal on the kernel's own fields, as specified |
| `CommitKernel.CommitKernel.AdmitPhys` | engine/crates/klotho-commit/src/kernel.rs:415-556 | the admission of a physical island, as specified |
| `CommitKernel.CommitKernel.Step` | engine/crates/klotho-commit/src/kernel.rs:229-308 | one tick: the queue and the synchronous proposals, sorted by key, passed class by class; pending partition rejects come first; the queue is left empty |
| `CommitKernel.CommitKernel.PartitionIslands` | engine/crates/klotho-commit/src/kernel.rs:174-208 | rewrites only the island column, leaves exactly the rejects of the omissions, and every returned island passes the membership check of its id on the new column |
| `KernelRuns.EveryTickBalanced` | engine/crates/klotho-commit/src/kernel.rs:229-308 | in every tick of every run: disjoint write cells equal to the ledger, world and events as replayed, every queued item accounted for |
| `KernelRuns.TraceIsPublished` | engine/crates/klotho-commit/src/kernel.rs:229-308 | over a run of any length the trace is only appended to, with exactly the events the ticks returned |
| `KernelRuns.TimeMovesOn` | engine/crates/klotho-commit/src/kernel.rs:229-253 | time moves on in every tick of a run |
| `KernelRuns.RowsStayOk` | engine/crates/klotho-commit/src/kernel.rs:229-308 | in a run of any length every machine row is a locus's and resumes inside its own checked rite |
| `KernelRuns.NeverLost` | engine/crates/klotho-commit/src/rite.rs:410-678 | at any point of any tick of any run no burst of a request, its own or one a hit sets off, is rejected for a missing instruction or successor |
| `Slab.AxisCrossings` | engine/crates/klotho-core/src/space.rs:213-229 | on one axis the line is between the faces exactly between the two crossing fractions, entering first |
| `Slab.SegmentHitExact` | engine/crates/klotho-core/src/space.rs:174-211 | Some exactly when some t in [0,1] puts the segment in the closed box, and then the least such t |
| `Slab.SlabIntervalExact` | engine/crates/klotho-geom/src/cast.rs:268-324 | the same entry, the greatest such t, and between them exactly the hits; the flag says whether the origin is inside |
| `Slab.OpenSegmentExact` | engine/crates/klotho-audio/src/extract.rs:98-157 | true exactly when the endpoints differ and some t strictly inside (0,1) lies in the box |
| `Slab.CopiesAgree` | engine/crates/klotho-audio/src/extract.rs:98-157 | between distinct endpoints the open test is the closed interval reaching into the open segment, so the three copies agree |
| `Slab.SignedCmpVal` | engine/crates/klotho-audio/src/extract.rs:159-170 | comparing fractions with denominators of either sign is comparing their values |
| `Slab.ClipBoxFits` | engine/crates/klotho-core/src/space.rs:213-235 | for `i32` coordinates nothing stored leaves `i64` |
| `Slab.CrossProductsFit` | engine/crates/klotho-core/src/space.rs:237-239 | comparing two such fractions multiplies within `i128` |
| `Slab.Running.Clip` | engine/crates/klotho-core/src/space.rs:213-229 | narrowing the running interval in place on one axis |
| `Slab.Running.ClipBetween` | engine/crates/klotho-audio/src/extract.rs:131-157 | the audio copy of the same step, which stops once the interval is empty |
| `Slab.SegmentHit` | engine/crates/klotho-core/src/space.rs:174-211 | three in-place clips and the final test compute the specified hit |
| `Slab.SlabInterval` | engine/crates/klotho-geom/src/cast.rs:268-324 | three in-place clips and the final test compute the specified interval |
| `Slab.OpenSegmentHits` | engine/crates/klotho-audio/src/extract.rs:98-129 | three in-place clips and the final test compute the specified answer |
| `Bytes.SignedRoundTrip` | engine/crates/klotho-compile/src/placement.rs:597-604 | a signed value survives its little-endian word |
| `Bytes.NameRoundTrip` | engine/crates/klotho-compile/src/placement.rs:549-620 | a name is read back exactly when it is not empty |
| `Placement.GroupRows` | engine/crates/klotho-compile/src/placement.rs:283-309 | groups are numbered by first appearance of their binding, up to the cap |
| `Placement.RebuildDeltas` | engine/crates/klotho-compile/src/placement.rs:485-523 | wrapping per-group deltas are undone exactly over all `i32` coordinates |
| `Placement.EncodedRecords` | engine/crates/klotho-compile/src/placement.rs:275-411 | the records are a sorted permutation of the input rows, each carrying the number of its binding, and every group counts exactly its records |
| `Placement.RoundTrip` | engine/crates/klotho-compile/src/placement.rs:275-532 | whenever encoding succeeds, decoding gives back the same names, groups, records and bytes exactly when neither name is empty; otherwise it refuses |
| `PlacementOrder.BytesAgreeIff` | engine/crates/klotho-compile/src/placement.rs:275-411 | two lists of rows give the same bytes exactly when their bindings first appear in the same order and their tagged rows are the same up to order |
| `PlacementOrder.PermutedBytesIff` | engine/crates/klotho-compile/src/placement.rs:283-317 | permuted rows give the same bytes exactly when the bindings still first appear in the same order |
| `PlacementOrder.SwapChangesBytes` | engine/crates/klotho-compile/src/placement.rs:283-309 | two rows, swapped, encode to different bytes |
| `Placement.DeltaLoop` | engine/crates/klotho-compile/src/placement.rs:318-359 | the loop with its `prev` map yields the specified deltas and the group counts |
| `Placement.EncodeChunk` | engine/crates/klotho-compile/src/placement.rs:275-411 | the encoder computes the specified chunk or error |
| `Placement.RebuildLoop` | engine/crates/klotho-compile/src/placement.rs:485-523 | the decoder's loop undoes the deltas as specified |
| `Placement.DecodeChunk` | engine/crates/klotho-compile/src/placement.rs:413-532 | the decoder computes the specified chunk or error |
| `OptPlan.PlanRoundTrip` | engine/crates/klotho-compile/src/optimize.rs:842-991 | decode(encode(p)) is p exactly when p is well formed (caps, known tables, Place-kind bundles, allowed paths, strictly ascending assets, places, SKUs and permutation ids), and is refused for any other plan |
| `OptPlan.IdsAscendIff` | engine/crates/klotho-compile/src/optimize.rs:670-673 | the builder's permutation ids are strictly ascending exactly when no two surviving permutations are ordered differently by struct order and packed id |
| `OptPlan.AlbedoAndMetal` | engine/crates/klotho-compile/src/material.rs:13-40 | two ordinary permutations give the ids [2, 1] |
| `OptPlan.BuiltPlanRefused` | engine/crates/klotho-compile/src/optimize.rs:957-960 | so a plan the builder makes can be one its own decoder refuses |
| `OptPlanRun.EncodePlan` | engine/crates/klotho-compile/src/optimize.rs:842-885 | the buffer ends as the specified bytes; refused exactly when some length does not fit 32 bits |
| `OptPlanRun.DecodePlan` | engine/crates/klotho-compile/src/optimize.rs:887-991 | the cursor accepts, returns and refuses exactly what the specification does, down to the first fault in reading order |
| `OptPlanRun.Cursor.PullFiles` | engine/crates/klotho-compile/src/optimize.rs:964-981 | a repeated path is refused as soon as it is read, trailing bytes at the end |
| `Mixer.PanMilli` | engine/crates/klotho-audio/src/mix.rs:344-357 | both pan gains lie in 0..1000 |
| `Mixer.ScaledBound` | engine/crates/klotho-audio/src/mix.rs:397-402 | no intermediate product saturates `i32`, and one voice adds at most the peak |
| `Mixer.ChunkIff` | engine/crates/klotho-audio/src/mix.rs:235-320 | when the audible voices of the window fit the cap, mixing t1+t2 ticks is mixing t1 and then t2 from now+t1 exactly when each sample of the second part sounds the same with the bed where either finds it |
| `Mixer.ChunkInvariant` | engine/crates/klotho-audio/src/mix.rs:235-320 | it always does when the second part opens before the sample count stops at `u64` |
| `Mixer.BedSlips` | engine/crates/klotho-audio/src/mix.rs:302-303 | past that tick it need not: every window starts the bed at the same sample |
| `Mixer.SampleExact` | engine/crates/klotho-audio/src/mix.rs:397-406 | with at most 999 voices and the bed no accumulation saturates: each sample is one clamp of an exact sum |
| `Mixer.VoiceOrderIrrelevant` | engine/crates/klotho-audio/src/mix.rs:235-320 | and that sum does not depend on the order of the voices |
| `Mixer.AddSample` | engine/crates/klotho-audio/src/mix.rs:397-402 | adds one scaled sample to one stereo frame, with every saturation, and touches nothing else |
| `Mixer.MixOneshot` | engine/crates/klotho-audio/src/mix.rs:359-379 | every frame of the buffer gains exactly the voice's sample at that frame |
| `Mixer.MixLoop` | engine/crates/klotho-audio/src/mix.rs:381-395 | every frame gains the looped sample |
| `Mixer.MixVoices` | engine/crates/klotho-audio/src/mix.rs:260-297 | the first `max_voices` audible voices in trace order, and no others, are in the buffer |
| `Mixer.MixN` | engine/crates/klotho-audio/src/mix.rs:235-320 | the mixer computes the specified samples and voice count at any tick, no voices for no ticks, with every product of ticks and samples stopping at `u64` as written |

## Left out

- Cfg.AcceptedIffSound: stated for graphs whose pcs fit 16 bits; `CfgOverlong.VerdictRightIff` covers all graphs.
- FoldedRuns.OptimizedRiteRefines: asks for guards that folding keeps, which `Fold.FoldKeepsIff` characterises guard by guard; for laws `FoldedRuns.FoldedLawsIff` is exact. Dead-node elimination is not part of the statement, because it removes nothing from a graph the reference cook accepts (`DeadNodes.CheckedUntouched`). Retractions of laws and rites are taken as applied before the cook.
- Pipeline.CompilerExact: asks that the atom table fits 16-bit indices. Predicates the validator refuses can nest deeply enough to exceed it; for all others `Pipeline.NoIndexWraps` shows that it fits.
- KernelRuns.RowsStayOk: assumes that the abstracted parts, residency payloads and the physical solver, keep the machine rows (`Behaves`).
- OptPlanRun.DecodePlan: plan hash and stripped paths are not part of the plan.
- RiteDrive.DriveRite: the rules that pick a rite to start are an arbitrary function.
- RiteVm.RunBurst: Spend wraps at 32 bits as release builds do; the overflow panic of debug builds is not modelled. How the world view derives `wait_ch` is not modelled.
- Partition.PartitionDetermined: posed bounds and the spatial index are arbitrary columns and functions; the geometry of `posed_bounds` is not modelled.
- Emitter.Interner: the pin list and the pin map are one map.
- Admission.PhysSettles: contact geometry, body witnesses, character checks and the solver are deterministic functions of world and proposal that may reject; the motion windows (`admit_motion_windows`, contact-bound WAIT advance) are a function of these, the speculative island and both budgets.
- Admission.AdmitOneSettles: velocity, support and attach-local columns and the re-indexing that relation and pose writes cause are not modelled; the residency payload is an arbitrary function.
- CommitKernel.CommitKernel.Step: the proposals of synchronous proposers are an input; the rewind ring, snapshots, the periodic island snapshot events and the epoch change are not modelled. `debug_assert` and `expect` panics are not modelled.
- The rewind hitscan is an arbitrary function of world and proposal.
- Hashes, UTF-8 validity, path allow-lists and grain decoding are arbitrary functions.
- File and package I/O, installation, catalogs, the audio device, provenance, material graphs other than permutation ids, camera and face tracks, rotation tables and the random generator would add only easy members.
