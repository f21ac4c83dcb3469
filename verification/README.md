# Ontixa: the compiler's core, modelled and proved

Ontixa is an incremental compiler for a small language with inferred ownership. This project models the
parts of it that carry hard promises and proves those promises in Dafny. Run `dafny verify
dfyconfig.toml` to check everything.

The repository changes state step by step nearly everywhere, so its objects are classes here (`Db`,
`FnLowerer`, `Enforcer`, `FactCollector`, `Oracle`, `BodyLowerer`, `Disk`). Their methods are proved
against specification functions, and the promises are proved about those functions.

## What is proved

**Incremental query engine** (`Query`, `FromScratch`, `FromScratchFacts`, `Engine`, `QueryMeaning`,
`StageMeaning`, `DiagnosticsMeaning`). The memo table with `computed_at` and `verified_at` stamps,
dynamically recorded dependencies, early cutoff and stopping at the first changed dependency answers
every demand, after any sequence of edits, with the value of a plain from-scratch evaluation
(`Engine.Session`). The invariant relates every entry to a ghost history of all past source states. The
compiler stages are abstract functions; the evaluators are step functions that demand one key after the
other, later demands depending on earlier answers. Diagnostics collection is included: each reachable
entry once, dependencies first, and equal to collecting from scratch because the diagnostics query
observes every parsed text directly. What the from-scratch values are is told from the stages and texts
alone: `ScopeMeans` (the files of a workspace are the discovered ones, in discovery order), `StagesMean`
(every other query), `CompileMeans`, and `DiagnosticsMean` (exactly the emitted diagnostics, each once,
in the order of first occurrence).

**Ownership inference** (`Infer`, `InferMono`, `InferDeps`, `InferTables`, `InferCollector`, `InferFix`,
`InferRounds`, `InferUses`, `InferRuns`, `InferMarks`, `InferSound`, `InferEscape`, `InferReach`,
`InferMeaning`). The taint walk is monotone in callee contracts; recorded facts can be reused exactly
when the recorded contracts hold; the worklist ends for every call graph with the least solution; the
outer rounds return a solution, the least one when the hypothesis was below it. The source's comment
that contracts only ascend is false from an arbitrary leftover hypothesis, and so is the termination it
argues for (`MutualNeverEnds`). `MutualSwaps` and `SelfStaysEscaped` give the inputs and
`HypothesesAreFinals` shows that an edit can produce them. The rounds end exactly when some iterate of
the equations from the hypothesis solves them (`InferSettling`, `InferUnsettled`), which a rising and a
falling hypothesis ensure (`FallingSettles`); `RunAscendsExact` and `LeastExact` state exactly when the
contracts ascend and when the confirmed result is the least one. Without stamps the rounds always end,
but nothing verifies kept contracts (`UnverifiedSwaps`).

What a contract means is stated against the semantics (`SolutionMeans`). Facts are exactly positions on
the tree (`FactsExact`); a borrowed parameter behaves in every run as if it could not be consumed or
written (`BorrowKept`). Escape is bounded from both sides: a run whose result holds the parameter's
value has it inferred as escape (`EscapeSound`), and escape is inferred only where the value can be
handed out (`EscapeHasReason`). Soundness needs conditions the source does not check, and four functions
show that they are needed: a loop body is walked once (`ShiftedEscapesUnseen`), a parameter is taken to
carry only itself (`OverwrittenEscapesUnseen`), loop elements are taken for fresh copies
(`ElementEscapesUnseen`), and contracts do not say that a callee stores one argument in another
(`LentEscapesUnseen`).

**Ownership enforcement** (`Place`, `Enforce`, `EnforceSound`, `EnforceLoans`, `EnforceLoops`,
`EnforcePlain`, `Enforcer`, `EnforceWays`, `EnforceExact`, `EnforceCalls`, `EnforceAccept`). The
abstract walk over initialization, moves and loans is sound for a concrete left-to-right semantics in
which moves consume: an accepted body never reads a binding without a value and never writes a binding
not declared `mut` twice. The walk visits a loop body once, so loops need one more condition (`steady`:
one more walk, from the state before the loop or from the joined state after it, reports nothing and
leaves that state as definite). It holds by itself in loop-free bodies, `RefillSteady` needs the second
walk, and `LoopBodyWalkedOnce` shows that the condition cannot be dropped.

The walk is not stricter than that either. Told one binding and one way through the body at a time, a
diagnostic is reported exactly when some way misuses the binding (`ReportsExact`), a loan is refused
exactly when the rules of loans are broken (`LoansExact`, and `CallExact` on the arguments of one call),
and together that decides acceptance (`AcceptedExact`). The ways read on behind a `return`, as the walk
does: it reports uses no run reaches (`UnreachableReported`, `ReturningLoopReported`), and without
unreachable code the ways of a run decide (`TidyAcceptedExact`).

**Lowering and execution** (`Hir`, `Semantics`, `Mir`, `Lower`, `LowerShape`, `LowerTarget`, `LowerFit`,
`LowerCorrect`, `LowerSim`, `LowerTheorem`, `LowerGraph`, `LowerSlots`, `FnLowerer`, `Interp`,
`Pipeline`, `Operations`). Running the blocks the lowering pass builds gives the value or trap of the
big-step tree semantics, for short-circuit operators, `if`, `match`, early `return` and both kinds of
`for`; every body is a well-formed graph. Three conditions are needed, and a witness shows it for each:
operands are read when consumed, so a later operand may not write a place an earlier one names
(`LateReadDiffers`); a catch-all arm becomes the default wherever it stands (`DispatchExact`, an
equivalence); a range loop's variable is the counter itself and must not be written by the body
(`WrittenCounterSpins`). `Pipeline` joins both halves: a program accepted by enforcement runs alike on
the tree and on the machine. `Operations` states what the operations both sides share compute.

**Crash-journaled commit** (`Persist`, `PersistFacts`, `PersistHealthy`, `PersistRecover`,
`PersistDisk`, `PersistSession`). Every file-system step may succeed, fail with or without partial
effect, or be the last before a crash; a recovery may crash as well. Over whole runs no original byte is
lost before every file is new, and answers stay true; over sessions of several transactions and
recoveries a pending one is never written past (`SessionSafe`). Three promises of the source do not hold
and are replaced by exact statements. Recovery is documented to finish or roll back: `RecoverExact`
gives its answer for every state, and it is a conflict after a crash between the two renames of a swap
(`MidSwapConflicts`) and after a rollback that failed half way (`InterruptedRollBack`, `ConflictAfter`).
A conflict is documented to touch nothing: it does exactly when swapping could not start
(`RecoverExact`, `ConflictTouches`). The "rolled back" error is false exactly when the probe for the
last backup fails although the backup exists (`UndoneExact`, `RolledBackClaimFails`).

**Source transactions** (`Splice`, `SplicePlan`, `Resolve`, `LexicalScope`, `ResolveMeaning`, `Rename`,
`RenameTokens`). Splicing in descending order is simultaneous substitution if and only if no insertion
shares its start with a replacement of a smaller operation; the overlap check alone lets that case
through and the insertion is lost (`SpliceExact`, `ShadowFails`). Name resolution is lexical scoping
(`ResolvesLexically`). Renaming a local at the sites resolution reports keeps every reference bound to
the same symbol.

## Model

| member | source | states |
|---|---|---|
| `Engine.Session` | crates/ontixa-db/src/db.rs:238-281 | Whole runs: any interleaving of edits (one or several files per revision) and demands answers every question with the from-scratch value on the sources of that moment. |
| `Engine.Db.TopDemand` | crates/ontixa-db/src/db.rs:440-460 | An outside demand returns the from-scratch value, leaves the sources alone, empties the frame stack; if nothing changed since the entry was last verified, no evaluator runs at all. |
| `Engine.Db.Demand` | crates/ontixa-db/src/db.rs:464-470 | A nested demand appends exactly the key to the running frame, brings it up to date and returns the from-scratch value; recursion ends on the query rank. |
| `Engine.Db.EnsureFresh` | crates/ontixa-db/src/db.rs:475-510 | Verifying dependencies in order and stopping at the first changed one always ends in an entry that is fresh and satisfies the history invariant; entries of higher rank are untouched. |
| `Engine.Db.RunEval` | crates/ontixa-db/src/db.rs:514-544 | Re-evaluation installs value, dependencies and diagnostics of the from-scratch evaluation; an equal value keeps its old `computed_at` (early cutoff) without breaking any entry that depends on it. |
| `Engine.Db.Evaluate` | crates/ontixa-db/src/eval.rs:28-79 | A running evaluator records exactly the dependencies of the from-scratch evaluation, in order, and ends with its value and diagnostics, whatever was cached. |
| `Engine.Db.WriteSource` | crates/ontixa-db/src/db.rs:264-281 | Writing a text keeps the invariant for the whole table; an unchanged text keeps its stamp. |
| `Engine.Db.SetSource` | crates/ontixa-db/src/db.rs:238-245 | One edit is one revision; memoized entries other than sources are untouched, and an edit that changes nothing leaves the table calm. |
| `Engine.Db.SetSources` | crates/ontixa-db/src/db.rs:251-260 | Several edits make one revision, later edits of a file winning. |
| `Engine.Db.AddSource` | crates/ontixa-db/src/db.rs:210-233 | Registration appends the text under the next file number, stamped with its own revision. |
| `Engine.Db.CollectDiags` | crates/ontixa-db/src/db.rs:556-579 | Collecting over fresh roots equals collecting over from-scratch evaluations. |
| `Engine.Db.VisitAll` | crates/ontixa-db/src/db.rs:557-572 | The recursive visit with a shared seen-set produces the order and diagnostics of the from-scratch visit. |
| `Engine.Resave` | crates/ontixa-db/src/db.rs:264-281 | Writing back an unchanged text makes the next demand a pure verification pass: nothing is re-evaluated. |
| `Engine.InstallKeeps` | crates/ontixa-db/src/db.rs:514-544 | Replacing a stale entry by the current result keeps the history invariant of every entry, also of those that read the replaced one. |
| `Engine.ConfirmKeeps` | crates/ontixa-db/src/db.rs:475-510 | An entry none of whose dependencies changed after its last verification is still the from-scratch result, even where dependencies cut off. |
| `Engine.WriteKeeps` | crates/ontixa-db/src/db.rs:264-281 | A source write in an otherwise quiet revision keeps the invariant against the extended history. |
| `Query.NextProgress` | crates/ontixa-db/src/eval.rs:28-79 | Every demand of an evaluator is for a key of lower rank, and every answer brings it closer to its end, whatever the answer is. |
| `FromScratchFacts.MakePlan` | crates/ontixa-db/src/eval.rs:28-79 | An evaluation satisfies its equation: its dependencies are its plan on their values and its result is computed from those values alone. |
| `FromScratchFacts.MakeKind` | crates/ontixa-db/src/eval.rs:85-153 | No evaluator ever receives an answer of another kind, so the unreachable arms of the typed accessors are unreachable. |
| `FromScratchFacts.MakeStable` | crates/ontixa-db/src/db.rs:475-510 | If all direct dependencies answer alike on two source states (and, for diagnostics, all directly observed texts are equal), the whole evaluation is equal; this is what verification relies on. |
| `FromScratchFacts.MakeLocal` | crates/ontixa-db/src/eval.rs:28-79 | An evaluation depends only on the texts of the files it can reach. |
| `FromScratchFacts.DiagnosticsObserve` | crates/ontixa-db/src/eval.rs:351-391 | The diagnostics query demands the parse of every file its result can depend on, so a changed text forces recollection even where values cut off. |
| `FromScratchFacts.GatherOrder` | crates/ontixa-db/src/db.rs:556-579 | Collection visits exactly the reachable entries, each once, dependencies first. |
| `QueryMeaning.DiscoveryOnce` | crates/ontixa-db/src/eval.rs:194-214 | Breadth-first discovery over module uses, told as a list: the root first, then each module a listed file uses that is not listed yet, in order of use. There is one such list at most. |
| `QueryMeaning.DiscoveredReachable` | crates/ontixa-db/src/eval.rs:194-214 | The discovered files are exactly those reachable from the root by uses of registered modules. |
| `QueryMeaning.CutoffExact` | crates/ontixa-db/src/query.rs:153-168 | Early cutoff happens exactly for equal answers that are neither a syntax tree nor a compile bundle. |
| `StageMeaning.ScopeMeans` | crates/ontixa-db/src/eval.rs:184-235 | The scope query answers with the resolution of the syntax of exactly the discovered files, in discovery order. |
| `StageMeaning.StagesMean` | crates/ontixa-db/src/eval.rs:28-79 | Every query but two answers with its stage applied to the texts and to what the other stages make of them, and emits the diagnostics of that stage; told without the step functions of the evaluators. |
| `StageMeaning.CompileMeans` | crates/ontixa-db/src/eval.rs:395-432 | The compile bundle is made from the answers of exactly the listed queries, in that order. |
| `DiagnosticsMeaning.DiagnosticsMean` | crates/ontixa-db/src/eval.rs:351-391 | A diagnostics demand answers with exactly the located diagnostics emitted by the queries reachable from its demands, each once, in the order of first occurrence. |
| `DiagnosticsMeaning.VisitExact` | crates/ontixa-db/src/db.rs:557-572 | Collection visits exactly what was visited before and what the listed queries reach. |
| `DiagnosticsMeaning.VisitDepthFirst` | crates/ontixa-db/src/db.rs:557-572 | Everything reachable from an earlier listed query is collected before anything only later ones reach. |
| `InferMono.WalkMono` | crates/ontixa-memory/src/analyze.rs:733-959 | The taint walk is monotone in callee contracts and in the context, with the carrier sets as state, for well-typed bodies. |
| `InferMono.InferredMono` | crates/ontixa-memory/src/analyze.rs:595-612 | The inferred contract is monotone over copy < borrow < borrow_mut < move < escape although `read` can vanish when `moved` appears and an unused parameter classifies as move. |
| `InferMono.InferredTyped` | crates/ontixa-memory/src/analyze.rs:595-612 | A copy parameter is inferred copy and only such a parameter is, under any view. |
| `InferDeps.WalkDeps` | crates/ontixa-memory/src/analyze.rs:674-682 | A walk depends only on the contracts it records, and it records only contracts of called functions. |
| `InferDeps.CollectDeps` | crates/ontixa-memory/src/analyze.rs:618-650 | Facts are the same under every view that gives the recorded callees the recorded contracts; every recorded callee is a syntactic callee. |
| `InferDeps.CalleesOf` | crates/ontixa-memory/src/analyze.rs:489-555 | The explicit-stack traversal returns exactly the functions called anywhere in the body. |
| `InferCollector.CollectFacts` | crates/ontixa-memory/src/analyze.rs:618-650 | The stateful collector returns the facts and the recorded contracts of the specification walk. |
| `InferCollector.FactCollector.Eval` | crates/ontixa-memory/src/analyze.rs:733-925 | One step of the collector changes facts, carriers and recorded contracts exactly as the specification walk does. |
| `InferCollector.FactCollector.ContractOf` | crates/ontixa-memory/src/analyze.rs:674-682 | Looking up a callee records the contract that was seen. |
| `InferTables.NextMono` | crates/ontixa-memory/src/analyze.rs:350-435 | The right-hand sides of the contract equations are monotone in the table, under any hypothesis. |
| `InferTables.LeastUnique` | crates/ontixa-memory/src/analyze.rs:350-435 | There is one least solution at most, so no processing order can produce another result. |
| `InferFix.CallersOf` | crates/ontixa-memory/src/analyze.rs:350-363 | The reverse edges are exactly the call edges. |
| `InferFix.TakeMemo` | crates/ontixa-memory/src/analyze.rs:459-477 | Reuse happens only with matching stamps and matching recorded contracts. |
| `InferFix.FactsOf` | crates/ontixa-memory/src/analyze.rs:389-421 | Reused or collected, the facts are those of a fresh collection, and the memo stays sound. |
| `InferFix.ReuseIsCollect` | crates/ontixa-memory/src/analyze.rs:459-477 | A memo entry whose recorded contracts hold under the view equals a fresh collection under it. |
| `InferFix.Enqueue` | crates/ontixa-memory/src/analyze.rs:425-433 | Every caller of a changed function is on the worklist afterwards; none is queued twice. |
| `InferFix.Settle` | crates/ontixa-memory/src/analyze.rs:385-435 | One worklist step keeps the invariant (every function off the queue satisfies its equation, the table stays below every closed table) and either lowers the remaining headroom or changes nothing. |
| `InferFix.FixpointRound` | crates/ontixa-memory/src/analyze.rs:315-455 | A round ends for every hypothesis and any call graph, and its table is the least solution of the equations read through that hypothesis; the drift set is exactly the entries whose recorded contracts differ from the finals. |
| `InferRounds.Oracle.InferContracts` | crates/ontixa-memory/src/analyze.rs:216-262 | For any kept contracts, facts and stamps: once some table along the way solves the true equations, the loop ends within as many more rounds as there are stale facts, and a verified result solves them. From an empty or rising hypothesis, and always without stamps, it ends within a stated bound, from a falling one within the distance to the bottom. The result is the least solution from any hypothesis below every closed table; from a rising one it is least if and only if every closed table is above the hypothesis. |
| `InferRounds.InferSettling` | crates/ontixa-memory/src/analyze.rs:232-247 | Exact termination, one half: if the n-th iterate of the equations from a hypothesis for every function solves them, n + 1 rounds plus one per stale fact give a solution, whatever facts and stamps are kept. |
| `InferRounds.InferUnsettled` | crates/ontixa-memory/src/analyze.rs:232-247 | The other half: if no iterate solves the equations, no number of rounds gives a result. |
| `InferRounds.EndsExactly` | crates/ontixa-memory/src/analyze.rs:232-247 | Rounds that satisfy what the loop promises end exactly with the iterates of their hypothesis: a result means that an iterate within the budget solves the equations, and such an iterate bounds the rounds. |
| `InferRounds.RoundsIterate` | crates/ontixa-memory/src/analyze.rs:232-247 | Rounds from a hypothesis for every function are the iterates of the equations, whatever facts they reuse. |
| `InferRounds.FallingSettles` | crates/ontixa-memory/src/analyze.rs:232-247 | The dual of ascending: from a hypothesis the equations only weaken, some iterate within the distance to the bottom table solves them. |
| `InferRounds.LeastExact` | crates/ontixa-memory/src/analyze.rs:232-247 | The equivalence behind it: a solution above the hypothesis and below every closed table above it is least exactly when no closed table fails to be above the hypothesis. |
| `InferRounds.BelowLeast` | crates/ontixa-memory/src/analyze.rs:232-247 | From a typed hypothesis below every closed table, rising or not, a solution the rounds reach is the least one. |
| `InferRounds.AscendsExact` | crates/ontixa-memory/src/analyze.rs:150-156 | One round ascends if and only if the equations only strengthen its (total, typed) hypothesis. |
| `InferRounds.RunAscendsExact` | crates/ontixa-memory/src/analyze.rs:150-156 | Over a whole run of rounds the contracts only ascend if and only if the first hypothesis is rising. |
| `InferRounds.Oracle.RunRound` | crates/ontixa-memory/src/analyze.rs:315-455 | One outer round under any hypothesis: its table is the least solution read through the hypothesis; with stamps no drift means a solution of the true equations; from an empty, rising or solved hypothesis, and without stamps, drift means progress. |
| `InferRounds.NoDriftSolves` | crates/ontixa-memory/src/analyze.rs:437-454 | Without drift, a table computed through any hypothesis solves the equations without the hypothesis. |
| `InferRounds.RoundRises` | crates/ontixa-memory/src/analyze.rs:232-247 | A round under a hypothesis H with H below F(H) ascends, gives such a hypothesis again, and stays below every closed table above H. |
| `InferRounds.ForwardInfers` | crates/ontixa-memory/src/analyze.rs:733-925 | A function that only forwards its parameter takes over the callee's contract. |
| `InferRounds.MutualSwaps` | crates/ontixa-memory/src/analyze.rs:232-247 | Counterexample to "contracts only ascend": two mutual forwarders started at (escape, borrow) swap in every one of n rounds, and no table along the way solves the equations. |
| `InferRounds.MutualDrifts` | crates/ontixa-memory/src/analyze.rs:437-454 | Each of these rounds has a non-empty drift set, whatever facts are kept. |
| `InferRounds.MutualNeverEnds` | crates/ontixa-memory/src/analyze.rs:232-247 | The pass started there is still running after any number of rounds. |
| `InferRounds.InferUnverified` | crates/ontixa-memory/src/analyze.rs:406-416 | Without stamps no fact is kept, so nothing verifies the hypothesis: one round applies the equations once and its table is the result. |
| `InferRounds.UnverifiedSwaps` | crates/ontixa-memory/src/analyze.rs:233-240 | Counterexample to "no drift means the true fixpoint": without stamps, two mutual forwarders started at (escape, borrow) are given (borrow, escape), which solves nothing. |
| `InferRounds.HypothesesAreFinals` | crates/ontixa-memory/src/analyze.rs:264-266 | Both bad hypotheses are the final contracts, and least solutions, of an earlier version of the program with the same functions and signatures. |
| `InferRounds.SelfStaysEscaped` | crates/ontixa-memory/src/analyze.rs:232-247 | Counterexample: a self-forwarder started at escape confirms escape although borrow also solves the equations, so the result is not the least solution. |
| `InferMeaning.EscapeSound` | crates/ontixa-memory/src/analyze.rs:618-650 | While callees keep their contracts, a run whose result, returned early or not, holds the value of a non-copy parameter has that parameter inferred as escape; for bodies whose loops add nothing in a second pass, whose loop elements are of a copy type or carry nothing, and which overwrite a parameter only with its own value. |
| `InferMeaning.SolutionMeans` | crates/ontixa-memory/src/analyze.rs:216-262 | In a table that solves the contract equations every contract means what it says: a result that holds the parameter is an escape, and a borrowed parameter is neither consumed nor, if borrowed for reading, written. |
| `InferEscape.FlowSound` | crates/ontixa-memory/src/analyze.rs:733-959 | The step behind it: from a store the carrier sets account for, an expression's value carries a mark only if the walk says so, a returned mark escapes, and the store is accounted for again. |
| `InferReach.EscapeHasReason` | crates/ontixa-memory/src/analyze.rs:947-954 | The upper half: take any set of bindings that holds the parameter and is closed under stores, told on the tree; a parameter inferred as escape is handed out from that set by a `return` or as the value of the body. |
| `InferUses.FactsExact` | crates/ontixa-memory/src/analyze.rs:686-711 | A parameter counts as moved, read or mutated exactly when it occurs in such a position of the body, told on the tree. |
| `InferRuns.ContractExact` | crates/ontixa-memory/src/analyze.rs:595-612 | The contract of a non-copy parameter that does not escape is decided by those positions, move before borrow_mut before borrow; an unused one is moved. |
| `InferRuns.BorrowKept` | crates/ontixa-memory/src/analyze.rs:595-612 | A parameter inferred as borrow or borrow_mut behaves in every run as if it could not be consumed, one inferred as borrow as if it could not be written either; at a normal end it still holds a value, in the latter case the one it started with. |
| `InferMeaning.ReturnedEscapes` | crates/ontixa-memory/src/analyze.rs:947-954 | A function that returns its parameter early is inferred as escape under every view. |
| `InferMeaning.ReturnedHolds` | crates/ontixa-memory/src/analyze.rs:947-954 | For this function the hypotheses of soundness hold and the result does hold the parameter. |
| `InferMeaning.ShiftedEscapesUnseen` | crates/ontixa-memory/src/analyze.rs:876-883 | Counterexample to "may flow into the return value": a loop body that is walked once hands the parameter on in its second pass; inferred as move. |
| `InferMeaning.OverwrittenEscapesUnseen` | crates/ontixa-memory/src/analyze.rs:736-746 | Counterexample: a parameter overwritten with another one is taken to carry only itself, so the other is inferred as move though it is returned. |
| `InferMeaning.ElementEscapesUnseen` | crates/ontixa-memory/src/analyze.rs:876-883 | An element of an array parameter is returned and the parameter is inferred as borrow: the source takes loop elements for fresh copies, so they carry nothing. |
| `InferMeaning.LentEscapesUnseen` | crates/ontixa-memory/src/analyze.rs:797-826 | Counterexample: a callee may store one argument in another it writes through; contracts do not say so, and the stored one is inferred as move though it is returned. |
| `Place.OverlapsExact` | crates/ontixa-memory/src/place.rs:36-39 | Two places overlap exactly when some path extends both. |
| `Place.FindPlace` | crates/ontixa-memory/src/place.rs:57-78 | The cursor loop finds the place an expression denotes, projections outermost first, or none. |
| `Enforce.Check` | crates/ontixa-memory/src/analyze.rs:1084-1309 | Evaluating any expression gives back the loan stack it started with, keeps earlier diagnostics, and forgets no binding. |
| `EnforceSound.CompletesSound` | crates/ontixa-memory/src/analyze.rs:1315-1361 | If an expression is predicted not to complete, no run of it ends normally, so dropping its state at a join loses no path. |
| `EnforceExact.CheckTells` | crates/ontixa-memory/src/analyze.rs:1084-1309 | For a binding in scope and any conditions it may start in: the walk reports that it is read uninitialized, read after a move or written without `mut` exactly when some way through the expression does so, and its state afterwards sums up exactly the conditions the ways end in. |
| `EnforceAccept.ReportsExact` | crates/ontixa-memory/src/analyze.rs:1084-1446 | For whole bodies: a diagnostic about a binding is reported exactly when some way through the body, read past every `return`, misuses the binding so. |
| `EnforceAccept.AcceptedExact` | crates/ontixa-memory/src/analyze.rs:1084-1446 | A body is accepted if and only if no way through it misuses a binding and no part of it breaks the rules of loans. |
| `EnforceAccept.TidyAcceptedExact` | crates/ontixa-memory/src/analyze.rs:1084-1446 | Without unreachable code and with loop bodies that can end, the ways a run can take decide: ways stop at a `return`. |
| `EnforceAccept.WaysApart` | crates/ontixa-memory/src/analyze.rs:1084-1309 | Conditions are followed one by one: a set of them is misused, or leads to an end, exactly when one of its members is or does. |
| `EnforceAccept.CompletesExact` | crates/ontixa-memory/src/analyze.rs:1315-1361 | An expression is predicted to complete if and only if some way through it reaches its end. |
| `EnforceAccept.UnreachableReported` | crates/ontixa-memory/src/analyze.rs:1391-1397 | A use behind a `return` is reported although no way of a run misuses anything. |
| `EnforceAccept.ReturningLoopReported` | crates/ontixa-memory/src/analyze.rs:1239-1262 | A move in a loop body that returns is reported at the next use although no run takes both. |
| `EnforceCalls.LoansExact` | crates/ontixa-memory/src/analyze.rs:1084-1309 | The walk refuses a loan or a move out of a loaned place exactly when the expression breaks the rules of loans, told on the tree, under the loans held around it. |
| `EnforceCalls.CallExact` | crates/ontixa-memory/src/analyze.rs:1127-1175 | A call on places gets a loan diagnostic if and only if a place the callee writes through is not `mut`, or some argument is borrowed and a later one overlaps it while either borrow is mutable or the later one moves; told on the argument list. |
| `EnforceAccept.SharedBorrowsAgree` | crates/ontixa-memory/src/analyze.rs:1455-1458 | Two shared borrows of one place get no diagnostics. |
| `EnforceCalls.RootMoveTakes` | crates/ontixa-memory/src/analyze.rs:1092-1105 | A place moved out of its root by moves clashes with every loan of the same root binding. |
| `EnforceCalls.FieldMoveTakesWhole` | crates/ontixa-memory/src/analyze.rs:1084-1105 | So moving one field is refused while a disjoint field is borrowed: evaluating the base counts as a move of the whole. |
| `EnforceSound.MergeCovers` | crates/ontixa-memory/src/analyze.rs:1516-1547 | The join of two states covers every store that either side covers. |
| `EnforceSound.WriteSafe` | crates/ontixa-memory/src/analyze.rs:1399-1445 | An accepted assignment never misuses its binding at run time and the new abstract state covers the new store. |
| `EnforceSound.CheckSafe` | crates/ontixa-memory/src/analyze.rs:1084-1309 | From a covered store an accepted expression never reads an uninitialized or moved binding, never writes a non-`mut` binding twice, and at a normal end the abstract state covers the store again. |
| `EnforceSound.BodyNeverMisuses` | crates/ontixa-memory/src/analyze.rs:1084-1397 | A body without diagnostics and with steady loops is safe for all arguments and all callees; a loop is steady when a walk of its body, from the state before it or from the joined state after it, reports nothing and leaves that state as definite. |
| `EnforceLoans.ArgsCompatible` | crates/ontixa-memory/src/analyze.rs:1127-1175 | Loans stay pairwise compatible at every point of a call. |
| `EnforceLoans.CallExclusive` | crates/ontixa-memory/src/analyze.rs:1455-1505 | In an accepted call no borrowed or moved place argument shares storage with a place borrowed before it, if either borrow is mutable or the later argument moves. (The order move first, use later is MovedThenUsed.) |
| `EnforceLoans.LoanExcludes` | crates/ontixa-memory/src/analyze.rs:1455-1505 | While a loan is live, every accepted later argument of the call is disjoint from it or compatible with it. |
| `EnforceLoans.GoneStays` | crates/ontixa-memory/src/analyze.rs:1029-1082 | A moved binding stays moved until it is written again, through every join. |
| `EnforceLoans.MovedThenUsed` | crates/ontixa-memory/src/analyze.rs:1029-1082 | In an accepted call an argument may only use a root moved by an earlier argument if an argument in between wrote it. |
| `EnforceLoops.LoopFreeSteady` | crates/ontixa-memory/src/analyze.rs:1084-1309 | Loop-free expressions never leave a loop unsteady. |
| `EnforceLoops.LoopFreeAccepted` | crates/ontixa-memory/src/analyze.rs:1029-1446 | An accepted loop-free body is safe: no run reads a binding without a value, and a binding not declared `mut` is written at most once, its initializer included. |
| `EnforceLoops.LoopBodyWalkedOnce` | crates/ontixa-memory/src/analyze.rs:1239-1258 | Why loops need more: the walk accepts a loop whose second pass reads a binding the first one moved. |
| `EnforceLoops.RefillSteady` | crates/ontixa-memory/src/analyze.rs:1239-1258 | A loop that refills and moves a binding in every pass is steady because of the second walk, although no pass leaves the binding as it found it. |
| `EnforcePlain.PlainAgrees` | crates/ontixa-memory/src/analyze.rs:1029-1082 | A consuming run that misuses nothing and a plain by-value run end alike, value for value. |
| `EnforcePlain.AcceptedRunsPlain` | crates/ontixa-memory/src/analyze.rs:1029-1446 | For accepted bodies the plain by-value run gives the same result and never touches a missing value. |
| `EnforcerPass.EnforceBody` | crates/ontixa-memory/src/analyze.rs:267-302 | The stateful pass reports exactly the diagnostics of the specification walk. |
| `EnforcerPass.MergeStates` | crates/ontixa-memory/src/analyze.rs:1516-1529 | Joining entry by entry yields the specified join. |
| `EnforcerPass.Enforcer.EvalExpr` | crates/ontixa-memory/src/analyze.rs:1084-1309 | One visit changes states, loans and diagnostics exactly as the specification walk, and gives the loan stack back. |
| `EnforcerPass.Enforcer.Use` | crates/ontixa-memory/src/analyze.rs:1029-1082 | A use reports and moves as specified. |
| `EnforcerPass.Enforcer.Assign` | crates/ontixa-memory/src/analyze.rs:1399-1445 | An assignment reports and initializes as specified. |
| `EnforcerPass.Enforcer.TakeLoan` | crates/ontixa-memory/src/analyze.rs:1455-1485 | A loan is granted or its conflict reported as specified. |
| `EnforcerPass.Enforcer.WalkArms` | crates/ontixa-memory/src/analyze.rs:1264-1307 | Every arm starts from the same state and only arms that can complete are joined. |
| `LowerTheorem.LowerFnCorrect` | crates/ontixa-mir/src/lower.rs:51-101 | The blocks built for a body end in exactly the value or trap the left-to-right by-value semantics gives the tree, for all arguments and callees. |
| `LowerTheorem.ProgramCorrect` | crates/ontixa-interpreter/src/interp.rs:138-214 | At every call-stack bound every call of every function returns the same value or traps alike on the tree and on the blocks. |
| `LowerSim.SimExpr` | crates/ontixa-mir/src/lower.rs:343-538 | Running the blocks emitted for an expression simulates its evaluation: normal end, early return and trap, with all bindings agreeing. |
| `LowerSim.SimLogic` | crates/ontixa-mir/src/lower.rs:305-339 | Short-circuit blocks evaluate the right operand exactly when the semantics does. |
| `LowerSim.SimMatch` | crates/ontixa-mir/src/lower.rs:554-630 | A lowered match runs the arm the semantics picks, payload bound. |
| `LowerSim.SimCount` | crates/ontixa-mir/src/lower.rs:647-765 | The loop blocks run the body once for each integer from the counter to the fixed bound. |
| `LowerSim.SimElems` | crates/ontixa-mir/src/lower.rs:647-765 | The array loop runs the body once per element of the array value read at entry. |
| `LowerTheorem.RangePasses` | crates/ontixa-mir/src/lower.rs:647-765 | A range loop that ends normally ran its body max(0, hi - lo) times, once per integer in order, bounds fixed at entry. |
| `LowerTheorem.PassesEnd` | crates/ontixa-mir/src/lower.rs:647-765 | Conversely, that many normal passes make the loop end normally, with the loop variable out of scope. |
| `LowerFit.DispatchExact` | crates/ontixa-mir/src/lower.rs:567-575 | The emitted dispatch picks the first matching arm for every discriminant if and only if no variant arm that is not yet listed follows a catch-all. |
| `Interp.LateReadDiffers` | crates/ontixa-mir/src/lower.rs:343-380 | Why operand order needs a condition: for `x + { x = 2; x }` the blocks return 4, the by-value semantics does not, for every x other than 2. |
| `LowerGraph.LowerFnWellFormed` | crates/ontixa-mir/src/lower.rs:69-100 | Every lowered body is a well-formed graph: block ids are positions, no placeholder survives, every jump target and every local exists, parameters fill slots 0..n in order; dead code and returning branches included. |
| `LowerSlots.OneSlotEach` | crates/ontixa-mir/src/lower.rs:124-145 | If every loop variable is declared once, every binding gets exactly one slot. |
| `Mir.DoneUnique` | crates/ontixa-interpreter/src/interp.rs:138-214 | A configuration runs to one result at most. |
| `Interp.RunBlock` | crates/ontixa-interpreter/src/interp.rs:152-166 | The statement loop of a block is the machine's steps up to the terminator or the trap. |
| `Interp.CallBody` | crates/ontixa-interpreter/src/interp.rs:138-214 | The walker's answer is the machine's result, and every run that ends within the block budget is answered. |
| `Operations.AddGroup` | crates/ontixa-interpreter/src/interp.rs:495-501 | Addition is commutative and associative, subtraction undoes it, negation gives the inverse. |
| `Operations.MulRepeats` | crates/ontixa-interpreter/src/interp.rs:502-503 | Multiplication is repeated addition. |
| `Operations.DivExact` | crates/ontixa-interpreter/src/interp.rs:504-517 | Quotient and remainder are exactly the pair that rounds toward zero, the remainder smaller than the divisor and with the sign of the dividend; both trap exactly for a zero divisor. |
| `Operations.OrderTotal` | crates/ontixa-interpreter/src/interp.rs:518-535 | The comparisons of numbers are one strict total order, its reflexive form and their converses. |
| `Operations.EqualityExact` | crates/ontixa-interpreter/src/interp.rs:518-546 | Equality holds exactly between equal scalars of one kind; the other binary operations take numbers only. |
| `Operations.ArrayHolds` | crates/ontixa-interpreter/src/interp.rs:302-335 | Indexing an array literal gives each operand back in order and traps exactly outside; its length counts the operands. |
| `Operations.ArraysOnly` | crates/ontixa-interpreter/src/interp.rs:294-327 | Only arrays have a length, elements and slices, and only numbers index them. |
| `Operations.SliceHolds` | crates/ontixa-interpreter/src/interp.rs:336-380 | A slice holds exactly the elements between its bounds, a missing bound is the end on that side, and it traps exactly for bounds out of order or range. |
| `Operations.AggregatesHold` | crates/ontixa-interpreter/src/interp.rs:381-409 | A struct literal has exactly its slots as fields, a variant literal keeps its operands as payload. |
| `Interp.WrittenCounterSpins` | crates/ontixa-mir/src/lower.rs:681-686 | Why a range variable must not be written: for `for i in 0..1 { i = -1 }` the semantics ends after one pass and the blocks never end. |
| `Interp.WalkerAgrees` | crates/ontixa-interpreter/src/interp.rs:138-214 | If the walker ends on a lowered body, it ends with the meaning of the tree. |
| `FnLowererPass.LowerFunction` | crates/ontixa-mir/src/lower.rs:51-101 | The mutating pass returns the specified body. |
| `FnLowererPass.FnLowerer.constructor` | crates/ontixa-mir/src/lower.rs:51-75 | A new pass has one open block and the parameters in the first slots. |
| `FnLowererPass.FnLowerer.Eval` | crates/ontixa-mir/src/lower.rs:343-538 | Lowering one expression changes blocks, locals, current block and open flag exactly as specified. |
| `FnLowererPass.FnLowerer.LocalOf` | crates/ontixa-mir/src/lower.rs:135-145 | The slot map hands out one slot per binding, allocated on first use. |
| `FnLowererPass.FnLowerer.CloseBlock` | crates/ontixa-mir/src/lower.rs:171-175 | Closing after a return first opens an unreachable block. |
| `FnLowererPass.FnLowerer.ShortCircuit` | crates/ontixa-mir/src/lower.rs:305-339 | Emits the specified blocks for the two short-circuit operators. |
| `FnLowererPass.FnLowerer.MatchExpr` | crates/ontixa-mir/src/lower.rs:554-630 | Emits the specified dispatch and arm blocks. |
| `FnLowererPass.FnLowerer.RangeLoop` | crates/ontixa-mir/src/lower.rs:647-765 | Emits the specified counter loop, the variable being the counter. |
| `FnLowererPass.FnLowerer.EachLoop` | crates/ontixa-mir/src/lower.rs:647-765 | Emits the specified element loop. |
| `Pipeline.AcceptedRootSafe` | crates/ontixa-memory/src/analyze.rs:216-308 | In an accepted program no call misuses a binding. |
| `Pipeline.AcceptedProgramCorrect` | crates/ontixa-interpreter/src/interp.rs:138-214 | From enforcement to machine: in a program the enforcement walk accepts, every call gives the same result in the by-value semantics and on the lowered blocks. |
| `PersistFacts.RunsSafe` | crates/ontixa-cli/src/persist.rs:283-711 | Whole runs: one transaction and any number of recoveries, each under any schedule of failures and a crash anywhere, never lose a byte: until every file is new, each original is at its path or its backup. A Committed or RolledBack answer is true at every later point, and original files that really change stay original. |
| `PersistSession.PendingRefuses` | crates/ontixa-cli/src/persist.rs:290-302 | A transaction that finds a journal is refused and changes neither a file nor the journal. |
| `PersistSession.SessionSafe` | crates/ontixa-cli/src/persist.rs:276-302 | Any sequence of transactions and recoveries under any faults: nothing of the transaction begun last is lost; while its journal is pending every other transaction leaves the whole session as it is; an answer that all files are new stays true until the next one begins. |
| `PersistSession.BeginClear` | crates/ontixa-cli/src/persist.rs:304-357 | Without a pending journal a transaction begins exactly from the validated files, or is refused and changes no file. |
| `PersistSession.RepairStep` | crates/ontixa-cli/src/persist.rs:618-711 | A recovery keeps the session intact, and its answers "finished" and "rolled back" are true of the files. |
| `PersistSession.OthersStay` | crates/ontixa-cli/src/persist.rs:283-565 | Files a transaction does not name are never touched by it. |
| `PersistFacts.PersistTruthful` | crates/ontixa-cli/src/persist.rs:283-565 | One transaction under any schedule: Prepare errors write nothing, staging errors leave all originals, Ok and the cleanup error mean all files are new, an incomplete rollback keeps the journal with nothing lost. |
| `PersistFacts.RecoverTruthful` | crates/ontixa-cli/src/persist.rs:618-711 | One recovery under any schedule: Committed implies every file is new, RolledBack implies every file is original, a finished commit stays finished, an untouched one untouched, nothing is lost. |
| `PersistFacts.RollBackExact` | crates/ontixa-cli/src/persist.rs:505-538 | A rollback that reports itself complete restored every file exactly when the probe for the last backup did not fail on an existing backup. |
| `PersistFacts.UndoneExact` | crates/ontixa-cli/src/persist.rs:505-538 | The transaction's "rolled back" error is true if and only if the probe at the point where this run started to roll back did not fail on an existing backup, and if and only if no backup is left. |
| `PersistFacts.RollBackPointIs` | crates/ontixa-cli/src/persist.rs:471-538 | A transaction that ends in a rollback rolled back from the world and file computed from its inputs. |
| `PersistFacts.IncompleteRollBack` | crates/ontixa-cli/src/persist.rs:529-538 | A rollback that asks for recovery never brought every file back. |
| `PersistFacts.RolledBackClaimFails` | crates/ontixa-cli/src/persist.rs:519-530 | A schedule on which the "rolled back" error is returned while the file is missing at its path. |
| `PersistFacts.MidSwapConflicts` | crates/ontixa-cli/src/persist.rs:635-651 | A file missing at its path, as after a crash between the two renames of a swap, is never completed: recovery answers Conflict or nothing, and changes nothing, under any faults. |
| `PersistFacts.ClassifyExact` | crates/ontixa-cli/src/persist.rs:635-651 | Recovery sorts files into pending and swapped exactly by their bytes. |
| `PersistHealthy.PersistCompletes` | crates/ontixa-cli/src/persist.rs:283-565 | Without faults a transaction on matching files succeeds and leaves no artifact behind. |
| `PersistRecover.RecoverExact` | crates/ontixa-cli/src/persist.rs:604-711 | On a working disk the answer of recovery is computed exactly for any files and any journal; what it then leaves is stated for every answer, and a conflict changed files if and only if swapping could start. |
| `PersistRecover.RecoverResolves` | crates/ontixa-cli/src/persist.rs:606-609 | "Finishes or rolls back" holds if and only if every file holds old or new bytes and either all are old or every old one still has its staged bytes. |
| `PersistRecover.ConflictTouchesNothing` | crates/ontixa-cli/src/persist.rs:606-609 | Under any faults a conflict touches nothing unless the first file that is not new has its staged bytes after the commit point. |
| `PersistRecover.ConflictTouches` | crates/ontixa-cli/src/persist.rs:670-690 | Counterexample to "reports a conflict without touching anything": a full run that asks for recovery, after which recovery swaps one file and then reports a conflict. |
| `PersistRecover.RecoverTwice` | crates/ontixa-cli/src/persist.rs:606-609 | Recovery is idempotent on a working disk: a second one changes nothing and repeats a conflict. |
| `PersistRecover.BetweenFiles` | crates/ontixa-cli/src/persist.rs:618-711 | A commit that died between two files is finished, or rolled back if no file was swapped yet. |
| `PersistRecover.ConflictAfter` | crates/ontixa-cli/src/persist.rs:283-565 | Which outcomes of a transaction end in a conflict: with a readable journal only an untrue "rolled back", a request for recovery that left a file missing or an old one unstaged (exactly then), and deaths. |
| `PersistRecover.InterruptedRollBack` | crates/ontixa-cli/src/persist.rs:530-537 | A full run that ends with "rollback incomplete, run recovery", loses nothing, has every file at its path, and that recovery answers with a conflict. |
| `PersistDisk.Disk.Commit` | crates/ontixa-cli/src/persist.rs:283-565 | The mutating transaction does to the disk exactly what its model says, fault by fault. |
| `PersistDisk.Disk.Resolve` | crates/ontixa-cli/src/persist.rs:618-711 | The same for recovery. |
| `PersistDisk.Disk.SwapFiles` | crates/ontixa-cli/src/persist.rs:471-541 | The swap loop with its rollback. |
| `PersistDisk.Disk.RollBackFrom` | crates/ontixa-cli/src/persist.rs:505-538 | The rollback loops in their order: restore swapped files, drop stages, probe and restore the failed one. |
| `PersistDisk.Disk.ClassifyFiles` | crates/ontixa-cli/src/persist.rs:635-651 | The classification loop. |
| `Splice.SpliceExact` | crates/ontixa-db/src/patch.rs:449-463 | For edits that pass the overlap check, splicing in place equals simultaneous substitution for all texts and replacements if and only if no insertion shares its start with a replacement of a smaller operation. |
| `Splice.SpliceSubstitutes` | crates/ontixa-db/src/rename.rs:493-509 | Under that condition splicing from the right is substituting everything at once in the original, same-point insertions in operation order. |
| `Splice.ChainExact` | crates/ontixa-db/src/patch.rs:1579-1599 | For ordered edits the overlap check plus that condition is exactly: each edit ends before the next starts. |
| `Splice.ShadowFails` | crates/ontixa-db/src/patch.rs:1579-1599 | A shadowed insertion passes the check and is lost. |
| `SplicePlan.CheckOverlap` | crates/ontixa-db/src/patch.rs:1579-1599 | The nested loops accept exactly the edit lists without clashes within a file. |
| `SplicePlan.SortDown` | crates/ontixa-db/src/patch.rs:449-455 | The splice order is a sorted permutation: descending start, then descending operation. |
| `SplicePlan.SortByStart` | crates/ontixa-db/src/rename.rs:493-509 | The stable per-file sort keeps a list already in splice order. |
| `SplicePlan.SpliceFile` | crates/ontixa-db/src/rename.rs:493-509 | The in-place loop applies the edits from the right. |
| `SplicePlan.PlanPatch` | crates/ontixa-db/src/patch.rs:440-463 | A plan is refused exactly for a clash; otherwise it holds exactly the touched files, each with all its edits substituted at once. |
| `RenameTokens.RenameKeepsBindings` | crates/ontixa-db/src/patch.rs:704-752 | In a body without unresolved names, rewriting the sites of a local to a name no local has resolves to the same arena with every occurrence bound to the same symbol, under shadowing, redeclaration, loop variables and match arms. |
| `RenameTokens.TokensSingle` | crates/ontixa-hir/src/lower.rs:166-197 | Resolution never binds one name token to two symbols. |
| `Rename.RenameWhenSingle` | crates/ontixa-db/src/rename.rs:824-849 | The renaming theorem stated on tokens that each stand for one symbol. |
| `Rename.LookupRel` | crates/ontixa-hir/src/lower.rs:166-173 | A resolved lookup finds the same symbol after the renaming although old bindings of the old name may come to light. |
| `Rename.DeclareRel` | crates/ontixa-hir/src/lower.rs:183-197 | Declaring keeps the two scope stacks related. |
| `Rename.LocalBindingSites` | crates/ontixa-db/src/rename.rs:824-849 | The passes over the arenas report the declaration, then the references, then the assignment targets of the symbol, in arena order; together they are exactly its sites. |
| `Rename.TakenNameCaptures` | crates/ontixa-db/src/patch.rs:722-737 | Why the new name must be free: renaming a parameter to a local's name makes the local capture the reference. |
| `ResolveMeaning.ResolvesLexically` | crates/ontixa-hir/src/lower.rs:62-111 | Resolution is lexical scoping, told on the surface tree without scopes and symbols: every reference and assignment target stands for the latest visible declaration of its name (blocks, arms and loops do not leak, an initializer and an iterable precede their binding), the symbols are the declarations in the order of the text, and errors are counted exactly for the names without a visible declaration. |
| `ResolveMeaning.StmtMeans` | crates/ontixa-hir/src/lower.rs:364-410 | One statement: a binding is visible from the next statement on, an assignment to an invisible name is dropped with an error. |
| `ResolveMeaning.InitializerSeesOuter` | crates/ontixa-hir/src/lower.rs:373-377 | In `fn f(x) { let x = x; }` the initializer is the parameter, not the new binding. |
| `Resolve.ResolveBody` | crates/ontixa-hir/src/lower.rs:62-111 | The mutating resolver fills the arenas exactly as specified. |
| `Resolve.BodyLowerer.Find` | crates/ontixa-hir/src/lower.rs:166-173 | The walk from the innermost scope finds the innermost binding. |
| `Resolve.BodyLowerer.DeclareLocal` | crates/ontixa-hir/src/lower.rs:183-197 | A declaration appends a symbol and rebinds the name in the innermost scope only. |
| `Resolve.BodyLowerer.DoExpr` | crates/ontixa-hir/src/lower.rs:439-699 | Lowering an expression changes scopes, symbols, arena and error count as specified, and closes every scope it opens. |
| `Resolve.BodyLowerer.DoStmt` | crates/ontixa-hir/src/lower.rs:364-410 | An initializer is resolved before its binding exists; an assignment to an unknown name is dropped with an error. |

## Left out

Query engine:
- Files are registered before the first demand; `scope_eval` reads the module table, the roots and the interner outside recorded dependencies, so registering later is outside the theorem.
- The ownership oracle is a stage input here, not state kept across evaluations; its own reuse is proved separately in the inference modules.
- The compile query carries only what depends on the texts: no revision, timings or statistics.
- Compiler stages (parser, type checker, graph) are abstract functions with a rank on their queries.

Inference and enforcement:
- Well-typedness (copy-ness of arguments and parameters, arities) is a precondition; the type checker is not part of this model.
- Evidence, summaries, exits and spans are not modelled, nor are message texts; diagnostics keep their kind and their binding or place.
- InferRounds.Oracle.InferContracts: gives up after a budget of rounds, because from some hypotheses the rounds never end (`MutualNeverEnds`). Other workspace roots in the oracle are not modelled. Without stamps a result from kept contracts need not solve the equations (`UnverifiedSwaps`); the source documents an empty oracle for that use (`crates/ontixa-memory/src/analyze.rs`, lines 214 to 215).
- InferRounds.RunAscendsExact: compares total hypotheses of the right signatures; a partial one, left over when functions were added, has no table to compare with.
- EnforceSound.BodyNeverMisuses: for bodies with loops it additionally requires the loops to be steady, which the source does not check.
- InferMeaning.EscapeSound: for bodies that `Tracks` accepts, which the source does not check; that callees keep their contracts and that expressions of a copy type yield no aggregate are hypotheses on the run.
- EnforceAccept.ReportsExact: passes each loop body once and reads on behind a `return`, as the source does; what that misses and adds is stated by `LoopBodyWalkedOnce` and `TidyAcceptedExact`.
- EnforceLoans.CallExclusive: the later of two conflicting arguments is the one excluded; a place mutated by an earlier argument's own evaluation is covered by the loan stack, not by a statement of its own.

Lowering and execution:
- Struct values share field cells at run time; structs are kept out of the lowering theorem, and so are calls that take a field projection by value (the executor empties the whole local).
- The runtime borrow check and copy-out of mutably borrowed arguments are kept out of the program theorems, which require contracts without `borrow_mut`.
- Strings, floats and characters; integers are unbounded, so the 128-bit overflow trap is missing.
- The placeholder target `u32::MAX` is a constructor of its own.
- Interp.CallBody: has a block budget, because a program need not end.
- Erroneous trees: a range outside a loop does not occur, and a poisoned expression is unit.

Commit:
- Path canonicalization, symbolic links, regular-file checks and syncing; a path is an abstract name.
- Fingerprints are compared as the bytes themselves, so they are free of collisions.
- The journal keeps its state word and whether it is readable; per-file `swapped` flags are written but never read by recovery, and a torn journal is one that cannot be parsed.
- One pending journal; `recover` over several is its repetition.
- PersistSession.SessionSafe: assumes that listing journals works. The source takes a listing that fails for an empty one and would then write a second journal beside the pending one.

Source transactions:
- Building the edits of each patch operation, shadow compilation of the result, and the provenance checks before applying a plan.
- Names of functions, types and variants in resolution; they live in other tables and do not interact with locals. Field projections of an assigned place do not bind names and are dropped.
- The comparison of binding sequences that a rename plan makes on the recompiled candidate; renaming is proved to keep the bindings instead.
- Rename.LocalBindingSites: the text comparison at assignment targets is not modelled; a resolved target holds the old name, so the comparison does not change the sites.
- A new name `_`, which the syntax of names excludes.

Not modelled at all: lexer, concrete syntax tree and formatter, lowering of syntax trees to items,
type checker, semantic graph, explanations, command line, workspace discovery, diagnostics output.
