# Verification of the `putils` framework layer

This project models `src/putils/paio.py` (`async_output`, `resolve`) and `src/putils/component.py`
(the under-construction scope and the parent backstop) and proves what they promise, over every program
and every interleaving of its tasks. `dafny verify dfyconfig.toml` checks all of it.

## How the model is laid out

* `Scope`, `Protocol`: the stack cut of `register_outputs`, the backstop's verdict, and the segments of
  `resolve` between its awaits, as functions.
* `Machine`: the event loop as a state machine. A task has its own copy of the two ContextVars; an accumulator is
  shared by reference by all tasks of one run; one step is one stretch of code asyncio does not interrupt, so each
  of the four awaits of `_resolve` is a step boundary and the secret flag is read before the second await and
  stored after it. A coroutine is any function from the replies it has had to its next action, so its behaviour
  may depend on the values it resolves. A schedule is any sequence of choices of task; a task that has to wait
  makes no step. An engine output is four futures, each of which may never come or may fail. A world runs the code as
  written (`Init`) or the variant that awaits the secret flags before it reads its own (`Start(AwaitFirst, ...)`).
* `Steps`: what one step does, said of the outputs awaited, independently of the machine's segments.
* `Invariants`, `Reachability`: what every step keeps. `Agreement`: two runs of one program compared.
* `Soundness`, `Propagation`, `Isolation`, `Outcomes`, `Secrecy`, `Unwrapping`: the results on the machine, for all
  programs. `SecretWindow`, `Gathers`: when a gather of resolves can lose its secret flag, worked out on the flag
  alone and carried over to the machine in both directions. `Witnesses`: concrete runs where a promise stops, and the
  exact conditions.
* `ComponentTrees`: programs as trees of component bodies that may forget to close, swallow exceptions or defer work.
* `Contexts`, `PaioObjects`, `ComponentObjects`, `Backstop`: the objects the code mutates, as classes, each method
  tied to the function the results are about.

## What the code does not keep

* **A secret can be lost.** Line 180 of `paio.py` reads the flag, awaits, and stores without reading again. Two
  resolves gathered in one run can end it known and not secret although one output was secret
  (`Witnesses.SecretLost`). For children that each make any number of resolves, `Gathers.KeptUnderEveryScheduleIff`
  gives the exact condition: a secret can be lost if and only if some child ends with a resolve of plain outputs and
  saw no secret itself, or another child begins with a plain resolve, or it begins with one itself and another child
  makes one anywhere. A run whose own resolves never overlap between read and store is always right
  (`Secrecy.SecretUnlessOverlapping`), and awaiting before reading would be right in every program under every
  schedule (`Secrecy.AwaitFirstKeepsSecrets`).
* **A nested `async_output` can carry too few dependencies.** If it is opened inside another's run by a task that has
  already resolved something, its closure may hold that value, and nothing records it. Opening one before anything
  was resolved is sound, and no laxer rule is (`Witnesses.SoundIffOpenedClean`).
* **A failing `is_secret` can go unnoticed.** When the flag is already set, the `or` skips the second await. Whether
  the failure of such a future ends the run then depends on the schedule; outcomes are independent of the schedule
  exactly when the engine outputs cannot do this (`Witnesses.IndependentIffNothingToHide`).
* The RFC (`docs/rfc/rfc-001-native-async-inputs.md`, section 4.2) has the unknown handshake only in a dry run; the
  code aborts in any run, and the model follows the code.

## Model

| member | source | states |
|---|---|---|
| `Soundness.TrackingIsSound` | src/putils/paio.py:175-191 | Dependencies are sound as non-interference: if every async_output was opened by a task that had used nothing yet, engine outputs outside the reported dependencies can be anything, and the schedule can be anything, without changing the value, the known flag or (children joined) the dependencies |
| `Soundness.UsedResourcesDecide` | src/putils/paio.py:211-218 | The same for nested runs, relative to every resource the run's behaviour has used, captured values included |
| `Soundness.FootIsCarried` | src/putils/paio.py:178-179 | If async_outputs are opened clean, in every reachable state a task has used only resources its run's accumulator already holds |
| `Soundness.ScheduleIndependence` | src/putils/paio.py:111-117 | Any two interleavings in which an output ends agree: if it returns in one, it returns the same value in the other, with the same dependencies once children are joined |
| `Witnesses.SoundIffOpenedClean` | src/putils/paio.py:212-218 | For any discipline on what a task may have used when it opens an async_output inside another's run: tracking is sound for all programs that keep to it iff it allows only tasks that have used nothing |
| `Witnesses.IndependentIffNothingToHide` | src/putils/paio.py:180 | Outcomes are independent of the schedule for all programs iff no usable output's failing `is_secret` can be skipped by the short-circuit |
| `Agreement.RunsAgree` | src/putils/paio.py:167-191 | Two runs under different schedules and different engine outputs: every task agrees on closure, inherited context and history as far as what it has used agrees |
| `Agreement.CannotEndThere` | src/putils/paio.py:182-190 | What one run answered cannot raise in the other: no unknown, no failure, no refusal at that action |
| `Propagation.DepsAreTransitiveLeaves` | src/putils/paio.py:178-179 | Over any graph of async_outputs, the dependencies of a returned output are exactly the engine resources transitively behind what its run resolved |
| `Propagation.KnownOnlyIfAllKnown` | src/putils/paio.py:189-191 | A returned output is known only if every engine output behind what its run resolved, any number of async_outputs down, arrived and was known |
| `Propagation.WholeRunReturned` | src/putils/paio.py:214-216 | If coroutines join what they spawn, a run that returned has no task of its own still running |
| `Propagation.NothingLost` | src/putils/paio.py:178-179 | The resources of whatever engine output is behind a returned run, any number of outputs deep, are in its dependencies |
| `Isolation.AccumulatorIsNearestRun` | src/putils/paio.py:111-117 | In every reachable state a task's accumulator is that of its nearest enclosing run in the tree of forks, none outside any; a finished run has reset it |
| `Isolation.StepsStayInside` | src/putils/paio.py:168-173 | A step writes into no other run's accumulator and touches no other task |
| `Isolation.ScopeIsOwnReplay` | src/putils/component.py:45-51 | In every interleaving a task's stack is its own actions replayed on the stack copied at its fork, and every declaration it got through passes that replay |
| `Isolation.VerdictIsOwnReplay` | src/putils/component.py:77-80 | The next declaration is refused exactly when that replay refuses it; a refusal leaves stack and history alone |
| `Isolation.FramesAreOrdered` | src/putils/component.py:30-35 | In every reachable state the frames of a stack are in strict birth order, so pairwise distinct, and each belongs to the task or to an ancestor before the fork |
| `Isolation.ComponentLifetime` | src/putils/component.py:230-250 | In every interleaving: between a component's beginning and its close the task got no unparented declaration through, and the close restores the stack from before, whatever was begun in between and left open |
| `Isolation.OpenComponentRefuses` | src/putils/component.py:239-244 | In every interleaving: while a component is open the task has got no unparented declaration through, and one it comes to is refused in the component's name or that of one begun after it |
| `Isolation.FramesTellTheirComponents` | src/putils/component.py:230-231 | In every reachable state each frame on a stack carries the name and type its component was built with |
| `Isolation.ScopeSurvivesDeferral` | src/putils/component.py:45-48 | Work deferred from inside a component keeps its frames for good and every unparented declaration it comes to is refused, whatever became of the constructor's stack |
| `Outcomes.UnknownStopsTheTask` | src/putils/paio.py:185-190 | A task that meets an unknown performs no further action in any continuation and never returns a value |
| `Outcomes.RepliesArePlain` | src/putils/paio.py:145-151 | No coroutine ever receives the sentinel from a resolve, at any depth of the value |
| `Steps.OnResources` | src/putils/paio.py:178-179 | First await: the first exception ends the task; otherwise it waits for all resources, records exactly them, and goes on to the secret flags unless the run's is set |
| `Steps.OnSecrets` | src/putils/paio.py:180 | Second await: the first exception ends the task; otherwise the flag becomes whether some output is secret |
| `Steps.OnValues` | src/putils/paio.py:184-190 | Third await: the first exception ends the task; otherwise the sentinel at any depth of any value raises the handshake, and nothing else does |
| `Steps.OnKnown` | src/putils/paio.py:189-191 | Fourth await: the first exception ends the task; an output not known raises the handshake; otherwise the reply is the value, or the tuple of all values in order |
| `Steps.OnMisuse` | src/putils/paio.py:162-173 | A resolve of no outputs, or outside any async_output, fails |
| `Steps.ResolveEnds` | src/putils/paio.py:175-191 | Once its outputs have arrived, a resolve is over after at most five steps of its task: aborted, the run's output unknown without value, if any output is unknown; answered with all the values if not |
| `Steps.OnJoin` | src/putils/paio.py:111-114 | A gather passes on the handshake or failure it is told of, answers with every child's value once all have returned, and waits otherwise |
| `Steps.OnFork` | src/putils/paio.py:211-225 | A new task has copies of both variables; an async_output's task has an empty accumulator of its own |
| `Steps.OnBuild` | src/putils/component.py:213-231 | A component without a token, or unparented inside another, fails; otherwise its own frame, with its name and type, goes on top |
| `Steps.OnClose` | src/putils/component.py:246-250 | Everything from the component's own frame on is removed, and nothing if it has none on the stack |
| `Outcomes.AbortIsComplete` | src/putils/paio.py:217-218 | An aborted run is unknown without value, for good; the handshake started at a resolve of the run, its own or, through joins, a child's; every output of that resolve and of all its own earlier ones is recorded |
| `Outcomes.FourFuturesOfOneRun` | src/putils/paio.py:227-239 | In every state: pending before the run ends; all four broken if it raised; the value and known if it returned; nothing and unknown if it aborted; the secret flag of the end; the resources the accumulator holds at the moment of reading. After the end, value, known and secret never change and the resources only grow |
| `Outcomes.SnapshotAtTheReturn` | src/putils/paio.py:216-223 | The step that ends a run takes the flag as it stands then and resets the context variable |
| `Secrecy.SecretUnlessOverlapping` | src/putils/paio.py:180 | In every schedule a flagged run resolved a secret; in every schedule in which the resolves of this run do not overlap, whatever other runs do, it is flagged iff it did, and so is its returned output |
| `Secrecy.OneTaskIsRight` | src/putils/paio.py:180 | A run all of whose resolves are made by its own task is flagged, under every schedule, iff it resolved a secret, and so is its returned output |
| `Secrecy.AwaitFirstKeepsSecrets` | src/putils/paio.py:199-201 | With the await moved before the read: in every program under every schedule a run, and its returned output, is secret iff some output it resolved was |
| `Secrecy.NothingIsHidden` | src/putils/paio.py:180 | Unless outputs can hide one behind the short-circuit, no answered resolve had a failing flag among its outputs |
| `Gathers.KeptUnderEveryScheduleIff` | src/putils/paio.py:180 | For a gather of any number of children with any number of resolves each, on the machine: the returned output is secret iff something it resolved was, under every schedule, iff no child can store false last (a condition on the order of secret and plain resolves in each child) |
| `Gathers.ScheduleIsOrder` | src/putils/paio.py:178-180 | What any schedule of the machine does to the flag and to each child's progress is one order of reads and stores |
| `Gathers.OrderIsSchedule` | src/putils/paio.py:178-180 | Every order of reads and stores is followed by some schedule of the machine |
| `SecretWindow.KeptInEveryOrderIff` | src/putils/paio.py:180 | The same condition for the flag alone: every order of reads and stores keeps the secrets iff no child can store false last |
| `Witnesses.SecretLost` | src/putils/paio.py:180 | A gather of two resolves, one of them secret, has a schedule of the code as written that ends known, not secret, and with the secret's resource among its dependencies |
| `Witnesses.CapturedValueIsUntracked` | src/putils/paio.py:211-216 | A nested output opened after resources were used that reports no dependency and whose value is an engine output's |
| `Reachability.ReachableGood` | src/putils/paio.py:167-225 | In every reachable state every reply, phase and result of every task is justified by the outputs, children and stack it came from |
| `Reachability.StepExtends` | src/putils/paio.py:178-179 | A step takes nothing back: replies, recorded resources and results stay |
| `ComponentTrees.RefusalNeverAbsent` | src/putils/component.py:239-244 | With arbitrary leaks, swallowed exceptions and deferred work, every unparented declaration while a component is open is refused, named after it or one begun after it |
| `ComponentTrees.LeakLasts` | src/putils/component.py:239-242 | A component that did not close itself, completed or failed and swallowed, keeps its frame: whatever is declared unparented afterwards, before an enclosing close, is refused in its name or that of one begun later |
| `ComponentTrees.NextIsRefused` | src/putils/component.py:239-242 | So is the very next unparented resource or component, and the stack stays as it was |
| `ComponentTrees.DeferredStaysApart` | src/putils/component.py:45-48 | Deferred work never changes the constructor's stack nor ends its execution, and is judged under the scope it was deferred in |
| `ComponentTrees.LeaksAreBounded` | src/putils/component.py:241-250 | Whatever descendants forget, the enclosing component's close restores exactly the stack from before it began |
| `ComponentTrees.FirstCloseRestores` | src/putils/component.py:246-250 | The same at the first close in any body; what follows it, further closes included, never reaches below |
| `ComponentTrees.LeakFreeIsLexical` | src/putils/component.py:77-81 | A program whose execution leaks no component, swallowed refusals included, gets the verdicts of lexical scope: refused iff unparented inside a component, named after the innermost |
| `ComponentTrees.ExecAllKeeps` | src/putils/component.py:230-250 | Every execution keeps frames in birth order, keeps the frames below untouched and judges every declaration by the stack it saw |
| `Scope.CutAt` | src/putils/component.py:246-250 | The cut is the longest prefix without the frame: up to its own position, or everything |
| `Scope.CutKeepsPrefix` | src/putils/component.py:246-250 | Cutting at a frame keeps every prefix the frame is not on |
| `Scope.CutUndoesPush` | src/putils/component.py:231-250 | Closing undoes beginning, whatever was left above |
| `ComponentObjects.Component.Init` | src/putils/component.py:213-231 | Untyped class, refusal and success, each with the exact scope afterwards; the frame is a new object |
| `ComponentObjects.Component.RegisterOutputs` | src/putils/component.py:246-250 | The identity search refines `CutAt`; a component without a frame fails once there is one to compare |
| `ComponentObjects.BuildWithOwnProvider` | src/putils/component.py:119-133 | The provider is refused iff the component's own registration would be; an unbuilt component leaves the scope alone |
| `ComponentObjects.ProviderIsSibling` | src/putils/component.py:119-133 | The provider is given the very parent its component is given: both inherit from the same resource and carry equally many checks |
| `ComponentObjects.OuterClosesLeak` | src/putils/component.py:239-250 | On the objects, with two components of one name and type, the inner one leaked: closing the outer one in a deferred task's copy cuts the copy alone, and closing it in the constructor takes both frames, by identity |
| `Contexts.AsyncOutputCtx.Record` | src/putils/paio.py:178-179 | The in-place loop adds exactly the union of what was gathered |
| `Contexts.Context.Copy` | src/putils/component.py:45-48 | A task's context is its own object with the same accumulator and stack |
| `PaioObjects.ResolveCall.OnResources` | src/putils/paio.py:178-180 | Records, then reads the flag and skips the second await if it is set |
| `PaioObjects.ResolveCall.OnSecrets` | src/putils/paio.py:180 | Stores the gathered flags without reading again |
| `PaioObjects.ResolveCall.OnValues` | src/putils/paio.py:184-190 | Goes on exactly if no value holds the sentinel at any depth |
| `PaioObjects.ResolveUndisturbed` | src/putils/paio.py:175-191 | A whole undisturbed call: dependencies and secretness accumulate even when it aborts; it aborts iff the sentinel occurs in a value or an output is not known, and an answer never holds the sentinel |
| `Protocol.ContainsIffHolds` | src/putils/paio.py:189 | The search for unknowns finds the sentinel wherever it is in a value, and nothing else |
| `PaioObjects.RunCall.constructor` | src/putils/paio.py:212-213 | A fresh accumulator is installed and the old one kept as token |
| `PaioObjects.RunCall.Leave` | src/putils/paio.py:215-223 | One tuple for the four futures; the context is reset on every path |
| `Unwrapping.UnwrapReachesTheCore` | src/putils/paio.py:29-46 | In every program and schedule an async_output over awaitables nested d deep gets at most 2d replies; if it returns, its value is the innermost one and its dependencies are exactly the resources behind what all layers resolved, in its own task or in theirs |
| `Backstop.CoveredIffBuiltAfterInstall` | src/putils/component.py:92-98 | A root carries the backstop at most once; a resource carries it iff its topmost ancestor below the root was built after the first install |
| `Backstop.UnparentedCheckedOnce` | src/putils/component.py:107-116 | After an install every unparented declaration is checked exactly once |
| `Backstop.Runtime.InstallParentBackstop` | src/putils/component.py:107-116 | Fails without a root, installs once per root |

## Left out

- Coroutines that catch exceptions: the code says not to catch the unknown handshake, and a caught failure would be an untracked use of the failing output; here an exception ends its task and is passed on by whoever joins it.
- A coroutine awaiting a task it did not fork, or handing `async_output` a task already running: such a task belongs to another run's accumulator, and RFC-001 section 5 rules it out.
- Cancellation, timeouts, fairness and liveness of the event loop: the results are safety results over all schedules.
- The SDK's own code: `Output` construction, `from_input`, `ResourceOptions.merge`, provider inheritance, `child_opts` and `with_provider`; an output is its four futures and a registration is the backstop's check.
- The publishing half of `register_outputs`, `task`, `background`, logging and message texts: wrappers and I/O.
- The SDK's own copy of an output's resources: the machine reads the resources future as the live set at the moment `_resolve` takes the union, the SDK may have copied it a little earlier.
- Weak references in the set of roots installed on: a root that is gone is never asked about again.
- Everything under `sdks/` and `src/kluster`: generated or plumbing code.
- Isolation between two components built in one stretch of synchronous code: the machine allows other tasks to run between any two actions, which only adds schedules.
- State that coroutines share outside of replies: what a coroutine does next depends on its closure and on the replies it has had, not on mutable Python objects two tasks share, nor on awaits other than those of the modelled actions. The independence of the schedule rests on this.
- Soundness.TrackingIsSound: says nothing of the secret flag, which depends on the schedule (see `Witnesses.SecretLost`), and takes runs in which no answered resolve had an output with a failing `is_secret` (see `Witnesses.IndependentIffNothingToHide`).
- Secrecy.SecretUnlessOverlapping: the second half needs schedules without overlapping windows in the run, because without that it is false.
- Gathers.KeptUnderEveryScheduleIff: the children resolve engine outputs that arrive and are known, in a fixed order, and the run does nothing but gather them; other programs have `Secrecy.SecretUnlessOverlapping`.
- Unwrapping.UnwrapReachesTheCore: a layer makes at most one resolve, and a task that is a layer is spawned where it is awaited; the warning about nested awaitables is message text.
- ComponentTrees.LeakFreeIsLexical: speaks of executions that leak nothing; leaks are covered by `ComponentTrees.RefusalNeverAbsent`.
