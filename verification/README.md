# ESPresense companion: locators, arbiter, registry, calibration and node settings in Dafny

This project models the core of the ESPresense companion, the service that places
BLE devices in rooms from the distances that fixed receiver nodes report.

- **Registry** (`src/Models/State.cs`). It holds the configuration, the nodes, the floors and the devices. It keeps:
  - the tracking patterns, split into exact names and globs;
  - the weighting choice;
  - a bounded window of calibration snapshots of the node-to-node measurements.
- **Scenarios** (`src/Models/Scenario.cs`). A scenario is one locator's opinion of where a device is:
  - its location, confidence, room and floor;
  - a 1€ filter that smooths every fix after the first.
- **Locators.** Each turns the nearest current readings on one floor into a location and a confidence:
  - Nelder–Mead multilateration (`Locators/NelderMeadMultilateralizer.cs`);
  - a Nadaraya–Watson kernel centroid (`src/Locators/NadarayaWatsonMultilateralizer.cs`).
- **Arbiter** (`src/Locators/MultiScenarioLocator.cs`). It does the following:
  - routes every inbound reading, either into the node-to-node tables or to a device;
  - decides once per configuration whether a device is tracked;
  - in batches, re-locates the devices marked dirty plus the idle ones;
  - keeps each device's best scenario under a 2-point hysteresis;
  - publishes the state, the attributes and the history rows of whatever changed.
- **Calibration runner** (`Optimizers/OptimizationRunner.cs`). It does the following:
  - warms up with three snapshots;
  - on every tick, runs three optimizers against one snapshot;
  - accepts a candidate that is finite and no worse than the best RMS;
  - writes the parameters that lie strictly inside their configured ranges back through the node settings store.
- **Node settings store** (`src/Services/NodeSettingsStore.cs`). It does the following:
  - parses boolean payloads;
  - files inbound settings one field at a time;
  - when asked to set a node's settings, sends one MQTT set message per setting that is null or changed.

State that the source updates in place is modelled in imperative Dafny:
- the scenario, the device, the registry, the arbiter and the settings store are classes;
- their methods are proved against value functions: `View()`, `Stored()`, `Located`, `Arbitrate`, `Diff`, `Run`.

Properties are lemmas about those functions. Everything foreign arrives as an input:
- geometry, filters, kernels and number parsing are bundled in `Base.Numerics` and `NodeSettings.Parsers`;
- the Nelder–Mead solver's run, the optimizers, the RMS evaluation and the decoded MQTT payloads are plain inputs.

Some behaviours of the code are easy to misread; the model does what the code does:
- **Snapshot window.** The window keeps up to `MaxSnapshots + 1` snapshots, because the eviction test `Count > MaxSnapshots` runs before the append.
- **Write-back.** Calibration write-back drops a value outside its configured range. It never clamps it.
- **Acceptance.** A candidate whose RMS equals the best is accepted, because the rejection test is a strict `d > best`.
- **Nelder–Mead with fewer than three anchors.** The degraded path stores the guess unclamped.
- **Nadaraya–Watson exception.** An exception in the kernel branch before its `UpdateLocation` gives confidence 0 and an update towards the origin. The Nelder–Mead branch gives 1 when its solver throws.
- **Nadaraya–Watson zero weight.** When the kernel weights sum to zero, the kernel branch divides zero by zero. The scenario gets a NaN point and a NaN error. The confidence is the cast of NaN, which is never positive, so Locate reports no move. This is recorded under Findings.

## Model

| member | source | states |
|---|---|---|
| Base.FirstEnclosing | Locators/NelderMeadMultilateralizer.cs:108 | A room found is one whose polygon encloses the point, and no room before it in the list has an enclosing polygon. None means no room with a polygon encloses it. |
| Base.MidPoint | Locators/NelderMeadMultilateralizer.cs:53 | The midpoint is equidistant from both points on every axis. |
| Base.Trunc | Optimizers/OptimizationRunner.cs:62 | The `(int)` cast truncates toward zero, from either side. |
| Base.Trim | src/Services/NodeSettingsStore.cs:13 | The result has no whitespace at either end. It is empty exactly when the input is all whitespace. |
| Base.TrimStart | src/Services/NodeSettingsStore.cs:13 | The result is a suffix of the input, starts with a non-white char, and is empty exactly when the input is all whitespace. |
| Base.TrimEnd | src/Services/NodeSettingsStore.cs:13 | The result is a prefix of the input, ends with a non-white char, and is empty exactly when the input is all whitespace. |
| Base.Upper | src/Services/NodeSettingsStore.cs:13 | Upper-casing keeps the length and maps each character independently. |
| Base.Lower | src/Locators/NadarayaWatsonMultilateralizer.cs:22 | Lower-casing keeps the length and maps each character independently. |
| Base.KeyIgnoresCase | src/Models/State.cs:73-77 | Dictionary keys compare case-insensitively: a string, its lower-case form and its upper-case form share one key. |
| Anchors.Usable | Locators/NelderMeadMultilateralizer.cs:36 | The filter keeps exactly the current readings whose node is on the floor, each with its multiplicity. |
| Anchors.InsertAdds | Locators/NelderMeadMultilateralizer.cs:36 | Insertion adds exactly the inserted reading: the result is a permutation of the list plus that reading. |
| Anchors.InsertKeepsSorted | Locators/NelderMeadMultilateralizer.cs:36 | Insertion into a distance-sorted list keeps it sorted, with the inserted reading or the old first reading first. |
| Anchors.ByDistance | Locators/NelderMeadMultilateralizer.cs:36 | `OrderBy(Distance)` gives a sorted permutation of its input. |
| Anchors.InsertAtDistance | Locators/NelderMeadMultilateralizer.cs:36 | Insertion puts the inserted reading ahead of every reading at its distance and keeps the order of the others at each distance. |
| Anchors.ByDistanceIsStable | Locators/NelderMeadMultilateralizer.cs:36 | `OrderBy(Distance)` is stable: the readings at any one distance keep the order they were read in. |
| Anchors.Nearest | src/Locators/NadarayaWatsonMultilateralizer.cs:34-37 | Every reading a locator uses is current and on its floor. |
| Anchors.NearestIsSortedUsable | src/Locators/NadarayaWatsonMultilateralizer.cs:34-37 | The readings used are sorted by distance. They are exactly the usable ones, and never more than were received. |
| Scenarios.TimeoutMs | src/Models/Scenario.cs:15 | The timeout is the configured seconds in milliseconds, or 30 s without a configuration. |
| Scenarios.IsCurrent | src/Models/Scenario.cs:15 | A scenario is current when its LastHit is less than the timeout before `now`. Without a LastHit the lifted comparison is false. |
| Scenarios.Updated | src/Models/Scenario.cs:40-58 | The first fix (location still the origin) is stored as is; later fixes go through the filter. Either way LastHit is now and nothing else changes. |
| Scenarios.FilterSkipsFirstFix | src/Models/Scenario.cs:40-58 | From a fresh scenario the filter sees every fix but the first, stamped with its time, and the location leaves the origin. |
| Scenarios.Scenario.constructor | src/Models/Scenario.cs:9-33 | A new scenario holds the fresh state, its locator, its name and the configured timeout. |
| Scenarios.Scenario.UpdateLocation | src/Models/Scenario.cs:40-58 | The scenario's new state is `Updated` of the old one. |
| Scenarios.Scenario.Current | src/Models/Scenario.cs:15 | `Current` is IsCurrent of the scenario's own LastHit and timeout. |
| LocateRules.Guess | Locators/NelderMeadMultilateralizer.cs:52-54 | A confidence below 5 takes the midpoint of the two nearest anchors as the guess. A null or higher confidence keeps the scenario's location. |
| LocateRules.Finish | Locators/NelderMeadMultilateralizer.cs:104-109 | The confidence is stored. Locate reports a move exactly when the confidence is positive and the location moved at least 0.1. A move assigns the first enclosing room; nothing else changes. |
| LocateRules.Conclude | Locators/NelderMeadMultilateralizer.cs:104-109 | The closing lines, on the scenario itself, leave it and the result exactly as `Finish` says. |
| LocateRules.Clear | Locators/NelderMeadMultilateralizer.cs:40-46 | With too few anchors the scenario loses its room, floor and error and gets confidence 0, and nothing else changes. |
| NelderMead.WeightsFallWithRank | Locators/NelderMeadMultilateralizer.cs:31 | The rank weight `((N-i)/N)^3` is 1 for the nearest anchor, stays positive, and falls strictly with rank. |
| NelderMead.Weight | Locators/NelderMeadMultilateralizer.cs:31 | The rank weight `((N-i)/N)^3`. WeightsFallWithRank states its properties. |
| NelderMead.WeightedSquares | Locators/NelderMeadMultilateralizer.cs:70-72 | The weighted sum of squared residuals is never negative. |
| NelderMead.CheckOutOfBounds | Locators/NelderMeadMultilateralizer.cs:23-29 | The loop answers true exactly when some coordinate lies below its lower or above its upper bound. |
| NelderMead.OutOfBounds | Locators/NelderMeadMultilateralizer.cs:23-29 | Some coordinate is below its lower bound or above its upper bound. CheckOutOfBounds is the loop that decides it. |
| NelderMead.Objective | Locators/NelderMeadMultilateralizer.cs:66-73 | The objective is +∞ exactly outside the floor's bounds; inside, it is finite and non-negative. |
| NelderMead.ClampedGuess | Locators/NelderMeadMultilateralizer.cs:75-80 | The clamped start lies inside well-formed bounds, and a guess already inside is kept. |
| NelderMead.ConvergedPointInBounds | Locators/NelderMeadMultilateralizer.cs:75-83 | A converged run no worse than its clamped start ends inside the bounds, because anything outside costs +∞. |
| NelderMead.SolvedConfidence | Locators/NelderMeadMultilateralizer.cs:94 | The solved confidence lies in [10, 100]. |
| NelderMead.SolvedConfidenceShape | Locators/NelderMeadMultilateralizer.cs:94 | A larger residual never raises the confidence. The confidence is at most 25 per anchor; four anchors and a zero residual give 100. |
| NelderMead.Solve | Locators/NelderMeadMultilateralizer.cs:55-102 | The try/catch block as a function: the guess at confidence 1 below three anchors, without bounds or when the solver throws, and otherwise the solver's point with the solved confidence. Degraded states its cases. |
| NelderMead.Outcome | Locators/NelderMeadMultilateralizer.cs:21-110 | The scenario after Locate and Locate's result. NotLocatable, Degraded and MoveRule state its cases. |
| NelderMead.NotLocatable | Locators/NelderMeadMultilateralizer.cs:34-48 | Fixes is the number of usable anchors. With at most one, Locate answers false: room, error and floor are cleared, confidence is 0, and nothing else changes. |
| NelderMead.Degraded | Locators/NelderMeadMultilateralizer.cs:50-102 | With fewer than three anchors, no bounds, or a throwing solver: confidence 1 at the guess. Otherwise the solver's point, error and iterations, with the solved confidence. With two or more anchors the floor is set. |
| NelderMead.MoveRule | Locators/NelderMeadMultilateralizer.cs:104-109 | Locate reports a move exactly when there are two or more anchors and the move is at least 0.1. A move leaves a positive confidence and the first enclosing room; otherwise the room is kept. |
| NelderMead.Estimate | Locators/NelderMeadMultilateralizer.cs:55-102 | The try/catch block leaves the scenario and the confidence as `Solve` says: the guess with confidence 1 below three anchors, without bounds or when the solver throws, and otherwise the solver's minimum, residual and iterations. |
| NelderMead.Place | Locators/NelderMeadMultilateralizer.cs:48-109 | With at least two anchors, the scenario and the result are `Finish` of what `Solve` gives. |
| NelderMead.Locate | Locators/NelderMeadMultilateralizer.cs:21-110 | The scenario's new state and the result are `Outcome` of the old state. |
| NadarayaWatson.ChooseKernelIgnoresCase | src/Locators/NadarayaWatsonMultilateralizer.cs:22-27 | The kernel choice ignores the case of the configured algorithm. |
| NadarayaWatson.KernelNames | src/Locators/NadarayaWatsonMultilateralizer.cs:22-27 | "epanechnikov" (in either case shown) and "Gaussian" select those kernels. A near miss such as "gauss", and no configuration, select inverse-square. |
| NadarayaWatson.ChooseKernel | src/Locators/NadarayaWatsonMultilateralizer.cs:22-27 | The switch on the lower-cased algorithm name, inverse-square by default. ChooseKernelIgnoresCase and KernelNames state its properties. |
| NadarayaWatson.MinDistance | src/Locators/NadarayaWatsonMultilateralizer.cs:41 | `Min` over no readings is null. |
| NadarayaWatson.MaxLastHit | src/Locators/NadarayaWatsonMultilateralizer.cs:42 | `Max` over no readings is null. |
| NadarayaWatson.Extremes | src/Locators/NadarayaWatsonMultilateralizer.cs:41-42 | Minimum and MaxLastHit are a reading's distance and LastHit, bounding all the others. |
| NadarayaWatson.MinimumIsNearest | src/Locators/NadarayaWatsonMultilateralizer.cs:34-41 | Because the readings are sorted, the minimum distance is the first reading's. |
| NadarayaWatson.Weights | src/Locators/NadarayaWatsonMultilateralizer.cs:70 | Each weight is the kernel at that reading's distance. |
| NadarayaWatson.Centroid | src/Locators/NadarayaWatsonMultilateralizer.cs:70-81 | The weighted mean of the anchors' coordinates. CentroidWithinAnchors states where it lies. |
| NadarayaWatson.CentroidWithinAnchors | src/Locators/NadarayaWatsonMultilateralizer.cs:70-81 | With non-negative weights and a positive total, every coordinate of the centroid lies between the anchors' extremes. |
| NadarayaWatson.WeightedError | src/Locators/NadarayaWatsonMultilateralizer.cs:86-91 | The weighted error is non-negative under non-negative weights. |
| NadarayaWatson.KernelConfidence | src/Locators/NadarayaWatsonMultilateralizer.cs:97 | The kernel confidence lies in [10, 100]. |
| NadarayaWatson.KernelConfidenceShape | src/Locators/NadarayaWatsonMultilateralizer.cs:97 | The confidence falls as the error grows: 100 at error ≤ 0, 10 from error 9, truncated 100 − 10·error in between. |
| NadarayaWatson.EstimateAsWritten | src/Locators/NadarayaWatsonMultilateralizer.cs:71-81 | The estimate as the code divides it: the centroid when the total weight is non-zero, and the NaN point when it is zero. |
| NadarayaWatson.ErrorAsWritten | src/Locators/NadarayaWatsonMultilateralizer.cs:86-91 | The weighted error divided by the total weight: NaN when the total is zero. |
| NadarayaWatson.ConfidenceAsWritten | src/Locators/NadarayaWatsonMultilateralizer.cs:97 | The clamped confidence of the error, and the cast of NaN, which is never positive, when the total weight is zero. |
| NadarayaWatson.ZeroWeightLeavesNoEstimate | src/Locators/NadarayaWatsonMultilateralizer.cs:71-97 | As written, anchors that all weigh zero leave the scenario at the NaN point with a NaN error, and the confidence is never positive. |
| NadarayaWatson.KernelStep | src/Locators/NadarayaWatsonMultilateralizer.cs:62-98 | The kernel branch as written stamps LastHit, clears Iterations, and changes only the location, the filter and the error. |
| NadarayaWatson.KernelStepCorrected | src/Locators/NadarayaWatsonMultilateralizer.cs:62-98 | The kernel branch with the evidently intended guard: a zero total weight takes the guess at confidence 1. Only the Findings row uses it. |
| NadarayaWatson.KernelStepFallsBack | src/Locators/NadarayaWatsonMultilateralizer.cs:62-98 | With all weights zero, the corrected step takes the guess at confidence 1. With non-negative weights and a positive total, it is the step as written: the centroid, a non-negative error, and the confidence of that error. |
| NadarayaWatson.Solve | src/Locators/NadarayaWatsonMultilateralizer.cs:56-105 | Solving stamps LastHit and touches only the location, the filter, the error and the iterations. Degraded, KernelPath and ZeroWeightNoMove state the values in each branch. |
| NadarayaWatson.NotLocatable | src/Locators/NadarayaWatsonMultilateralizer.cs:32-52 | Fixes and Minimum always come from the usable readings. With at most one reading, LastHit is their latest, and Locate answers false and clears room, error and floor, with confidence 0. |
| NadarayaWatson.StampedWhenLocated | src/Locators/NadarayaWatsonMultilateralizer.cs:54-66 | With two or more readings, LastHit is now and the floor is set. |
| NadarayaWatson.Degraded | src/Locators/NadarayaWatsonMultilateralizer.cs:60-105 | Fewer than three readings or no bounds give confidence 1 at the guess. An exception gives confidence 0, no move, and an update towards the origin. |
| NadarayaWatson.KernelPath | src/Locators/NadarayaWatsonMultilateralizer.cs:68-98 | On the kernel branch, Error is the weighted error at the centroid, the confidence follows from it, and Iterations is cleared. |
| NadarayaWatson.ZeroWeightNoMove | src/Locators/NadarayaWatsonMultilateralizer.cs:71-115 | As written, a zero total weight with three or more anchors and bounds stores the NaN point and error and the cast-of-NaN confidence. Locate then reports no move and keeps the room. |
| NadarayaWatson.MoveRule | src/Locators/NadarayaWatsonMultilateralizer.cs:107-115 | Locate reports a move exactly when there are two or more readings, the confidence is positive, and the move is at least 0.1. A move takes the first enclosing room; otherwise the room is kept. |
| NadarayaWatson.Estimate | src/Locators/NadarayaWatsonMultilateralizer.cs:60-105 | The try/catch block leaves the scenario and the confidence exactly as `Solve` says, with the kernel branch as written. |
| NadarayaWatson.Record | src/Locators/NadarayaWatsonMultilateralizer.cs:43-45 | Minimum, LastHit and Fixes come from the anchors, and nothing else changes. |
| NadarayaWatson.Place | src/Locators/NadarayaWatsonMultilateralizer.cs:54-116 | With at least two anchors, the scenario and the result are `Finish` of what `Solve` gives on the scenario with its floor set. |
| NadarayaWatson.Locate | src/Locators/NadarayaWatsonMultilateralizer.cs:30-116 | The scenario's new state and the result are `Outcome` of the old state. |
| NadarayaWatson.Outcome | src/Locators/NadarayaWatsonMultilateralizer.cs:30-116 | The scenario after Locate and Locate's result. NotLocatable, StampedWhenLocated, Degraded, KernelPath, ZeroWeightNoMove and MoveRule state its cases. |
| LocatorDispatch.Delegated | src/Models/Scenario.cs:35-38 | A nearest-node scenario ends as the given `nearest` input says, scenario and result both. |
| LocatorDispatch.MovedMeansLocated | src/Models/Scenario.cs:35-38 | Whichever multilateration locator is bound, a reported move means a positive confidence and the first enclosing room on its floor. |
| LocatorDispatch.Locate | src/Models/Scenario.cs:35-38 | Scenario.Locate does exactly what its locator does. |
| LocatorDispatch.Adopt | src/Models/Scenario.cs:35-38 | The scenario takes exactly the state the nearest-node locator leaves behind. |
| Devices.Device.constructor | src/Locators/MultiScenarioLocator.cs:57-58 | A new device is due for a check and untracked, with no best scenario, no readings and no reported state, and holds its scenarios. |
| Devices.Device.Confidence | src/Locators/MultiScenarioLocator.cs:111 | A device's confidence is its best scenario's, and null without one. |
| Devices.Device.Fixes | src/Locators/MultiScenarioLocator.cs:62 | The readings the locators see are the device's per-node readings, in order. |
| Registry.WeightingFallsBackToGaussian | src/Models/State.cs:57-63 | "equal" and "exponential" select those weightings, case-sensitively. Everything else, including no configuration, is Gaussian. |
| Registry.ChooseWeighting | src/Models/State.cs:57-63 | The switch on the weighting algorithm. WeightingFallsBackToGaussian states its cases. |
| Registry.Partition | src/Models/State.cs:28-50 | The split of the configured ids (or names) into the exact-key dictionary and the glob list. ExactKeysAreClaimed, FirstClaimWins and GlobsAreTheRest state its properties. |
| Registry.SplitPatterns | src/Models/State.cs:28-50 | The loop builds exactly the exact-key dictionary and the glob list of `Partition`. |
| Registry.ExactKeysAreClaimed | src/Models/State.cs:28-38 | A key is in the exact dictionary exactly when some non-blank, all-literal pattern claims it. |
| Registry.FirstClaimWins | src/Models/State.cs:35 | `GetOrAdd` keeps the first device that claims a key. |
| Registry.GlobsAreTheRest | src/Models/State.cs:33-37 | The glob list holds exactly the non-blank patterns that are not all literal, in order. |
| Registry.FindFloor | src/Models/State.cs:18 | A floor lookup finds a floor with the same key, or there is none. |
| Registry.FloorsByIds | src/Models/State.cs:14-20 | No ids give no floors. Every floor found is a known floor, at most one per id. |
| Registry.FloorsByIdsExact | src/Models/State.cs:14-20 | The floors found are exactly the known floors some id names. |
| Registry.SameKeySameFloor | src/Models/State.cs:18 | With distinct floor keys, two floors with the same case-insensitive id are the same floor. |
| Registry.ScenarioPlanShape | src/Models/State.cs:110-115 | GetScenarios plans one Nelder–Mead scenario per floor, named after it and in order, and then the nearest-node scenario. |
| Registry.ScenarioPlan | src/Models/State.cs:110-115 | The locators and names GetScenarios builds scenarios from. ScenarioPlanShape states its shape. |
| Registry.FindNode | src/Models/State.cs:73 | A node lookup is case-insensitive: it finds a node with the same key, or there is none. |
| Registry.PairsOf | src/Models/State.cs:88 | A node contributes one pair per reading in its table, in order, each naming the receiver's registered endpoint. |
| Registry.PairsFromNodes | src/Models/State.cs:87-88 | Every visited pair comes from a node and one of its readings, and its receiver is a registered node. |
| Registry.GetOrAdd | src/Models/State.cs:90-91 | `GetOrAdd` adds an endpoint only under a new id and never changes an existing one. |
| Registry.Step | src/Models/State.cs:90-100 | Filing one pair appends exactly one measure and keeps every earlier one. |
| Registry.FileReading | src/Models/State.cs:90-100 | The loop body files a pair exactly as `Step` does. |
| Registry.EndpointsKeyed | src/Models/State.cs:90-91 | Every endpoint is filed under its own id. |
| Registry.MeasuresCopyPairs | src/Models/State.cs:92-100 | There is one measure per visited pair, in order. Each copies its reading's Current, Distance, RefRssi and Rssi, and its endpoints carry the transmitter's and receiver's ids. |
| Registry.EndpointsShared | src/Models/State.cs:90-99 | Every measure's endpoints are the very ones in the final dictionary, so endpoints are shared by id. |
| Registry.Collect | src/Models/State.cs:87-102 | The measures and endpoints filed from the visited pairs. EndpointsKeyed, MeasuresCopyPairs and EndpointsShared state its properties. |
| Registry.Window | src/Models/State.cs:104-105 | The new snapshot is last. At most the oldest one goes, and none goes without a configuration. |
| Registry.WindowKeepsNewest | src/Models/State.cs:104-105 | From empty, the window holds the newest min(n, MaxSnapshots + 1) snapshots, oldest first. |
| Registry.NoConfigNeverEvicts | src/Models/State.cs:104 | Without a configuration nothing is ever evicted. |
| Registry.Fill | src/Models/State.cs:104-105 | Taking several snapshots in turn into the window. WindowKeepsNewest and NoConfigNeverEvicts state its properties. |
| Registry.MarkForCheck | src/Models/State.cs:64 | Reloading sets Check on every device and changes nothing else about it. |
| Registry.CaptureNode | src/Models/State.cs:88-101 | The inner loop extends the measures and endpoints exactly as `Collect` over that node's pairs. |
| Registry.Capture | src/Models/State.cs:83-102 | The snapshot is `Collect` over every node's pairs. |
| Registry.State.constructor | src/Models/State.cs:71-81 | A new registry is empty and has no configuration. With no nodes, every recorded receiver is trivially registered. |
| Registry.State.LoadConfig | src/Models/State.cs:22-65 | Loading stores the configuration, both pattern partitions and the weighting, and marks every device for a check. Each device keeps its tracking decision, name, best scenario, readings, reported state and location, and evaluation time. |
| Registry.State.TakeOptimizationSnapshot | src/Models/State.cs:83-108 | The snapshot is taken and appended to the bounded window, and nothing else changes. |
| Registry.State.GetScenarios | src/Models/State.cs:110-115 | GetScenarios returns fresh, distinct scenarios following the plan, each with the configured timeout. |
| Registry.State.DeviceFor | src/Locators/MultiScenarioLocator.cs:55-60 | A known device is returned as is. An unknown one is created due for a check, untracked and unnamed, with the configured timeout, no best scenario and no reported state. Its scenarios are fresh, distinct, untouched and follow the plan. It is filed under its key, and every device already filed stays filed. Nothing else in the registry changes. |
| Registry.State.IdleDevices | src/Models/State.cs:117-121 | The idle devices are exactly the registered ones that are tracked, have a positive confidence, and were last evaluated more than their timeout ago. |
| Registry.IdleNeedsElapsedTimeout | src/Models/State.cs:120 | A device just evaluated, untracked, or without a best scenario is never idle. |
| Registry.Idle | src/Models/State.cs:120 | A device is idle when it is tracked, has a positive confidence, and was last evaluated more than its timeout before `now`. IdleDevices collects the idle devices. |
| Arbiter.Lookup | src/Locators/MultiScenarioLocator.cs:62 | A lookup succeeds exactly when some entry has the key. |
| Arbiter.Put | src/Locators/MultiScenarioLocator.cs:62 | `GetOrAdd(...).ReadMessage` files the value under its key and leaves other keys alone. It adds an entry only for a new key, without reordering the others. |
| Arbiter.Register | src/Locators/MultiScenarioLocator.cs:31-36 | The receiver is found afterwards; an unknown one is a new node without a location. Every earlier lookup is unchanged. |
| Arbiter.FindAppended | src/Locators/MultiScenarioLocator.cs:31-36 | A node appended under a new id is what a later lookup of that id finds. |
| Arbiter.FindStable | src/Locators/MultiScenarioLocator.cs:31-36 | Appending a node never changes what an already known id finds. |
| Arbiter.RouteRule | src/Locators/MultiScenarioLocator.cs:29-52 | A reading goes to the node-to-node table exactly when its `node:` id names a registered, located, stationary transmitter. Other readings go to a device, and are dropped exactly when the receiver has no location. |
| Arbiter.SelfHeardIsSkipped | src/Locators/MultiScenarioLocator.cs:31-52 | A node hearing its own `node:` message before it is known registers itself without a location and then drops the message. |
| Arbiter.Record | src/Locators/MultiScenarioLocator.cs:44 | Recording keeps the node list's length and ids. |
| Arbiter.RecordTouchesTransmitter | src/Locators/MultiScenarioLocator.cs:41-45 | Only the transmitter's table changes, and it holds the reading under the receiver's id. |
| Arbiter.Classify | src/Locators/MultiScenarioLocator.cs:29-52 | The routing decision. RouteRule and SelfHeardIsSkipped state its cases. |
| Arbiter.RecordShape | src/Locators/MultiScenarioLocator.cs:41-45 | Recording keeps every node's id and changes only the transmitter's table, by filing the reading under the receiver. |
| Arbiter.RegisterKeepsReceiversKnown | src/Locators/MultiScenarioLocator.cs:31-36 | A receiver registering itself keeps every recorded receiver registered. |
| Arbiter.RecordKeepsReceiversKnown | src/Locators/MultiScenarioLocator.cs:41-45 | Recording a reading heard by a registered receiver keeps every recorded receiver registered. |
| Arbiter.TrackPrecedence | src/Locators/MultiScenarioLocator.cs:65-80 | A device is tracked exactly when one of the four tests passes: exact id, exact name, id glob, name glob. Its name changes only to the non-blank name configured under its exact id. |
| Arbiter.TrackDecision | src/Locators/MultiScenarioLocator.cs:65-80 | The four tests in the code's order, and the name they leave. TrackPrecedence states the outcome. |
| Arbiter.Candidate | src/Locators/MultiScenarioLocator.cs:119 | The candidate is current, and there is none exactly when no scenario is current. |
| Arbiter.CandidateIsFirstBest | src/Locators/MultiScenarioLocator.cs:119 | No current scenario outranks the candidate, a null confidence ranking lowest. Ties go to the lowest index. |
| Arbiter.HysteresisRule | src/Locators/MultiScenarioLocator.cs:119-123 | The kept best gives way only when there is no best or no candidate, or the candidate is more than 2 above it. A kept best is never more than 2 below the candidate. Deciding again changes nothing. |
| Arbiter.Hysteresis | src/Locators/MultiScenarioLocator.cs:119-123 | The rule that keeps or replaces the best scenario. HysteresisRule states its properties. |
| Arbiter.StateNameRule | src/Locators/MultiScenarioLocator.cs:124 | The state is the room's name, else the floor's, else `not_home`. |
| Arbiter.StateName | src/Locators/MultiScenarioLocator.cs:124 | `bs?.Room?.Name ?? bs?.Floor?.Name ?? "not_home"`. StateNameRule states its cases. |
| Arbiter.HistoryRows | src/Locators/MultiScenarioLocator.cs:170-174 | There are never more rows than scenarios. |
| Arbiter.HistoryRowsShape | src/Locators/MultiScenarioLocator.cs:170-174 | There is one row per scenario whose confidence is not exactly 0. Exactly one row is marked best when the chosen scenario has such a confidence, and none otherwise. |
| Arbiter.Ranks | src/Locators/MultiScenarioLocator.cs:119 | Each scenario is ranked by whether it is current and by its confidence. |
| Arbiter.ArbitrateRule | src/Locators/MultiScenarioLocator.cs:119-175 | The state is published exactly when it differs from the reported one. Attributes and history go out exactly when something moved or the state changed. Otherwise the reported location stays. |
| Arbiter.SecondTickIsQuiet | src/Locators/MultiScenarioLocator.cs:126-133 | A second evaluation with nothing moved keeps the best and publishes nothing. |
| Arbiter.Arbitrate | src/Locators/MultiScenarioLocator.cs:119-175 | A device's evaluation once its scenarios are located: the best, the reported state and location, and what is sent. ArbitrateRule and SecondTickIsQuiet state its properties. |
| Arbiter.Evaluation | src/Locators/MultiScenarioLocator.cs:115-175 | One device's evaluation from its state before: every scenario located, then `Arbitrate` over the move count. |
| Arbiter.Currents | src/Locators/MultiScenarioLocator.cs:119 | Each scenario is current when last hit within its timeout at the batch's `now`. |
| Arbiter.Located | src/Locators/MultiScenarioLocator.cs:118 | Each scenario is located independently by its own locator. |
| Arbiter.CountMoved | src/Locators/MultiScenarioLocator.cs:118 | The move count is zero exactly when no scenario moved. |
| Arbiter.LocateAll | src/Locators/MultiScenarioLocator.cs:118 | After locating, every scenario's state and move flag are those of `Located`. |
| Arbiter.Locator.Relocate | src/Locators/MultiScenarioLocator.cs:116-117 | The device is stamped with the evaluation time, every scenario is located as `Located` says, and nothing else about the device changes. |
| Arbiter.CheckTracking | src/Locators/MultiScenarioLocator.cs:65-83 | A device due for a check takes the track decision and is not checked again. Otherwise Track and Name stay. |
| Arbiter.Locator.constructor | src/Locators/MultiScenarioLocator.cs:16 | The arbiter starts with an empty dirty set and has sent nothing. It starts valid when the registered devices are sound and share no scenario. |
| Arbiter.Locator.AppendHistory | src/Locators/MultiScenarioLocator.cs:170-174 | The loop appends exactly `HistoryRows`. |
| Arbiter.Locator.Publish | src/Locators/MultiScenarioLocator.cs:119-175 | The device's best, reported state and location, and the events and rows sent, are those of `Arbitrate`. |
| Arbiter.Locator.KeepBest | src/Locators/MultiScenarioLocator.cs:119-123 | The device's best becomes the hysteresis choice over the candidate. |
| Arbiter.Locator.Announce | src/Locators/MultiScenarioLocator.cs:124-175 | With nothing moved and an unchanged state nothing is sent. Otherwise the state (when changed), the attributes and the history rows are sent, and the reported state and location are updated. |
| Arbiter.Locator.Evaluate | src/Locators/MultiScenarioLocator.cs:115-175 | The device is stamped, every scenario is located, and the device's new best, reported state and location and what is sent follow `Arbitrate` over the move count. |
| Arbiter.Locator.EvaluateInBatch | src/Locators/MultiScenarioLocator.cs:115-118 | The device ends as `Evaluation` of its state before says: scenarios, best, reported state and location, stamped with `now`. Its events and history rows are sent. Its track decision, the dirty set and every other device are left alone. |
| Arbiter.Locator.Enumerate | src/Locators/MultiScenarioLocator.cs:115 | The batch's devices in some order, each exactly once. |
| Arbiter.Locator.TakeBatch | src/Locators/MultiScenarioLocator.cs:106-111 | The batch is the marked devices plus the idle ones, and the dirty set starts over empty. |
| Arbiter.Locator.RunBatch | src/Locators/MultiScenarioLocator.cs:115-117 | Every device of the batch is evaluated once, in some order, and stamped with the same `now`. What is sent is the reports of those devices in that order, and their track decisions are unchanged. |
| Arbiter.Locator.Tick | src/Locators/MultiScenarioLocator.cs:101-176 | Once a device is marked, a batch evaluates exactly the marked and idle devices with one `now` and sends their reports. The next batch starts from an empty set. Every device keeps its tracking decision, its check flag and its name. A device outside the batch keeps all its fields and all its scenarios' states. |
| Arbiter.Locator.HandleDevice | src/Locators/MultiScenarioLocator.cs:55-91 | The device is found or created; a new one has the configured timeout, the planned fresh scenarios, no best scenario and no reported state. It files the reading, takes the track decision when due, and is marked dirty exactly when tracked and moved. Every other registered device keeps all its fields. The configuration, floors, track patterns, weighting and snapshot window are unchanged. |
| Arbiter.Hear | src/Locators/MultiScenarioLocator.cs:62-82 | The reading is filed under its receiver. A device due for a check takes the track decision and is no longer due; any other device keeps its decision. Its best scenario, reported state and location, and evaluation time are unchanged. |
| Arbiter.Locator.Dispatch | src/Locators/MultiScenarioLocator.cs:38-98 | With the receiver registered, the message is routed by `Classify`. A node-to-node reading is recorded only when the receiver is located and stationary. A device reading is handled as `HandleDevice` states. Any other route leaves the device map, every device's fields and the dirty set alone. The configuration, floors, track patterns, weighting and snapshot window are unchanged. |
| Arbiter.Locator.Receive | src/Locators/MultiScenarioLocator.cs:27-98 | The receiver registers and the message is routed by `Classify`. A node-to-node reading is recorded only between located, stationary nodes. A device reading finds or creates the device (a new one is fresh, registered under its id, and has the configured timeout, the planned fresh scenarios, no best scenario and no reported state) and files the reading under the receiver. The device takes the track decision when it was due for a check, and keeps its decision and name otherwise. It is marked dirty exactly when it is tracked and moved, and every other registered device keeps all its fields. Non-device routes leave the device map, every device's fields and the dirty set alone. On every route the configuration, floors, track patterns, weighting and snapshot window are unchanged. Every recorded receiver stays registered. |
| NodeSettings.TrimWhiteAndNull | src/Services/NodeSettingsStore.cs:18 | bool.Parse's trim leaves no whitespace or NUL at either end. |
| NodeSettings.BoolParse | src/Services/NodeSettingsStore.cs:18 | `bool.Parse` on the trimmed text: "true" or "false" in any letter case, anything else an error. ParseBoolRule states its use. |
| NodeSettings.ParseBool | src/Services/NodeSettingsStore.cs:8-19 | A null or empty payload is false. |
| NodeSettings.ParseBoolRule | src/Services/NodeSettingsStore.cs:8-19 | TRUE/1/ON and FALSE/0/OFF decide, after trimming and ignoring case. Any other payload is what bool.Parse makes of it, and a whitespace-only one is an error. |
| NodeSettings.NulPrefixedTrue | src/Services/NodeSettingsStore.cs:13-18 | "\0true", in any letter case, is not a token, but bool.Parse still accepts it as true. |
| NodeSettings.YesIsError | src/Services/NodeSettingsStore.cs:14-18 | "yes", in any letter case, is an error. |
| NodeSettings.IndexOf | src/Services/NodeSettingsStore.cs:80-139 | Each of the fifteen setting names selects its own field. Any other name selects none. |
| NodeSettings.AssignChangesOneField | src/Services/NodeSettingsStore.cs:83-135 | A successful case changes exactly its own field, to the parsed payload or the text itself. The id and every other field stay. |
| NodeSettings.Assign | src/Services/NodeSettingsStore.cs:83-135 | One case of the setting switch on a settings object, failing when the parse fails. A null payload fails for every integer and decimal setting, as `int.Parse(null)` and `double.Parse(null)` throw. AssignChangesOneField states its effect. |
| NodeSettings.HandledRule | src/Services/NodeSettingsStore.cs:79-146 | An unknown name or a failed parse leaves the store untouched. Otherwise only this node's entry is replaced, by its settings (or the defaults) with one field changed. |
| NodeSettings.Handled | src/Services/NodeSettingsStore.cs:79-146 | The store after one inbound setting. HandledRule states its cases. |
| NodeSettings.PayloadOf | src/Services/NodeSettingsStore.cs:33-36 | A switch payload is "ON" exactly when the value is true; other settings send their value. |
| NodeSettings.Diff | src/Services/NodeSettingsStore.cs:28-71 | There is at most one message per setting. |
| NodeSettings.DiffMembers | src/Services/NodeSettingsStore.cs:28-71 | Set sends a message for a setting exactly when the new value is null or differs from the stored one. |
| NodeSettings.DiffOrdered | src/Services/NodeSettingsStore.cs:28-71 | The messages follow the fixed setting order. |
| NodeSettings.NamesIndexed | src/Services/NodeSettingsStore.cs:80-139 | The setting names are distinct: each is found at its own position. |
| NodeSettings.DiffNames | src/Services/NodeSettingsStore.cs:28-71 | Every message names one of the settings Set compares. |
| NodeSettings.DiffOfSame | src/Services/NodeSettingsStore.cs:28-71 | Setting back fully populated stored settings sends nothing. A null setting is always sent. |
| NodeSettings.NodeSettings.Apply | src/Services/NodeSettingsStore.cs:83-135 | The clone takes the parsed value, or stays as it was when the parse throws. |
| NodeSettings.NodeSettings.constructor | src/Services/NodeSettingsStore.cs:25 | A settings object holds the values it is built with. |
| NodeSettings.NodeSettingsStore.constructor | src/Services/NodeSettingsStore.cs:21 | The store starts empty. |
| NodeSettings.NodeSettingsStore.Get | src/Services/NodeSettingsStore.cs:23-26 | Get returns a fresh copy of the stored settings, or fresh defaults, and never the stored object. |
| NodeSettings.NodeSettingsStore.Handle | src/Services/NodeSettingsStore.cs:75-148 | The handler leaves the store as `Handled` says and sends nothing. |
| NodeSettings.NodeSettingsStore.Set | src/Services/NodeSettingsStore.cs:28-71 | Set appends exactly `Diff` against the stored settings and leaves the store unchanged. |
| OptimizationRunner.AcceptRule | Optimizers/OptimizationRunner.cs:54 | A candidate is accepted exactly when it is finite and no greater than a finite best, an equal RMS included. Against a NaN or +∞ baseline any finite candidate wins; against −∞ none does. |
| OptimizationRunner.Exceeds | Optimizers/OptimizationRunner.cs:54 | C#'s `d > best` on doubles, false whenever either side is NaN. |
| OptimizationRunner.Accepts | Optimizers/OptimizationRunner.cs:54 | A candidate is kept unless it exceeds the best or is NaN or infinite. AcceptRule states its cases. |
| OptimizationRunner.WriteBackRule | Optimizers/OptimizationRunner.cs:59-62 | Absorption and RxAdjRssi are written only when present and strictly inside their ranges, RxAdjRssi truncated. Out-of-range values keep the stored value, without clamping, and no other setting changes. |
| OptimizationRunner.WriteBack | Optimizers/OptimizationRunner.cs:59-62 | The stored settings with the in-range calibration values written in. WriteBackRule states its cases. |
| OptimizationRunner.WritesAddressResultNodes | Optimizers/OptimizationRunner.cs:56-64 | Every set message goes to a receiver named in the results. |
| OptimizationRunner.UnknownNodeGetsEverySetting | Optimizers/OptimizationRunner.cs:59-63 | Writing back to a node the store does not know sends all fifteen settings. |
| OptimizationRunner.Writes | Optimizers/OptimizationRunner.cs:56-64 | The set messages of writing every result back in turn. WritesAddressResultNodes states where they go. |
| OptimizationRunner.RunNoWorse | Optimizers/OptimizationRunner.cs:50-67 | A tick never makes the best RMS worse. The best changes only to a finite value, and a finite best never grows. |
| OptimizationRunner.NoWorseTransitive | Optimizers/OptimizationRunner.cs:54-66 | "No worse" composes across successive acceptances. |
| OptimizationRunner.Try | Optimizers/OptimizationRunner.cs:52-66 | One optimizer's turn: the new best and the messages sent. RunNoWorse states its effect on the best. |
| OptimizationRunner.Run | Optimizers/OptimizationRunner.cs:50-67 | The optimizers' turns in order against one snapshot. RunNoWorse states that the best never gets worse. |
| OptimizationRunner.WriteResults | Optimizers/OptimizationRunner.cs:56-64 | The loop sends exactly the set messages of `Writes`, one Get and one Set per receiver, and leaves the store unchanged. |
| OptimizationRunner.WriteOne | Optimizers/OptimizationRunner.cs:58-63 | One pass of the loop grows what has been sent from the messages of `Writes` over the first k receivers to those over the first k + 1, and leaves the store unchanged. |
| OptimizationRunner.SetBack | Optimizers/OptimizationRunner.cs:58-63 | Get, writing the result in and Set send that receiver's `Diff` between its stored settings (or the defaults) and those settings with the result written in. The store is unchanged. |
| OptimizationRunner.RunOptimizer | Optimizers/OptimizationRunner.cs:52-67 | One optimizer's candidate replaces the best, and is written back, exactly when it is accepted. |
| OptimizationRunner.RunAll | Optimizers/OptimizationRunner.cs:50-67 | The three optimizers run in order against one snapshot and window, as `Run` says. |
| OptimizationRunner.Tick | Optimizers/OptimizationRunner.cs:49-67 | A tick takes one snapshot into the window, then runs the optimizers against it. |
| OptimizationRunner.WarmUp | Optimizers/OptimizationRunner.cs:37-43 | Exactly three snapshots are taken before the baseline is evaluated over the whole window. |
| OptimizationRunner.Steady | Optimizers/OptimizationRunner.cs:46-71 | Over any number of ticks the best never gets worse, and the store is unchanged. |
| OptimizationRunner.Execute | Optimizers/OptimizationRunner.cs:21-72 | While optimization is disabled, nothing is taken or sent. Otherwise the warm-up fills the window with three copies of the current snapshot, the baseline is the RMS of empty results over it, and the final best is never worse than that baseline. |

## Left out

- Device.cs, Node.cs, DeviceToNode.cs, NodeToNode.cs, NearestNode.cs and NodeSettings.cs are not part of this model. The model makes these assumptions about them:
  - the fields they hold are the ones the core reads and writes;
  - a device's confidence is its best scenario's;
  - `new Node(id)` has no location and is not stationary;
  - `new NodeSettings(id)` holds no values;
  - `a.Absorption` and `a.RxAdjRssi` on a settings object are its calibration fields.
- LocatorDispatch.Delegated: what the nearest-node locator does to its scenario, and its result, are an input (`nearest` in `LocatorDispatch.Inputs`).
- Decoding MQTT payloads (`ReadMessage`) is not modelled. The decoded reading and its "moved" flag are inputs.
- The receiver's own node-to-node table (`rx.Nodes`, line 40) is not modelled. Home Assistant auto-discovery sends and telemetry counters are not modelled either.
- GPS conversion, JSON serialisation of attributes, `"0.00"` number formatting of payloads, and the wall-clock `When` of history rows are not modelled.
- Concurrency is not modelled: ConcurrentDictionary races, `AsParallel`, the async plumbing, the 500 ms and 5 s polls, and cancellation. Each batch runs sequentially, over the todo set in an unspecified order.
- Floating point is not modelled: points and distances are reals.
  - NaN and infinities appear only where the code tests for them (the RMS) and where the Nadaraya–Watson kernel branch divides by a zero total weight.
  - For that division, the NaN point, the NaN error and the cast of NaN to int are opaque values of `Base.Numerics`. The only fact used about the cast is that it is never positive. NaN arithmetic is not modelled beyond that.
  - A NaN `double.Parse` result, which `!=` always reports as changed, is not modelled.
  - Geometry, the 1€ filter, kernels and weightings are the opaque functions of `Base.Numerics`.
- The Nelder–Mead simplex solver, the three optimizers and `OptimizationResults.Evaluate` are not part of this model. Their results are inputs.
- `int.Parse` and `double.Parse` of a non-null string are inputs (`NodeSettings.Parsers`). A null payload always throws.
- Base.Upper: upper-casing and case-insensitive keys cover ASCII letters only. The code's `ToUpperInvariant` and `OrdinalIgnoreCase` also fold other scripts.
- Base.Lower: lower-casing covers ASCII letters only. The Nadaraya–Watson kernel name is lower-cased with the culture-sensitive `ToLower()`, which also folds other scripts.
- Base.StartsWith: `StartsWith("node:")` is modelled as an ordinal prefix test. The code uses the current culture's comparison.
- The Nelder–Mead file in the repository has a two-argument constructor and assigns Location directly, without UpdateLocation. As written, its scenarios never get a LastHit and so are never current; the model keeps that behaviour.
- Registry.State.LoadConfig: updating floors and nodes from the configuration (`Floor.Update`, `Node.Update`) is not modelled. Floors and nodes are given.
- MaxSnapshots is a natural number. A negative value would make `RemoveAt(0)` throw on an empty list.
- The Nadaraya–Watson `threw` input stands for an exception in its kernel branch before the `UpdateLocation` at NadarayaWatsonMultilateralizer.cs:83: in the kernel or in the sums. An exception after that call would move the scenario twice, which the model does not express. Nelder–Mead's exceptions come only from its solver run.
- Time is one `now` per batch: the value MultiScenarioLocator.cs:109 reads. The model uses it also for the separate `DateTime.UtcNow` reads of `Current` (Scenario.cs:15, evaluated at MultiScenarioLocator.cs:119) and of `UpdateLocation` (Scenario.cs:46 and :50). The code's reads can differ by the time the batch takes.
- OptimizationRunner.Execute: the loop that waits for optimization to be enabled, and the delays between ticks, are not modelled. The optimization section is read once, as the code does before the warm-up, and the steady loop never reads it again. A given number of ticks stands in for "until cancelled".
- OptimizationRunner.Steady: it states only that the best never gets worse and the store is unchanged. The exact messages of each tick are stated by `Tick`.
- Arbiter.Locator.RunBatch: it states, for each device of the batch, only the stamp, the frame and the reports sent in order. That the device ends as `Evaluation` of its state before is stated per device by `EvaluateInBatch`, which each turn of the loop calls. The same statement for all the devices of a batch at once does not fit the verifier's resource limit.
- Arbiter.Locator.Tick: the same gap as RunBatch, which it calls. The devices' results are stated per device by `EvaluateInBatch`.
- `DeviceToNode.LastHit` is taken to be nullable. `nodes.Max(a => a.LastHit)` (NadarayaWatsonMultilateralizer.cs:41) then yields null on zero anchors instead of throwing.
- `NodeSettings.Clone()` (NodeSettingsStore.cs:25) is taken to be a deep copy, so setting `a.Absorption` (OptimizationRunner.cs:61) does not write into the stored settings before `Set`.

## Findings

| source | as written | input that shows it | evidently intended | confidence | as-written member | corrected member |
|---|---|---|---|---|---|---|
| src/Locators/NadarayaWatsonMultilateralizer.cs:71-81 | The centroid divides the weighted coordinate sums by the total weight, whatever it is. | Three anchors at distances 9, 9.5 and 10, all outside an Epanechnikov kernel's support, so every weight is 0. The location is 0/0 (NaN) and is fed to UpdateLocation. | Fall back to the guess when the total weight is zero, with the degraded confidence 1. | not executed | NadarayaWatson.ZeroWeightLeavesNoEstimate | NadarayaWatson.KernelStepFallsBack |
