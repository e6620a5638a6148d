# Versioned opcode lookup with a bounded error log

A Dafny model of `OverlayPluginLogLineConfig`, a class in the OverlayPlugin network processors.
The class holds a table of type game version → (opcode name → `{opcode, size}`).
Its constructor fills the table once from `resources/opcodes.jsonc`.
Its indexer `this[name]` resolves a logical packet name to the opcode entry for the game version running now.
Each indexer call can fail in one of three ways, and each failure writes its own error line while the counter is below 3:
- the version cannot be detected;
- the table has no opcodes for that version;
- the version has no opcode of that name.

All failures, including a failed load, share one `exceptionCount`.
That counter limits the error lines to `maxExceptionsLogged = 3` over the lifetime of the object.

Layout:

- `wrappers.dfy`, module `Wrappers`: `Option`, used where the C# code returns `null`.
- `opcode_table.dfy`, module `OpcodeTable`: a `uint32` newtype for C# `uint`, and `OpcodeEntry` (the `OpcodeConfigEntry` record).
  It also holds the nested `Table`, the pure two-level decision `Resolve`, and `Flatten`.
  `Flatten` is a reference view of the table keyed by (version, name).
- `diagnostics.dfy`, module `Diagnostics`: the kinds of error line (`Diag`), the counter with the lines emitted (`Throttle`), and the guarded report `Report` with its invariant `WithinBudget`.
- `log_line_config.dfy`, module `LogLineConfig`: the object's behaviour written as functions on values.
  `Init` is the constructor, `Step` is one indexer call, and `Run` is a series of calls.
  The lemmas about these functions come after them.
  The module ends with the class `OverlayPluginLogLineConfig`, which keeps:
  - fields `config` and `exceptionCount`;
  - a ghost `log` of the error lines emitted.

  Its constructor and its `Lookup` method (the indexer) are proved to update these fields exactly as `Init` and `Step` say.

Inputs the code gets from outside are parameters:
- The result of `repository.GetGameVersion()` is an `Option<string>` argument of `Lookup`, with `None` for `null`.
- The result of reading and parsing the JSON file is an `Option<Table>` argument of the constructor, with `None` when either threw.

Choices of the model, following the C# code:
- Every failure path of the indexer returns `null`, so `Lookup` returns `Option<OpcodeEntry>`. `LookupResult` records which branch was taken.
- `exceptionCount` counts up from 0 to 3.
- A document the deserializer rejects makes the whole load fail, and no table is kept. An example is a value of the wrong JSON type, such as an array or `"abc"` where `opcode` should be. An entry that merely lacks `opcode` or `size` is not rejected: the missing property stays 0. The `Option<Table>` input covers both outcomes.
- The counter is a plain `int` with no synchronisation.

## Model

| member | source | states |
|---|---|---|
| `OpcodeTable.Resolve` | OverlayPlugin.Core/NetworkProcessors/OverlayPluginLogLines.cs:57-86 | The indexer's decision. A failure carries the version and name that caused it and holds only when its test fails. A success holds only when both keys are present, and returns `config[version][name]`. `ResolveBranches` and `ResolveAgreesWithFlatten` give the converse directions |
| `OpcodeTable.Returned` | OverlayPlugin.Core/NetworkProcessors/OverlayPluginLogLines.cs:65-86 | What the indexer hands back. It is the stored entry exactly when the lookup found one, and `null` (`None`) on each of the three failure returns at :65, :74 and :84 |
| `OpcodeTable.ResolveBranches` | OverlayPlugin.Core/NetworkProcessors/OverlayPluginLogLines.cs:57-86 | Each of the four outcomes happens exactly when its condition holds, in both directions: no version; version not in the table; name not in that version's sub-table; or found, and then the entry is `config[version][name]` |
| `OpcodeTable.NoVersionIgnoresTable` | OverlayPlugin.Core/NetworkProcessors/OverlayPluginLogLines.cs:57-66 | Without a version the lookup fails as NoVersion whatever the table and the name |
| `OpcodeTable.ResolveAgreesWithFlatten` | OverlayPlugin.Core/NetworkProcessors/OverlayPluginLogLines.cs:67-86 | With a version, the nested lookup succeeds exactly on the pairs (version, name) that the table holds, and returns the entry stored for that pair |
| `OpcodeTable.EmptyTableResolves` | OverlayPlugin.Core/NetworkProcessors/OverlayPluginLogLines.cs:67-75 | The empty table answers every lookup with NoVersion (no version) or UnknownVersion (any version) |
| `Diagnostics.Report` | OverlayPlugin.Core/NetworkProcessors/OverlayPluginLogLines.cs:45-83 | A guarded failure keeps the counter within 3 and equal to the number of lines logged. Below 3 it adds one to the counter and appends exactly that line. At 3 it changes nothing. This is the guard shared by :45-49, :60-64, :69-73 and :79-83 |
| `Diagnostics.ReportAll` | OverlayPlugin.Core/NetworkProcessors/OverlayPluginLogLines.cs:25-26 | Over any series of failures the counter stays within budget, never decreases, and the log only grows at the end |
| `Diagnostics.ReportAllLogsFirst` | OverlayPlugin.Core/NetworkProcessors/OverlayPluginLogLines.cs:25-26 | After n failures the counter has grown by min(n, 3 − count), and the lines emitted are exactly the first that many failures, in order |
| `Diagnostics.SilentOnceExhausted` | OverlayPlugin.Core/NetworkProcessors/OverlayPluginLogLines.cs:45-83 | Once the counter reaches 3, any further failures leave the counter and the log unchanged. This holds at every guarded site: :45-49, :60-64, :69-73 and :79-83 |
| `Diagnostics.FreshObjectLogsFirstThree` | OverlayPlugin.Core/NetworkProcessors/OverlayPluginLogLines.cs:25-26 | A fresh object that fails three or more times (ten, say) ends with count 3 and exactly the first three lines |
| `LogLineConfig.Init` | OverlayPlugin.Core/NetworkProcessors/OverlayPluginLogLines.cs:38-50 | A successful load keeps the loaded table with count 0 and no lines. A failed load keeps the empty initial table, with count 1 and the single line CouldNotLoad |
| `LogLineConfig.FailureDiag` | OverlayPlugin.Core/NetworkProcessors/OverlayPluginLogLines.cs:63-82 | Each failure branch has its own kind of line: NoGameVersion (:63), NoOpcodesForVersion (:72) and NoOpcodeForName (:82). Each kind belongs to exactly one branch, and a lookup never writes the load-failure line. The :72 line carries the version looked up, and the :82 line carries both the version and the name |
| `LogLineConfig.Step` | OverlayPlugin.Core/NetworkProcessors/OverlayPluginLogLines.cs:57-86 | One indexer call. It keeps the table, answers as `Resolve` does, keeps the budget invariant, and leaves the counter and log alone on success. `StepEffect` gives the full effect of a failure |
| `LogLineConfig.Run` | OverlayPlugin.Core/NetworkProcessors/OverlayPluginLogLines.cs:53-88 | A series of indexer calls gives one result per call |
| `LogLineConfig.StepEffect` | OverlayPlugin.Core/NetworkProcessors/OverlayPluginLogLines.cs:57-86 | One lookup never changes the table. A success changes nothing. A failure below 3 adds one to the counter and logs that branch's line. A failure at 3 changes nothing. The budget invariant is kept |
| `LogLineConfig.NullVersionLookup` | OverlayPlugin.Core/NetworkProcessors/OverlayPluginLogLines.cs:57-66 | A null version gives NoVersion and at most the one line NoGameVersion. The table is unchanged |
| `LogLineConfig.RepeatedLookupSameResult` | OverlayPlugin.Core/NetworkProcessors/OverlayPluginLogLines.cs:53-88 | Repeating the same lookup gives the same result |
| `LogLineConfig.RunResolvesEachQuery` | OverlayPlugin.Core/NetworkProcessors/OverlayPluginLogLines.cs:53-88 | In any series of lookups, the i-th result is the table's answer to the i-th query alone. It does not depend on the counter or on earlier calls |
| `LogLineConfig.RunThrottlesFailures` | OverlayPlugin.Core/NetworkProcessors/OverlayPluginLogLines.cs:53-88 | After any series of lookups the table equals the one from construction. The counter and log are what reporting the failing calls' lines in order gives |
| `LogLineConfig.RunLogsFirstFailures` | OverlayPlugin.Core/NetworkProcessors/OverlayPluginLogLines.cs:60-84 | Over any series of lookups the table is unchanged and the count never exceeds 3. The count equals the number of lines, and the lines are those of the first failing calls |
| `LogLineConfig.FailedLoadAnswers` | OverlayPlugin.Core/NetworkProcessors/OverlayPluginLogLines.cs:38-75 | After a failed load the table is empty and exactly one line is logged. Every later lookup gives NoVersion without a version, and UnknownVersion with one |
| `LogLineConfig.OverlayPluginLogLineConfig.constructor` | OverlayPlugin.Core/NetworkProcessors/OverlayPluginLogLines.cs:28-51 | The fields after construction are `Init` of the load result, and the budget invariant holds |
| `LogLineConfig.OverlayPluginLogLineConfig.LogError` | OverlayPlugin.Core/NetworkProcessors/OverlayPluginLogLines.cs:45-83 | The guarded `++exceptionCount` and log line change the counter and log as `Report` says, and leave the table alone. The constructor uses it at :45-49 and the indexer at :60-64, :69-73 and :79-83 |
| `LogLineConfig.OverlayPluginLogLineConfig.Lookup` | OverlayPlugin.Core/NetworkProcessors/OverlayPluginLogLines.cs:53-88 | The indexer keeps the budget invariant and never changes `config`. It moves the object to `Step`'s new state and returns the entry on success and null (`None`) on each failure branch |

## Left out

- Reading `opcodes.jsonc` and parsing it with Newtonsoft's comment-tolerant JSON reader are file I/O and a foreign parser. The constructor takes their outcome as an `Option<Table>`. Values that do not fit `uint` make the parser throw, so they fall under `None`.
- JSON documents that parse to `null` are not modelled. This covers the literal `null`, a version mapped to `null`, and an entry that is `null`. In the C# code these make the indexer throw a null reference exception or return `null` without logging.
- A `null` name argument is not modelled: `name` is always a string. In C#, `ContainsKey(null)` would throw.
- The plugin directory and the path to `resources/opcodes.jsonc` are not modelled. They are environment plumbing.
- Resolving the logger, the repository and the plugin object from the container is not modelled (:30-32).
- An exception thrown outside the `try` is not modelled. One example is `Path.Combine` at :36 with a null plugin directory, which makes the constructor itself throw.
- Aliasing of entries is not modelled. `OpcodeConfigEntry` is a mutable class with public setters, and the indexer returns the stored object by reference (:86), so a caller could change the table's entry through it. The model's `OpcodeEntry` is an immutable value.
- The logger's level and message text, including the `ErrorCouldNotLoadReservedLogLines` resource and the exception text, are not modelled. The ghost log records the kind of each line, with the game version (:72) and the opcode name (:82) that its message includes. The text itself is not modelled.
- Concurrent use of the unsynchronised counter is not modelled. Calls are sequential.
- The `OverlayPluginLogLines` constructor is not modelled. It only registers objects in the IoC container, and the line classes it registers are not part of this model.
- `NewOverlayDialog.cs` is not modelled. It is WinForms UI and preset loading.
