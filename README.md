# Serverless Devs: argument splitting and orchestration decisions, in Dafny

This project models two deterministic pieces of the Serverless Devs command
line tool `s`.

- **The `s cli` front end** (`src/cli/index.ts`, module `CliArgs`). A subcommand
  named after `argv[2]` is registered, unless `argv[2]` is missing, empty or a help flag.
  A bare `s cli` or `s cli -h` goes straight to help. Otherwise the process
  arguments are split in one pass. Every argument up to and including the
  first occurrence of `argv[3]` (the start marker) goes to the option parser.
  After the marker, only the value-taking flags `-a/--aliasName/-p/--props`
  and the argument right after such a flag go there. Every other argument is a
  free-form method parameter.
  A help-flag marker is passed to the parser as `cli-help-options`. The parameters are
  joined with spaces into the environment variable `temp_params`, and
  `process.argv` is replaced by the option parser's share.
  `PartitionArgv` is the loop, proved against the fold `Scan`. `Kept`, `Passed`
  and `Routed` give an independent, index-based reference for the split, and
  the lemmas connect the two. `Launch` runs the whole front end on a
  `Process` object whose `argv` and `tempParams` it updates in place.
- **The `CommandManager` driver** (`src/core/command/command-manager.ts`,
  module `Commands`). `AssemblyProjectConfig` stamps a project's configuration
  in place with `appName` and `ProjectName`. When there are deploy parameters,
  it also stores them under both the current key `params` and the legacy key
  `Params`. `Init` either runs one named project (targeted mode) or the
  cascade over the execution order. In targeted mode, a missing-method failure
  is rewritten to `Project <P> does not include [<method>] method` and the run
  aborts. In cascade mode, only truthy results of projects in the execution
  order are kept. The run then ends with exit -1 or reports
  `End of method: <method>` or the dumped output. `Init` is proved against the
  function `InitOutcome`, and the lemmas state its cases.

JavaScript truthiness, which both files rely on, is modelled on the `Js.Value`
datatype. Collaborators that are not part of this model are given to the
driver as values in `Commands.Collaborators`: the template lookup as an
`Option`, variable resolution, a component call and the execution order each
as a value or a thrown message, the cascade's per-project results, and the
`s-execute-file` error signal as a boolean.

Two behaviours of the code that a reader might expect otherwise:

- A run with recorded project failures and an aborted run both end with exit
  status -1; there is no separate status for a run that finished with some
  projects failed. A run with recorded failures logs the recorded errors and
  exits. It does not report the per-project output it collected.
- The project name in targeted mode is used only if it is non-empty. An empty
  name is falsy and selects the cascade.

## Model

| member | source | states |
|---|---|---|
| `CliArgs.SubcommandName` | src/cli/index.ts:22-29 | a subcommand is registered exactly when `argv[2]` exists, is non-empty and is not `-h`/`--help`, and it is named `argv[2]` |
| `CliArgs.Launch` | src/cli/index.ts:31-59 | for `argv` of length 2, or length 3 ending in a help flag, the outcome is help and neither `argv` nor `temp_params` changes; otherwise `process.argv` becomes the option share of the split, `temp_params` is updated from the parameters, and the subcommand is that of the original `argv` |
| `CliArgs.PartitionArgv` | src/cli/index.ts:35-54 | the loop returns exactly the split `SplitArgv(argv)`, and the two lists together are as long as `argv` |
| `CliArgs.ScanFacts` | src/cli/index.ts:40-54 | after each prefix, `start` holds iff the marker has occurred, `lastArgs` is the previous argument, and the two lists' lengths sum to the prefix length (the help rewrite's pop/push keeps the length because the option list is non-empty once the marker has been seen) |
| `CliArgs.ScanBeforeStart` | src/cli/index.ts:41-47 | while the marker has not occurred, every argument goes to the option list unchanged and no parameter is collected |
| `CliArgs.SplitShortArgv` | src/cli/index.ts:35-47 | with fewer than four arguments there is no marker: the option list is `argv` and the parameters are empty |
| `CliArgs.ScanKeepsPrefix` | src/cli/index.ts:41-51 | the arguments up to and including the first occurrence of the marker open the final option list in their original order; a help-flag marker appears there as `cli-help-options` |
| `CliArgs.ScanParamsMatchReference` | src/cli/index.ts:40-54 | on every input, the method parameters are exactly the arguments not routed to the option parser, in input order; the help rewrite never touches them |
| `CliArgs.ScanMatchesReference` | src/cli/index.ts:40-54 | when no occurrence of a help-flag marker is routed to the parameters (in particular when the marker is not a help flag), the option list is also the reference's: the routed arguments in input order, a help-flag marker renamed |
| `CliArgs.ReferenceLength` | src/cli/index.ts:41-45 | the reference split's two lists together are exactly as long as the input |
| `CliArgs.ReferenceAccountsForEveryArgument` | src/cli/index.ts:41-45 | in the reference split, every argument occurs across the two lists exactly as often as in the input, except a help-flag marker itself and, when such a marker is renamed, a literal `cli-help-options` argument (which the renamed marker adds to) |
| `CliArgs.StrayHelpRewriteLosesArgument` | src/cli/index.ts:46-51 | as written, the argument list `node s fc-api -h -a x -h` (`argv[3]` is `-h`) yields options `node s fc-api cli-help-options -a cli-help-options` and parameters `-h`: the argument `x` is in neither list |
| `CliArgs.IntendedScanMatchesReference` | src/cli/index.ts:48-51 | with the help rewrite applied only to an argument just pushed to the option list, the loop equals the reference on every input |
| `CliArgs.IntendedScanKeepsEveryArgument` | src/cli/index.ts:40-54 | the corrected loop loses no argument: the lengths add up, and every argument is counted exactly, except a help-flag marker itself and, when such a marker is renamed, a literal `cli-help-options` argument |
| `CliArgs.JoinSplitRoundTrip` | src/cli/index.ts:56 | splitting `params.join(' ')` at spaces gives `params` back when it is non-empty and no parameter contains a space |
| `CliArgs.TempParamsRecoverParams` | src/cli/index.ts:55-57 | `temp_params` is left as it was when there are no parameters; otherwise it is set to the parameters joined by spaces, and when no parameter contains a space the parameters can be read back from it by splitting at spaces |
| `Commands.RewriteMessage` | src/core/command/command-manager.ts:56 | a message containing `componentInstance[method] is not a function` becomes `Project <P> does not include [<method>] method`, which names both project and method; any other message is kept verbatim |
| `Commands.CascadeParams` | src/core/command/command-manager.ts:64 | truthy deploy parameters are passed on unchanged and falsy ones as `''` |
| `Commands.Assembled` | src/core/command/command-manager.ts:29-35 | the configuration has `appName` = the application name and `ProjectName` = the project; with truthy deploy parameters both `params` and `Params` hold them; no other key changes, and with falsy parameters neither of those two keys is written |
| `Commands.CommandManager.AssemblyProjectConfig` | src/core/command/command-manager.ts:27-37 | the configuration object built from the service configuration ends up holding exactly `Assembled(...)` |
| `Commands.CascadeOutput` | src/core/command/command-manager.ts:74-78 | an output key is a result key that is in the execution order and has a truthy value, and its value is unchanged |
| `Commands.CollectCascadeOutput` | src/core/command/command-manager.ts:74-78 | the in-place loop over the results builds exactly `CascadeOutput` |
| `Commands.FinalOutcome` | src/core/command/command-manager.ts:81-93 | the error signal gives exit -1 whatever the output; otherwise an empty output gives `End of method: <method>` and any other output is dumped |
| `Commands.CommandManager.Init` | src/core/command/command-manager.ts:39-109 | on every input the driver ends as `InitOutcome(env)` says: a missing or empty (falsy) template path, an escaping exception, the error signal, or a report of the collected output; the lemmas below state each case |
| `Commands.TemplateMissingExits` | src/core/command/command-manager.ts:94-101 | a template lookup that returns nothing or an empty (falsy) path, which fails the test at line 43, gives exit -1 naming the directory |
| `Commands.TargetedIgnoresCascade` | src/core/command/command-manager.ts:47-62 | in targeted mode the outcome does not depend on the execution order or the cascade |
| `Commands.TargetedFailureAborts` | src/core/command/command-manager.ts:50-61 | a failed targeted call aborts with exit -1; the error names the project and carries the rewritten message, which names the method when it was missing |
| `Commands.TargetedSuccessReports` | src/core/command/command-manager.ts:51-54 | a truthy targeted result is reported under the project's name alone; a falsy one reports `End of method` |
| `Commands.CascadeReportsOrderedProjects` | src/core/command/command-manager.ts:63-78 | a cascade reports only projects in the execution order with their truthy results unchanged, computed from the parameters defaulted to `''` |
| `Commands.RecordedFailureExits` | src/core/command/command-manager.ts:81-86 | when the error signal is set and nothing was thrown, the run exits with -1 even if there is output |
| `Commands.ThrownExits` | src/core/command/command-manager.ts:104-108 | any exception escaping the targeted or cascade logic ends the run with exit -1 carrying that exception |
| `Commands.OrderFailureRunsNothing` | src/core/command/command-manager.ts:65-67 | a failure computing the execution order aborts the cascade before any project runs: the outcome does not depend on the cascade's results |

## Left out

- Text of the log messages (`logger.*`): the model records why a run ended and with what data. It does not model the emoji-decorated text around that data. The one exception is the rewritten missing-method message and `End of method: <method>`, whose text is modelled.
- `yaml.dump` and the `JSON.parse(JSON.stringify(...))` round trip: a dumped report carries the output map itself; serialisation is a foreign library.
- `Parse`, `getRealVariables`, `getServiceConfig` and `Analysis.getProjectOrder`: their results are inputs, in `Collaborators` and `Variables`. Variable resolution and dependency ordering are not part of this model. `getServiceConfig`'s own failures and any aliasing between the object it returns and the parsed document are not modelled; the configuration object is treated as fresh.
- `ComponentExeCute`, `generateSynchronizeComponentExeList` and `synchronizeExecuteComponentList`: a component call is a function from configuration and method to a value or a thrown message. The cascade is a function from order, method and parameters to per-project results. Exceptions thrown by the cascade runner itself are not modelled. A component cannot change the configuration object it is given, so the project name read back from it after the call is always the targeted project; a component that rewrote `ProjectName` in place would change the reported key and message in the source.
- `process.exit`, `process.env['s-execute-file']` and the environment as a whole: the exit is part of the outcome (`ExitCode`), and the error signal is a boolean input.
- The `commander` API (`program.help`, `parse`, `program.args`, option extraction) and `CliManager`: only what is handed to them is modelled. This is the help short-circuit and the argument list to parse.
- `async`/`await`: the driver awaits each step in sequence, so the model is sequential.
- `Js.Value`: numbers are integers, so floating point and `NaN` truthiness are not modelled.
- `CliArgs.Launch`: it uses the loop as written, including the stray help rewrite shown under Findings. This keeps the front end faithful to the code.

## Findings

| source | as written | input that shows it | evidently intended | confidence | as-written member | corrected member |
|---|---|---|---|---|---|---|
| src/cli/index.ts:46-51 | at every occurrence of a help-flag `argv[3]`, the last element of `processArgv` is popped and replaced by `cli-help-options`, even when that occurrence went to `params` | the argument list `node s fc-api -h -a x -h` (as from `s cli fc-api -h -a x -h`, so `argv[3]` is `-h`): the last `-h` goes to `params`, then `x` is popped from `processArgv`, so `x` reaches neither list | replace only the help flag just pushed to `processArgv`, so that no argument is lost | medium, not executed | `CliArgs.StrayHelpRewriteLosesArgument` | `CliArgs.IntendedScanKeepsEveryArgument` |
