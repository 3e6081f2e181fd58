# unfurl task runtime, modelled in Dafny

This project models the core of unfurl's orchestration runtime:

- **the job runner** (`unfurl/job.py`): job options and the filters they impose, the
  runner's change-id counter and `workDone` registry, a task's bookkeeping when it
  finishes (its own status, the target instance's status and last-change ids, the merged
  change sets), the should-run and can't-run checks, `runTask`'s dispatch over what a
  configurator yields (subtasks up to the nesting bound, job requests, results), child
  jobs, and the statistics of a job;
- **the configurator interface** (`unfurl/configurator.py`): standard operation names,
  environments, configuration specs and their equality, `ConfiguratorResult` and
  `TaskView.done`, task dependencies and messages, and the building of a configuration
  spec from an installer template (`getConfigSpecArgsFromImplementation`,
  `getConfigSpecFromInstaller`);
- **the Ansible configurator's data shaping** (`unfurl/configurators/ansible.py`): the
  normalised per-task results, host variables and inventories, wrapping a task list into
  a play, the `ansible-playbook` arguments, the result callback, and how `run` turns the
  callback's state into the task's result.

Python's dynamic values are a `Value` datatype (`values.dfy`). It carries Python
truthiness, `==` (where `True == 1`), `in`, `dict.get` and `str()` of scalars. Exceptions
are `Outcome<T> = Returns(value) | Raises(error)`. Objects whose fields the code updates
in place are classes: the target `Instance`, `ConfigTask`, `Job`, `Runner`, `TaskView`,
the host-vars dict and `ResultCallback`. The loops of the source are methods with loop
invariants. Most are proved equal to a reference function, and the properties are lemmas
about those functions. The loops of `runTask`, `run` and the job request queue are proved
against invariants and predicates instead: `ScriptEnding` and `RunEnding` give the result
a task ends with, `Handled` says what became of each proposed task, and the queue ends
empty.

Calls into code that is not part of this model become parameters:

- `lookupClass` is a predicate `knownClass`;
- `mergeDicts` is a function-valued field of the job;
- `os.environ` is a map argument;
- the Ansible run is the state of the result callback.

A configurator is a `Behaviour`. It holds the answers its checks give and a finite script
of steps, where each step is the change set committed for one `send` and the response its
generator yields. `support.py`, which defines `Status`, `Priority` and `Defaults`, is not
part of this model. `Status` is taken as an ordered enum whose first member `unknown` is
falsy, `Priority` as `ignore < required`, `Defaults.workflow` as `"deploy"` and
`Defaults.shouldRun` as `required`. `task.required` is taken to mean that the task's
priority is `required`, and `UnfurlTaskError(task, msg, True)` as appending `msg` to
`task.errors`. A configurator of this model answers `cantRun`, as the base class does;
the `canRun` the job calls is read as `not cantRun(task)` (see "## Findings").

Where the code and its documented intent disagree, the model follows the code as it is
written, and the corrected variant is used everywhere else (see "## Findings").

Files:

| file | module | contents |
|---|---|---|
| `wrappers.dfy` | `Wrappers` | `Option` |
| `values.dfy` | `Values` | Python values, exceptions, truthiness, `==`, `in`, `str` |
| `support.dfy` | `Support` | `Status`, `Priority`, defaults |
| `configurator.dfy` | `Configurator` | operations, environment, spec, result, `done`, `TaskView` |
| `installer.dfy` | `Installer` | configuration specs from installer templates |
| `options.dfy` | `Options` | `JobOptions`, `filterConfig`, priority normalisation, the can't-run decision, `stats` |
| `job.dfy` | `Job` | `Instance`, `ConfigTask`, `Runner`, `Job` |
| `ansible.dfy` | `Ansible` | the Ansible configurator |

## Model

| member | source | states |
|---|---|---|
| Configurator.ToStandardOp | unfurl/configurator.py:31-33 | `add`, `update`, `remove` map to `create`, `configure`, `delete`, each in both directions; any other operation has no standard name |
| Configurator.MakeEnvironment | unfurl/configurator.py:44-59 | a falsy `environment` gives empty vars, not isolated, no passvars; a truthy non-dict raises TypeError; every dict gives an environment, with `vars or {}` and its `isolate` (default False), `passvars` and `addinputs` (default False) |
| Configurator.GetSystemVars | unfurl/configurator.py:64-73 | not isolated gives the whole process environment; isolated without passvars gives nothing; isolated with passvars gives exactly the listed variables |
| Configurator.MakeConfigSpec | unfurl/configurator.py:104-133 | a missing name or class name fails the constructor's assertion; otherwise the spec keeps name, operation, class and installer, and falsy inputs become `{}` |
| Configurator.SpecEqIgnoresInputSchema | unfurl/configurator.py:160-177 | as written, two specs that differ only in `inputSchema` compare equal; corrected, they do not |
| Configurator.SpecEqAsWritten | unfurl/configurator.py:160-177 | as written: equal specs have the same name and operation, and specs that differ only in `inputSchema` or `installer` compare equal |
| Configurator.SpecEq | unfurl/configurator.py:160-177 | corrected: equal iff equal as written and the `inputSchema`s are equal; specs that differ only in `installer` compare equal, so the equality is reflexive |
| Configurator.SpecEqSymmetric | unfurl/configurator.py:160-177 | the corrected spec equality is symmetric |
| Configurator.NewResult | unfurl/configurator.py:192-210 | the corrected constructor stores every argument, the captured exception included, and the status as `readyState` |
| Configurator.NewResultAsWritten | unfurl/configurator.py:192-210 | the constructor as written stores every argument except `exception`, which is always None |
| Configurator.CapturedExceptionLost | unfurl/configurator.py:201-210 | a captured exception is kept by the corrected constructor and lost by the one as written |
| Configurator.ResultFlags | unfurl/configurator.py:217-225 | no word is shown iff success, modified and a truthy ready state are all absent; with success, "success" comes first; at most three words |
| Configurator.Describe | unfurl/configurator.py:212-231 | the text starts with `changes: `, says `none` when no flag applies, and ends with the newline and indent, followed by the result text cut to 240 characters plus `...` when a result is present |
| Configurator.Done | unfurl/configurator.py:358-397 | a status passed as `modified` becomes the status with modified=True; success applies with the given flags; a failure that modified something applies with the given status or else error/degraded by `required`; a failure that did not modify anything is not applied and has no status |
| Configurator.DoneStatusAsModified | unfurl/configurator.py:380-382 | `done(s, modified=<Status>)` equals `done(s, modified=True, status=<Status>)` |
| Configurator.DoneAppliedIff | unfurl/configurator.py:388-397 | the result is applied iff the task succeeded or modified something |
| Configurator.DependencyKey | unfurl/configurator.py:441-442 | a dependency is stored under its name when one is given, else under its expression |
| Configurator.TaskView.AddMessage | unfurl/configurator.py:342-343 | the message is appended; nothing else changes |
| Configurator.TaskView.AddDependency | unfurl/configurator.py:427-444 | the new dependency is stored under `name or expr`, the changed flag is set, and the messages are untouched |
| Configurator.TaskView.RemoveDependency | unfurl/configurator.py:446-450 | the removed entry is returned and deleted; the changed flag is set iff something was removed |
| Installer.PrimaryImplementation | unfurl/configurator.py:679-684 | a `primary` artifact definition stands for its `file`; any other value stands for itself |
| Installer.SpecArgsOf | unfurl/configurator.py:685-686 | exactly the implementation entries that name spec arguments are kept, unchanged |
| Installer.ScanImplementation | unfurl/configurator.py:674-685 | the loop over the items of an implementation dict yields `inputs` overridden by the spec arguments it names, and the implementation its `primary` entry resolves to |
| Installer.GetConfigSpecArgsFromImplementation | unfurl/configurator.py:674-705 | the loop over the implementation's items and the class/shell choice compute `ImplementationArgs` |
| Installer.ImplementationArgsShape | unfurl/configurator.py:674-705 | only spec argument names come out, always with a class name and inputs |
| Installer.PrimaryClassChosen | unfurl/configurator.py:677-691 | a `primary` naming a loadable class becomes the class name, and the caller's inputs are kept |
| Installer.ShellCommandForm | unfurl/configurator.py:693-703 | a command that is not a class runs through the shell configurator; a plain word, or `shell: false`, becomes a one-element argument list; the inputs are merged over the command, which gives exactly `ShellInputs` |
| Installer.SelectOperation | unfurl/configurator.py:709-719 | a present action with a falsy entry gives None; a missing action falls back to `default` only when `useDefault` is set |
| Installer.FollowStable | unfurl/configurator.py:722-725 | the alias loop leaves a non-string unchanged |
| Installer.FollowSplit | unfurl/configurator.py:722-725 | following aliases for i+k rounds is k rounds after i rounds |
| Installer.CyclicAliasesStayStrings | unfurl/configurator.py:722-725 | aliases that only name further aliases stay a string after any number of rounds |
| Installer.Overlay | unfurl/configurator.py:731-739 | `dict(base, **overrides)`, used for the shared defaults and for the inputs: the overriding keys win, the other keys of the base stay, and no key is lost |
| Installer.ResolveAliases | unfurl/configurator.py:722-725 | at most `len(operations)` rounds, stopping at the first value that is not a string |
| Installer.FindOperationEntry | unfurl/configurator.py:709-733 | the selection, the alias loop and the merge of the shared defaults compute `OperationEntry`; a truthy non-dict `shared` raises TypeError |
| Installer.GetConfigSpecFromInstaller | unfurl/configurator.py:708-745 | computes `SpecFromInstaller`, including the KeyError of a template without `operations` |
| Installer.CyclicAliasesGiveNone | unfurl/configurator.py:722-728 | a cycle of aliases never reaches a dict, so no spec is built, and the loop ends |
| Installer.AliasResolved | unfurl/configurator.py:722-725 | a dict reached through one alias is the entry used |
| Installer.InstallerSpecIdentity | unfurl/configurator.py:741-745 | every spec found is named after the installer, has the action as its operation and records the installer |
| Installer.MissingImplementationGivesNone | unfurl/configurator.py:734-735 | an entry without `implementation`, even after the shared defaults, gives no spec |
| Installer.CallerInputsWin | unfurl/configurator.py:737-745 | the caller's inputs override the installer's in the spec's inputs, and all the installer's other inputs are kept, its own `command` too, since `shellArgs.update(inputs)` runs last; a class implementation gets exactly the merged inputs and is the class name; anything else runs through the shell configurator with exactly `ShellInputs` of the merged inputs (see also unfurl/configurator.py:695-703) |
| Installer.ClassNameForm | unfurl/configurator.py:688-691 | an implementation naming a loadable class gives exactly the class name and the inputs |
| Installer.SpecOfEntry | unfurl/configurator.py:734-745 | the spec found is the one built from the entry's implementation over the merged inputs, with the installer dropped from the keywords |
| Installer.SpecKeepsArgs | unfurl/configurator.py:744-745 | the spec keeps the computed class name and truthy inputs |
| Options.MakeJobOptions | unfurl/job.py:50-83 | every keyword wins over the defaults; `instance` defaults to the old `resource` keyword; other options keep their defaults; `userConfig` is the keywords |
| Options.GetUserSettings | unfurl/job.py:85-91 | a key is a setting iff the user gave it, it names an option, it is not `out` and it differs from the default |
| Options.DefaultsAreNotSettings | unfurl/job.py:85-91 | passing the defaults explicitly yields no settings |
| Options.SettingsAreOptions | unfurl/job.py:78-91 | every reported setting is the value the job runs with |
| Options.FilterConfig | unfurl/job.py:352-362 | read-only rejects anything but `discover`; requiredOnly rejects a configuration whose `required` is falsy, read with the corrected `SpecRequired` (see "## Findings"); a selected instance must match the target's name; a non-empty instance list must contain it |
| Options.FilterOrder | unfurl/job.py:352-362 | each filter is reached only when the ones before it pass, so a rejection names the first failing check, and acceptance means all pass |
| Options.ChildJobOptions | unfurl/job.py:482-485 | a child job has its parent, repair `none`, `all`, the requested instance names, and default filters otherwise |
| Options.ChildJobFiltersByInstance | unfurl/job.py:483-485 | a child job keeps exactly the configurations whose target is one of the requested instances |
| Options.NormalisePriority | unfurl/job.py:505-508 | True means required, False means ignore, a priority stays itself |
| Options.ShouldRunIff | unfurl/job.py:505-517 | a task runs iff its normalised priority is above `ignore` |
| Options.CantRunReason | unfurl/job.py:527-566 | the reasons, in the order checked: task errors, dry run unsupported, missing dependencies, invalid inputs, invalid preconditions, configurator declined; an exception gives the unexpected-exception reason |
| Options.CantRunMessage | unfurl/job.py:567-572 | False when the task can run, else `could not run: ` followed by the reason |
| Options.OnlyTrueRuns | unfurl/job.py:558-562 | once the other checks pass, the task runs iff the configurator answers exactly True |
| Options.CanRunAsWritten | unfurl/job.py:558 | as written, looking up `canRun` on a configurator of this model raises (see also unfurl/configurator.py:235-266) |
| Options.CanRunLookupRaises | unfurl/job.py:558-566 | as written, no task can run: the lookup is the unexpected-exception reason, with a task error, once the earlier checks pass |
| Options.CanRunOf | unfurl/job.py:558 | the corrected check `not cantRun(task)`: raises iff `cantRun` raises, and otherwise answers a bool (see also unfurl/configurator.py:253-261) |
| Options.CantRunDecides | unfurl/job.py:558-566 | corrected, a task that passed the earlier checks runs iff `cantRun` answers something falsy, as the base configurator's False does; an exception is a task error, in both directions (see also unfurl/configurator.py:253-261) |
| Options.ObjectionDeclines | unfurl/job.py:558-563 | corrected, an objection from `cantRun` declines the task as `configurator declined: False` |
| Options.SpecRequiredAsWritten | unfurl/job.py:356 | as written, `config.required` finds no attribute on a `ConfigurationSpec` (see also unfurl/configurator.py:104-133) |
| Options.RequiredOnlyRaises | unfurl/job.py:352-356 | as written, a `requiredOnly` job raises AttributeError for every configuration that passes the read-only filter |
| Options.SpecRequired | unfurl/job.py:356 | the corrected reading: the spec's `shouldRun()` is `required` (see also unfurl/configurator.py:152-153) |
| Options.RequiredOnlyKeepsSpecs | unfurl/job.py:352-362 | corrected, `requiredOnly` rejects nothing: the result equals that of the same job without the option |
| Options.ComputeStats | unfurl/job.py:586-596 | `total` is the number of tasks; `skipped` counts tasks without a truthy status; `unknown` is 0; each other status counts its tasks; `changed` counts modified results |
| Options.CountModified | unfurl/job.py:596 | the loop counts exactly the tasks whose result reports modified |
| Options.CountStatus | unfurl/job.py:591-595 | one group's size is the number of tasks with that key |
| Options.GroupsPartitionTasks | unfurl/job.py:588-595 | the groups partition the tasks: their sizes add up to the total |
| Options.MissingStatusIsSkipped | unfurl/job.py:588-593 | a task with no status, or an unknown one, is counted as skipped |
| Job.Instance.constructor | unfurl/job.py:191-198 | a new instance has no status and no change ids |
| Job.TargetStatus | unfurl/job.py:166-184 | an explicit ready state is taken; otherwise a failure that modified gives error/degraded by `required`, an unknown modification gives `unknown`, and anything else leaves the status alone |
| Job.TargetStatusAsWritten | unfurl/job.py:173 | as written, reading `result.status` raises AttributeError for every result |
| Job.ExplicitStatusLost | unfurl/job.py:173-175 | a status the configurator set explicitly is lost as written and kept when corrected |
| Job.FinishedStatus | unfurl/job.py:232 | a finished task is `ok` iff its result reports success, else `error` |
| Job.PretendSuccessAsWritten | unfurl/job.py:436-438 | the planning-only result is applied, modified and ok, and its success is left unset |
| Job.PretendSuccess | unfurl/job.py:436-438 | the corrected planning-only result also reports success |
| Job.PretendSuccessRecordedAsError | unfurl/job.py:432-440 | the local status `finished` gives a pretended success (unfurl/job.py:232) is error as written and ok corrected; on the unmodified code `finished` raises at unfurl/job.py:173 before it sets that status |
| Job.LaterChangesWin | unfurl/job.py:214-219 | merging the change sets left to right, each key takes the value of the last change set holding it |
| Job.MergedKeys | unfurl/job.py:214-219 | the merged change set has exactly the keys of all change sets |
| Job.TargetsInclude | unfurl/job.py:668-678 | every subtask's target, at any depth, is in the frame of the configurator script |
| Job.CandidateTargetsInclude | unfurl/job.py:425-443 | every candidate's target and subtask targets are in the frame of `run` |
| Job.ConfigTask.Priority | unfurl/job.py:123-135 | the stored priority when one is set, else the spec's `shouldRun()` default |
| Job.ConfigTask.constructor | unfurl/job.py:101-115 | `parentId or job.changeId` with 0 counted as absent; the change id starts as the parent id; no result, changes or errors |
| Job.ConfigTask.AddError | unfurl/job.py:340 | the message is appended to the task's errors; nothing else changes |
| Job.ConfigTask.Start | unfurl/job.py:143-164 | the configurator and its generator exist afterwards |
| Job.ConfigTask.Done | unfurl/configurator.py:358-397 | the result is `done` with the task's own `required`; a captured exception is appended to the task's errors; nothing else changes |
| Job.ConfigTask.CommitChanges | unfurl/job.py:235-242 | the change set of one `send` is appended to the change list |
| Job.ConfigTask.UpdateStatus | unfurl/job.py:166-184 | the target's status becomes `TargetStatus` of the result; its change ids are untouched |
| Job.ConfigTask.UpdateLastChange | unfurl/job.py:186-198 | a first change always records the config change id; the state change id is set iff the result modified or attributes changed |
| Job.ConfigTask.MergeChangeList | unfurl/job.py:214-223 | the change list is emptied, and its merge, when it was non-empty, is committed |
| Job.ConfigTask.Finished | unfurl/job.py:200-233 | the generator is closed; the outputs and result are stored; a new change id is taken; the change sets are merged; the target status and change ids are updated; the task is ok iff success |
| Job.FirstIndex | unfurl/job.py:481 | the position of the first element equal to `x`: it holds `x`, and no earlier element does |
| Job.RemoveFirst | unfurl/job.py:481 | `list.remove` drops one occurrence: one shorter, the same multiset minus that element, and the tail when `x` comes first |
| Job.RemoveFirstKeepsOrder | unfurl/job.py:481 | the occurrence dropped is the first one, at `FirstIndex`, and the other elements keep their order |
| Job.Runner.constructor | unfurl/job.py:694-698 | the counter starts at the manifest's last change id, with no current job |
| Job.Runner.IncrementChangeId | unfurl/job.py:726-728 | returns the next id, one more than the last issued |
| Job.Runner.AddWork | unfurl/job.py:700-708 | the task is registered under its work key in the current job and in the task's own job |
| Job.Job.constructor | unfurl/job.py:315-331 | the job takes the next change id, its dry-run flag from the options, and starts with no work and an empty queue |
| Job.Job.CreateTask | unfurl/job.py:333-350 | the new task belongs to this job with the given spec and target and the parent id rule; its configurator exists iff creation did not fail, and a creation that fails is recorded as "unable to create task" |
| Job.Job.ShouldRunTask | unfurl/job.py:491-517 | the answer comes from the configurator once it exists, else from the priority; it is normalised and stored; the task runs iff above ignore; an exception is a task error and the task does not run |
| Job.Job.CantRunTask | unfurl/job.py:519-572 | returns `CantRunMessage` of the checks, and records a task error exactly when a check raised |
| Job.Job.RunJobRequest | unfurl/job.py:479-489 | a request that is not queued raises ValueError; otherwise it is removed and a child job is created with the child options |
| Job.Job.NewChildJob | unfurl/job.py:482-486 | the child job has this job's change id as its parent, the child options for the requested instances, and takes the next change id |
| Job.Job.DrainJobRequests | unfurl/job.py:452-456 | every queued request is run, so the queue ends empty; in this model, where child jobs are created but not run, each request takes exactly one change id |
| Job.Job.FinishRun | unfurl/job.py:682-687 | a result yielded by the configurator finishes the task with it: a new change id, ok iff it succeeded, no new error, the target status of that result, and the pending change sets merged and committed |
| Job.Job.FailRun | unfurl/job.py:663-690 | the error is recorded and the task is finished as failed, not applied, with status error; the target gets the status of that result and the pending change sets are committed |
| Job.Job.RunTask | unfurl/job.py:647-690 | a task that can't run is finished with its reason; a task that returns is finished with `RunEnding`, a new change id and the matching status, and records exactly the errors of `ScriptEnding`; subtasks nest at most 100 deep; only ValueError escapes |
| Job.Job.RunScript | unfurl/job.py:662-690 | the loop of `send`s: a task that returns is finished with `ScriptEnding` of the script, its errors, a new change id and the matching status; running out of steps or sending to a closed generator fails the task; only ValueError escapes |
| Job.Job.RunSubtask | unfurl/job.py:672-678 | a subtask below the depth bound is created with the requested spec and target and this job's change id as its parent, registered in `workDone` and in the depths, and run one level deeper; when it returns it is finished with `RunEnding` of its behaviour at depth + 1 |
| Job.Job.Dispatch | unfurl/job.py:662-690 | one `send`: the step's queued job requests are appended to the queue and its change set recorded, then the response is handled. A result, an unexpected answer or an exception stops the run with `ScriptEnding` from this step, the change sets committed and the target status set; a job request goes on, removing it from the queue, iff it is in the old queue or queued by this step, and otherwise raises ValueError with the queue unchanged; a subtask request goes on with the same `ScriptEnding` ahead |
| Job.Job.Respond | unfurl/job.py:668-690 | a response that ends the run finishes the task with `ScriptEnding` from this step and sets the target status; a job request goes on iff it is queued, and then it is removed, else ValueError is raised and the queue is unchanged; a subtask request below the bound goes on with the same ending ahead, at the bound it closes the generator with `TooDeep`; only ValueError escapes |
| Job.Job.SubtaskRequest | unfurl/job.py:668-678 | at the depth bound the task gets "too many subtasks spawned", is finished with the unsuccessful result and its generator closes, with the queue unchanged; below it the task is untouched and a fresh subtask with the requested spec and target, parented by this job's change id, is registered and, when the loop goes on, finished with `RunEnding` at depth + 1; either way the loop goes on unless ValueError escapes |
| Job.Job.EndRun | unfurl/job.py:680-690 | a result finishes the task with it; an exception or an unexpected answer records "configurator.run failed" or "unexpected result from configurator" and finishes it with the error result; either way `ScriptEnding` of that step, a new change id, the target status and the commit of the change sets |
| Job.FirstResultEnds | unfurl/job.py:662-687 | a script whose steps before a result are only job requests and subtask requests below the bound ends with that result and records no error |
| Job.SuccessIsYielded | unfurl/job.py:662-690 | every ending is either the error result or a result some later step yielded |
| Job.Job.PlanTask | unfurl/job.py:432-440 | planning only: a task that can run is finished with the corrected `Job.PretendSuccess`, whose success is True, and any other with a not-applied result |
| Job.Job.RunCandidate | unfurl/job.py:426-443 | one proposed task is registered under its work key; a task that should not run, or any task when planning only, returns normally with only its key added to `workDone`; on return the task is `Handled`: untouched when it should not run, finished with the planned result when planning only, otherwise finished, with its can't-run reason when it could not run; only ValueError escapes |
| Job.Job.RunCandidates | unfurl/job.py:424-448 | the loop over the proposed tasks: on return every one of them is `Handled` and registered in `workDone`; subtask depths only grow, each within the bound |
| Job.Job.RunNext | unfurl/job.py:426-443 | one round of that loop keeps every earlier task `Handled` and registered, and adds the next one |
| Job.Job.Run | unfurl/job.py:420-456 | each proposed task ends `Handled` and registered in `workDone`; then the job request queue is drained, so a successful run ends with an empty queue; only ValueError escapes |
| Ansible.FirstPresent | unfurl/configurators/ansible.py:47-51 | the first of the keys present in the raw result, or none exactly when no key is present |
| Ansible.MappedEntries | unfurl/configurators/ansible.py:41-51 | each normalised name holds its first present source key's value, and is absent iff none is present |
| Ansible.WithExtrasEntries | unfurl/configurators/ansible.py:52-54 | an extra key present in the raw result is copied unchanged; other keys are untouched |
| Ansible.CollectFactsFromDict | unfurl/configurators/ansible.py:60-62 | from a dict of facts, exactly the requested facts it holds are collected |
| Ansible.NormalisedEntries | unfurl/configurators/ansible.py:41-54 | `exception` wins over `module_stderr` and `stdout` over `module_stdout`; an extra key present is copied; a name without any source key is absent |
| Ansible.FactOutputsExact | unfurl/configurators/ansible.py:56-62 | the outputs are exactly the requested facts present in `ansible_facts`, and empty without requests or facts |
| Ansible.GetAnsibleResults | unfurl/configurators/ansible.py:21-63 | the three loops compute `AnsibleResults` |
| Ansible.MapResultKeys | unfurl/configurators/ansible.py:39-51 | the key-map loop with its inner search computes the normalised entries |
| Ansible.CopyExtraKeys | unfurl/configurators/ansible.py:52-54 | the extra-keys loop computes the copied entries |
| Ansible.CopyFacts | unfurl/configurators/ansible.py:56-62 | the facts loop computes the outputs, including the TypeError of a non-dict `ansible_facts` that answers `in` |
| Ansible.AnsibleEndpoint | unfurl/configurators/ansible.py:101-108 | the first Ansible endpoint, or none exactly when there is none |
| Ansible.ConnectionVars | unfurl/configurators/ansible.py:110-114 | exactly the present port, host, connection and user are prefixed with `ansible_` |
| Ansible.EndpointVars | unfurl/configurators/ansible.py:109-119 | `hostvars` overlays the connection variables; `ansible_host` is filled from a truthy `ip_address` only when still absent |
| Ansible.HostVars | unfurl/configurators/ansible.py:99-119 | no variables without an Ansible endpoint |
| Ansible.GetHostVars | unfurl/configurators/ansible.py:99-119 | the for-else search and the variables computed from it equal `HostVars` |
| Ansible.UpdatedVars | unfurl/configurators/ansible.py:121-131 | an error iff a truthy credential is not a dict or its entries fail, or `hostvars` is not a dict; otherwise the connection's `hostvars` win and no host variable is dropped |
| Ansible.CredentialVars | unfurl/configurators/ansible.py:122-130 | a token without a string `token_type`, or non-dict `keys`, is an error; the `keys` are all stored; the token is stored under `ansible_<token_type>` and the user under `ansible_user` unless a later write overrides them |
| Ansible.OverrideOrder | unfurl/configurators/ansible.py:124-131 | `hostvars` override the credential `keys`, which override the user and the token |
| Ansible.TokenNameDistinct | unfurl/configurators/ansible.py:124-128 | the token lands on `ansible_user` exactly when its type is `user` |
| Ansible.HostVarsDict.UpdateVars | unfurl/configurators/ansible.py:121-131 | the dict ends as `UpdatedVars` says, including the partial update left by an exception |
| Ansible.CredentialsStored | unfurl/configurators/ansible.py:122-131 | the user goes to `ansible_user` and the token goes under `ansible_<token_type>`; the connection's `hostvars` override both |
| Ansible.MissingTokenType | unfurl/configurators/ansible.py:124-128 | a token without a type raises KeyError after the user is already written |
| Ansible.InventoryFromGroupAsWritten | unfurl/configurators/ansible.py:86-97 | the inventory of a group as written, whose vars are the group's properties |
| Ansible.InventoryFromGroup | unfurl/configurators/ansible.py:86-97 | the corrected group inventory, whose vars are the group's properties |
| Ansible.MakeInventoryFromGroup | unfurl/configurators/ansible.py:86-97 | the members loop, the children loop and the recursion compute `InventoryFromGroup` |
| Ansible.ChildKeys | unfurl/configurators/ansible.py:92-94 | the child keys are exactly the Ansible inventory member groups |
| Ansible.ChildrenKeyedByObject | unfurl/configurators/ansible.py:94 | as written, every child key is a group object, never a name |
| Ansible.ChildrenKeyedByName | unfurl/configurators/ansible.py:92-94 | corrected, a name is a child key iff some Ansible member group has it |
| Ansible.HostsNamed | unfurl/configurators/ansible.py:90-91 | a group's hosts are exactly its members' names |
| Ansible.HostsLastWins | unfurl/configurators/ansible.py:90-91 | each host's variables are those of the last member with that name |
| Ansible.InventoryHosts | unfurl/configurators/ansible.py:86-97 | a group's inventory has the group's properties as vars, a host per member name, each with the last such member's variables |
| Ansible.ChildrenLastWins | unfurl/configurators/ansible.py:92-94 | each child is the inventory of the last Ansible member group with its key |
| Ansible.GroupChildren | unfurl/configurators/ansible.py:141-145 | the host's groups are keyed by name |
| Ansible.GroupChildrenKeys | unfurl/configurators/ansible.py:141-145 | a name is a child iff one of the host's groups is an Ansible group with that name |
| Ansible.GroupChildrenLastWins | unfurl/configurators/ansible.py:141-145 | each child is the inventory of the last Ansible group with that name |
| Ansible.MakeInventory | unfurl/configurators/ansible.py:133-147 | an exception iff the host variables, the credential update or a group inventory raises; otherwise exactly the one host, with its variables updated from the connection when there is one, the shared vars, and the groups' children |
| Ansible.MakePlayBook | unfurl/configurators/ansible.py:183-193 | a non-list is rejected; an empty list, or one whose first item has `hosts`, is returned unchanged; an exception from that test propagates; otherwise the list becomes the `tasks` of a single play |
| Ansible.BareTasksWrapped | unfurl/configurators/ansible.py:186-191 | a task list whose first item has no `hosts` becomes one play on the operation host or localhost, without gathering facts, with a local connection iff on localhost |
| Ansible.MakePlayBookIdempotent | unfurl/configurators/ansible.py:183-193 | wrapping a wrapped playbook changes nothing |
| Ansible.GetPlaybookArgs | unfurl/configurators/ansible.py:209-219 | the given arguments, a single value wrapped, and then in order `--check` iff dry run, `--timeout=N` iff a timeout is set, and `-v...v` iff verbose is non-zero |
| Ansible.VerbosityFlag | unfurl/configurators/ansible.py:217-218 | the flag has one `v` per verbosity level, and a negative level gives a bare `-` |
| Ansible.ResultCallback.constructor | unfurl/configurators/ansible.py:312-320 | no results, nothing changed, four empty buckets |
| Ansible.ResultCallback.AddResult | unfurl/configurators/ansible.py:329-336 | exactly one result is appended; `changed` grows iff it reports changed; it is appended to its task name's list in its status bucket; no other bucket changes; the invariant is kept |
| Ansible.BucketedAdd | unfurl/configurators/ansible.py:334-336 | after an addition, every bucketed result is still one of the results, filed under its own task name |
| Ansible.LaterTasksWin | unfurl/configurators/ansible.py:268-270 | the merge runs left to right, so each key comes from the last task result holding it |
| Ansible.MergeResultsAsWritten | unfurl/configurators/ansible.py:262-270 | as written, no task results make the unpacking raise ValueError |
| Ansible.MergeResults | unfurl/configurators/ansible.py:262-270 | corrected, no task results give empty results and outputs; otherwise the same as written |
| Ansible.NoTaskResults | unfurl/configurators/ansible.py:262-267 | with no task results, the code as written raises and the corrected code gives two empty dicts |
| Ansible.PlaybookStatus | unfurl/configurators/ansible.py:245-250 | the status is ok iff ansible exited with 0 and no task failed, else error |
| Ansible.CountChangedPositive | unfurl/configurators/ansible.py:272-273 | `changed > 0` iff some task result reports a change |
| Ansible.ModifiedOf | unfurl/configurators/ansible.py:272-280 | nothing changed gives False; changes with a failed and changed task give `Status.error`; other changes give True |
| Ansible.RunResult | unfurl/configurators/ansible.py:245-286 | corrected: raises exactly when merging the task results raises, with the same error; otherwise the merged results and outputs are the result's |
| Ansible.RunResultAsWritten | unfurl/configurators/ansible.py:260 | as written: without an `outputs` attribute on the spec, the run raises AttributeError; with one, it is the corrected run |
| Ansible.OutputsLookupRaises | unfurl/configurators/ansible.py:260 | a configuration spec has no `outputs` attribute, so every playbook run raises AttributeError as written, while the corrected run returns whenever the results merge |
| Ansible.RunResultMeaning | unfurl/configurators/ansible.py:245-286 | the run succeeds iff ansible exited cleanly, no task failed and the task has no errors; it modifies iff something changed; a failed change leaves the target in error |
| Ansible.ProcessOnlyOnSuccess | unfurl/configurators/ansible.py:287-294 | results are processed iff the run is ok and produced results or outputs |

## Left out

- `Configurator.TaskView.AddDependency`: `expr.asRef()` references and the
  `Dependency`'s evaluation (`refresh`, `hasChanged`) are not modelled. They depend on
  the expression language, which is not part of this model.
- `TaskView.inputs`, `environ`, `getSettings`, `query`, `findResource`, `createSubTask`
  and `updateResources` are not modelled. They resolve expressions and load YAML in
  modules outside this model.
- `ConfigurationSpec.findInvalidateInputs`, `findInvalidPreconditions` and `create` are
  not modelled as code. Their answers are the `Probe` fields and `createFails`, because
  they call the schema validator and the class loader.
- `Configurator.GetSystemVars`: the process environment is a parameter. Glob patterns
  in `passvars` are not supported by the source either.
- Python generators are not modelled as such. A configurator's `run` is a finite script
  of responses. Sending to a closed or exhausted generator is the exception that
  finishes the task with "configurator.run failed", and its `commitChanges` records an
  empty change set.
- `Job.Job.RunJobRequest`: the child job is created and takes its change id, but it is
  not run. Running it needs the plan of `Plan.executePlan`, which is not part of this
  model.
- `Job.Job.Run`: the candidate tasks are given as a sequence. `getCandidateTasks` itself
  is not modelled: its error tasks and filtering come from the plan generator, and
  `isConfigAlreadyHandled` always answers None. `shouldAbort` always answers False, so
  its early returns are left out.
- `Job.Job.DrainJobRequests`: its exact count of one change id per request, and its
  unchanged `workDone`, hold only because the child jobs are not run (see
  `Job.Job.RunJobRequest`). A child job that ran would take more ids and add work.
- `Job.Job.RunTask`: the target's status is stated by the step that finishes the task
  (`Job.Job.Respond`, `Job.Job.EndRun`) and not across the whole run, because a subtask
  may update the same target afterwards in the source's order of events.
- `Ansible.GetAnsibleResults`: the docstring of `getAnsibleResults` (unfurl/configurators/ansible.py:22-30)
  promises `msg`, `stdout`, `returncode` and `error` in every result; the code, and the
  model with it, sets only the keys that are present in Ansible's result.
- `Runner.createJob` is not modelled; its unknown-workflow error needs the plan
  registry. `Runner.run`, `summary`, `jsonSummary`, `getOutputs`, `runQuery` and
  `validateJobOptions` are process plumbing, logging and reporting.
- `Job.ConfigTask.Finished`: `mergeDicts` is a parameter. Only the shallow merge
  `Override` has its properties proved (`LaterChangesWin`, `MergedKeys`).
  `_resourceChanges.updateChanges` is recorded as the committed change set, and
  `getAttributeChanges` is the behaviour's `attributeChanges` flag.
- `Job.ConfigTask.Start`: the `configurator` property is the `configuratorCreated` flag.
  `createTask` sets it unless the creation failed (`createFails`, which also stands for
  `task.inputs` raising). `start` is taken to succeed, so the retry of a failed creation
  that the property makes on first use is not modelled.
- `ConfigTask.hasInputsChanged`, `hasDependenciesChanged`, `refreshDependencies` and
  `summary` are not modelled; they read the change record and the expression language.
- `Options.ComputeStats` works on the sequence of the tasks' statuses and modified flags
  rather than on `workDone`. The `asMessage` text is not modelled.
- `Options.NormalisePriority`: `toEnum` is defined in a module that is not part of this
  model. A non-bool answer is taken as already converted to a `Priority`; the conversion
  of a priority name or number, and its error for an unknown one, are not modelled.
- `Installer.IsPlainCommand`: only ASCII letters, digits and `_` count as `\w`.
- Insertion order of dicts and `OrderedDict`s is not modelled; maps stand for them.
- `str()` of containers and objects is a placeholder (`Values.PyStr`), because their
  `repr` is not modelled.
- `Ansible.TaskResult`: the raw result is the dict after Ansible's `clean_copy`, which
  is Ansible's code. `failed` is the answer of `is_failed()`, and `is_changed()` is read
  as the `changed` key.
- `Ansible.EndpointVars`: a `hostvars` value that is not a dict raises TypeError here.
  Python's `dict.update` also accepts a sequence of pairs.
- `Ansible.UpdatedVars`: a truthy `credential` that is not a dict raises TypeError here.
  Python raises only once `user`, `token` or `keys` is found in it. Credential `keys` or
  `hostvars` that are not a dict also raise TypeError here, while Python's `dict.update`
  accepts an iterable of pairs and raises ValueError for a string.
- `Ansible.CredentialVars`: non-dict `keys` raise TypeError here, while Python's
  `dict.update` accepts an iterable of pairs and raises ValueError for a string.
- `Ansible.HostVarsDict.UpdateVars`: like `Ansible.UpdatedVars`, which it is proved
  equal to, it raises TypeError for `keys` or `hostvars` that are not a dict. Python's
  `dict.update` accepts an iterable of pairs and raises ValueError for a string.
- `Installer.OperationEntry`: a truthy `shared` that is not a dict raises TypeError here.
  Python's `dict(shared, **attributes)` also accepts an iterable of pairs, and raises
  ValueError for a string.
- `Installer.FindOperationEntry`: computes `Installer.OperationEntry`, so a `shared` that
  is an iterable of pairs raises TypeError here, not ValueError or a merge.
- `Installer.SpecFromInstaller`: installer `inputs` that are not a dict raise TypeError
  here when the caller passes inputs; Python's `dict(installerInputs, **inputs)` also
  accepts an iterable of pairs and raises ValueError for a string. `operations` that are
  not a dict raise TypeError, while Python also takes any container that answers `in`.
- `Installer.GetConfigSpecFromInstaller`: computes `Installer.SpecFromInstaller`, with
  the same TypeError for installer inputs or `shared` given as an iterable of pairs.
- `Ansible.GetPlaybookArgs`: returns a new list. The source appends to the
  `playbookArgs` input list itself, so it is changed in place; that aliasing is not
  modelled. Verbosity follows the code: any non-zero level adds the flag.
- `Ansible.MakePlayBook`: `assertForm`'s exception is modelled as AssertionError.
- `Ansible.RunResult`: `getResultKeys` gives no keys, and `factKeys` stands for the names
  of the operation's declared outputs, which the code as written cannot read (see
  "## Findings"). `_processResult` itself is left
  out, because it evaluates the result template and updates resources; only the
  condition under which it runs is modelled (`ProcessesResult`).
- `getInventory`, `getPlaybook`, `findPlaybook`, `getVars` and `_cleanup` are not
  modelled. They write temporary files and read the task's expression context.
- `runPlaybooks` and the superclass callbacks of `ResultCallback` are not modelled; they
  drive the Ansible command line. Their effect is the `ResultCallback` state: results,
  buckets, `changed` and `exitCode`.
- `canDryRun` of the Ansible configurator always answers True; it is an answer in the
  job's `Probe`.

## Findings

| source | as written | input that shows it | evidently intended | confidence | as-written member | corrected member |
|---|---|---|---|---|---|---|
| unfurl/job.py:173 | `_updateStatus` reads `result.status`, but `ConfiguratorResult` stores the status as `readyState` (unfurl/configurator.py:205) and has no `status` | any finished task, e.g. a result `ConfiguratorResult(True, True, Status.ok)` | read `result.readyState` | medium; not executed | Job.TargetStatusAsWritten, Job.ExplicitStatusLost | Job.TargetStatus |
| unfurl/configurator.py:210 | the constructor sets `self.exception = None`, discarding its `exception` argument | `task.done(False, captureException="boom")` | `self.exception = exception` | high; not executed | Configurator.NewResultAsWritten, Configurator.CapturedExceptionLost | Configurator.NewResult |
| unfurl/configurator.py:174 | `self.inputSchema == self.inputSchema` compares the spec's schema with itself | two specs that differ only in `inputSchema` compare equal | `self.inputSchema == other.inputSchema` | high; not executed | Configurator.SpecEqAsWritten, Configurator.SpecEqIgnoresInputSchema | Configurator.SpecEq |
| unfurl/job.py:436-438 | the planning-only "pretend success" result leaves `success` None, so once the `result.status` defect of unfurl/job.py:173 is corrected, `finished` sets the task's status to error (unfurl/job.py:232); as written, `finished` raises AttributeError in `_updateStatus` (unfurl/job.py:229, unfurl/job.py:173) before it reaches line 232 | a job with `planOnly=True` and a task that can run | pass `success=True` | medium; not executed | Job.PretendSuccessAsWritten, Job.PretendSuccessRecordedAsError | Job.PretendSuccess |
| unfurl/configurators/ansible.py:262-267 | `resultList, outputList = zip(*...)` raises ValueError when ansible reports no task results; as written, line 260 raises before this point | a playbook that runs no task | empty results and outputs | medium; not executed | Ansible.MergeResultsAsWritten, Ansible.NoTaskResults | Ansible.MergeResults |
| unfurl/configurators/ansible.py:94 | a child group is keyed by the group object, while `_makeInventory` keys groups by name (unfurl/configurators/ansible.py:142) | a group with a member group that is an Ansible inventory group | `children[child.name]` | medium; not executed | Ansible.InventoryFromGroupAsWritten, Ansible.ChildrenKeyedByObject | Ansible.InventoryFromGroup, Ansible.ChildrenKeyedByName |
| unfurl/configurators/ansible.py:260 | `list(task.configSpec.outputs)` reads an `outputs` attribute that `ConfigurationSpec` (unfurl/configurator.py:104-133) does not define, so it raises AttributeError | any playbook run that reaches the results | the names of the operation's declared outputs | medium; not executed | Ansible.RunResultAsWritten, Ansible.OutputsLookupRaises | Ansible.RunResult |
| unfurl/job.py:558 | `task.configurator.canRun(task)` calls a method that `Configurator` (unfurl/configurator.py:235-266) does not define: it defines `cantRun`. The AttributeError is caught, so every task is declined as "unexpected exception in cantRunTask" | any task whose spec, inputs and preconditions are valid; configurator subclasses outside this model might define `canRun` | call `cantRun` and run iff its answer is falsy | medium; not executed | Options.CanRunAsWritten, Options.CanRunLookupRaises | Options.CanRunOf, Options.CantRunDecides |
| unfurl/job.py:356 | `config.required` reads an attribute that `ConfigurationSpec` (unfurl/configurator.py:104-133) does not define, so a `requiredOnly` job raises AttributeError in `filterConfig` | a job with `requiredOnly=True` and any configuration that is not filtered as read only | the spec's `shouldRun()` is `required` | low; not executed | Options.SpecRequiredAsWritten, Options.RequiredOnlyRaises | Options.SpecRequired, Options.RequiredOnlyKeepsSpecs |
