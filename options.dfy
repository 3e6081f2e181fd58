/**
 * Job options and the pure decision rules of a job (unfurl/job.py):
 * option defaults and the user's overrides, the per-task filter chain,
 * the normalisation of a "should run" answer, the "can't run" decision and
 * the job statistics.
 */
module Options {
  import opened Wrappers
  import opened Values
  import opened Support

  /** `JobOptions.defaults` */
  const Defaults: map<string, Value> := map[
    "parentJob" := Null, "startTime" := Null, "out" := Null, "verbose" := Int(0),
    "instance" := Null, "instances" := Null, "template" := Null, "useConfigurator" := Bool(false),
    "add" := Bool(true), "update" := Bool(true), "repair" := Str("error"), "upgrade" := Bool(false),
    "all" := Bool(false), "verify" := Bool(false), "readonly" := Bool(false), "dryrun" := Bool(false),
    "planOnly" := Bool(false), "requiredOnly" := Bool(false), "prune" := Bool(false), "append" := Null,
    "replace" := Null, "commit" := Bool(true), "dirty" := Bool(false), "workflow" := Str(DefaultWorkflow)]

  /** A `JobOptions` object: its attributes and the keywords it was built from (`userConfig`). */
  datatype JobOptions = JobOptions(options: map<string, Value>, userConfig: map<string, Value>) {
    /** Reading an option attribute. */
    function Opt(name: string): Value {
      Get(options, name, Null)
    }
  }

  /** `JobOptions(**kw)` */
  function MakeJobOptions(kw: map<string, Value>): (o: JobOptions)
    ensures o.userConfig == kw
    ensures o.options.Keys == Defaults.Keys + kw.Keys
    ensures forall k :: k in kw ==> o.options[k] == kw[k]
    ensures "instance" !in kw ==> o.options["instance"] == Get(kw, "resource", Null)
    ensures forall k :: k in Defaults && k !in kw && k != "instance" ==> o.options[k] == Defaults[k]
  {
    JobOptions(Defaults["instance" := Get(kw, "resource", Null)] + kw, kw)
  }

  /** `getUserSettings`: the user's keywords that name an option, other than `out`, whose value is not the default. */
  function GetUserSettings(o: JobOptions): (settings: map<string, Value>)
    ensures forall k :: k in settings <==>
      k in o.userConfig && k in Defaults && k != "out" && !PyEq(o.userConfig[k], Defaults[k])
    ensures forall k :: k in settings ==> settings[k] == o.userConfig[k]
  {
    map k | k in o.userConfig && k in Defaults && k != "out" && !PyEq(o.userConfig[k], Defaults[k])
      :: o.userConfig[k]
  }

  /** Passing the defaults explicitly is not a user setting. */
  lemma DefaultsAreNotSettings(kw: map<string, Value>)
    requires forall k :: k in kw && k in Defaults ==> kw[k] == Defaults[k]
    ensures GetUserSettings(MakeJobOptions(kw)) == map[]
  {
    forall k | k in kw && k in Defaults
      ensures PyEq(kw[k], Defaults[k])
    {
      PyEqReflexive(kw[k]);
    }
  }

  /** The reported settings are options the job actually runs with. */
  lemma SettingsAreOptions(kw: map<string, Value>)
    ensures var o := MakeJobOptions(kw);
      forall k :: k in GetUserSettings(o) ==> o.options[k] == GetUserSettings(o)[k]
  {
  }

  // ---------------------------------------------------------------------------
  // Job.filterConfig

  /**
   * `filterConfig(config, target)`: None when the configuration passes every
   * filter, else the name of the first filter it fails. `workflow` is
   * `config.workflow`; `required` is `config.required`, None when the spec has
   * no such attribute.
   */
  function FilterConfig(o: JobOptions, workflow: Value, required: Option<Value>, targetName: string)
    : (r: Outcome<Option<string>>)
    ensures Truthy(o.Opt("readonly")) && !PyEq(workflow, Str("discover")) ==> r == Returns(Some("read only"))
    ensures r == Returns(None) ==>
      && (!Truthy(o.Opt("readonly")) || PyEq(workflow, Str("discover")))
      && (!Truthy(o.Opt("requiredOnly")) || (required.Some? && Truthy(required.value)))
      && (!Truthy(o.Opt("instance")) || PyEq(Str(targetName), o.Opt("instance")))
      && (!Truthy(o.Opt("instances")) || Contains(o.Opt("instances"), Str(targetName)) == Returns(true))
  {
    if Truthy(o.Opt("readonly")) && !PyEq(workflow, Str("discover")) then Returns(Some("read only"))
    else if Truthy(o.Opt("requiredOnly")) && required.None? then Raises(AttributeError("required"))
    else if Truthy(o.Opt("requiredOnly")) && !Truthy(required.value) then Returns(Some("required"))
    else if Truthy(o.Opt("instance")) && !PyEq(Str(targetName), o.Opt("instance")) then Returns(Some("instance"))
    else if !Truthy(o.Opt("instances")) then Returns(None)
    else
      match Contains(o.Opt("instances"), Str(targetName))
      case Raises(e) => Raises(e)
      case Returns(found) => if found then Returns(None) else Returns(Some("instances"))
  }

  /** Each filter is reached only when the ones before it pass: a failure names the first failing check. */
  lemma FilterOrder(o: JobOptions, workflow: Value, required: Option<Value>, targetName: string)
    ensures var r := FilterConfig(o, workflow, required, targetName);
      var readonlyFails := Truthy(o.Opt("readonly")) && !PyEq(workflow, Str("discover"));
      var requiredPasses := !Truthy(o.Opt("requiredOnly")) || (required.Some? && Truthy(required.value));
      var requiredFails := Truthy(o.Opt("requiredOnly")) && required.Some? && !Truthy(required.value);
      var instanceFails := Truthy(o.Opt("instance")) && !PyEq(Str(targetName), o.Opt("instance"));
      var instancesPass := !Truthy(o.Opt("instances")) || Contains(o.Opt("instances"), Str(targetName)) == Returns(true);
      && (r == Returns(Some("read only")) <==> readonlyFails)
      && (r == Returns(Some("required")) <==> !readonlyFails && requiredFails)
      && (r == Returns(Some("instance")) <==> !readonlyFails && requiredPasses && instanceFails)
      && (r == Returns(None) <==> !readonlyFails && requiredPasses && !instanceFails && instancesPass)
  {
  }

  /**
   * `config.required` as written: `ConfigurationSpec` (unfurl/configurator.py)
   * sets no `required` attribute, so the lookup finds none.
   */
  function SpecRequiredAsWritten(): (r: Option<Value>)
    ensures r.None?
  {
    var attributes := {"name", "operation", "className", "majorVersion", "minorVersion", "workflow", "timeout",
                       "environment", "inputs", "inputSchema", "preConditions", "postConditions", "installer"};
    if "required" in attributes then Some(Bool(true)) else None
  }

  /** As written, a `requiredOnly` job raises AttributeError for every configuration the read-only filter lets through. */
  lemma RequiredOnlyRaises(o: JobOptions, workflow: Value, targetName: string)
    requires Truthy(o.Opt("requiredOnly"))
    ensures FilterConfig(o, workflow, SpecRequiredAsWritten(), targetName) ==
      if Truthy(o.Opt("readonly")) && !PyEq(workflow, Str("discover")) then Returns(Some("read only"))
      else Raises(AttributeError("required"))
  {
  }

  /** `config.required` read as "the spec's `shouldRun()` is `required`", which `Defaults.shouldRun` is. */
  function SpecRequired(): (r: Option<Value>)
    ensures r == Some(Bool(true))
  {
    Some(Bool(DefaultShouldRun == Required))
  }

  /** Corrected, the `requiredOnly` filter keeps every configuration: the result is that of the same job without it. */
  lemma RequiredOnlyKeepsSpecs(o: JobOptions, workflow: Value, targetName: string)
    ensures FilterConfig(o, workflow, SpecRequired(), targetName) != Returns(Some("required"))
    ensures FilterConfig(o, workflow, SpecRequired(), targetName)
         == FilterConfig(o.(options := o.options["requiredOnly" := Bool(false)]), workflow, SpecRequired(), targetName)
  {
  }

  /** `[r.name for r in instances]` as a Python list of strings. */
  function StrList(names: seq<string>): (v: Value)
    ensures v.List? && |v.items| == |names| && forall i :: 0 <= i < |names| ==> v.items[i] == Str(names[i])
  {
    List(seq(|names|, i requires 0 <= i < |names| => Str(names[i])))
  }

  /** The options of a child job (`runJobRequest`): repair none, rerun all, only the requested instances. */
  function ChildJobOptions(parent: Value, instanceNames: seq<string>): (o: JobOptions)
    ensures o.Opt("parentJob") == parent && o.Opt("repair") == Str("none") && o.Opt("all") == Bool(true)
    ensures o.Opt("instances") == StrList(instanceNames)
    ensures o.Opt("readonly") == Bool(false) && o.Opt("requiredOnly") == Bool(false) && o.Opt("instance") == Null
  {
    var kw := map["parentJob" := parent, "repair" := Str("none"), "all" := Bool(true),
                  "instances" := StrList(instanceNames)];
    assert "readonly" !in kw && "requiredOnly" !in kw && "instance" !in kw && "resource" !in kw;
    assert Defaults["readonly"] == Bool(false);
    assert Defaults["requiredOnly"] == Bool(false);
    MakeJobOptions(kw)
  }

  /** A child job keeps exactly the configurations whose target is one of the requested instances. */
  lemma ChildJobFiltersByInstance(parent: Value, instanceNames: seq<string>, workflow: Value,
                                  required: Option<Value>, targetName: string)
    requires instanceNames != []
    ensures FilterConfig(ChildJobOptions(parent, instanceNames), workflow, required, targetName)
         == if targetName in instanceNames then Returns(None) else Returns(Some("instances"))
  {
    var o := ChildJobOptions(parent, instanceNames);
    var items := StrList(instanceNames).items;
    assert !Truthy(o.Opt("readonly")) && !Truthy(o.Opt("requiredOnly")) && !Truthy(o.Opt("instance"));
    assert Truthy(o.Opt("instances"));
    if targetName in instanceNames {
      var i :| 0 <= i < |instanceNames| && instanceNames[i] == targetName;
      assert items[i] == Str(targetName);
      PyEqReflexive(Str(targetName));
    } else {
      forall i | 0 <= i < |items| ensures !PyEq(items[i], Str(targetName)) {
        assert items[i] == Str(instanceNames[i]);
      }
    }
  }

  // ---------------------------------------------------------------------------
  // Job.shouldRunTask: normalising the answer

  /** What `configurator.shouldRun(task)` or `task.priority` gives: a bool or a Priority. */
  datatype ShouldRunAnswer = BoolAnswer(b: bool) | PriorityAnswer(p: Priority)

  /**
   * `priority and Priority.required or Priority.ignore` for a bool, `toEnum(Priority, priority)` otherwise.
   * `toEnum` is not part of this model: a non-bool answer is taken as already converted to a `Priority`.
   */
  function NormalisePriority(answer: ShouldRunAnswer): (p: Priority)
    ensures answer == BoolAnswer(true) ==> p == Required
    ensures answer == BoolAnswer(false) ==> p == Ignore
    ensures answer.PriorityAnswer? ==> p == answer.p
  {
    match answer
    case BoolAnswer(b) => if b then Required else Ignore
    case PriorityAnswer(p) => p
  }

  /** A task runs iff its normalised priority is above `ignore`: a bool answer runs iff it is True. */
  lemma ShouldRunIff(answer: ShouldRunAnswer)
    ensures NormalisePriority(answer).Above(Ignore) <==>
      (answer.BoolAnswer? && answer.b) || (answer.PriorityAnswer? && answer.p != Ignore)
  {
  }

  // ---------------------------------------------------------------------------
  // Job.cantRunTask: the decision

  /** What the checks of `cantRunTask` observe; a call that raises is the `Raises` of its Outcome. */
  datatype RunChecks = RunChecks(
    taskErrors: bool,               // `task.errors` is non-empty
    dryRun: bool,                   // `task.dryRun`
    canDryRun: Outcome<Value>,      // `task.configurator.canDryRun(task)`
    missing: Outcome<seq<string>>,  // names of the required dependencies that are not operational
    inputErrors: Outcome<Value>,    // `configSpec.findInvalidateInputs(task.inputs)`
    preErrors: Outcome<Value>,      // `configSpec.findInvalidPreconditions(task.target)`
    canRun: Outcome<Value>)         // `task.configurator.canRun(task)`

  /**
   * Why the task can't run, or None when it can; the `raised` flag says
   * whether a check raised, which `cantRunTask` records as a task error.
   * `Str(inputErrors)` etc. stand for `str(errors)`.
   */
  datatype CantRun = CantRun(reason: Option<string>, raised: bool)

  function CantRunReason(c: RunChecks): (r: CantRun)
    ensures r.reason.None? ==>
      && !c.taskErrors
      && c.missing == Returns([])
      && c.inputErrors.Returns? && !Truthy(c.inputErrors.value)
      && c.preErrors.Returns? && !Truthy(c.preErrors.value)
      && c.canRun == Returns(Bool(true))
    ensures r.raised ==> r.reason == Some("unexpected exception in cantRunTask")
    ensures c.taskErrors ==> r == CantRun(Some("could not create task"), false)
  {
    var unexpected := CantRun(Some("unexpected exception in cantRunTask"), true);
    if c.taskErrors then CantRun(Some("could not create task"), false)
    else if c.dryRun && c.canDryRun.Raises? then unexpected
    else if c.dryRun && !Truthy(c.canDryRun.value) then CantRun(Some("dry run not supported"), false)
    else if c.missing.Raises? then unexpected
    else if c.missing.value != [] then
      CantRun(Some("missing required dependencies: " + JoinNames(c.missing.value)), false)
    else if c.inputErrors.Raises? then unexpected
    else if Truthy(c.inputErrors.value) then CantRun(Some("invalid inputs: " + PyStr(c.inputErrors.value)), false)
    else if c.preErrors.Raises? then unexpected
    else if Truthy(c.preErrors.value) then
      CantRun(Some("invalid preconditions: " + PyStr(c.preErrors.value)), false)
    else if c.canRun.Raises? then unexpected
    else if !Truthy(c.canRun.value) || !c.canRun.value.Bool? then
      CantRun(Some("configurator declined: " + PyStr(c.canRun.value)), false)
    else CantRun(None, false)
  }

  /** `",".join(names)` */
  function JoinNames(names: seq<string>): string {
    if names == [] then "" else if |names| == 1 then names[0] else names[0] + "," + JoinNames(names[1..])
  }

  /** `cantRunTask`'s return value: False when the task can run, else "could not run: " and the reason. */
  function CantRunMessage(c: RunChecks): (r: Option<string>)
    ensures r.None? <==> CantRunReason(c).reason.None?
    ensures r.Some? ==> |r.value| > 15 && r.value[..15] == "could not run: "
  {
    match CantRunReason(c).reason
    case None => None
    case Some(reason) => Some("could not run: " + reason)
  }

  /** Only a configurator that answers exactly True runs: any other truthy answer is read as declining. */
  lemma OnlyTrueRuns(c: RunChecks)
    requires !c.taskErrors && (!c.dryRun || (c.canDryRun.Returns? && Truthy(c.canDryRun.value)))
    requires c.missing == Returns([])
    requires c.inputErrors.Returns? && !Truthy(c.inputErrors.value)
    requires c.preErrors.Returns? && !Truthy(c.preErrors.value)
    ensures CantRunMessage(c).None? <==> c.canRun == Returns(Bool(true))
  {
  }

  /** The checks of `cantRunTask` before the configurator is asked whether it can run all pass. */
  predicate EarlierChecksPass(c: RunChecks) {
    && !c.taskErrors && (!c.dryRun || (c.canDryRun.Returns? && Truthy(c.canDryRun.value)))
    && c.missing == Returns([])
    && c.inputErrors.Returns? && !Truthy(c.inputErrors.value)
    && c.preErrors.Returns? && !Truthy(c.preErrors.value)
  }

  /**
   * `task.configurator.canRun` as written, on the configurators of this model:
   * `Configurator` defines `cantRun` but no `canRun`, and `AnsibleConfigurator`
   * defines neither, so the lookup raises.
   */
  function CanRunAsWritten(): (r: Outcome<Value>)
    ensures r.Raises?
  {
    var methods := {"getGenerator", "run", "canDryRun", "cantRun", "shouldRun"};
    if "canRun" in methods then Returns(Bool(true)) else Raises(AttributeError("canRun"))
  }

  /** As written, no task gets past the configurator check: it can't run, and a task that passed the earlier checks gets a task error. */
  lemma CanRunLookupRaises(c: RunChecks)
    requires c.canRun == CanRunAsWritten()
    ensures CantRunMessage(c).Some?
    ensures EarlierChecksPass(c) ==> CantRunReason(c) == CantRun(Some("unexpected exception in cantRunTask"), true)
  {
  }

  /**
   * The configurator check as evidently intended: `not task.configurator.cantRun(task)`,
   * where `cantRun` answers False, or why the task cannot run.
   */
  function CanRunOf(cantRun: Outcome<Value>): (r: Outcome<Value>)
    ensures r.Raises? <==> cantRun.Raises?
    ensures r.Returns? ==> r.value.Bool?
  {
    match cantRun
    case Raises(e) => Raises(e)
    case Returns(v) => Returns(Bool(!Truthy(v)))
  }

  /** `Configurator.cantRun`: False, there is no objection. */
  const BaseCantRun: Outcome<Value> := Returns(Bool(false))

  /**
   * Corrected, a task that passed the earlier checks runs iff its
   * configurator's `cantRun` answers something falsy, such as the base
   * `cantRun`'s False; an exception is a task error.
   */
  lemma CantRunDecides(c: RunChecks, cantRun: Outcome<Value>)
    requires c.canRun == CanRunOf(cantRun) && EarlierChecksPass(c)
    ensures CantRunMessage(c).None? <==> cantRun.Returns? && !Truthy(cantRun.value)
    ensures cantRun.Raises? <==> CantRunReason(c).raised
    ensures cantRun == BaseCantRun ==> CantRunMessage(c).None?
  {
    if cantRun.Raises? {
      assert CantRunReason(c) == CantRun(Some("unexpected exception in cantRunTask"), true);
    } else if Truthy(cantRun.value) {
      assert CantRunReason(c).reason.Some? && !CantRunReason(c).raised;
    } else {
      assert CantRunReason(c) == CantRun(None, false);
    }
  }

  /** Corrected, an objection of `cantRun` declines the task, reported as `str(False)`. */
  lemma ObjectionDeclines(c: RunChecks, objection: Value)
    requires c.canRun == CanRunOf(Returns(objection)) && EarlierChecksPass(c) && Truthy(objection)
    ensures CantRunReason(c) == CantRun(Some("configurator declined: " + PyStr(Bool(false))), false)
  {
  }

  // ---------------------------------------------------------------------------
  // Job.stats

  /** `t._localStatus or Status.unknown`: the key tasks are sorted and grouped by. */
  function StatusKey(localStatus: Option<Status>): Status {
    if localStatus.Some? && localStatus.value.Truthy() then localStatus.value else Unknown
  }

  /** The number of tasks whose key is `s`. */
  function CountKey(statuses: seq<Option<Status>>, s: Status): (n: nat)
    ensures n <= |statuses|
  {
    if statuses == [] then 0
    else CountKey(statuses[..|statuses| - 1], s) + (if StatusKey(statuses[|statuses| - 1]) == s then 1 else 0)
  }

  /** The number of tasks whose result reports `modified`. */
  function CountChanged(modified: seq<bool>): (n: nat)
    ensures n <= |modified|
  {
    if modified == [] then 0 else CountChanged(modified[..|modified| - 1]) + (if modified[|modified| - 1] then 1 else 0)
  }

  /** The keys `stats()` always has. */
  const BaseStatKeys: set<string> := {"total", "ok", "error", "unknown", "skipped"}

  /**
   * `stats()`: `total` tasks, one count per status name met (with
   * `ok`/`error`/`unknown`/`skipped` present even when zero), the falsy key
   * counted as `skipped`, and `changed`. `modified[i]` is whether task i's
   * result reports `modified`.
   */
  method ComputeStats(statuses: seq<Option<Status>>, modified: seq<bool>) returns (stats: map<string, nat>)
    requires |modified| == |statuses|
    ensures stats.Keys == BaseStatKeys + {"changed"}
                          + (if CountKey(statuses, Degraded) > 0 then {"degraded"} else {})
                          + (if CountKey(statuses, NotApplied) > 0 then {"notapplied"} else {})
    ensures stats["total"] == |statuses|
    ensures stats["skipped"] == CountKey(statuses, Unknown)
    ensures stats["unknown"] == 0
    ensures stats["ok"] == CountKey(statuses, Ok) && stats["error"] == CountKey(statuses, Error)
    ensures "degraded" in stats ==> stats["degraded"] == CountKey(statuses, Degraded)
    ensures "notapplied" in stats ==> stats["notapplied"] == CountKey(statuses, NotApplied)
    ensures stats["changed"] == CountChanged(modified)
  {
    stats := map["total" := |statuses|, "ok" := 0, "error" := 0, "unknown" := 0, "skipped" := 0];
    // the groups in sorted order: at most one per status
    for g := 0 to |AllStatuses|
      invariant stats.Keys == BaseStatKeys
                              + (if g > 2 && CountKey(statuses, Degraded) > 0 then {"degraded"} else {})
                              + (if g > 4 && CountKey(statuses, NotApplied) > 0 then {"notapplied"} else {})
      invariant stats["total"] == |statuses| && stats["unknown"] == 0
      invariant stats["skipped"] == if g > 0 then CountKey(statuses, Unknown) else 0
      invariant stats["ok"] == if g > 1 then CountKey(statuses, Ok) else 0
      invariant stats["error"] == if g > 3 then CountKey(statuses, Error) else 0
      invariant "degraded" in stats ==> stats["degraded"] == CountKey(statuses, Degraded)
      invariant "notapplied" in stats ==> stats["notapplied"] == CountKey(statuses, NotApplied)
    {
      var k := AllStatuses[g];
      var size := CountStatus(statuses, k);
      if size > 0 {
        if !k.Truthy() {
          stats := stats["skipped" := size];
        } else {
          stats := stats[k.Name() := size];
        }
      }
    }
    var changed := CountModified(modified);
    stats := stats["changed" := changed];
  }

  /** `len([t for t in tasks if t.result and t.result.modified])`. */
  method CountModified(modified: seq<bool>) returns (changed: nat)
    ensures changed == CountChanged(modified)
  {
    changed := 0;
    for i := 0 to |modified|
      invariant changed == CountChanged(modified[..i])
    {
      assert modified[..i + 1][..i] == modified[..i];
      if modified[i] {
        changed := changed + 1;
      }
    }
    assert modified[..|modified|] == modified;
  }

  /** The length of one group: the tasks whose key is `s`. */
  method CountStatus(statuses: seq<Option<Status>>, s: Status) returns (n: nat)
    ensures n == CountKey(statuses, s)
  {
    n := 0;
    for i := 0 to |statuses|
      invariant n == CountKey(statuses[..i], s)
    {
      assert statuses[..i + 1][..i] == statuses[..i];
      if StatusKey(statuses[i]) == s {
        n := n + 1;
      }
    }
    assert statuses[..|statuses|] == statuses;
  }

  /** Every task falls in exactly one group, so the group sizes add up to the total. */
  lemma {:induction false} GroupsPartitionTasks(statuses: seq<Option<Status>>)
    ensures CountKey(statuses, Unknown) + CountKey(statuses, Ok) + CountKey(statuses, Degraded)
          + CountKey(statuses, Error) + CountKey(statuses, NotApplied) == |statuses|
  {
    if statuses != [] {
      GroupsPartitionTasks(statuses[..|statuses| - 1]);
    }
  }

  /** A task that never got a status (or an `unknown` one) is counted as skipped, never as unknown. */
  lemma {:induction false} MissingStatusIsSkipped(statuses: seq<Option<Status>>)
    ensures CountKey(statuses + [None], Unknown) == CountKey(statuses, Unknown) + 1
    ensures CountKey(statuses + [Some(Unknown)], Unknown) == CountKey(statuses, Unknown) + 1
  {
    assert (statuses + [None])[..|statuses|] == statuses;
    assert (statuses + [Some(Unknown)])[..|statuses|] == statuses;
  }
}
