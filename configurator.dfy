/**
 * Configuration specs, configurator results and the task view that
 * configurators see (unfurl/configurator.py).
 */
module Configurator {
  import opened Wrappers
  import opened Values
  import opened Support

  // ---------------------------------------------------------------------------
  // ConfigOp

  /** `ConfigOp.toStandardOp`: the standard lifecycle operation for an old-style one. */
  function ToStandardOp(op: string): (r: Option<string>)
    ensures op == "add" <==> r == Some("create")
    ensures op == "update" <==> r == Some("configure")
    ensures op == "remove" <==> r == Some("delete")
    ensures r.None? <==> op !in {"add", "update", "remove"}
  {
    if op == "add" then Some("create")
    else if op == "update" then Some("configure")
    else if op == "remove" then Some("delete")
    else None
  }

  // ---------------------------------------------------------------------------
  // Environment

  datatype Environment = Environment(vars: Value, isolate: Value, passvars: Value, addinputs: Value)

  /**
   * `Environment(**(environment or {}))`: the four recognised keywords with their
   * defaults (`vars or {}`); other keys are swallowed by `**kw`; a truthy
   * non-dict cannot be unpacked with `**`.
   */
  function MakeEnvironment(environment: Value): (r: Outcome<Environment>)
    ensures !Truthy(environment) ==> r == Returns(Environment(Dict(map[]), Bool(false), Null, Bool(false)))
    ensures Truthy(environment) && !environment.Dict? ==> r == Raises(TypeError)
    ensures environment.Dict? ==> r.Returns?
    ensures environment.Dict? && r.Returns? ==>
      && r.value.addinputs == Get(environment.fields, "addinputs", Bool(false))
      && r.value.vars == (if Truthy(Get(environment.fields, "vars", Null)) then environment.fields["vars"] else Dict(map[]))
      && r.value.passvars == Get(environment.fields, "passvars", Null)
      && r.value.isolate == Get(environment.fields, "isolate", Bool(false))
  {
    if !Truthy(environment) then Returns(Environment(Dict(map[]), Bool(false), Null, Bool(false)))
    else if !environment.Dict? then Raises(TypeError)
    else
      var kw := environment.fields;
      var vars := Get(kw, "vars", Null);
      Returns(Environment(
        if Truthy(vars) then vars else Dict(map[]),
        Get(kw, "isolate", Bool(false)),
        Get(kw, "passvars", Null),
        Get(kw, "addinputs", Bool(false))))
  }

  /**
   * `Environment.getSystemVars`, with the process environment passed in.
   * The comprehension evaluates `k in passvars` once per environment entry, so a
   * `passvars` that does not support `in` raises only when there is an entry.
   */
  function GetSystemVars(env: Environment, environ: map<string, string>): (r: Outcome<map<string, string>>)
    ensures !Truthy(env.isolate) ==> r == Returns(environ)
    ensures Truthy(env.isolate) && !Truthy(env.passvars) ==> r == Returns(map[])
    ensures Truthy(env.isolate) && env.passvars.List? && env.passvars.items != [] ==>
      && r.Returns?
      && r.value.Keys <= environ.Keys
      && (forall k :: k in r.value ==> r.value[k] == environ[k])
      && (forall k :: k in environ ==> (k in r.value <==> Str(k) in env.passvars.items))
  {
    if !Truthy(env.isolate) then Returns(environ)
    else if !Truthy(env.passvars) then Returns(map[])
    else if exists k :: k in environ && Contains(env.passvars, Str(k)).Raises? then Raises(TypeError)
    else Returns(map k | k in environ && Contains(env.passvars, Str(k)).value :: environ[k])
  }

  /** `Environment.__eq__` */
  predicate EnvironmentEq(a: Environment, b: Environment) {
    PyEq(a.vars, b.vars) && PyEq(a.isolate, b.isolate)
    && PyEq(a.passvars, b.passvars) && PyEq(a.addinputs, b.addinputs)
  }

  // ---------------------------------------------------------------------------
  // ConfigurationSpec

  /** The configurator template a spec was resolved from (`installer`). */
  datatype Installer = Installer(name: string, properties: map<string, Value>)

  datatype ConfigurationSpec = ConfigurationSpec(
    name: string,
    operation: string,
    className: Value,
    majorVersion: Value,
    minorVersion: Value,
    workflow: Value,
    timeout: Value,
    environment: Environment,
    inputs: Value,
    inputSchema: Value,
    preConditions: Value,
    postConditions: Value,
    installer: Option<Installer>)

  /** The keys of `ConfigurationSpec.getDefaults()`. */
  const SpecDefaultNames: set<string> := {
    "className", "majorVersion", "minorVersion", "workflow", "timeout", "environment",
    "inputs", "inputSchema", "preConditions", "postConditions", "installer"}

  /**
   * The attributes a ConfigurationSpec has: those its constructor sets and
   * its methods. There is no `outputs` among them.
   */
  const SpecAttributes: set<string> := {
    "name", "operation", "className", "majorVersion", "minorVersion", "workflow", "timeout",
    "environment", "inputs", "inputSchema", "preConditions", "postConditions", "installer",
    "getDefaults", "findInvalidateInputs", "findInvalidPreconditions", "create", "shouldRun", "copy"}

  /**
   * `ConfigurationSpec(name, operation, **kw)` with `installer` given apart:
   * the constructor asserts a name and a class name, then builds the environment.
   */
  function MakeConfigSpec(name: string, operation: string, kw: map<string, Value>, installer: Option<Installer>)
    : (r: Outcome<ConfigurationSpec>)
    ensures r.Returns? ==> r.value.name == name && r.value.operation == operation && r.value.installer == installer
    ensures r.Returns? ==> Truthy(r.value.className) && r.value.className == Get(kw, "className", Null)
    ensures (name == "" || !Truthy(Get(kw, "className", Null))) ==> r == Raises(AssertionError)
    ensures r.Returns? ==> r.value.inputs == (if Truthy(Get(kw, "inputs", Null)) then kw["inputs"] else Dict(map[]))
  {
    var className := Get(kw, "className", Null);
    if name == "" || !Truthy(className) then Raises(AssertionError)
    else
      match MakeEnvironment(Get(kw, "environment", Null))
      case Raises(e) => Raises(e)
      case Returns(env) =>
        var inputs := Get(kw, "inputs", Null);
        Returns(ConfigurationSpec(
          name, operation, className,
          Get(kw, "majorVersion", Int(0)),
          Get(kw, "minorVersion", Str("")),
          Get(kw, "workflow", Str(DefaultWorkflow)),
          Get(kw, "timeout", Null),
          env,
          if Truthy(inputs) then inputs else Dict(map[]),
          Get(kw, "inputSchema", Null),
          Get(kw, "preConditions", Null),
          Get(kw, "postConditions", Null),
          installer))
  }

  /** Every compared field of a spec is equal to itself. */
  lemma SpecFieldsReflexive(a: ConfigurationSpec)
    ensures PyEq(a.className, a.className) && PyEq(a.majorVersion, a.majorVersion)
    ensures PyEq(a.minorVersion, a.minorVersion) && PyEq(a.workflow, a.workflow) && PyEq(a.timeout, a.timeout)
    ensures EnvironmentEq(a.environment, a.environment)
    ensures PyEq(a.inputs, a.inputs) && PyEq(a.inputSchema, a.inputSchema)
    ensures PyEq(a.preConditions, a.preConditions) && PyEq(a.postConditions, a.postConditions)
  {
    PyEqReflexive(a.className);
    PyEqReflexive(a.majorVersion);
    PyEqReflexive(a.minorVersion);
    PyEqReflexive(a.workflow);
    PyEqReflexive(a.timeout);
    PyEqReflexive(a.environment.vars);
    PyEqReflexive(a.environment.isolate);
    PyEqReflexive(a.environment.passvars);
    PyEqReflexive(a.environment.addinputs);
    PyEqReflexive(a.inputs);
    PyEqReflexive(a.inputSchema);
    PyEqReflexive(a.preConditions);
    PyEqReflexive(a.postConditions);
  }

  /**
   * `ConfigurationSpec.__eq__` as written: the inputSchema clause compares the
   * spec's schema with itself, so it never tells two specs apart. Specs that
   * differ only in their schema (or their installer) compare equal.
   */
  predicate SpecEqAsWritten(a: ConfigurationSpec, b: ConfigurationSpec): (r: bool)
    ensures r ==> a.name == b.name && a.operation == b.operation
    ensures a == b.(inputSchema := a.inputSchema, installer := a.installer) ==> r
  {
    SpecFieldsReflexive(a);
    && a.name == b.name
    && a.operation == b.operation
    && PyEq(a.className, b.className)
    && PyEq(a.majorVersion, b.majorVersion)
    && PyEq(a.minorVersion, b.minorVersion)
    && PyEq(a.workflow, b.workflow)
    && PyEq(a.timeout, b.timeout)
    && EnvironmentEq(a.environment, b.environment)
    && PyEq(a.inputs, b.inputs)
    && PyEq(a.inputSchema, a.inputSchema)
    && PyEq(a.preConditions, b.preConditions)
    && PyEq(a.postConditions, b.postConditions)
  }

  /**
   * `ConfigurationSpec.__eq__` comparing `inputSchema` with the other spec's,
   * as evidently intended: the as-written comparison plus the schemas. It is
   * reflexive and does not compare the installer.
   */
  predicate SpecEq(a: ConfigurationSpec, b: ConfigurationSpec): (r: bool)
    ensures r <==> SpecEqAsWritten(a, b) && PyEq(a.inputSchema, b.inputSchema)
    ensures a == b.(installer := a.installer) ==> r
  {
    SpecFieldsReflexive(a);
    && a.name == b.name
    && a.operation == b.operation
    && PyEq(a.className, b.className)
    && PyEq(a.majorVersion, b.majorVersion)
    && PyEq(a.minorVersion, b.minorVersion)
    && PyEq(a.workflow, b.workflow)
    && PyEq(a.timeout, b.timeout)
    && EnvironmentEq(a.environment, b.environment)
    && PyEq(a.inputs, b.inputs)
    && PyEq(a.inputSchema, b.inputSchema)
    && PyEq(a.preConditions, b.preConditions)
    && PyEq(a.postConditions, b.postConditions)
  }

  /** As written, two specs that differ only in their input schema compare equal; corrected, they do not. */
  lemma SpecEqIgnoresInputSchema(a: ConfigurationSpec, schema: Value)
    requires !PyEq(a.inputSchema, schema)
    ensures SpecEqAsWritten(a, a.(inputSchema := schema))
    ensures !SpecEq(a, a.(inputSchema := schema))
  {
  }

  /** The corrected equality is symmetric. */
  lemma SpecEqSymmetric(a: ConfigurationSpec, b: ConfigurationSpec)
    requires SpecEq(a, b)
    ensures SpecEq(b, a)
  {
    PyEqSymmetric(a.className, b.className);
    PyEqSymmetric(a.majorVersion, b.majorVersion);
    PyEqSymmetric(a.minorVersion, b.minorVersion);
    PyEqSymmetric(a.workflow, b.workflow);
    PyEqSymmetric(a.timeout, b.timeout);
    PyEqSymmetric(a.environment.vars, b.environment.vars);
    PyEqSymmetric(a.environment.isolate, b.environment.isolate);
    PyEqSymmetric(a.environment.passvars, b.environment.passvars);
    PyEqSymmetric(a.environment.addinputs, b.environment.addinputs);
    PyEqSymmetric(a.inputs, b.inputs);
    PyEqSymmetric(a.inputSchema, b.inputSchema);
    PyEqSymmetric(a.preConditions, b.preConditions);
    PyEqSymmetric(a.postConditions, b.postConditions);
  }

  // ---------------------------------------------------------------------------
  // ConfiguratorResult

  /**
   * A configurator's report. `modified` is a bool or None, `readyState` the
   * status it reports, `success` a bool or None (its default), and `exception`
   * the error captured by `done`, if any.
   */
  datatype ConfiguratorResult = ConfiguratorResult(
    applied: bool,
    modified: Option<bool>,
    readyState: Option<Status>,
    configChanged: Value,
    result: Value,
    success: Option<bool>,
    outputs: Value,
    exception: Option<string>)

  /** `ConfiguratorResult(applied, modified, status, ...)` keeping every argument, as evidently intended. */
  function NewResult(applied: bool, modified: Option<bool>, status: Option<Status> := None,
                     configChanged: Value := Null, result: Value := Null, success: Option<bool> := None,
                     outputs: Value := Null, exception: Option<string> := None): (r: ConfiguratorResult)
    ensures r.applied == applied && r.modified == modified && r.readyState == status
    ensures r.configChanged == configChanged && r.result == result && r.success == success
    ensures r.outputs == outputs && r.exception == exception
  {
    ConfiguratorResult(applied, modified, status, configChanged, result, success, outputs, exception)
  }

  /** `ConfiguratorResult(applied, modified, status, ...)` as written: `self.exception = None` discards the argument. */
  function NewResultAsWritten(applied: bool, modified: Option<bool>, status: Option<Status> := None,
                              configChanged: Value := Null, result: Value := Null, success: Option<bool> := None,
                              outputs: Value := Null, exception: Option<string> := None): (r: ConfiguratorResult)
    ensures r.exception == None
    ensures r == NewResult(applied, modified, status, configChanged, result, success, outputs, None)
  {
    ConfiguratorResult(applied, modified, status, configChanged, result, success, outputs, None)
  }

  /** A captured exception survives the corrected constructor and is lost by the one as written. */
  lemma CapturedExceptionLost(message: string)
    ensures NewResult(false, None, exception := Some(message)).exception == Some(message)
    ensures NewResultAsWritten(false, None, exception := Some(message)).exception == None
  {
  }

  function Join(words: seq<string>, sep: string): string {
    if words == [] then "" else if |words| == 1 then words[0] else words[0] + sep + Join(words[1..], sep)
  }

  /** The words `__str__` keeps from `[success and "success", modified and "modified", readyState and readyState.name]`. */
  function ResultFlags(r: ConfiguratorResult): (flags: seq<string>)
    ensures |flags| <= 3
    ensures flags == [] <==>
      r.success != Some(true) && r.modified != Some(true) && !(r.readyState.Some? && r.readyState.value.Truthy())
    ensures r.success == Some(true) ==> flags[0] == "success"
  {
    (if r.success == Some(true) then ["success"] else [])
    + (if r.modified == Some(true) then ["modified"] else [])
    + (if r.readyState.Some? && r.readyState.value.Truthy() then [r.readyState.value.Name()] else [])
  }

  function Min(a: int, b: int): int { if a < b then a else b }

  /**
   * `ConfiguratorResult.__str__`; `resultText` stands for `str(self.result)`,
   * which is not modelled for arbitrary Python objects.
   */
  function Describe(r: ConfiguratorResult, resultText: string): (s: string)
    ensures |s| >= 13 && s[..9] == "changes: "
    ensures ResultFlags(r) == [] ==> s[9..13] == "none"
    ensures r.result == Null ==> s[|s| - 4..] == "\n   "
    ensures r.result != Null ==>
      var cut := Min(240, |resultText|);
      |s| >= cut + 3 && s[|s| - 3..] == "..." && s[|s| - 3 - cut..|s| - 3] == resultText[..cut]
  {
    var tail := if r.result == Null then "" else resultText[..Min(240, |resultText|)] + "...";
    var flags := ResultFlags(r);
    "changes: " + (if flags == [] then "none" else Join(flags, " ")) + "\n   " + tail
  }

  // ---------------------------------------------------------------------------
  // TaskView.done

  /** The `modified` argument of `done`: a bool, None, or a Status standing for "modified, with this status". */
  datatype ModifiedArg = Flag(flag: Option<bool>) | StatusGiven(status: Status)

  /**
   * `TaskView.done`: the result a configurator yields. `required` is the
   * task's `required` attribute; `captureException` is recorded on the result
   * (the registration of the error on the task is `Job.ConfigTask.Done`).
   */
  function Done(required: bool, success: bool, modified: ModifiedArg, status: Option<Status> := None,
                result: Value := Null, outputs: Value := Null, captureException: Option<string> := None)
    : (r: ConfiguratorResult)
    ensures r.success == Some(success) && r.result == result && r.outputs == outputs
    ensures r.exception == captureException
    ensures modified.StatusGiven? ==> r.modified == Some(true) && r.applied
    ensures modified.StatusGiven? && success ==> r.readyState == Some(modified.status)
    ensures success ==> r.applied && (modified.Flag? ==> r.modified == modified.flag && r.readyState == status)
    ensures !success && (modified.StatusGiven? || modified.flag == Some(true)) ==>
      && r.applied && r.modified == Some(true)
      && r.readyState.Some?
      && var given := if modified.StatusGiven? then Some(modified.status) else status;
         r.readyState == if given.Some? && given.value.Truthy() then given
                         else Some(if required then Error else Degraded)
    ensures !success && modified.Flag? && modified.flag != Some(true) ==>
      !r.applied && r.modified == Some(false) && r.readyState == None
  {
    var (status', modified') :=
      if modified.StatusGiven? then (Some(modified.status), Some(true)) else (status, modified.flag);
    if success then
      NewResult(true, modified', status', result := result, success := Some(true), outputs := outputs,
                exception := captureException)
    else if modified' == Some(true) then
      var s := if status'.Some? && status'.value.Truthy() then status' else Some(if required then Error else Degraded);
      NewResult(true, Some(true), s, result := result, success := Some(false), outputs := outputs,
                exception := captureException)
    else
      NewResult(false, Some(false), None, result := result, success := Some(false), outputs := outputs,
                exception := captureException)
  }

  /** A status passed as `modified` means the same as passing it as `status` with `modified=True`. */
  lemma DoneStatusAsModified(required: bool, success: bool, s: Status, result: Value, outputs: Value)
    ensures Done(required, success, StatusGiven(s), None, result, outputs)
         == Done(required, success, Flag(Some(true)), Some(s), result, outputs)
  {
  }

  /** `done` reports the target as applied exactly when it succeeded or modified something. */
  lemma DoneAppliedIff(required: bool, success: bool, modified: ModifiedArg, status: Option<Status>)
    ensures Done(required, success, modified, status).applied
        <==> success || modified.StatusGiven? || modified.flag == Some(true)
  {
  }

  // ---------------------------------------------------------------------------
  // TaskView dependencies and messages

  /** A runtime dependency of a configuration (`Dependency`); evaluating it is not modelled. */
  datatype Dependency = Dependency(
    expr: string, expected: Value, schema: Value, name: Option<string>, required: bool, wantList: bool)

  /** The key `addDependency` stores a dependency under: `name or expr`. */
  function DependencyKey(expr: string, name: Option<string>): (k: string)
    ensures name.Some? && name.value != "" ==> k == name.value
    ensures name.None? || name.value == "" ==> k == expr
  {
    if name.Some? && name.value != "" then name.value else expr
  }

  class TaskView {
    var dependencies: map<string, Dependency>
    /**
     * `dependenciesChanged`: the constructor sets a differently named attribute
     * (`_dependenciesChanged`), so this one is absent (None) until a dependency
     * is added or removed.
     */
    var dependenciesChanged: Option<bool>
    var messages: seq<Value>

    constructor (dependencies: map<string, Dependency>)
      ensures this.dependencies == dependencies
      ensures dependenciesChanged == None && messages == []
    {
      this.dependencies := dependencies;
      dependenciesChanged := None;
      messages := [];
    }

    /** `TaskView.addMessage` */
    method AddMessage(message: Value)
      modifies this
      ensures messages == old(messages) + [message]
      ensures dependencies == old(dependencies) && dependenciesChanged == old(dependenciesChanged)
    {
      messages := messages + [message];
    }

    /** `TaskView.addDependency`; the Dependency constructor asserts that not both an expected value and a schema are given. */
    method AddDependency(expr: string, expected: Value := Null, schema: Value := Null,
                         name: Option<string> := None, required: bool := false, wantList: bool := false)
      returns (dependency: Dependency)
      requires !(Truthy(expected) && Truthy(schema))
      modifies this
      ensures dependency == Dependency(expr, expected, schema, name, required, wantList)
      ensures dependencies == old(dependencies)[DependencyKey(expr, name) := dependency]
      ensures dependenciesChanged == Some(true)
      ensures messages == old(messages)
    {
      dependency := Dependency(expr, expected, schema, name, required, wantList);
      dependencies := dependencies[DependencyKey(expr, name) := dependency];
      dependenciesChanged := Some(true);
    }

    /** `TaskView.removeDependency`: a Dependency object is always truthy, so the flag is set iff an entry was removed. */
    method RemoveDependency(name: string) returns (removed: Option<Dependency>)
      modifies this
      ensures removed == if name in old(dependencies) then Some(old(dependencies)[name]) else None
      ensures dependencies == old(dependencies) - {name}
      ensures dependenciesChanged == if name in old(dependencies) then Some(true) else old(dependenciesChanged)
      ensures messages == old(messages)
    {
      if name in dependencies {
        removed := Some(dependencies[name]);
        dependencies := dependencies - {name};
        dependenciesChanged := Some(true);
      } else {
        removed := None;
      }
    }
  }
}
